/**
  The two-pass assembler, from parsed lines on.  Pass 1 gives every label its word
  address and every constant its value; pass 2 turns each item into a word.
 */
module Assembler {
  import opened Isa

  /**
    Operands as written: a register token (also usable as a name), a number, a name,
    or a name with an immediate marker.
   */
  datatype Operand = Reg(n: nat, text: string) | Num(v: int) | Sym(name: string) | Hash(name: string)

  /** A branch or jump whose suffix is not an implemented condition carries Never. */
  datatype Mnemonic =
    | EQU | WORD | LDI | NOP | LOAD | STOR | B(cond: Cond) | J(cond: Cond) | ALU(op: Op) | Unknown

  datatype Stmt = Nothing | Stmt(mnemonic: Mnemonic, operands: seq<Operand>)

  datatype Line = Line(labels: seq<string>, stmt: Stmt)

  /** One word to be emitted. */
  datatype Item = Item(mnemonic: Mnemonic, operands: seq<Operand>, index: nat)

  /** The state of pass 1; the next word index is the number of items. */
  datatype Pass = Pass(symbols: map<string, int>, items: seq<Item>, pending: seq<string>)

  datatype Assembled = Assembled(symbols: map<string, int>, code: seq<Word>, items: seq<Item>)

  // ----- operands

  function Lookup(name: string, symbols: map<string, int>): Result<int> {
    if name in symbols then Ok(symbols[name]) else Err("neither a number nor a known symbol")
  }

  function ParseValue(o: Operand, symbols: map<string, int>): Result<int> {
    match o
    case Num(v) => Ok(v)
    case Sym(name) => Lookup(name, symbols)
    case Hash(name) => Lookup(name, symbols)
    case Reg(_, text) => Lookup(text, symbols)
  }

  function ParseRegister(o: Operand): (r: Result<int>)
    ensures r.Ok? ==> 0 <= r.value <= 15
  {
    if !o.Reg? then Err("expected a register")
    else if o.n > 15 then Err("register out of range")
    else Ok(o.n)
  }

  // ----- pass 1

  predicate IsEqu(line: Line) {
    line.stmt.Stmt? && line.stmt.mnemonic.EQU?
  }

  /** The line puts a word into the image. */
  predicate Emits(line: Line) {
    line.stmt.Stmt? && !line.stmt.mnemonic.EQU?
  }

  function AddLabels(p: Pass, labels: seq<string>): (r: Result<Pass>)
    ensures r.Ok? ==> r.value == p.(pending := p.pending + labels)
    ensures r.Ok? ==> forall l :: l in labels ==> l !in p.symbols
    decreases |labels|
  {
    if labels == [] then Ok(p)
    else if labels[0] in p.symbols || labels[0] in p.pending then Err("duplicate label")
    else AddLabels(p.(pending := p.pending + [labels[0]]), labels[1..])
  }

  /** The pending labels get the address of the next word. */
  function Flush(p: Pass, base: nat): Pass {
    Pass(Settled(p.symbols, p.pending, base + |p.items|), p.items, [])
  }

  function Settled(symbols: map<string, int>, pending: seq<string>, address: int): map<string, int> {
    symbols + (map n | n in pending :: address)
  }

  /** The name a constant definition gives; numbers and marked names are not usable. */
  function NameOf(o: Operand): Result<string> {
    match o
    case Sym(name) => Ok(name)
    case Reg(_, text) => Ok(text)
    case _ => Err("not a usable constant name")
  }

  function Define(p: Pass, operands: seq<Operand>): Result<Pass> {
    if |operands| != 2 then Err(".equ takes a name and a value")
    else
      var name :- NameOf(operands[0]);
      if name in p.symbols then Err("already defined")
      else
        var v :- ParseValue(operands[1], p.symbols);
        Ok(p.(symbols := p.symbols[name := v]))
  }

  /** Pseudo-instructions are replaced here: LDI by MOV, NOP by a branch to the next word. */
  function Expand(stmt: Stmt, index: nat): Result<Item>
    requires stmt.Stmt?
  {
    var ops := stmt.operands;
    match stmt.mnemonic
    case WORD => if |ops| != 1 then Err(".word takes exactly one value") else Ok(Item(WORD, ops, index))
    case LDI =>
      if |ops| != 2 then Err("LDI takes a register and an immediate")
      else if ops[1].Reg? then Err("LDI takes an immediate")
      else Ok(Item(ALU(MOV), ops, index))
    case NOP => if ops != [] then Err("NOP takes no operands") else Ok(Item(B(UC), [Num(1)], index))
    case m => Ok(Item(m, ops, index))
  }

  function ScanLine(p: Pass, line: Line, base: nat): Result<Pass> {
    if line == Line([], Nothing) then Ok(p)
    else
      var p1 :- AddLabels(p, line.labels);
      if line.stmt.Nothing? then Ok(Flush(p1, base))
      else if line.stmt.mnemonic.EQU? then Define(p1, line.stmt.operands)
      else
        var p2 := Flush(p1, base);
        var item :- Expand(line.stmt, |p2.items|);
        Ok(p2.(items := p2.items + [item]))
  }

  /** Pass 1 over the first `n` lines. */
  function ScanTo(lines: seq<Line>, base: nat, n: nat): Result<Pass>
    requires n <= |lines|
  {
    if n == 0 then Ok(Pass(map[], [], []))
    else
      match ScanTo(lines, base, n - 1)
      case Ok(p) => ScanLine(p, lines[n - 1], base)
      case Err(e) => Err(e)
  }

  /** Pass 1 over all lines; a label at the end names the word after the last. */
  function Scan(lines: seq<Line>, base: nat): Result<Pass> {
    match ScanTo(lines, base, |lines|)
    case Ok(p) => Ok(Flush(p, base))
    case Err(e) => Err(e)
  }

  lemma {:induction false} ErrorsStay(lines: seq<Line>, base: nat, n: nat, n': nat, e: string)
    requires n <= n' <= |lines| && ScanTo(lines, base, n) == Err(e)
    ensures ScanTo(lines, base, n') == Err(e)
    decreases n' - n
  {
    if n < n' {
      ErrorStays(lines, base, n, e);
      ErrorsStay(lines, base, n + 1, n', e);
    }
  }

  lemma {:induction false} ErrorStays(lines: seq<Line>, base: nat, n: nat, e: string)
    requires n < |lines| && ScanTo(lines, base, n) == Err(e)
    ensures ScanTo(lines, base, n + 1) == Err(e)
  {
  }

  /** The labels in front of a line, one at a time. */
  method TakeLabels(symbols: map<string, int>, pending: seq<string>, labels: seq<string>)
    returns (r: Result<seq<string>>)
    ensures forall items :: var a := AddLabels(Pass(symbols, items, pending), labels);
              (r.Ok? <==> a.Ok?) && (r.Err? ==> a == Err(r.error)) && (r.Ok? ==> a.value.pending == r.value)
  {
    var taken, i := pending, 0;
    while i < |labels|
      invariant 0 <= i <= |labels|
      invariant forall items :: AddLabels(Pass(symbols, items, pending), labels)
                             == AddLabels(Pass(symbols, items, taken), labels[i..])
    {
      assert labels[i..][1..] == labels[i + 1..];
      if labels[i] in symbols || labels[i] in taken {
        return Err("duplicate label");
      }
      taken := taken + [labels[i]];
      i := i + 1;
    }
    return Ok(taken);
  }

  lemma SettleOne(symbols: map<string, int>, names: seq<string>, name: string, address: int)
    ensures Settled(symbols, names + [name], address) == Settled(symbols, names, address)[name := address]
  {
  }

  method ResolvePending(symbols: map<string, int>, pending: seq<string>, address: int)
    returns (resolved: map<string, int>)
    ensures resolved == Settled(symbols, pending, address)
  {
    resolved := symbols;
    var i := 0;
    while i < |pending|
      invariant 0 <= i <= |pending|
      invariant resolved == Settled(symbols, pending[..i], address)
    {
      SettleOne(symbols, pending[..i], pending[i], address);
      assert pending[..i + 1] == pending[..i] + [pending[i]];
      resolved := resolved[pending[i] := address];
      i := i + 1;
    }
    assert pending[..i] == pending;
  }

  /** One line of first_pass. */
  method TakeLine(p: Pass, line: Line, base: nat) returns (r: Result<Pass>)
    ensures r == ScanLine(p, line, base)
  {
    if line.labels == [] && line.stmt.Nothing? {
      return Ok(p);
    }
    var more := TakeLabels(p.symbols, p.pending, line.labels);
    ghost var a := AddLabels(Pass(p.symbols, p.items, p.pending), line.labels);
    if more.Err? {
      return Err(more.error);
    }
    var pending := more.value;
    if IsEqu(line) {
      r := Define(p.(pending := pending), line.stmt.operands);
      return;
    }
    var symbols := ResolvePending(p.symbols, pending, base + |p.items|);
    if line.stmt.Nothing? {
      return Ok(Pass(symbols, p.items, []));
    }
    var item := Expand(line.stmt, |p.items|);
    if item.Err? {
      return Err(item.error);
    }
    return Ok(Pass(symbols, p.items + [item.value], []));
  }

  /** first_pass: symbols, items and pending labels grow line by line. */
  method FirstPass(lines: seq<Line>, base: nat) returns (r: Result<Pass>)
    ensures r == Scan(lines, base)
  {
    var all := TakeLines(lines, base);
    if all.Err? {
      return all;
    }
    var p := all.value;
    var symbols := ResolvePending(p.symbols, p.pending, base + |p.items|);
    return Ok(Pass(symbols, p.items, []));
  }

  method TakeLines(lines: seq<Line>, base: nat) returns (r: Result<Pass>)
    ensures r == ScanTo(lines, base, |lines|)
  {
    r := Ok(Pass(map[], [], []));
    var i := 0;
    while i < |lines|
      invariant 0 <= i <= |lines| && r.Ok? && r == ScanTo(lines, base, i)
    {
      ScanNext(lines, base, i, r.value);
      r := TakeLine(r.value, lines[i], base);
      i := i + 1;
      if r.Err? {
        ErrorsStay(lines, base, i, |lines|, r.error);
        return;
      }
    }
  }

  lemma {:induction false} ScanNext(lines: seq<Line>, base: nat, i: nat, p: Pass)
    requires i < |lines| && ScanTo(lines, base, i) == Ok(p)
    ensures ScanTo(lines, base, i + 1) == ScanLine(p, lines[i], base)
  {
  }

  // ----- pass 2

  /** A branch target: the distance to a known name, else a displacement as given. */
  function Displacement(o: Operand, symbols: map<string, int>, here: int): Result<int> {
    if o.Sym? && o.name in symbols then Ok(symbols[o.name] - here)
    else if o.Reg? && o.text in symbols then Ok(symbols[o.text] - here)
    else ParseValue(o, symbols)
  }

  /** The instruction an item stands for, its operands resolved. */
  function Resolve(it: Item, symbols: map<string, int>, base: nat): Result<Instr> {
    var ops := it.operands;
    match it.mnemonic
    case LOAD =>
      if |ops| != 2 then Err("takes two registers")
      else
        var a :- ParseRegister(ops[0]);
        var b :- ParseRegister(ops[1]);
        Ok(Load(a, b))
    case STOR =>
      if |ops| != 2 then Err("takes two registers")
      else
        var a :- ParseRegister(ops[0]);
        var b :- ParseRegister(ops[1]);
        Ok(Stor(a, b))
    case B(c) =>
      if |ops| != 1 then Err("takes one branch target")
      else
        var disp :- Displacement(ops[0], symbols, base + it.index);
        Ok(Branch(c, disp))
    case J(c) =>
      if |ops| != 1 then Err("takes one register holding the target address")
      else
        var rt :- ParseRegister(ops[0]);
        Ok(Jump(c, rt))
    case ALU(op) =>
      if |ops| != 2 then Err("takes a destination and a source")
      else
        var rd :- ParseRegister(ops[0]);
        if ops[1].Reg? then
          var rs :- ParseRegister(ops[1]);
          Ok(RType(op, rd, rs))
        else
          var imm :- ParseValue(ops[1], symbols);
          if imm < 0 then Err("negative immediate") else Ok(IType(op, rd, imm))
    case _ => Err("unknown instruction")
  }

  function EncodeItem(it: Item, symbols: map<string, int>, base: nat): Result<Word> {
    if it.mnemonic.WORD? then
      if |it.operands| != 1 then Err(".word takes exactly one value")
      else
        var v :- ParseValue(it.operands[0], symbols);
        if 0 <= v < W32 then Ok(v) else Err("does not fit in 32 bits")
    else
      var d :- Resolve(it, symbols, base);
      Encode(d)
  }

  function EncodeTo(p: Pass, base: nat, n: nat): (r: Result<seq<Word>>)
    requires n <= |p.items|
    ensures r.Ok? ==> |r.value| == n
    ensures r.Ok? ==> forall k :: 0 <= k < n ==> EncodeItem(p.items[k], p.symbols, base) == Ok(r.value[k])
  {
    if n == 0 then Ok([])
    else
      var code :- EncodeTo(p, base, n - 1);
      var w :- EncodeItem(p.items[n - 1], p.symbols, base);
      Ok(code + [w])
  }

  /** Both passes; a word that would be HALT is refused. */
  function Assemble(lines: seq<Line>, base: nat): Result<Assembled> {
    var p :- Scan(lines, base);
    var code :- EncodeTo(p, base, |p.items|);
    if 0 in code then Err("encodes to the HALT word") else Ok(Assembled(p.symbols, code, p.items))
  }

  /** No instruction becomes HALT or undefined: each word decodes to what was written. */
  lemma WordsDecode(lines: seq<Line>, base: nat, k: nat)
    requires Assemble(lines, base).Ok?
    requires var a := Assemble(lines, base).value; k < |a.code| && !a.items[k].mnemonic.WORD?
    ensures var a := Assemble(lines, base).value;
            && |a.items| == |a.code|
            && Resolve(a.items[k], a.symbols, base) == Ok(Decode(a.code[k]))
            && !Decode(a.code[k]).Halt? && !Decode(a.code[k]).Undefined?
  {
    var a := Assemble(lines, base).value;
    assert EncodeItem(a.items[k], a.symbols, base) == Ok(a.code[k]);
    RoundTrip(Resolve(a.items[k], a.symbols, base).value);
  }

  lemma {:induction false} ScanPrevious(lines: seq<Line>, base: nat, n: nat)
    requires 0 < n <= |lines| && ScanTo(lines, base, n).Ok?
    ensures var p := ScanTo(lines, base, n - 1);
            p.Ok? && ScanTo(lines, base, n) == ScanLine(p.value, lines[n - 1], base)
  {
  }

  /** Line `k` takes pass 1 from `p`, where it is after the lines before, to `p'`. */
  predicate LineTakes(lines: seq<Line>, base: nat, k: nat, p: Pass, p': Pass)
    requires k < |lines|
  {
    ScanTo(lines, base, k) == Ok(p) && ScanLine(p, lines[k], base) == Ok(p')
  }

  /** What holds at the start and is kept by every line holds of what pass 1 makes of the first `n`. */
  lemma {:induction false} ScanInduction(lines: seq<Line>, base: nat, n: nat, holds: (nat, Pass) -> bool)
    requires n <= |lines| && ScanTo(lines, base, n).Ok? && holds(0, Pass(map[], [], []))
    requires forall k, p, p' :: 0 <= k < n && holds(k, p) && LineTakes(lines, base, k, p, p') ==> holds(k + 1, p')
    ensures holds(n, ScanTo(lines, base, n).value)
  {
    if n > 0 {
      ScanPrevious(lines, base, n);
      ScanInduction(lines, base, n - 1, holds);
      assert LineTakes(lines, base, n - 1, ScanTo(lines, base, n - 1).value, ScanTo(lines, base, n).value);
    }
  }

  // ----- what pass 1 computes

  /** The words emitted by the first `n` lines. */
  function Words(lines: seq<Line>, n: nat): nat
    requires n <= |lines|
  {
    if n == 0 then 0 else Words(lines, n - 1) + if Emits(lines[n - 1]) then 1 else 0
  }

  /** The name a constant line gives, when it gives one. */
  predicate Names(line: Line, name: string) {
    IsEqu(line) && |line.stmt.operands| == 2 && NameOf(line.stmt.operands[0]) == Ok(name)
  }

  /** `name` labels one of the first `n` lines. */
  predicate Labelled(lines: seq<Line>, n: nat, name: string)
    requires n <= |lines|
  {
    exists j :: 0 <= j < n && name in lines[j].labels
  }

  predicate Constant(lines: seq<Line>, n: nat, name: string)
    requires n <= |lines|
  {
    exists j :: 0 <= j < n && Names(lines[j], name)
  }

  /** If line `j` gives a label's name to a constant, its value in `symbols` is the label's address. */
  ghost predicate HarmlessAt(lines: seq<Line>, base: nat, j: nat, symbols: map<string, int>)
    requires j < |lines|
  {
    forall i, name :: 0 <= i <= j && name in lines[i].labels && Names(lines[j], name) ==>
      ParseValue(lines[j].stmt.operands[1], symbols) == Ok(base + Words(lines, i))
  }

  /**
    A constant that takes the name of a label on its own or an earlier line has, when
    pass 1 comes to it, the value the label's address is going to be.
   */
  ghost predicate Harmless(lines: seq<Line>, base: nat) {
    forall j :: 0 <= j < |lines| && ScanTo(lines, base, j).Ok? ==>
      HarmlessAt(lines, base, j, ScanTo(lines, base, j).value.symbols)
  }

  /** Each label is the address of the first word emitted at or after it. */
  ghost predicate LabelsRight(lines: seq<Line>, base: nat, env: map<string, int>) {
    forall j, name :: 0 <= j < |lines| && name in lines[j].labels ==>
      name in env && env[name] == base + Words(lines, j)
  }

  /**
    What a symbol table ought to be: the labels are right, a constant is the value of
    its expression, and nothing else is in.
   */
  ghost predicate Environment(lines: seq<Line>, base: nat, env: map<string, int>) {
    && LabelsRight(lines, base, env)
    && (forall j, name :: 0 <= j < |lines| && Names(lines[j], name) ==>
          name in env && ParseValue(lines[j].stmt.operands[1], env) == Ok(env[name]))
    && (forall name :: name in env ==>
          Labelled(lines, |lines|, name) || Constant(lines, |lines|, name))
  }

  /**
    The labels of the first `nl` lines when the statements of the first `nn` have been
    taken: in the table at the right address, or still waiting for a word.
   */
  ghost predicate LabelsSound(lines: seq<Line>, base: nat, nl: nat, nn: nat, p: Pass)
    requires nl <= |lines| && nn <= |lines|
  {
    && |p.items| == Words(lines, nn)
    && (forall name :: name in p.pending ==> Labelled(lines, nl, name))
    && (forall j, name :: 0 <= j < nl && name in lines[j].labels ==>
          if name in p.pending then Words(lines, j) == |p.items|
          else name in p.symbols && p.symbols[name] == base + Words(lines, j))
  }

  /** The table at that point: right, apart from the labels still waiting. */
  ghost predicate Sound(lines: seq<Line>, base: nat, nl: nat, nn: nat, p: Pass)
    requires nl <= |lines| && nn <= |lines|
  {
    && LabelsSound(lines, base, nl, nn, p)
    && (forall name :: name in p.pending && name in p.symbols ==> p.symbols[name] == base + |p.items|)
    && (forall j, name :: 0 <= j < nn && Names(lines[j], name) ==>
          name in p.symbols && ParseValue(lines[j].stmt.operands[1], p.symbols) == Ok(p.symbols[name]))
    && (forall name :: name in p.symbols ==> Labelled(lines, nl, name) || Constant(lines, nn, name))
  }

  // ----- the labels, in every accepted source

  lemma {:induction false} TakenLabels(lines: seq<Line>, base: nat, n: nat, p: Pass)
    requires n < |lines| && LabelsSound(lines, base, n, n, p) && AddLabels(p, lines[n].labels).Ok?
    ensures LabelsSound(lines, base, n + 1, n, AddLabels(p, lines[n].labels).value)
  {
    LabelsGrow(lines, n);
  }

  /** A label is never given another value: the name is taken once it has its address. */
  lemma LineLabels(lines: seq<Line>, base: nat, n: nat, p: Pass, p': Pass)
    requires n < |lines| && LabelsSound(lines, base, n, n, p) && ScanLine(p, lines[n], base) == Ok(p')
    ensures LabelsSound(lines, base, n + 1, n + 1, p')
  {
    TakenLabels(lines, base, n, p);
  }

  ghost predicate KeepsLabels(lines: seq<Line>, base: nat, n: nat)
    requires n <= |lines|
  {
    forall k, p, p' :: 0 <= k < n && LabelsSound(lines, base, k, k, p) && LineTakes(lines, base, k, p, p') ==>
      LabelsSound(lines, base, k + 1, k + 1, p')
  }

  lemma LinesLabels(lines: seq<Line>, base: nat, n: nat)
    requires n <= |lines|
    ensures KeepsLabels(lines, base, n)
  {
    forall k, p, p' | 0 <= k < n && LabelsSound(lines, base, k, k, p) && LineTakes(lines, base, k, p, p')
      ensures LabelsSound(lines, base, k + 1, k + 1, p')
    {
      LineLabels(lines, base, k, p, p');
    }
  }

  lemma {:induction false} ScanLabels(lines: seq<Line>, base: nat, n: nat)
    requires n <= |lines| && ScanTo(lines, base, n).Ok? && KeepsLabels(lines, base, n)
    ensures LabelsSound(lines, base, n, n, ScanTo(lines, base, n).value)
  {
    ScanInduction(lines, base, n, (k: nat, p: Pass) => k <= |lines| && LabelsSound(lines, base, k, k, p));
  }

  /** In every accepted source each label is the address of the first word at or after it. */
  lemma {:induction false} LabelsAreRight(lines: seq<Line>, base: nat)
    requires Scan(lines, base).Ok?
    ensures LabelsRight(lines, base, Scan(lines, base).value.symbols)
  {
    LinesLabels(lines, base, |lines|);
    ScanLabels(lines, base, |lines|);
  }

  // ----- the whole table

  /** Values once known stay the same as the table grows. */
  lemma ValuesKept(lines: seq<Line>, nn: nat, s: map<string, int>, s': map<string, int>)
    requires nn <= |lines| && forall name :: name in s ==> name in s' && s'[name] == s[name]
    requires forall j, name :: 0 <= j < nn && Names(lines[j], name) ==>
               name in s && ParseValue(lines[j].stmt.operands[1], s) == Ok(s[name])
    ensures forall j, name :: 0 <= j < nn && Names(lines[j], name) ==>
              name in s' && ParseValue(lines[j].stmt.operands[1], s') == Ok(s'[name])
  {
  }

  lemma {:induction false} MoreLabels(lines: seq<Line>, base: nat, n: nat, p: Pass)
    requires n < |lines| && Sound(lines, base, n, n, p) && AddLabels(p, lines[n].labels).Ok?
    ensures Sound(lines, base, n + 1, n, AddLabels(p, lines[n].labels).value)
  {
    LabelsGrow(lines, n);
  }

  lemma FlushSound(lines: seq<Line>, base: nat, nl: nat, nn: nat, p: Pass)
    requires nl <= |lines| && nn <= |lines| && Sound(lines, base, nl, nn, p)
    ensures Sound(lines, base, nl, nn, Flush(p, base))
  {
    ValuesKept(lines, nn, p.symbols, Flush(p, base).symbols);
  }

  lemma DefineSound(lines: seq<Line>, base: nat, n: nat, p: Pass)
    requires n < |lines| && Sound(lines, base, n + 1, n, p) && HarmlessAt(lines, base, n, p.symbols)
    requires IsEqu(lines[n]) && Define(p, lines[n].stmt.operands).Ok?
    ensures Sound(lines, base, n + 1, n + 1, Define(p, lines[n].stmt.operands).value)
  {
    var ops := lines[n].stmt.operands;
    var name, v := NameOf(ops[0]).value, ParseValue(ops[1], p.symbols).value;
    if name in p.pending {
      var i :| 0 <= i < n + 1 && name in lines[i].labels;
      assert Names(lines[n], name);
      assert v == base + Words(lines, i) && Words(lines, i) == |p.items|;
    }
    NewConstant(lines, base, n, p, name, v);
  }

  lemma NewConstant(lines: seq<Line>, base: nat, n: nat, p: Pass, name: string, v: int)
    requires n < |lines| && Sound(lines, base, n + 1, n, p)
    requires Names(lines[n], name) && name !in p.symbols && (name in p.pending ==> v == base + |p.items|)
    requires ParseValue(lines[n].stmt.operands[1], p.symbols) == Ok(v)
    ensures Sound(lines, base, n + 1, n + 1, p.(symbols := p.symbols[name := v]))
  {
    var o, symbols := lines[n].stmt.operands[1], p.symbols[name := v];
    ValuesKept(lines, n, p.symbols, symbols);
    ValueKept(o, p.symbols, symbols);
    forall other | Names(lines[n], other)
      ensures other in symbols && ParseValue(o, symbols) == Ok(symbols[other])
    {
      assert other == name;
    }
    assert Constant(lines, n + 1, name);
    ConstantsGrow(lines, n);
  }

  /** A value once known stays the same as the table grows. */
  lemma ValueKept(o: Operand, s: map<string, int>, s': map<string, int>)
    requires ParseValue(o, s).Ok? && forall name :: name in s ==> name in s' && s'[name] == s[name]
    ensures ParseValue(o, s') == ParseValue(o, s)
  {
  }

  lemma ConstantsGrow(lines: seq<Line>, n: nat)
    requires n < |lines|
    ensures forall name :: Constant(lines, n, name) ==> Constant(lines, n + 1, name)
    ensures forall name :: Names(lines[n], name) ==> Constant(lines, n + 1, name)
  {
  }

  /** A line that defines nothing, its labels already in the table. */
  lemma PlainSound(lines: seq<Line>, base: nat, n: nat, p: Pass, items: seq<Item>)
    requires n < |lines| && Sound(lines, base, n + 1, n, p) && p.pending == [] && !IsEqu(lines[n])
    requires |items| == |p.items| + if Emits(lines[n]) then 1 else 0
    ensures Sound(lines, base, n + 1, n + 1, p.(items := items))
  {
    forall name | Constant(lines, n, name)
      ensures Constant(lines, n + 1, name)
    {
    }
  }

  lemma LineSound(lines: seq<Line>, base: nat, n: nat, p: Pass, p': Pass)
    requires n < |lines| && HarmlessAt(lines, base, n, p.symbols) && Sound(lines, base, n, n, p)
    requires ScanLine(p, lines[n], base) == Ok(p')
    ensures Sound(lines, base, n + 1, n + 1, p')
  {
    var line := lines[n];
    if line.labels == [] && line.stmt.Nothing? {
      BlankSound(lines, base, n, p);
    } else {
      var p1 := AddLabels(p, line.labels).value;
      MoreLabels(lines, base, n, p);
      if IsEqu(line) {
        DefineSound(lines, base, n, p1);
      } else {
        FlushSound(lines, base, n + 1, n, p1);
        PlainSound(lines, base, n, Flush(p1, base), p'.items);
      }
    }
  }

  lemma BlankSound(lines: seq<Line>, base: nat, n: nat, p: Pass)
    requires n < |lines| && Sound(lines, base, n, n, p) && lines[n].labels == [] && lines[n].stmt.Nothing?
    ensures Sound(lines, base, n + 1, n + 1, p)
  {
    ConstantsGrow(lines, n);
    LabelsGrow(lines, n);
    assert Words(lines, n + 1) == Words(lines, n);
    assert forall name :: !Names(lines[n], name);
  }

  lemma LabelsGrow(lines: seq<Line>, n: nat)
    requires n < |lines|
    ensures forall name :: Labelled(lines, n, name) ==> Labelled(lines, n + 1, name)
    ensures forall name :: name in lines[n].labels ==> Labelled(lines, n + 1, name)
  {
  }

  lemma {:induction false} ScanSound(lines: seq<Line>, base: nat, n: nat)
    requires n <= |lines| && Harmless(lines, base) && ScanTo(lines, base, n).Ok?
    ensures Sound(lines, base, n, n, ScanTo(lines, base, n).value)
  {
    var holds := (k: nat, p: Pass) => k <= |lines| && Sound(lines, base, k, k, p);
    forall k, p, p' | 0 <= k < n && holds(k, p) && LineTakes(lines, base, k, p, p')
      ensures holds(k + 1, p')
    {
      LineSound(lines, base, k, p, p');
    }
    ScanInduction(lines, base, n, holds);
  }

  /** Pass 1 builds the table it ought to. */
  lemma {:induction false} HarmlessIsRight(lines: seq<Line>, base: nat)
    requires Harmless(lines, base) && Scan(lines, base).Ok?
    ensures Environment(lines, base, Scan(lines, base).value.symbols)
  {
    var n := |lines|;
    var p := ScanTo(lines, base, n).value;
    ScanSound(lines, base, n);
    FlushSound(lines, base, n, n, p);
    SoundIsRight(lines, base, Flush(p, base));
  }

  lemma SoundIsRight(lines: seq<Line>, base: nat, p: Pass)
    requires Sound(lines, base, |lines|, |lines|, p) && p.pending == []
    ensures Environment(lines, base, p.symbols)
  {
  }

  // ----- and only then

  /** `name` labels one of the first `n` lines, with `k` words in front of it. */
  predicate LabelledAt(lines: seq<Line>, n: nat, name: string, k: nat)
    requires n <= |lines|
  {
    exists j :: 0 <= j < n && name in lines[j].labels && Words(lines, j) == k
  }

  /** What pass 1 knows on the way to a right table: part of it. */
  ghost predicate Towards(lines: seq<Line>, base: nat, nl: nat, nn: nat, p: Pass, env: map<string, int>)
    requires nl <= |lines| && nn <= |lines|
  {
    && |p.items| == Words(lines, nn)
    && (forall name :: name in p.pending ==> LabelledAt(lines, nl, name, |p.items|))
    && (forall name :: name in p.symbols ==> name in env && env[name] == p.symbols[name])
  }

  lemma {:induction false} LabelsTowards(lines: seq<Line>, base: nat, n: nat, p: Pass, env: map<string, int>)
    requires n < |lines| && Towards(lines, base, n, n, p, env) && AddLabels(p, lines[n].labels).Ok?
    ensures Towards(lines, base, n + 1, n, AddLabels(p, lines[n].labels).value, env)
  {
    var p1 := AddLabels(p, lines[n].labels).value;
    forall name | name in p1.pending
      ensures LabelledAt(lines, n + 1, name, |p.items|)
    {
      if name in p.pending {
        assert LabelledAt(lines, n, name, |p.items|);
      } else {
        assert name in lines[n].labels;
      }
    }
  }

  lemma FlushTowards(lines: seq<Line>, base: nat, nl: nat, nn: nat, p: Pass, env: map<string, int>)
    requires nl <= |lines| && nn <= |lines| && Towards(lines, base, nl, nn, p, env) && Environment(lines, base, env)
    ensures Towards(lines, base, nl, nn, Flush(p, base), env)
  {
    forall name | name in p.pending
      ensures name in env && env[name] == base + |p.items|
    {
      assert LabelledAt(lines, nl, name, |p.items|);
    }
  }

  lemma DefineTowards(lines: seq<Line>, base: nat, n: nat, p: Pass, env: map<string, int>)
    requires n < |lines| && Towards(lines, base, n + 1, n, p, env) && Environment(lines, base, env)
    requires IsEqu(lines[n]) && Define(p, lines[n].stmt.operands).Ok?
    ensures Towards(lines, base, n + 1, n + 1, Define(p, lines[n].stmt.operands).value, env)
  {
    var ops := lines[n].stmt.operands;
    assert Names(lines[n], NameOf(ops[0]).value);
    ValueKept(ops[1], p.symbols, env);
  }

  lemma LineTowards(lines: seq<Line>, base: nat, n: nat, p: Pass, p': Pass, env: map<string, int>)
    requires n < |lines| && Towards(lines, base, n, n, p, env) && Environment(lines, base, env)
    requires ScanLine(p, lines[n], base) == Ok(p')
    ensures Towards(lines, base, n + 1, n + 1, p', env)
  {
    var line := lines[n];
    LabelsTowards(lines, base, n, p, env);
    var p1 := AddLabels(p, line.labels).value;
    if IsEqu(line) {
      DefineTowards(lines, base, n, p1, env);
    } else {
      FlushTowards(lines, base, n + 1, n, p1, env);
    }
  }

  /** Every line keeps on the way to a right table. */
  ghost predicate KeepsTowards(lines: seq<Line>, base: nat, env: map<string, int>, n: nat)
    requires n <= |lines|
  {
    forall k, p, p' :: 0 <= k < n && Towards(lines, base, k, k, p, env) && LineTakes(lines, base, k, p, p') ==>
      Towards(lines, base, k + 1, k + 1, p', env)
  }

  lemma LinesTowards(lines: seq<Line>, base: nat, env: map<string, int>, n: nat)
    requires n <= |lines| && Environment(lines, base, env)
    ensures KeepsTowards(lines, base, env, n)
  {
    forall k, p, p' | 0 <= k < n && Towards(lines, base, k, k, p, env) && LineTakes(lines, base, k, p, p')
      ensures Towards(lines, base, k + 1, k + 1, p', env)
    {
      LineTowards(lines, base, k, p, p', env);
    }
  }

  lemma {:induction false} ScanTowards(lines: seq<Line>, base: nat, n: nat, env: map<string, int>)
    requires n <= |lines| && ScanTo(lines, base, n).Ok? && KeepsTowards(lines, base, env, n)
    ensures Towards(lines, base, n, n, ScanTo(lines, base, n).value, env)
  {
    ScanInduction(lines, base, n, (k: nat, p: Pass) => k <= |lines| && Towards(lines, base, k, k, p, env));
  }

  /** Whatever table is right for the source, pass 1 gave no constant another value on the way. */
  lemma {:induction false} RightIsHarmless(lines: seq<Line>, base: nat, env: map<string, int>)
    requires Scan(lines, base).Ok? && Environment(lines, base, env)
    ensures Harmless(lines, base)
  {
    forall j | 0 <= j < |lines| && ScanTo(lines, base, j).Ok?
      ensures HarmlessAt(lines, base, j, ScanTo(lines, base, j).value.symbols)
    {
      var p := ScanTo(lines, base, j).value;
      LinesTowards(lines, base, env, j);
      ScanTowards(lines, base, j, env);
      if IsEqu(lines[j]) {
        ScanDefines(lines, base, j);
        ThenHarmless(lines, base, j, p, env);
      }
    }
  }

  lemma ThenHarmless(lines: seq<Line>, base: nat, j: nat, p: Pass, env: map<string, int>)
    requires j < |lines| && Towards(lines, base, j, j, p, env) && Environment(lines, base, env)
    requires IsEqu(lines[j]) && |lines[j].stmt.operands| == 2 && ParseValue(lines[j].stmt.operands[1], p.symbols).Ok?
    ensures HarmlessAt(lines, base, j, p.symbols)
  {
    var o := lines[j].stmt.operands[1];
    ValueKept(o, p.symbols, env);
    forall i, name | 0 <= i <= j && name in lines[i].labels && Names(lines[j], name)
      ensures ParseValue(o, p.symbols) == Ok(base + Words(lines, i))
    {
      assert env[name] == base + Words(lines, i) && ParseValue(o, env) == Ok(env[name]);
    }
  }

  /** In an accepted source every constant has a value when pass 1 comes to it. */
  lemma {:induction false} ScanDefines(lines: seq<Line>, base: nat, j: nat)
    requires j < |lines| && IsEqu(lines[j]) && Scan(lines, base).Ok?
    ensures ScanTo(lines, base, j).Ok?
    ensures |lines[j].stmt.operands| == 2
    ensures ParseValue(lines[j].stmt.operands[1], ScanTo(lines, base, j).value.symbols).Ok?
  {
    if ScanTo(lines, base, j + 1).Err? {
      ErrorsStay(lines, base, j + 1, |lines|, ScanTo(lines, base, j + 1).error);
    }
    ScanPrevious(lines, base, j + 1);
  }

  /**
    For every accepted source: pass 1 builds the table it ought to if and only if no
    constant that takes a label's name has another value.
   */
  lemma SymbolsAreRight(lines: seq<Line>, base: nat)
    requires Scan(lines, base).Ok?
    ensures Environment(lines, base, Scan(lines, base).value.symbols) <==> Harmless(lines, base)
  {
    if Harmless(lines, base) {
      HarmlessIsRight(lines, base);
    }
    if Environment(lines, base, Scan(lines, base).value.symbols) {
      RightIsHarmless(lines, base, Scan(lines, base).value.symbols);
    }
  }

  /**
    Without that condition it need not: a constant named like a label waiting in front
    of it is accepted, and then lost to the label's address.
   */
  lemma ShadowedConstant(base: nat) returns (lines: seq<Line>)
    requires base != 5
    ensures |lines| == 2 && Names(lines[0], "a") && lines[0].stmt.operands[1] == Num(5)
    ensures Assemble(lines, base).Ok? && Assemble(lines, base).value.symbols == map["a" := base]
  {
    lines := [Line(["a"], Stmt(EQU, [Sym("a"), Num(5)])), Line([], Stmt(NOP, []))];
    var p0, p1 := Pass(map[], [], []), Pass(map["a" := 5], [], ["a"]);
    var p2 := Pass(map["a" := base], [Item(B(UC), [Num(1)], 0)], []);
    ShadowFirst(base);
    ShadowSecond(base);
    assert ScanTo(lines, base, 0) == Ok(p0);
    assert ScanTo(lines, base, 1) == Ok(p1);
    assert ScanTo(lines, base, 2) == Ok(p2);
    assert Flush(p2, base).symbols == p2.symbols;
    assert EncodeTo(p2, base, 0) == Ok([]);
    assert EncodeTo(p2, base, 1).Ok? && EncodeTo(p2, base, 1).value[0] == 0xCE01;
  }

  lemma ShadowFirst(base: nat)
    ensures ScanLine(Pass(map[], [], []), Line(["a"], Stmt(EQU, [Sym("a"), Num(5)])), base)
         == Ok(Pass(map["a" := 5], [], ["a"]))
  {
    var p0 := Pass(map[], [], []);
    assert ["a"][1..] == [] && [] + ["a"] == ["a"];
    assert AddLabels(p0, ["a"]) == Ok(Pass(map[], [], ["a"]));
  }

  lemma ShadowSecond(base: nat)
    ensures var p2 := Pass(map["a" := base], [Item(B(UC), [Num(1)], 0)], []);
            && ScanLine(Pass(map["a" := 5], [], ["a"]), Line([], Stmt(NOP, [])), base) == Ok(p2)
            && EncodeItem(p2.items[0], p2.symbols, base) == Ok(0xCE01)
  {
    var p1 := Pass(map["a" := 5], [], ["a"]);
    assert AddLabels(p1, []) == Ok(p1);
    assert Flush(p1, base) == Pass(map["a" := base], [], []);
    assert Expand(Stmt(NOP, []), 0) == Ok(Item(B(UC), [Num(1)], 0));
    assert [] + [Item(B(UC), [Num(1)], 0)] == [Item(B(UC), [Num(1)], 0)];
    assert Encode(Branch(UC, 1)) == Ok(0xCE01);
  }

  // ----- where each line's item is

  /** The items after a line: one more, the statement expanded, if the line emits. */
  predicate Grows(before: seq<Item>, after: seq<Item>, line: Line) {
    if Emits(line) then
      && |after| == |before| + 1 && after[..|before|] == before
      && Expand(line.stmt, |before|) == Ok(after[|before|])
    else after == before
  }

  lemma LineItems(p: Pass, line: Line, base: nat)
    requires ScanLine(p, line, base).Ok?
    ensures Grows(p.items, ScanLine(p, line, base).value.items, line)
  {
  }

  lemma {:induction false} ItemCount(lines: seq<Line>, base: nat, n: nat)
    requires n <= |lines| && ScanTo(lines, base, n).Ok?
    ensures |ScanTo(lines, base, n).value.items| == Words(lines, n)
  {
    if n > 0 {
      ScanPrevious(lines, base, n);
      ItemCount(lines, base, n - 1);
      LineItems(ScanTo(lines, base, n - 1).value, lines[n - 1], base);
    }
  }

  /** The item of line `j` is where it belongs among the items of some lines from the start. */
  predicate AtPlace(lines: seq<Line>, j: nat, items: seq<Item>)
    requires j < |lines| && lines[j].stmt.Stmt?
  {
    var k := Words(lines, j);
    k < |items| && Expand(lines[j].stmt, k) == Ok(items[k])
  }

  lemma {:induction false} GrowsAtPlace(lines: seq<Line>, j: nat, n: nat, before: seq<Item>, after: seq<Item>)
    requires j <= n < |lines| && Emits(lines[j]) && |before| == Words(lines, n)
    requires Grows(before, after, lines[n]) && (j < n ==> AtPlace(lines, j, before))
    ensures AtPlace(lines, j, after)
  {
    if j < n && Emits(lines[n]) {
      assert after[..|before|][Words(lines, j)] == after[Words(lines, j)];
    }
  }

  /** The item of a line that emits, at its place. */
  lemma {:induction false} ItemsInOrder(lines: seq<Line>, base: nat, n: nat, j: nat)
    requires j < n <= |lines| && ScanTo(lines, base, n).Ok? && Emits(lines[j])
    ensures AtPlace(lines, j, ScanTo(lines, base, n).value.items)
  {
    PrefixGrows(lines, base, n);
    if j < n - 1 {
      ItemsInOrder(lines, base, n - 1, j);
    }
    GrowsAtPlace(lines, j, n - 1, ScanTo(lines, base, n - 1).value.items, ScanTo(lines, base, n).value.items);
  }

  lemma {:induction false} PrefixGrows(lines: seq<Line>, base: nat, n: nat)
    requires 0 < n <= |lines| && ScanTo(lines, base, n).Ok?
    ensures var p := ScanTo(lines, base, n - 1);
            && p.Ok? && |p.value.items| == Words(lines, n - 1)
            && Grows(p.value.items, ScanTo(lines, base, n).value.items, lines[n - 1])
  {
    ScanPrevious(lines, base, n);
    LineItems(ScanTo(lines, base, n - 1).value, lines[n - 1], base);
    ItemCount(lines, base, n - 1);
  }
}
