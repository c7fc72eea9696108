/**
  Exactly which sources the assembler accepts, and what every name stands for, told from
  the lines: the labels in front of each, the words emitted before it and the constants
  defined before it.
 */
module Acceptance {
  import opened Isa
  import opened Wrappers
  import opened Assembler
  import AsmMeaning

  // ----- what the lines say

  /** The line gives the labels waiting in front of it their address: any that is not blank and not a constant. */
  predicate Settles(line: Line) {
    Emits(line) || (line.stmt.Nothing? && line.labels != [])
  }

  predicate SettledBefore(lines: seq<Line>, i: nat, n: nat)
    requires n <= |lines|
  {
    exists k :: i <= k < n && Settles(lines[k])
  }

  /** The first of the first `n` lines that `name` labels; `n` if none. */
  function LabelOf(lines: seq<Line>, n: nat, name: string): (i: nat)
    requires n <= |lines|
    ensures i <= n && (i < n ==> name in lines[i].labels)
    ensures forall k :: 0 <= k < i ==> name !in lines[k].labels
  {
    if n == 0 then 0
    else
      var i := LabelOf(lines, n - 1, name);
      if i < n - 1 || name in lines[n - 1].labels then i else n
  }

  /** The first of the first `n` lines that defines `name` as a constant; `n` if none. */
  function ConstantOf(lines: seq<Line>, n: nat, name: string): (i: nat)
    requires n <= |lines|
    ensures i <= n && (i < n ==> Names(lines[i], name))
    ensures forall k :: 0 <= k < i ==> !Names(lines[k], name)
  {
    if n == 0 then 0
    else
      var i := ConstantOf(lines, n - 1, name);
      if i < n - 1 || Names(lines[n - 1], name) then i else n
  }

  /** What `name` stands for to a constant on line `n`: an address that is settled, or an earlier constant. */
  function Meaning(lines: seq<Line>, base: nat, n: nat, name: string): Option<int>
    requires n <= |lines|
    decreases n, 0
  {
    var i, j := LabelOf(lines, n, name), ConstantOf(lines, n, name);
    if i < n && SettledBefore(lines, i, n) then Some(base + Words(lines, i))
    else if j < n then OperandMeaning(lines, base, j, lines[j].stmt.operands[1])
    else None
  }

  function OperandMeaning(lines: seq<Line>, base: nat, n: nat, o: Operand): Option<int>
    requires n <= |lines|
    decreases n, 1
  {
    match o
    case Num(v) => Some(v)
    case Sym(name) => Meaning(lines, base, n, name)
    case Hash(name) => Meaning(lines, base, n, name)
    case Reg(_, text) => Meaning(lines, base, n, text)
  }

  /** What `name` stands for in the end: the address of the line it labels, or else its constant. */
  function Value(lines: seq<Line>, base: nat, name: string): Option<int> {
    var i, j := LabelOf(lines, |lines|, name), ConstantOf(lines, |lines|, name);
    if i < |lines| then Some(base + Words(lines, i))
    else if j < |lines| then OperandMeaning(lines, base, j, lines[j].stmt.operands[1])
    else None
  }

  function OperandValue(lines: seq<Line>, base: nat, o: Operand): Option<int> {
    match o
    case Num(v) => Some(v)
    case Sym(name) => Value(lines, base, name)
    case Hash(name) => Value(lines, base, name)
    case Reg(_, text) => Value(lines, base, text)
  }

  // ----- what is accepted

  /** An earlier line labels or defines the name. */
  predicate Used(lines: seq<Line>, n: nat, name: string)
    requires n <= |lines|
  {
    LabelOf(lines, n, name) < n || ConstantOf(lines, n, name) < n
  }

  /** The labels of line `n` are different and new. */
  predicate LabelsNew(lines: seq<Line>, n: nat)
    requires n < |lines|
  {
    && (forall p :: 0 <= p < |lines[n].labels| ==> !Used(lines, n, lines[n].labels[p]))
    && (forall p, q :: 0 <= p < q < |lines[n].labels| ==> lines[n].labels[p] != lines[n].labels[q])
  }

  function NameText(o: Operand): string
    requires o.Sym? || o.Reg?
  {
    if o.Sym? then o.name else o.text
  }

  /** A constant: a name that is no earlier constant and no label with an address yet, and a known value. */
  predicate ConstantOk(lines: seq<Line>, base: nat, n: nat)
    requires n < |lines| && lines[n].stmt.Stmt?
  {
    var ops := lines[n].stmt.operands;
    && |ops| == 2 && (ops[0].Sym? || ops[0].Reg?)
    && var name := NameText(ops[0]);
       && ConstantOf(lines, n, name) == n
       && !(LabelOf(lines, n, name) < n && SettledBefore(lines, LabelOf(lines, n, name), n))
       && OperandMeaning(lines, base, n, ops[1]).Some?
  }

  predicate IsRegister(o: Operand) {
    o.Reg? && o.n <= 15
  }

  predicate Within(v: Option<int>, lo: int, hi: int) {
    v.Some? && lo <= v.value <= hi
  }

  /** How far a branch at `here` goes: to a name, or by a number. */
  function Distance(lines: seq<Line>, base: nat, o: Operand, here: int): Option<int> {
    var v := OperandValue(lines, base, o);
    if (o.Sym? || o.Reg?) && v.Some? then Some(v.value - here) else v
  }

  /** The statement of line `n` makes a word that is not zero. */
  predicate Encodable(lines: seq<Line>, base: nat, n: nat)
    requires n < |lines| && lines[n].stmt.Stmt?
  {
    var ops := lines[n].stmt.operands;
    match lines[n].stmt.mnemonic
    case WORD => |ops| == 1 && Within(OperandValue(lines, base, ops[0]), 1, 0xFFFF_FFFF)
    case LDI =>
      && |ops| == 2 && IsRegister(ops[0])
      && !ops[1].Reg? && Within(OperandValue(lines, base, ops[1]), 0, 0xFF_FFFF)
    case NOP => |ops| == 0
    case LOAD => |ops| == 2 && IsRegister(ops[0]) && IsRegister(ops[1])
    case STOR => |ops| == 2 && IsRegister(ops[0]) && IsRegister(ops[1])
    case B(c) =>
      !c.Never? && |ops| == 1 && Within(Distance(lines, base, ops[0], base + Words(lines, n)), -128, 127)
    case J(c) => !c.Never? && |ops| == 1 && IsRegister(ops[0])
    case ALU(op) =>
      && !op.NoOp? && |ops| == 2 && IsRegister(ops[0])
      && (if ops[1].Reg? then IsRegister(ops[1]) else Within(OperandValue(lines, base, ops[1]), 0, 0xFF_FFFF))
    case _ => false
  }

  /** The labels are new, a constant is well defined, and any other statement makes a word. */
  predicate AcceptableLine(lines: seq<Line>, base: nat, n: nat)
    requires n < |lines|
  {
    && LabelsNew(lines, n)
    && (IsEqu(lines[n]) ==> ConstantOk(lines, base, n))
    && (Emits(lines[n]) ==> Encodable(lines, base, n))
  }

  predicate Acceptable(lines: seq<Line>, base: nat) {
    forall n :: 0 <= n < |lines| ==> AcceptableLine(lines, base, n)
  }

  // ----- pass 1 against the lines

  function Get(symbols: map<string, int>, name: string): Option<int> {
    if name in symbols then Some(symbols[name]) else None
  }

  /** The operand counts pass 1 looks at. */
  predicate Shaped(stmt: Stmt)
    requires stmt.Stmt?
  {
    match stmt.mnemonic
    case WORD => |stmt.operands| == 1
    case LDI => |stmt.operands| == 2 && !stmt.operands[1].Reg?
    case NOP => |stmt.operands| == 0
    case _ => true
  }

  /** Pass 1 takes line `n`. */
  predicate LineOk(lines: seq<Line>, base: nat, n: nat)
    requires n < |lines|
  {
    && LabelsNew(lines, n)
    && (IsEqu(lines[n]) ==> ConstantOk(lines, base, n))
    && (Emits(lines[n]) ==> Shaped(lines[n].stmt))
  }

  /** The label on line `i` waits for its address. */
  predicate Waits(lines: seq<Line>, n: nat, name: string)
    requires n <= |lines|
  {
    LabelOf(lines, n, name) < n && !SettledBefore(lines, LabelOf(lines, n, name), n)
  }

  /** The state of pass 1 before line `n`, in terms of the lines. */
  ghost predicate Matches(lines: seq<Line>, base: nat, n: nat, p: Pass)
    requires n <= |lines|
  {
    && |p.items| == Words(lines, n)
    && (forall name :: name in p.pending <==> Waits(lines, n, name))
    && (forall name :: Get(p.symbols, name) == Meaning(lines, base, n, name))
    && (forall name :: ConstantOf(lines, n, name) < n ==> name in p.symbols)
  }

  lemma {:induction false} LabelsAdded(p: Pass, labels: seq<string>)
    ensures AddLabels(p, labels).Ok? <==>
            && (forall i :: 0 <= i < |labels| ==> labels[i] !in p.symbols && labels[i] !in p.pending)
            && (forall i, j :: 0 <= i < j < |labels| ==> labels[i] != labels[j])
    ensures AddLabels(p, labels).Ok? ==> AddLabels(p, labels).value == p.(pending := p.pending + labels)
    decreases |labels|
  {
    if labels != [] && labels[0] !in p.symbols && labels[0] !in p.pending {
      var p1 := p.(pending := p.pending + [labels[0]]);
      LabelsAdded(p1, labels[1..]);
      assert forall i :: 1 <= i < |labels| ==> labels[i] == labels[1..][i - 1];
      assert p1.pending + labels[1..] == p.pending + labels;
      if AddLabels(p, labels).Ok? {
        forall i, j | 0 <= i < j < |labels|
          ensures labels[i] != labels[j]
        {
          assert labels[j] == labels[1..][j - 1];
          if i > 0 { assert labels[i] == labels[1..][i - 1]; }
        }
      }
    }
  }

  lemma {:induction false} TakesLabels(lines: seq<Line>, base: nat, n: nat, p: Pass)
    requires n < |lines| && Matches(lines, base, n, p)
    ensures AddLabels(p, lines[n].labels).Ok? <==> LabelsNew(lines, n)
    ensures AddLabels(p, lines[n].labels).Ok? ==>
            AddLabels(p, lines[n].labels).value == p.(pending := p.pending + lines[n].labels)
  {
    LabelsAdded(p, lines[n].labels);
    forall name
      ensures name in p.symbols || name in p.pending <==> Used(lines, n, name)
    {
      Known(lines, base, n, p, name);
    }
  }

  lemma Known(lines: seq<Line>, base: nat, n: nat, p: Pass, name: string)
    requires n <= |lines| && Matches(lines, base, n, p)
    ensures name in p.symbols || name in p.pending <==> Used(lines, n, name)
  {
    assert Get(p.symbols, name) == Meaning(lines, base, n, name);
  }

  // ----- one line further

  lemma SettledNext(lines: seq<Line>, i: nat, n: nat)
    requires i <= n < |lines|
    ensures SettledBefore(lines, i, n + 1) <==> SettledBefore(lines, i, n) || Settles(lines[n])
  {
    if SettledBefore(lines, i, n) {
      var k :| i <= k < n && Settles(lines[k]);
    }
    if Settles(lines[n]) {
      assert i <= n < n + 1;
    }
  }

  /** Over a line that gives no label its address. */
  lemma QuietName(lines: seq<Line>, base: nat, n: nat, name: string)
    requires n < |lines| && !Settles(lines[n])
    ensures Waits(lines, n + 1, name) <==>
            Waits(lines, n, name) || (name in lines[n].labels && LabelOf(lines, n, name) == n)
    ensures Meaning(lines, base, n + 1, name) ==
            if !Names(lines[n], name) || ConstantOf(lines, n, name) < n || Meaning(lines, base, n, name).Some?
            then Meaning(lines, base, n, name)
            else OperandMeaning(lines, base, n, lines[n].stmt.operands[1])
  {
    var i := LabelOf(lines, n, name);
    SettledNext(lines, i, n);
    SettledNext(lines, n, n);
    assert !SettledBefore(lines, n, n);
  }

  /** Over a line that gives the waiting labels, and its own, their address. */
  lemma SettlingName(lines: seq<Line>, base: nat, n: nat, name: string)
    requires n < |lines| && Settles(lines[n])
    ensures !Waits(lines, n + 1, name)
    ensures Meaning(lines, base, n + 1, name) ==
            if Waits(lines, n, name) then Some(base + Words(lines, LabelOf(lines, n, name)))
            else if name in lines[n].labels && LabelOf(lines, n, name) == n then Some(base + Words(lines, n))
            else Meaning(lines, base, n, name)
  {
    var i := LabelOf(lines, n, name);
    SettledNext(lines, i, n);
    SettledNext(lines, n, n);
  }

  /** No word has been emitted since a waiting label. */
  lemma {:induction false} NoWordSince(lines: seq<Line>, i: nat, n: nat)
    requires i <= n <= |lines| && !SettledBefore(lines, i, n)
    ensures Words(lines, n) == Words(lines, i)
  {
    if i < n {
      SettledNext(lines, i, n - 1);
      NoWordSince(lines, i, n - 1);
    }
  }

  lemma {:induction false} ValueIs(lines: seq<Line>, base: nat, n: nat, p: Pass, o: Operand)
    requires n <= |lines| && Matches(lines, base, n, p)
    ensures ParseValue(o, p.symbols) ==
            match OperandMeaning(lines, base, n, o) case Some(v) => Ok(v) case None => ParseValue(o, map[])
  {
    match o
    case Num(_) =>
    case Sym(name) => assert Get(p.symbols, name) == Meaning(lines, base, n, name);
    case Hash(name) => assert Get(p.symbols, name) == Meaning(lines, base, n, name);
    case Reg(_, text) => assert Get(p.symbols, text) == Meaning(lines, base, n, text);
  }

  /** A line without effect. */
  lemma BlankStep(lines: seq<Line>, base: nat, n: nat, p: Pass)
    requires n < |lines| && Matches(lines, base, n, p) && lines[n].labels == [] && lines[n].stmt.Nothing?
    ensures LineOk(lines, base, n) && Matches(lines, base, n + 1, p)
  {
    forall name
      ensures Waits(lines, n + 1, name) <==> Waits(lines, n, name)
      ensures Meaning(lines, base, n + 1, name) == Meaning(lines, base, n, name)
    {
      QuietName(lines, base, n, name);
    }
    SameConstants(lines, n);
  }

  lemma {:induction false} SameConstants(lines: seq<Line>, n: nat)
    requires n < |lines|
    ensures forall name :: ConstantOf(lines, n + 1, name) < n + 1 <==>
                           ConstantOf(lines, n, name) < n || Names(lines[n], name)
  {
  }

  /** A constant is defined exactly if it is well defined. */
  lemma DefineExact(lines: seq<Line>, base: nat, n: nat, p: Pass)
    requires n < |lines| && IsEqu(lines[n]) && Matches(lines, base, n, p)
    ensures Define(p, lines[n].stmt.operands).Ok? <==> ConstantOk(lines, base, n)
  {
    var ops := lines[n].stmt.operands;
    if |ops| == 2 && (ops[0].Sym? || ops[0].Reg?) {
      var name := NameText(ops[0]);
      ValueIs(lines, base, n, p, ops[1]);
      assert Get(p.symbols, name) == Meaning(lines, base, n, name);
      NoValue(ops[1]);
    }
  }

  lemma NoValue(o: Operand)
    ensures !o.Num? ==> ParseValue(o, map[]).Err?
  {
  }

  lemma {:induction false} DefineStep(lines: seq<Line>, base: nat, n: nat, p: Pass, p': Pass, name: string, v: int)
    requires n < |lines| && Names(lines[n], name) && Matches(lines, base, n, p) && LabelsNew(lines, n)
    requires name !in p.symbols && OperandMeaning(lines, base, n, lines[n].stmt.operands[1]) == Some(v)
    requires p' == p.(pending := p.pending + lines[n].labels, symbols := p.symbols[name := v])
    ensures Matches(lines, base, n + 1, p')
  {
    forall other
      ensures other in p'.pending <==> Waits(lines, n + 1, other)
      ensures Get(p'.symbols, other) == Meaning(lines, base, n + 1, other)
    {
      QuietName(lines, base, n, other);
      OneName(lines[n], name, other);
      LabelIsNew(lines, n, other);
      assert Get(p.symbols, other) == Meaning(lines, base, n, other);
    }
    forall other | ConstantOf(lines, n + 1, other) < n + 1
      ensures other in p'.symbols
    {
      OneName(lines[n], name, other);
      SameConstants(lines, n);
    }
  }

  lemma OneName(line: Line, name: string, other: string)
    requires Names(line, name)
    ensures Names(line, other) <==> other == name
  {
  }

  lemma {:induction false} LabelIsNew(lines: seq<Line>, n: nat, name: string)
    requires n < |lines| && LabelsNew(lines, n)
    ensures name in lines[n].labels ==> LabelOf(lines, n, name) == n && ConstantOf(lines, n, name) == n
  {
  }

  lemma SettledGet(symbols: map<string, int>, names: seq<string>, address: int, name: string)
    ensures Get(Settled(symbols, names, address), name) ==
            if name in names then Some(address) else Get(symbols, name)
  {
  }

  lemma FlushName(lines: seq<Line>, base: nat, n: nat, p: Pass, p': Pass, name: string)
    requires n < |lines| && Settles(lines[n]) && LabelsNew(lines, n) && |p.items| == Words(lines, n)
    requires name in p.pending <==> Waits(lines, n, name)
    requires Get(p.symbols, name) == Meaning(lines, base, n, name)
    requires p'.symbols == Settled(p.symbols, p.pending + lines[n].labels, base + |p.items|)
    ensures !Waits(lines, n + 1, name) && Get(p'.symbols, name) == Meaning(lines, base, n + 1, name)
  {
    SettledGet(p.symbols, p.pending + lines[n].labels, base + |p.items|, name);
    SettlingName(lines, base, n, name);
    LabelIsNew(lines, n, name);
    if Waits(lines, n, name) {
      NoWordSince(lines, LabelOf(lines, n, name), n);
    }
  }

  lemma {:induction false} FlushStep(lines: seq<Line>, base: nat, n: nat, p: Pass, p': Pass)
    requires n < |lines| && Settles(lines[n]) && Matches(lines, base, n, p) && LabelsNew(lines, n)
    requires p'.symbols == Settled(p.symbols, p.pending + lines[n].labels, base + |p.items|)
    requires p'.pending == [] && |p'.items| == Words(lines, n + 1)
    ensures Matches(lines, base, n + 1, p')
  {
    forall name
      ensures !Waits(lines, n + 1, name) && Get(p'.symbols, name) == Meaning(lines, base, n + 1, name)
      ensures ConstantOf(lines, n + 1, name) < n + 1 ==> name in p'.symbols
    {
      assert Get(p.symbols, name) == Meaning(lines, base, n, name);
      FlushName(lines, base, n, p, p', name);
      SameConstants(lines, n);
    }
  }

  lemma ExpandExact(stmt: Stmt, k: nat)
    requires stmt.Stmt? && !stmt.mnemonic.EQU?
    ensures Expand(stmt, k).Ok? <==> Shaped(stmt)
  {
  }

  // ----- all of pass 1

  /** The labels of line `n` have been taken and all that wait have been settled. */
  ghost predicate Settling(lines: seq<Line>, base: nat, n: nat, p: Pass, p2: Pass)
    requires n < |lines|
  {
    && p2.symbols == Settled(p.symbols, p.pending + lines[n].labels, base + |p.items|)
    && p2.pending == [] && p2.items == p.items
  }

  lemma FlushSettles(lines: seq<Line>, base: nat, n: nat, p: Pass, p1: Pass)
    requires n < |lines| && p1 == p.(pending := p.pending + lines[n].labels)
    ensures Settling(lines, base, n, p, Flush(p1, base))
  {
  }

  lemma EmitStep(lines: seq<Line>, base: nat, n: nat, p: Pass, p2: Pass, item: Item)
    requires n < |lines| && Matches(lines, base, n, p) && LabelsNew(lines, n) && Emits(lines[n])
    requires Settling(lines, base, n, p, p2)
    ensures Matches(lines, base, n + 1, p2.(items := p2.items + [item]))
  {
    FlushStep(lines, base, n, p, p2.(items := p2.items + [item]));
  }

  lemma LabelOnlyStep(lines: seq<Line>, base: nat, n: nat, p: Pass, p2: Pass)
    requires n < |lines| && Matches(lines, base, n, p) && LabelsNew(lines, n)
    requires lines[n].stmt.Nothing? && lines[n].labels != [] && Settling(lines, base, n, p, p2)
    ensures Matches(lines, base, n + 1, p2)
  {
    FlushStep(lines, base, n, p, p2);
  }

  lemma ConstantStep(lines: seq<Line>, base: nat, n: nat, p: Pass, p1: Pass)
    requires n < |lines| && Matches(lines, base, n, p) && LabelsNew(lines, n) && IsEqu(lines[n])
    requires p1 == p.(pending := p.pending + lines[n].labels)
    ensures var p' := Define(p1, lines[n].stmt.operands);
            (p'.Ok? <==> LineOk(lines, base, n)) && (p'.Ok? ==> Matches(lines, base, n + 1, p'.value))
  {
    var ops := lines[n].stmt.operands;
    DefineExact(lines, base, n, p);
    assert Define(p1, ops).Ok? <==> Define(p, ops).Ok?;
    if Define(p1, ops).Ok? {
      ValueIs(lines, base, n, p, ops[1]);
      DefineStep(lines, base, n, p, Define(p1, ops).value, NameText(ops[0]), ParseValue(ops[1], p.symbols).value);
    }
  }

  /** Pass 1 takes a line exactly if the line is as it should be. */
  lemma LineExact(lines: seq<Line>, base: nat, n: nat, p: Pass)
    requires n < |lines| && Matches(lines, base, n, p)
    ensures var r := ScanLine(p, lines[n], base);
            (r.Ok? <==> LineOk(lines, base, n)) && (r.Ok? ==> Matches(lines, base, n + 1, r.value))
  {
    var line := lines[n];
    if line == Line([], Nothing) {
      BlankStep(lines, base, n, p);
    } else {
      TakesLabels(lines, base, n, p);
      if LabelsNew(lines, n) {
        var p1 := AddLabels(p, line.labels).value;
        if IsEqu(line) {
          ConstantStep(lines, base, n, p, p1);
        } else {
          var p2 := Flush(p1, base);
          FlushSettles(lines, base, n, p, p1);
          if Emits(line) {
            ExpandExact(line.stmt, |p2.items|);
            var item := Expand(line.stmt, |p2.items|);
            if item.Ok? { EmitStep(lines, base, n, p, p2, item.value); }
          } else {
            LabelOnlyStep(lines, base, n, p, p2);
          }
        }
      }
    }
  }

  lemma StartMatches(lines: seq<Line>, base: nat)
    ensures Matches(lines, base, 0, Pass(map[], [], []))
  {
  }

  predicate LinesOk(lines: seq<Line>, base: nat, n: nat)
    requires n <= |lines|
  {
    forall k :: 0 <= k < n ==> LineOk(lines, base, k)
  }

  ghost predicate Exactly(lines: seq<Line>, base: nat, n: nat, r: Result<Pass>)
    requires n <= |lines|
  {
    (r.Ok? <==> LinesOk(lines, base, n)) && (r.Ok? ==> Matches(lines, base, n, r.value))
  }

  lemma ExactlyNext(lines: seq<Line>, base: nat, n: nat, p: Pass)
    requires n < |lines| && Exactly(lines, base, n, Ok(p))
    ensures Exactly(lines, base, n + 1, ScanLine(p, lines[n], base))
  {
    LineExact(lines, base, n, p);
  }

  /** Pass 1 gets past the first `n` lines exactly if each is as it should be. */
  lemma {:induction false} ScanExact(lines: seq<Line>, base: nat, n: nat, r: Result<Pass>)
    requires n <= |lines| && r == ScanTo(lines, base, n)
    ensures Exactly(lines, base, n, r)
  {
    if n == 0 {
      StartMatches(lines, base);
    } else {
      var r0 := ScanTo(lines, base, n - 1);
      ScanExact(lines, base, n - 1, r0);
      if r0.Ok? {
        ExactlyNext(lines, base, n - 1, r0.value);
        ScanNext(lines, base, n - 1, r0.value);
      } else {
        ErrorStays(lines, base, n - 1, r0.error);
      }
    }
  }

  // ----- the table, and pass 2

  /** The table says of every name what the lines say. */
  ghost predicate Agrees(lines: seq<Line>, base: nat, symbols: map<string, int>) {
    forall name :: Get(symbols, name) == Value(lines, base, name)
  }

  /** What the last flush makes of a name. */
  lemma {:induction false} FinalName(lines: seq<Line>, base: nat, name: string, waits: bool, got: Option<int>, now: Option<int>)
    requires waits <==> Waits(lines, |lines|, name)
    requires got == Meaning(lines, base, |lines|, name)
    requires now == if waits then Some(base + Words(lines, |lines|)) else got
    ensures now == Value(lines, base, name)
  {
    if waits {
      NoWordSince(lines, LabelOf(lines, |lines|, name), |lines|);
    }
  }

  /** In every accepted source each name has in the table what it stands for. */
  lemma {:induction false} TableExact(lines: seq<Line>, base: nat)
    requires Scan(lines, base).Ok?
    ensures Agrees(lines, base, Scan(lines, base).value.symbols)
  {
    var r := ScanTo(lines, base, |lines|);
    ScanExact(lines, base, |lines|, r);
    FlushAgrees(lines, base, r.value, Flush(r.value, base));
  }

  lemma FlushAgrees(lines: seq<Line>, base: nat, p: Pass, p': Pass)
    requires Matches(lines, base, |lines|, p) && p' == Flush(p, base)
    ensures Agrees(lines, base, p'.symbols)
  {
    forall name
      ensures Get(p'.symbols, name) == Value(lines, base, name)
    {
      NameAgrees(lines, base, p, p', name);
    }
  }

  lemma NameAgrees(lines: seq<Line>, base: nat, p: Pass, p': Pass, name: string)
    requires Matches(lines, base, |lines|, p) && p' == Flush(p, base)
    ensures Get(p'.symbols, name) == Value(lines, base, name)
  {
    FlushGet(p, p', base, name);
    MatchesName(lines, base, p, name);
    FinalName(lines, base, name, name in p.pending, Get(p.symbols, name), Get(p'.symbols, name));
  }

  lemma FlushGet(p: Pass, p': Pass, base: nat, name: string)
    requires p' == Flush(p, base)
    ensures Get(p'.symbols, name) == if name in p.pending then Some(base + |p.items|) else Get(p.symbols, name)
  {
  }

  lemma {:induction false} MatchesName(lines: seq<Line>, base: nat, p: Pass, name: string)
    requires Matches(lines, base, |lines|, p)
    ensures |p.items| == Words(lines, |lines|)
    ensures name in p.pending <==> Waits(lines, |lines|, name)
    ensures Get(p.symbols, name) == Meaning(lines, base, |lines|, name)
  {
  }

  lemma FinalIs(lines: seq<Line>, base: nat, symbols: map<string, int>, o: Operand)
    requires Agrees(lines, base, symbols)
    ensures ParseValue(o, symbols).Ok? <==> OperandValue(lines, base, o).Some?
    ensures ParseValue(o, symbols).Ok? ==> OperandValue(lines, base, o) == Some(ParseValue(o, symbols).value)
    ensures (o.Sym? || o.Reg?) && OperandValue(lines, base, o).Some? ==>
            NameText(o) in symbols && symbols[NameText(o)] == OperandValue(lines, base, o).value
  {
    match o
    case Num(_) =>
    case Sym(name) => assert Get(symbols, name) == Value(lines, base, name);
    case Hash(name) => assert Get(symbols, name) == Value(lines, base, name);
    case Reg(_, text) => assert Get(symbols, text) == Value(lines, base, text);
  }

  lemma DistanceIs(lines: seq<Line>, base: nat, symbols: map<string, int>, o: Operand, here: int)
    requires Agrees(lines, base, symbols)
    ensures Displacement(o, symbols, here).Ok? <==> Distance(lines, base, o, here).Some?
    ensures Displacement(o, symbols, here).Ok? ==>
            Distance(lines, base, o, here) == Some(Displacement(o, symbols, here).value)
  {
    FinalIs(lines, base, symbols, o);
    if o.Sym? || o.Reg? {
      assert Get(symbols, NameText(o)) == Value(lines, base, NameText(o));
    }
  }

  /** An item that is not data makes a word, never zero, exactly if it resolves to what can be encoded. */
  predicate MakesWord(it: Item, symbols: map<string, int>, base: nat) {
    EncodeItem(it, symbols, base).Ok? && EncodeItem(it, symbols, base).value != 0
  }

  lemma InstructionWord(it: Item, symbols: map<string, int>, base: nat)
    requires !it.mnemonic.WORD?
    ensures MakesWord(it, symbols, base) <==>
            Resolve(it, symbols, base).Ok? && Encode(Resolve(it, symbols, base).value).Ok?
  {
    if Resolve(it, symbols, base).Ok? && Encode(Resolve(it, symbols, base).value).Ok? {
      RoundTrip(Resolve(it, symbols, base).value);
    }
  }

  lemma {:induction false} ItemExact(lines: seq<Line>, base: nat, n: nat, symbols: map<string, int>, it: Item)
    requires n < |lines| && Emits(lines[n]) && Agrees(lines, base, symbols)
    requires Expand(lines[n].stmt, Words(lines, n)) == Ok(it)
    ensures MakesWord(it, symbols, base) <==> Encodable(lines, base, n)
  {
    match lines[n].stmt.mnemonic {
      case WORD => DataExact(lines, base, n, symbols, it);
      case B(_) => BranchExact(lines, base, n, symbols, it);
      case LDI => ImmediateExact(lines, base, symbols, it, MOV);
      case ALU(op) => AluExact(lines, base, n, symbols, it, op);
      case NOP => InstructionWord(it, symbols, base);
      case LOAD => InstructionWord(it, symbols, base);
      case STOR => InstructionWord(it, symbols, base);
      case J(_) => InstructionWord(it, symbols, base);
      case Unknown => InstructionWord(it, symbols, base);
    }
  }

  lemma {:induction false} DataExact(lines: seq<Line>, base: nat, n: nat, symbols: map<string, int>, it: Item)
    requires n < |lines| && lines[n].stmt.Stmt? && lines[n].stmt.mnemonic.WORD? && Agrees(lines, base, symbols)
    requires it == Item(WORD, lines[n].stmt.operands, Words(lines, n)) && |it.operands| == 1
    ensures MakesWord(it, symbols, base) <==> Encodable(lines, base, n)
  {
    FinalIs(lines, base, symbols, it.operands[0]);
  }

  lemma {:induction false} BranchExact(lines: seq<Line>, base: nat, n: nat, symbols: map<string, int>, it: Item)
    requires n < |lines| && lines[n].stmt.Stmt? && lines[n].stmt.mnemonic.B? && Agrees(lines, base, symbols)
    requires it == Item(lines[n].stmt.mnemonic, lines[n].stmt.operands, Words(lines, n))
    ensures MakesWord(it, symbols, base) <==> Encodable(lines, base, n)
  {
    InstructionWord(it, symbols, base);
    if |it.operands| == 1 {
      DistanceIs(lines, base, symbols, it.operands[0], base + Words(lines, n));
    }
  }

  lemma {:induction false} AluExact(lines: seq<Line>, base: nat, n: nat, symbols: map<string, int>, it: Item, op: Op)
    requires n < |lines| && lines[n].stmt.Stmt? && lines[n].stmt.mnemonic == ALU(op) && Agrees(lines, base, symbols)
    requires it == Item(ALU(op), lines[n].stmt.operands, Words(lines, n))
    ensures MakesWord(it, symbols, base) <==> Encodable(lines, base, n)
  {
    if |it.operands| == 2 {
      ImmediateExact(lines, base, symbols, it, op);
    }
  }

  lemma ImmediateExact(lines: seq<Line>, base: nat, symbols: map<string, int>, it: Item, op: Op)
    requires Agrees(lines, base, symbols) && it.mnemonic == ALU(op) && |it.operands| == 2
    ensures MakesWord(it, symbols, base) <==>
            && !op.NoOp? && IsRegister(it.operands[0])
            && if it.operands[1].Reg? then IsRegister(it.operands[1])
               else Within(OperandValue(lines, base, it.operands[1]), 0, 0xFF_FFFF)
  {
    InstructionWord(it, symbols, base);
    FinalIs(lines, base, symbols, it.operands[1]);
  }

  lemma {:induction false} EncodeExact(p: Pass, base: nat, n: nat)
    requires n <= |p.items|
    ensures EncodeTo(p, base, n).Ok? <==> forall k :: 0 <= k < n ==> EncodeItem(p.items[k], p.symbols, base).Ok?
  {
    if n > 0 {
      EncodeExact(p, base, n - 1);
    }
  }

  lemma AssembleExact(lines: seq<Line>, base: nat, p: Pass)
    requires Scan(lines, base) == Ok(p)
    ensures Assemble(lines, base).Ok? <==>
            forall k :: 0 <= k < |p.items| ==> MakesWord(p.items[k], p.symbols, base)
  {
    EncodeExact(p, base, |p.items|);
    if EncodeTo(p, base, |p.items|).Ok? {
      var code := EncodeTo(p, base, |p.items|).value;
      if 0 in code {
        var k :| 0 <= k < |code| && code[k] == 0;
        assert !MakesWord(p.items[k], p.symbols, base);
      }
    }
  }

  /** Every item is that of a line that emits, and every such line has its item. */
  lemma {:induction false} ItemsAreLines(lines: seq<Line>, base: nat, p: Pass)
    requires Scan(lines, base) == Ok(p)
    ensures |p.items| == Words(lines, |lines|)
    ensures forall j :: 0 <= j < |lines| && Emits(lines[j]) ==> AtPlace(lines, j, p.items)
  {
    ItemCount(lines, base, |lines|);
    forall j | 0 <= j < |lines| && Emits(lines[j])
      ensures AtPlace(lines, j, p.items)
    {
      ItemsInOrder(lines, base, |lines|, j);
    }
  }

  predicate WordsOk(lines: seq<Line>, base: nat) {
    forall j :: 0 <= j < |lines| && Emits(lines[j]) ==> Encodable(lines, base, j)
  }

  lemma {:induction false} WordsExact(lines: seq<Line>, base: nat, p: Pass)
    requires Scan(lines, base) == Ok(p)
    ensures Assemble(lines, base).Ok? <==> WordsOk(lines, base)
  {
    AssembleExact(lines, base, p);
    TableExact(lines, base);
    ItemsAreLines(lines, base, p);
    forall j | 0 <= j < |lines| && Emits(lines[j])
      ensures MakesWord(p.items[Words(lines, j)], p.symbols, base) <==> Encodable(lines, base, j)
    {
      assert AtPlace(lines, j, p.items);
      ItemExact(lines, base, j, p.symbols, p.items[Words(lines, j)]);
    }
    if WordsOk(lines, base) {
      forall k | 0 <= k < |p.items|
        ensures MakesWord(p.items[k], p.symbols, base)
      {
        var j := AsmMeaning.LineOf(lines, k, |lines|);
        assert MakesWord(p.items[Words(lines, j)], p.symbols, base);
      }
    }
  }

  lemma ScanAccepts(lines: seq<Line>, base: nat)
    ensures Scan(lines, base).Ok? <==> LinesOk(lines, base, |lines|)
  {
    ScanExact(lines, base, |lines|, ScanTo(lines, base, |lines|));
  }

  lemma EncodableIsShaped(lines: seq<Line>, base: nat, n: nat)
    requires n < |lines| && Emits(lines[n]) && Encodable(lines, base, n)
    ensures Shaped(lines[n].stmt)
  {
  }

  lemma LineIsOk(lines: seq<Line>, base: nat, n: nat)
    requires n < |lines|
    ensures AcceptableLine(lines, base, n) <==>
            LineOk(lines, base, n) && (Emits(lines[n]) ==> Encodable(lines, base, n))
  {
    if Emits(lines[n]) && Encodable(lines, base, n) {
      EncodableIsShaped(lines, base, n);
    }
  }

  lemma LinesAreOk(lines: seq<Line>, base: nat)
    ensures Acceptable(lines, base) <==> LinesOk(lines, base, |lines|) && WordsOk(lines, base)
  {
    forall n | 0 <= n < |lines|
      ensures AcceptableLine(lines, base, n) <==>
              LineOk(lines, base, n) && (Emits(lines[n]) ==> Encodable(lines, base, n))
    {
      LineIsOk(lines, base, n);
    }
  }

  lemma RefusedInScan(lines: seq<Line>, base: nat)
    requires Scan(lines, base).Err?
    ensures Assemble(lines, base).Err?
  {
  }

  /**
    A source is accepted if and only if labels and constants are new and well defined
    and every statement has operands of the right number, kind and range.
   */
  lemma AcceptedExactly(lines: seq<Line>, base: nat)
    ensures Assemble(lines, base).Ok? <==> Acceptable(lines, base)
  {
    var r := Scan(lines, base);
    ScanAccepts(lines, base);
    LinesAreOk(lines, base);
    if r.Ok? {
      WordsExact(lines, base, r.value);
    } else {
      RefusedInScan(lines, base);
    }
  }
}
