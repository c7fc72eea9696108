/**
  What an assembly source means, by line and label, and that running the assembled
  image does the same.
 */
module AsmMeaning {
  import opened Isa
  import opened CpuModel
  import opened Assembler

  /** Control is at a line that emits a word, or has left the program for an address. */
  datatype Loc = At(line: nat) | Away(addr: int)

  datatype Src = Src(loc: Loc, regs: Regs, mem: seq<Word>, flags: Flags)

  function Size(lines: seq<Line>): nat {
    Words(lines, |lines|)
  }

  // ----- places in the source

  /** The first line from `j` on that emits. */
  function FirstFrom(lines: seq<Line>, base: nat, j: nat): Loc
    requires j <= |lines|
    decreases |lines| - j
  {
    if j == |lines| then Away((base + Size(lines)) % MEM_WORDS)
    else if Emits(lines[j]) then At(j)
    else FirstFrom(lines, base, j + 1)
  }

  /** The line that bears `name`, searching from `j`. */
  function LabelLine(lines: seq<Line>, name: string, j: nat): (k: nat)
    requires j <= |lines| && exists i :: j <= i < |lines| && name in lines[i].labels
    ensures j <= k < |lines| && name in lines[k].labels
    decreases |lines| - j
  {
    if name in lines[j].labels then j else LabelLine(lines, name, j + 1)
  }

  /** The line that emits word `k`, searching among the first `n`. */
  function LineOf(lines: seq<Line>, k: nat, n: nat): (j: nat)
    requires n <= |lines| && k < Words(lines, n)
    ensures j < n && Emits(lines[j]) && Words(lines, j) == k
  {
    if Emits(lines[n - 1]) && Words(lines, n - 1) == k then n - 1 else LineOf(lines, k, n - 1)
  }

  /** The place an absolute address denotes. */
  function Locate(lines: seq<Line>, base: nat, addr: int): Loc {
    if base <= addr < base + Size(lines) then At(LineOf(lines, addr - base, |lines|)) else Away(addr)
  }

  // ----- what the statements do

  function Value(o: Operand, env: map<string, int>): int {
    var v := ParseValue(o, env);
    if v.Ok? then v.value else 0
  }

  function RegNo(o: Operand): (n: int)
    ensures 0 <= n < 16
  {
    if o.Reg? && o.n < 16 then o.n else 0
  }

  /** A branch by name: to the line after the label, or to a constant's address. */
  function Named(lines: seq<Line>, base: nat, env: map<string, int>, name: string): Loc {
    if Labelled(lines, |lines|, name) then FirstFrom(lines, base, LabelLine(lines, name, 0))
    else Locate(lines, base, Value(Sym(name), env) % MEM_WORDS)
  }

  function Target(lines: seq<Line>, base: nat, env: map<string, int>, j: nat, o: Operand): Loc
    requires j <= |lines|
  {
    match o
    case Sym(name) => Named(lines, base, env, name)
    case Reg(_, text) => Named(lines, base, env, text)
    case _ => Locate(lines, base, (base + Words(lines, j) + Value(o, env)) % MEM_WORDS)
  }

  /** A word of data met by the program counter is executed as the CPU decodes it. */
  function ExecuteData(lines: seq<Line>, base: nat, s: Src, j: nat, w: Word): Src
    requires j <= |lines| && |s.mem| == MEM_WORDS && base + Words(lines, j) < MEM_WORDS
  {
    var m := Machine(base + Words(lines, j), s.regs, s.mem, s.flags, 0, 0, 0);
    var d := Decode(w);
    Src(Locate(lines, base, NextPc(m, d)), NextRegs(m, d), NextMem(m, d), NextFlags(m, d))
  }

  /** An ALU statement with second operand `b`. */
  function Compute(s: Src, op: Op, rd: int, b: Word): Src
    requires 0 <= rd < 16
  {
    var a := s.regs.Get(rd);
    s.(regs := if WritesResult(op) then s.regs.Set(rd, AluResult(op, a, b)) else s.regs,
       flags := AluFlags(op, a, b))
  }

  /** The effect of the statement at line `j` on registers, memory and flags. */
  function Act(env: map<string, int>, s: Src, stmt: Stmt): (s': Src)
    requires stmt.Stmt? && |s.mem| == MEM_WORDS
    ensures |s'.mem| == MEM_WORDS && s'.loc == s.loc
  {
    var ops := stmt.operands;
    match stmt.mnemonic
    case LDI =>
      if |ops| != 2 then s
      else s.(regs := s.regs.Set(RegNo(ops[0]), U32(Value(ops[1], env))), flags := CLEAR)
    case LOAD =>
      if |ops| != 2 then s
      else s.(regs := s.regs.Set(RegNo(ops[0]), s.mem[s.regs.Get(RegNo(ops[1])) % MEM_WORDS]))
    case STOR =>
      if |ops| != 2 then s
      else s.(mem := s.mem[s.regs.Get(RegNo(ops[1])) % MEM_WORDS := s.regs.Get(RegNo(ops[0]))])
    case ALU(op) =>
      if |ops| != 2 then s
      else Compute(s, op, RegNo(ops[0]), if ops[1].Reg? then s.regs.Get(RegNo(ops[1])) else U32(Value(ops[1], env)))
    case _ => s
  }

  /** Where control goes from line `j`. */
  function Goes(lines: seq<Line>, base: nat, env: map<string, int>, s: Src, j: nat): Loc
    requires j < |lines| && Emits(lines[j])
  {
    var m, ops := lines[j].stmt.mnemonic, lines[j].stmt.operands;
    if m.B? && |ops| == 1 && Taken(m.cond, s.flags.z, s.flags.n) then
      Target(lines, base, env, j, ops[0])
    else if m.J? && |ops| == 1 && Taken(m.cond, s.flags.z, s.flags.n) then
      Locate(lines, base, s.regs.Get(RegNo(ops[0])) % MEM_WORDS)
    else
      FirstFrom(lines, base, j + 1)
  }

  predicate Placeable(lines: seq<Line>, base: nat, s: Src) {
    && |s.mem| == MEM_WORDS && base + Size(lines) <= MEM_WORDS
    && (s.loc.At? ==> s.loc.line < |lines| && Emits(lines[s.loc.line]))
  }

  /** One statement. */
  function SourceStep(lines: seq<Line>, base: nat, env: map<string, int>, s: Src): (s': Src)
    requires Placeable(lines, base, s) && s.loc.At?
    ensures Placeable(lines, base, s')
  {
    var j := s.loc.line;
    FirstFromEmits(lines, base, j + 1);
    FirstFromEmits(lines, base, j);
    WordsGrow(lines, j, |lines|);
    var stmt := lines[j].stmt;
    if stmt.mnemonic.WORD? then
      ExecuteData(lines, base, s, j, U32(if |stmt.operands| == 1 then Value(stmt.operands[0], env) else 0))
    else
      GoesEmits(lines, base, env, s, j);
      Act(env, s, stmt).(loc := Goes(lines, base, env, s, j))
  }

  lemma {:induction false} FirstFromEmits(lines: seq<Line>, base: nat, j: nat)
    requires j <= |lines|
    ensures var l := FirstFrom(lines, base, j); l.At? ==> l.line < |lines| && Emits(lines[l.line])
    decreases |lines| - j
  {
    if j < |lines| {
      FirstFromEmits(lines, base, j + 1);
    }
  }

  lemma GoesEmits(lines: seq<Line>, base: nat, env: map<string, int>, s: Src, j: nat)
    requires j < |lines| && Emits(lines[j])
    ensures var l := Goes(lines, base, env, s, j); l.At? ==> l.line < |lines| && Emits(lines[l.line])
  {
    FirstFromEmits(lines, base, j + 1);
    var ops := lines[j].stmt.operands;
    if |ops| == 1 {
      var name := if ops[0].Sym? then ops[0].name else if ops[0].Reg? then ops[0].text else "";
      if Labelled(lines, |lines|, name) {
        FirstFromEmits(lines, base, LabelLine(lines, name, 0));
      }
    }
  }

  // ----- places and addresses

  /** The address of a place. */
  function AddressOf(lines: seq<Line>, base: nat, l: Loc): int {
    match l
    case At(j) => if j < |lines| then base + Words(lines, j) else 0
    case Away(addr) => addr
  }

  lemma {:induction false} WordsGrow(lines: seq<Line>, j: nat, n: nat)
    requires j <= n <= |lines|
    ensures Words(lines, j) <= Words(lines, n)
    ensures j < n && Emits(lines[j]) ==> Words(lines, j) < Words(lines, n)
    decreases n
  {
    if j < n {
      WordsGrow(lines, j, n - 1);
    }
  }

  /** The first line from `j` on is where the words emitted before `j` end. */
  lemma {:induction false} FirstFromAddress(lines: seq<Line>, base: nat, j: nat)
    requires j <= |lines| && base + Size(lines) <= MEM_WORDS
    ensures AddressOf(lines, base, FirstFrom(lines, base, j)) == (base + Words(lines, j)) % MEM_WORDS
    decreases |lines| - j
  {
    if j < |lines| {
      if Emits(lines[j]) {
        WordsGrow(lines, j, |lines|);
      } else {
        FirstFromAddress(lines, base, j + 1);
        assert Words(lines, j + 1) == Words(lines, j);
      }
    }
  }

  lemma LocateAddress(lines: seq<Line>, base: nat, addr: int)
    ensures AddressOf(lines, base, Locate(lines, base, addr)) == addr
  {
  }

  /** A branch by name lands on the first word emitted at or after the label. */
  lemma NamedAddress(lines: seq<Line>, base: nat, env: map<string, int>, name: string)
    requires LabelsRight(lines, base, env) && name in env && base + Size(lines) <= MEM_WORDS
    ensures AddressOf(lines, base, Named(lines, base, env, name)) == env[name] % MEM_WORDS
  {
    if Labelled(lines, |lines|, name) {
      FirstFromAddress(lines, base, LabelLine(lines, name, 0));
    } else {
      LocateAddress(lines, base, env[name] % MEM_WORDS);
    }
  }

  // ----- the image does what the source says

  /** Source and machine agree on everything but how they name the place. */
  predicate Agrees(lines: seq<Line>, base: nat, s: Src, m: Machine) {
    && Valid(m) && s.regs == m.regs && s.mem == m.mem && s.flags == m.flags
    && AddressOf(lines, base, s.loc) == m.pc
  }

  ghost predicate Holds(mem: seq<Word>, base: nat, code: seq<Word>)
    requires base + |code| <= |mem|
  {
    forall a :: base <= a < base + |code| ==> mem[a] == code[a - base]
  }

  /** The instruction a statement is assembled into, given a branch's displacement. */
  function Meant(stmt: Stmt, env: map<string, int>, disp: int): Instr
    requires stmt.Stmt?
  {
    var ops := stmt.operands;
    match stmt.mnemonic
    case NOP => Branch(UC, 1)
    case B(c) => Branch(c, disp)
    case J(c) => if |ops| == 1 then Jump(c, RegNo(ops[0])) else Undefined
    case LDI => if |ops| == 2 then IType(MOV, RegNo(ops[0]), Value(ops[1], env)) else Undefined
    case LOAD => if |ops| == 2 then Load(RegNo(ops[0]), RegNo(ops[1])) else Undefined
    case STOR => if |ops| == 2 then Stor(RegNo(ops[0]), RegNo(ops[1])) else Undefined
    case ALU(op) =>
      if |ops| != 2 then Undefined
      else if ops[1].Reg? then RType(op, RegNo(ops[0]), RegNo(ops[1]))
      else IType(op, RegNo(ops[0]), Value(ops[1], env))
    case _ => Undefined
  }

  predicate Resolves(stmt: Stmt, k: nat, env: map<string, int>, base: nat, d: Instr) {
    && stmt.Stmt? && !stmt.mnemonic.WORD? && Expand(stmt, k).Ok? && Expand(stmt, k).value.index == k
    && Resolve(Expand(stmt, k).value, env, base) == Ok(d)
  }

  lemma ResolvesAsMeant(stmt: Stmt, k: nat, env: map<string, int>, base: nat, d: Instr)
    requires Resolves(stmt, k, env, base, d)
    ensures !d.Undefined? && !d.Halt? && (d.Branch? || d == Meant(stmt, env, 0))
    ensures d.Branch? ==> d == Meant(stmt, env, d.disp)
    ensures stmt.mnemonic.B? ==>
              |stmt.operands| == 1 && Displacement(stmt.operands[0], env, base + k) == Ok(d.disp)
    ensures stmt.mnemonic.J? ==> |stmt.operands| == 1
  {
    match stmt.mnemonic
    case LDI => case NOP => case LOAD => case STOR => case B(_) => case J(_) => case ALU(_) =>
    case EQU => case Unknown =>
  }

  /** Registers, memory and flags after one instruction. */
  lemma SameEffect(env: map<string, int>, s: Src, m: Machine, stmt: Stmt, d: Instr)
    requires Valid(m) && s.regs == m.regs && s.mem == m.mem && s.flags == m.flags
    requires stmt.Stmt? && InRange(d) && !d.Undefined? && !d.Halt?
    requires if d.Branch? then d == Meant(stmt, env, d.disp) else d == Meant(stmt, env, 0)
    ensures var s' := Act(env, s, stmt);
            NextRegs(m, d) == s'.regs && NextMem(m, d) == s'.mem && NextFlags(m, d) == s'.flags
  {
    match d
    case Load(_, _) => case Stor(_, _) => case Branch(_, _) => case Jump(_, _) => case RType(_, _, _) =>
    case IType(op, rd, imm) =>
      assert U32(imm) == imm;
  }

  lemma SameName(lines: seq<Line>, base: nat, env: map<string, int>, name: string, here: int, disp: int)
    requires LabelsRight(lines, base, env) && base + Size(lines) <= MEM_WORDS
    requires name in env && disp == env[name] - here
    ensures AddressOf(lines, base, Named(lines, base, env, name)) == (here + disp) % MEM_WORDS
  {
    NamedAddress(lines, base, env, name);
  }

  /** The displacement of a branch by name is the distance to what the name stands for. */
  lemma {:induction false} SameTarget(lines: seq<Line>, base: nat, env: map<string, int>, j: nat, o: Operand, here: int, disp: int)
    requires LabelsRight(lines, base, env) && base + Size(lines) <= MEM_WORDS && j < |lines|
    requires here == base + Words(lines, j) && Displacement(o, env, here) == Ok(disp)
    ensures AddressOf(lines, base, Target(lines, base, env, j, o)) == (here + disp) % MEM_WORDS
  {
    match o
    case Sym(name) => SameName(lines, base, env, name, here, disp);
    case Reg(_, text) => SameName(lines, base, env, text, here, disp);
    case Num(_) => LocateAddress(lines, base, (here + disp) % MEM_WORDS);
    case Hash(_) => LocateAddress(lines, base, (here + disp) % MEM_WORDS);
  }

  /** A branch or jump not taken, and every other instruction, goes to the next word. */
  lemma FallsThrough(lines: seq<Line>, base: nat, j: nat)
    requires base + Size(lines) <= MEM_WORDS && j < |lines| && Emits(lines[j])
    ensures AddressOf(lines, base, FirstFrom(lines, base, j + 1)) == (base + Words(lines, j) + 1) % MEM_WORDS
  {
    FirstFromAddress(lines, base, j + 1);
  }

  lemma {:induction false} SameControl(lines: seq<Line>, base: nat, env: map<string, int>, s: Src, m: Machine, j: nat, d: Instr)
    requires LabelsRight(lines, base, env) && base + Size(lines) <= MEM_WORDS
    requires Agrees(lines, base, s, m) && s.loc == At(j) && j < |lines| && Emits(lines[j])
    requires Resolves(lines[j].stmt, Words(lines, j), env, base, d) && InRange(d)
    ensures NextPc(m, d) == AddressOf(lines, base, Goes(lines, base, env, s, j))
  {
    var stmt, k := lines[j].stmt, Words(lines, j);
    ResolvesAsMeant(stmt, k, env, base, d);
    if stmt.mnemonic.B? {
      SameTarget(lines, base, env, j, stmt.operands[0], m.pc, d.disp);
      BranchControl(lines, base, env, s, m, j, d);
    } else {
      OtherControl(lines, base, env, s, m, j, d);
    }
  }

  lemma {:induction false} BranchControl(lines: seq<Line>, base: nat, env: map<string, int>, s: Src, m: Machine, j: nat, d: Instr)
    requires base + Size(lines) <= MEM_WORDS && j < |lines| && Emits(lines[j])
    requires s.flags == m.flags && m.pc == base + Words(lines, j)
    requires lines[j].stmt.mnemonic.B? && |lines[j].stmt.operands| == 1
    requires d.Branch? && d.cond == lines[j].stmt.mnemonic.cond && InRange(d)
    requires AddressOf(lines, base, Target(lines, base, env, j, lines[j].stmt.operands[0])) == (m.pc + d.disp) % MEM_WORDS
    ensures NextPc(m, d) == AddressOf(lines, base, Goes(lines, base, env, s, j))
  {
    FallsThrough(lines, base, j);
  }

  lemma {:induction false} OtherControl(lines: seq<Line>, base: nat, env: map<string, int>, s: Src, m: Machine, j: nat, d: Instr)
    requires base + Size(lines) <= MEM_WORDS && j < |lines| && Emits(lines[j])
    requires s.flags == m.flags && s.regs == m.regs && m.pc == base + Words(lines, j)
    requires !lines[j].stmt.mnemonic.B? && !d.Halt? && !d.Undefined? && InRange(d)
    requires if d.Branch? then d == Meant(lines[j].stmt, env, d.disp) else d == Meant(lines[j].stmt, env, 0)
    ensures NextPc(m, d) == AddressOf(lines, base, Goes(lines, base, env, s, j))
  {
    FallsThrough(lines, base, j);
    if d.Jump? {
      LocateAddress(lines, base, s.regs.Get(d.rt) % MEM_WORDS);
    }
  }

  /** What the counters hold makes no difference to what an instruction does. */
  lemma SameExec(m: Machine, m0: Machine, d: Instr)
    requires Valid(m) && InRange(d) && m0 == m.(cycles := 0, instructions := 0, polls := 0)
    ensures NextPc(m0, d) == NextPc(m, d) && NextRegs(m0, d) == NextRegs(m, d)
    ensures NextMem(m0, d) == NextMem(m, d) && NextFlags(m0, d) == NextFlags(m, d)
  {
  }

  lemma StepAgrees(lines: seq<Line>, base: nat, s': Src, m: Machine, d: Instr)
    requires Valid(m) && Fetch(m) == d
    requires s'.regs == NextRegs(m, d) && s'.mem == NextMem(m, d) && s'.flags == NextFlags(m, d)
    requires AddressOf(lines, base, s'.loc) == NextPc(m, d)
    ensures Agrees(lines, base, s', Step(m))
  {
    assert Step(m) == Tick(Exec(m, d), d);
  }

  /** The word of line `j` in the image. */
  lemma {:induction false} WordOfLine(lines: seq<Line>, base: nat, j: nat)
    requires Assemble(lines, base).Ok? && j < |lines| && Emits(lines[j])
    ensures var a, k := Assemble(lines, base).value, Words(lines, j);
            && |a.code| == |a.items| == Size(lines) && k < Size(lines) && a.code[k] != 0
            && Expand(lines[j].stmt, k) == Ok(a.items[k])
            && EncodeItem(a.items[k], a.symbols, base) == Ok(a.code[k])
  {
    ItemCount(lines, base, |lines|);
    ItemsInOrder(lines, base, |lines|, j);
    WordsGrow(lines, j, |lines|);
    var a := Assemble(lines, base).value;
    assert a.code[Words(lines, j)] in a.code;
  }

  lemma {:induction false} DataStep(lines: seq<Line>, base: nat, env: map<string, int>, s: Src, j: nat, w: Word)
    requires Placeable(lines, base, s) && s.loc == At(j) && base + Words(lines, j) < MEM_WORDS
    requires lines[j].stmt.mnemonic.WORD? && |lines[j].stmt.operands| == 1
    requires ParseValue(lines[j].stmt.operands[0], env) == Ok(w)
    ensures SourceStep(lines, base, env, s) == ExecuteData(lines, base, s, j, w)
  {
    assert U32(w) == w;
  }

  lemma DataSimulates(lines: seq<Line>, base: nat, env: map<string, int>, s: Src, m: Machine, j: nat, w: Word)
    requires Placeable(lines, base, s) && Agrees(lines, base, s, m) && s.loc == At(j)
    requires lines[j].stmt.mnemonic.WORD? && |lines[j].stmt.operands| == 1
    requires ParseValue(lines[j].stmt.operands[0], env) == Ok(w) && m.mem[m.pc] == w
    ensures Agrees(lines, base, SourceStep(lines, base, env, s), Step(m))
  {
    var d := Decode(w);
    LocateAddress(lines, base, NextPc(m, d));
    var m0 := m.(cycles := 0, instructions := 0, polls := 0);
    SameExec(m, m0, d);
    assert m0 == Machine(base + Words(lines, j), s.regs, s.mem, s.flags, 0, 0, 0);
    DataStep(lines, base, env, s, j, w);
    StepAgrees(lines, base, ExecuteData(lines, base, s, j, w), m, d);
  }

  /**
    One step.  Whatever line of an accepted program the source is at, one instruction
    of the machine does what the line says and ends where the line goes.
   */
  lemma StepSimulates(lines: seq<Line>, base: nat, s: Src, m: Machine)
    requires Assemble(lines, base).Ok?
    requires Placeable(lines, base, s) && s.loc.At? && Agrees(lines, base, s, m)
    requires var code := Assemble(lines, base).value.code;
             base + |code| <= MEM_WORDS && Holds(m.mem, base, code)
    ensures var env := Assemble(lines, base).value.symbols;
            Agrees(lines, base, SourceStep(lines, base, env, s), Step(m))
    ensures !lines[s.loc.line].stmt.mnemonic.WORD? ==> !Fetch(m).Halt? && !Fetch(m).Undefined?
  {
    var a, j := Assemble(lines, base).value, s.loc.line;
    var k, stmt := Words(lines, j), lines[j].stmt;
    LabelsAreRight(lines, base);
    WordOfLine(lines, base, j);
    assert m.pc == base + k && m.mem[m.pc] == a.code[k];
    if stmt.mnemonic.WORD? {
      DataSimulates(lines, base, a.symbols, s, m, j, a.code[k]);
    } else {
      NotData(stmt, k);
      WordsDecode(lines, base, k);
      var d := Decode(a.code[k]);
      ResolvesAsMeant(stmt, k, a.symbols, base, d);
      SameEffect(a.symbols, s, m, stmt, d);
      SameControl(lines, base, a.symbols, s, m, j, d);
      StepAgrees(lines, base, SourceStep(lines, base, a.symbols, s), m, d);
    }
  }

  lemma NotData(stmt: Stmt, k: nat)
    requires stmt.Stmt? && !stmt.mnemonic.WORD? && Expand(stmt, k).Ok?
    ensures !Expand(stmt, k).value.mnemonic.WORD? && Expand(stmt, k).value.index == k
  {
  }

  // ----- whole runs

  /** The statement leaves the words of the program itself alone. */
  ghost predicate SparesItself(lines: seq<Line>, base: nat, env: map<string, int>, s: Src)
    requires Placeable(lines, base, s) && s.loc.At?
  {
    forall a :: base <= a < base + Size(lines) ==> SourceStep(lines, base, env, s).mem[a] == s.mem[a]
  }

  /** For `n` statements control stays in the program, which never overwrites itself. */
  ghost predicate Behaves(lines: seq<Line>, base: nat, env: map<string, int>, s: Src, n: nat)
    requires Placeable(lines, base, s)
    decreases n
  {
    n > 0 ==>
      && s.loc.At? && SparesItself(lines, base, env, s)
      && Behaves(lines, base, env, SourceStep(lines, base, env, s), n - 1)
  }

  ghost function SourceRun(lines: seq<Line>, base: nat, env: map<string, int>, s: Src, n: nat): (s': Src)
    requires Placeable(lines, base, s) && Behaves(lines, base, env, s, n)
    ensures Placeable(lines, base, s')
    decreases n
  {
    if n == 0 then s else SourceRun(lines, base, env, SourceStep(lines, base, env, s), n - 1)
  }

  /** The assembled image simulates its source, for as long as the source runs. */
  lemma {:induction false} RunSimulates(lines: seq<Line>, base: nat, s: Src, m: Machine, n: nat)
    requires Assemble(lines, base).Ok?
    requires Placeable(lines, base, s) && Agrees(lines, base, s, m)
    requires Behaves(lines, base, Assemble(lines, base).value.symbols, s, n)
    requires var code := Assemble(lines, base).value.code;
             base + |code| <= MEM_WORDS && Holds(m.mem, base, code)
    ensures Agrees(lines, base, SourceRun(lines, base, Assemble(lines, base).value.symbols, s, n), Steps(m, n))
    decreases n
  {
    if n > 0 {
      var a := Assemble(lines, base).value;
      StepSimulates(lines, base, s, m);
      WordOfLine(lines, base, s.loc.line);
      RunSimulates(lines, base, SourceStep(lines, base, a.symbols, s), Step(m), n - 1);
    }
  }

  /** Loading the image puts it where the simulation wants it. */
  lemma {:induction false} PlacedHolds(mem: seq<Word>, code: seq<Word>, base: nat)
    requires |mem| == MEM_WORDS && base + |code| <= MEM_WORDS
    ensures Holds(Placed(mem, code, base), base, code)
    ensures forall a :: 0 <= a < base ==> Placed(mem, code, base)[a] == mem[a]
    decreases |code|
  {
    if code != [] {
      var mem1 := mem[base % MEM_WORDS := U32(code[0])];
      PlacedHolds(mem1, code[1..], base + 1);
      assert Placed(mem, code, base) == Placed(mem1, code[1..], base + 1);
      forall a | base <= a < base + |code|
        ensures Placed(mem, code, base)[a] == code[a - base]
      {
        if a > base {
          assert code[1..][a - (base + 1)] == code[a - base];
        }
      }
    }
  }
}
