/**
  The CPU and its 1024-word shared RAM.

  `Machine` is the architectural state as a value and `Step` its transition; the
  class `Cpu` updates the same state in place and is proved to follow `Step`.
 */
module CpuModel {
  import opened Isa
  import opened Arith

  datatype Flags = Flags(z: bool, c: bool, f: bool, l: bool, n: bool)

  const CLEAR := Flags(false, false, false, false, false)

  // ----- bitwise operations, digit by digit

  function And(a: nat, b: nat): (r: nat)
    ensures b == 1 ==> r == a % 2
  {
    if a == 0 || b == 0 then 0
    else (if a % 2 == 1 && b % 2 == 1 then 1 else 0) + 2 * And(a / 2, b / 2)
  }

  function Or(a: nat, b: nat): nat {
    if a == 0 then b else if b == 0 then a
    else (if a % 2 == 1 || b % 2 == 1 then 1 else 0) + 2 * Or(a / 2, b / 2)
  }

  function Xor(a: nat, b: nat): (r: nat)
    ensures a == b ==> r == 0
  {
    if a == 0 then b else if b == 0 then a
    else (if a % 2 != b % 2 then 1 else 0) + 2 * Xor(a / 2, b / 2)
  }

  /** None of the three sets a bit above the width of its operands. */
  lemma {:induction false} BitwiseWidth(n: nat, a: nat, b: nat)
    requires a < Pow2(n) && b < Pow2(n)
    ensures And(a, b) < Pow2(n) && Or(a, b) < Pow2(n) && Xor(a, b) < Pow2(n)
  {
    if n > 0 {
      BitwiseWidth(n - 1, a / 2, b / 2);
    }
  }

  function And32(a: Word, b: Word): (r: Word)
    ensures b == 1 ==> r == a % 2
  {
    Pow2Values();
    BitwiseWidth(32, a, b);
    And(a, b)
  }

  function Or32(a: Word, b: Word): Word {
    Pow2Values();
    BitwiseWidth(32, a, b);
    Or(a, b)
  }

  function Xor32(a: Word, b: Word): (r: Word)
    ensures a == b ==> r == 0
  {
    Pow2Values();
    BitwiseWidth(32, a, b);
    Xor(a, b)
  }

  /** A shift by a signed five-bit count: left when non-negative, else right. */
  function Shift(arithmetic: bool, a: Word, b: Word): Word {
    var sa5 := b % 32;
    var amount := if sa5 >= 16 then sa5 - 32 else sa5;
    if amount >= 0 then U32(a * Pow2(amount))
    else if arithmetic then U32(S32(a) / Pow2(-amount))
    else U32(a / Pow2(-amount))
  }

  predicate Neg(a: Word) {
    a >= H31
  }

  /** The result of one ALU operation. */
  function AluResult(op: Op, a: Word, b: Word, cin: int := 0): Word {
    match op
    case AND => And32(a, b)
    case OR => Or32(a, b)
    case XOR => Xor32(a, b)
    case MOV => b
    case MUL => U32(a * b)
    case ADDU => U32(a + b)
    case ADD => U32(a + b)
    case ADDC => U32(a + b + cin % 2)
    case SUB => U32(a - b)
    case SUBC => U32(a - U32(b + (1 - cin % 2)))
    case CMP => 0
    case LSH => Shift(false, a, b)
    case ASH => Shift(true, a, b)
    case NoOp(_) => 0
  }

  /** The flags an addition of `b` to `a` leaves, with or without the carry flag. */
  function AddFlags(a: Word, b: Word, r: Word, carry: bool): Flags {
    Flags(r == 0, carry, Neg(a) == Neg(b) && Neg(r) != Neg(a), false, Neg(r))
  }

  /** The flags a subtraction leaves; the carry is the inverted borrow. */
  function SubFlags(a: Word, b: Word, r: Word): Flags {
    Flags(r == 0, a >= b, Neg(a) != Neg(b) && Neg(a) != Neg(r), a < b, Neg(r))
  }

  /** The flags one ALU operation leaves; those it does not assign read as zero. */
  function AluFlags(op: Op, a: Word, b: Word, cin: int := 0): Flags {
    match op
    case ADDU => CLEAR.(c := a + b >= W32, z := U32(a + b) == 0)
    case ADD => AddFlags(a, b, U32(a + b), false)
    case ADDC => AddFlags(a, U32(b + cin % 2), AluResult(op, a, b, cin), a + b + cin % 2 >= W32)
    case SUB => SubFlags(a, b, U32(a - b))
    case SUBC => SubFlags(a, U32(b + (1 - cin % 2)), AluResult(op, a, b, cin))
    case CMP => CLEAR.(z := a == b, n := S32(a) < S32(b), l := a < b)
    case _ => CLEAR
  }

  /** Whether the operation writes its result back: all but CMP and unknown codes. */
  predicate WritesResult(op: Op) {
    !op.CMP? && !op.NoOp?
  }

  // ----- machine state and transition

  /** The register file. */
  datatype Regs = Regs(
    r0: Word, r1: Word, r2: Word, r3: Word, r4: Word, r5: Word, r6: Word, r7: Word,
    r8: Word, r9: Word, r10: Word, r11: Word, r12: Word, r13: Word, r14: Word, r15: Word)
  {
    function Get(i: int): Word
      requires 0 <= i < 16
    {
      match i
      case 0 => r0
      case 1 => r1
      case 2 => r2
      case 3 => r3
      case 4 => r4
      case 5 => r5
      case 6 => r6
      case 7 => r7
      case 8 => r8
      case 9 => r9
      case 10 => r10
      case 11 => r11
      case 12 => r12
      case 13 => r13
      case 14 => r14
      case _ => r15
    }

    function Set(i: int, v: Word): Regs
      requires 0 <= i < 16
    {
      match i
      case 0 => this.(r0 := v)
      case 1 => this.(r1 := v)
      case 2 => this.(r2 := v)
      case 3 => this.(r3 := v)
      case 4 => this.(r4 := v)
      case 5 => this.(r5 := v)
      case 6 => this.(r6 := v)
      case 7 => this.(r7 := v)
      case 8 => this.(r8 := v)
      case 9 => this.(r9 := v)
      case 10 => this.(r10 := v)
      case 11 => this.(r11 := v)
      case 12 => this.(r12 := v)
      case 13 => this.(r13 := v)
      case 14 => this.(r14 := v)
      case _ => this.(r15 := v)
    }
  }

  datatype Machine = Machine(
    pc: int, regs: Regs, mem: seq<Word>, flags: Flags,
    cycles: nat, instructions: nat, polls: nat)

  predicate Valid(m: Machine) {
    0 <= m.pc < MEM_WORDS && |m.mem| == MEM_WORDS
  }

  function Fetch(m: Machine): Instr
    requires Valid(m)
  {
    Decode(m.mem[m.pc])
  }

  function NextRegs(m: Machine, d: Instr): Regs
    requires Valid(m) && InRange(d)
  {
    match d
    case RType(op, rd, rs) =>
      if WritesResult(op) then m.regs.Set(rd, AluResult(op, m.regs.Get(rd), m.regs.Get(rs))) else m.regs
    case IType(op, rd, imm) =>
      if WritesResult(op) then m.regs.Set(rd, AluResult(op, m.regs.Get(rd), imm)) else m.regs
    case Load(rd, ra) => m.regs.Set(rd, m.mem[m.regs.Get(ra) % MEM_WORDS])
    case _ => m.regs
  }

  function NextMem(m: Machine, d: Instr): seq<Word>
    requires Valid(m) && InRange(d)
  {
    match d
    case Stor(rs, ra) => m.mem[m.regs.Get(ra) % MEM_WORDS := m.regs.Get(rs)]
    case _ => m.mem
  }

  function NextFlags(m: Machine, d: Instr): Flags
    requires InRange(d)
  {
    match d
    case RType(op, rd, rs) => AluFlags(op, m.regs.Get(rd), m.regs.Get(rs))
    case IType(op, rd, imm) => AluFlags(op, m.regs.Get(rd), imm)
    case _ => m.flags
  }

  function NextPc(m: Machine, d: Instr): int
    requires InRange(d)
  {
    match d
    case Halt => m.pc
    case Undefined => m.pc
    case Branch(c, disp) =>
      (if Taken(c, m.flags.z, m.flags.n) then m.pc + disp else m.pc + 1) % MEM_WORDS
    case Jump(c, rt) =>
      (if Taken(c, m.flags.z, m.flags.n) then m.regs.Get(rt) else m.pc + 1) % MEM_WORDS
    case _ => (m.pc + 1) % MEM_WORDS
  }

  /** The effect of instruction `d` at `m.pc`, apart from the counters. */
  function Exec(m: Machine, d: Instr): (m': Machine)
    requires Valid(m) && InRange(d)
    ensures Valid(m')
  {
    m.(pc := NextPc(m, d), regs := NextRegs(m, d), mem := NextMem(m, d), flags := NextFlags(m, d))
  }

  /** Three cycles an instruction, one cycle a halt poll. */
  function Tick(m: Machine, d: Instr): Machine {
    if d.Halt? then m.(cycles := m.cycles + 1, polls := m.polls + 1)
    else m.(cycles := m.cycles + 3, instructions := m.instructions + 1)
  }

  /** One instruction or one halt poll.  An undefined word leaves the CPU where it is. */
  function Step(m: Machine): (m': Machine)
    requires Valid(m)
    ensures Valid(m')
  {
    Tick(Exec(m, Fetch(m)), Fetch(m))
  }

  function Steps(m: Machine, n: nat): (m': Machine)
    requires Valid(m)
    ensures Valid(m')
    decreases n
  {
    if n == 0 then m else Steps(Step(m), n - 1)
  }

  /** The memory after `words` are stored one by one from `base` on. */
  function Placed(mem: seq<Word>, words: seq<int>, base: nat): (mem': seq<Word>)
    requires |mem| == MEM_WORDS
    ensures |mem'| == MEM_WORDS
    decreases |words|
  {
    if words == [] then mem
    else Placed(mem[base % MEM_WORDS := U32(words[0])], words[1..], base + 1)
  }

  // ----- the CPU as an object

  class Cpu {
    var pc: int
    const regs: array<Word>
    const mem: array<Word>
    var flags: Flags
    var cycles: nat
    var instructions: nat
    var polls: nat

    ghost predicate Ok()
      reads this, regs, mem
    {
      0 <= pc < MEM_WORDS && regs.Length == 16 && mem.Length == MEM_WORDS
    }

    ghost function Snapshot(): Regs
      reads regs
      requires regs.Length == 16
    {
      Regs(regs[0], regs[1], regs[2], regs[3], regs[4], regs[5], regs[6], regs[7],
           regs[8], regs[9], regs[10], regs[11], regs[12], regs[13], regs[14], regs[15])
    }

    ghost function State(): (m: Machine)
      reads this, regs, mem
      requires Ok()
      ensures Valid(m)
    {
      Machine(pc, Snapshot(), mem[..], flags, cycles, instructions, polls)
    }

    /** A CPU at `entry` whose registers hold `poison` and whose RAM is zeroed. */
    constructor (entry: int, poison: Word)
      ensures Ok() && fresh(regs) && fresh(mem)
      ensures pc == entry % MEM_WORDS && flags == CLEAR
      ensures cycles == instructions == polls == 0
      ensures forall r :: 0 <= r < 16 ==> regs[r] == poison
      ensures forall k :: 0 <= k < MEM_WORDS ==> mem[k] == 0
    {
      pc := entry % MEM_WORDS;
      regs := new Word[16](_ => poison);
      mem := new Word[MEM_WORDS](_ => 0);
      flags := CLEAR;
      cycles, instructions, polls := 0, 0, 0;
    }

    method Write(addr: nat, value: int)
      requires Ok()
      modifies mem
      ensures Ok() && State() == old(State()).(mem := old(mem[..])[addr % MEM_WORDS := U32(value)])
    {
      mem[addr % MEM_WORDS] := U32(value);
    }

    /** The words land at `base` onwards, wrapping at the end of the RAM. */
    method LoadProgram(words: seq<int>, base: nat)
      requires Ok()
      modifies mem
      ensures Ok() && State() == old(State()).(mem := Placed(old(mem[..]), words, base))
    {
      var i := 0;
      while i < |words|
        invariant 0 <= i <= |words| && Ok()
        invariant Placed(mem[..], words[i..], base + i) == Placed(old(mem[..]), words, base)
      {
        ghost var before := mem[..];
        mem[(base + i) % MEM_WORDS] := U32(words[i]);
        assert mem[..] == before[(base + i) % MEM_WORDS := U32(words[i])];
        assert words[i..][1..] == words[i + 1..];
        i := i + 1;
      }
    }

    /** One step in place; `stalled` is the undefined-instruction exception. */
    method StepOnce() returns (d: Instr, stalled: bool)
      requires Ok()
      modifies this, regs, mem
      ensures Ok() && State() == Step(old(State()))
      ensures d == Fetch(old(State())) && stalled == d.Undefined?
    {
      d := Decode(mem[pc]);
      stalled := d.Undefined?;
      if d.Halt? {
        cycles, polls := cycles + 1, polls + 1;
        return;
      }
      ExecuteInPlace(d);
      cycles, instructions := cycles + 3, instructions + 1;
    }

    function Read(i: int): (v: Word)
      reads regs
      requires regs.Length == 16 && 0 <= i < 16
      ensures v == Snapshot().Get(i)
    {
      regs[i]
    }

    method WriteBack(i: int, v: Word)
      requires Ok() && 0 <= i < 16
      modifies regs
      ensures Ok() && Snapshot() == old(Snapshot()).Set(i, v)
    {
      regs[i] := v;
    }

    method Compute(op: Op, rd: int, b: Word)
      requires Ok() && 0 <= rd < 16
      modifies this`flags, regs
      ensures Ok() && flags == AluFlags(op, old(Snapshot()).Get(rd), b)
      ensures Snapshot() == if WritesResult(op)
                            then old(Snapshot()).Set(rd, AluResult(op, old(Snapshot()).Get(rd), b))
                            else old(Snapshot())
    {
      var a := Read(rd);
      flags := AluFlags(op, a, b);
      if WritesResult(op) {
        WriteBack(rd, AluResult(op, a, b));
      }
    }

    /** The instruction's effect on registers, flags, memory and program counter. */
    method ExecuteInPlace(d: Instr)
      requires Ok() && InRange(d) && !d.Halt?
      modifies this`pc, this`flags, regs, mem
      ensures Ok() && State() == Exec(old(State()), d)
    {
      var next := (pc + 1) % MEM_WORDS;
      match d {
        case RType(op, rd, rs) => Compute(op, rd, Read(rs));
        case IType(op, rd, imm) => Compute(op, rd, imm);
        case Load(rd, ra) => WriteBack(rd, mem[Read(ra) % MEM_WORDS]);
        case Stor(rs, ra) => mem[Read(ra) % MEM_WORDS] := Read(rs);
        case Branch(c, disp) =>
          if Taken(c, flags.z, flags.n) { next := (pc + disp) % MEM_WORDS; }
        case Jump(c, rt) =>
          if Taken(c, flags.z, flags.n) { next := Read(rt) % MEM_WORDS; }
        case Undefined => next := pc;
      }
      pc := next;
    }

    /**
      Run until `budget` instructions have been executed, the halt polls in a row
      exceed `maxPolls`, or the CPU stalls.  The state is that of so many steps.
     */
    method Run(budget: nat, maxPolls: nat) returns (executed: nat, ghost steps: nat, stuck: bool)
      requires Ok()
      modifies this, regs, mem
      ensures Ok() && State() == Steps(old(State()), steps)
      ensures !stuck ==> executed == budget && instructions == old(instructions) + budget
    {
      executed, steps, stuck := 0, 0, false;
      var inARow := 0;
      while executed < budget
        invariant Ok() && 0 <= executed <= budget && inARow <= maxPolls
        invariant State() == Steps(old(State()), steps)
        invariant instructions == old(instructions) + executed
        decreases budget - executed, maxPolls - inARow
      {
        StepsSnoc(old(State()), steps);
        var d, stalled := StepOnce();
        steps := steps + 1;
        if stalled { return executed, steps, true; }
        if d.Halt? {
          if inARow == maxPolls { return executed, steps, true; }
          inARow := inARow + 1;
        } else {
          inARow, executed := 0, executed + 1;
        }
      }
    }
  }

  lemma {:induction false} StepsSnoc(m: Machine, n: nat)
    requires Valid(m)
    ensures Steps(m, n + 1) == Step(Steps(m, n))
    decreases n
  {
    if n == 0 {
      assert Steps(m, 1) == Steps(Step(m), 0);
    } else {
      StepsSnoc(Step(m), n - 1);
    }
  }
}
