/**
  What the program does whatever the host writes outside the image: it never
  leaves words 8..157, never fetches HALT or an undefined word, stores only to
  CFG_RESTART and the output block, and comes back to the loop head within a fixed
  number of instructions.
 */
module Safety {
  import opened Isa
  import opened CpuModel
  import opened Program
  import opened TradingCore
  import opened Flow
  import opened Simulation

  /** What the datapath probe of words 37..44 has established so far. */
  predicate Probed(s: Core) {
    && 8 <= s.pc < 158
    && (s.pc == 38 ==> s.y == 10)
    && (39 <= s.pc <= 40 ==> s.y == 7)
    && (s.pc == 40 ==> s.x == 7)
    && (s.pc == 41 ==> !s.taken)
    && (43 <= s.pc <= 44 ==> s.x == 2)
  }

  /** The words the CPU may store to. */
  predicate Writable(a: int) {
    a == 266 || 320 <= a <= 329
  }

  /** At most writable words differ between the two memories. */
  ghost predicate OnlyOutputs(mem: seq<Word>, mem': seq<Word>) {
    && |mem| == |mem'| == MEM_WORDS
    && forall a :: 0 <= a < MEM_WORDS && !Writable(a) ==> mem'[a] == mem[a]
  }

  /** The most instructions that can pass before the CPU is at the loop head. */
  function Left(pc: int): int {
    if pc <= 46 then 46 - pc
    else if pc <= 62 then 127 - pc
    else if pc <= 67 then (if pc == 63 then 64 else if pc == 64 then 63 else 128 - pc)
    else if pc <= 102 then 128 - pc
    else if pc <= 104 then 105 - pc
    else if pc <= 116 then (if pc <= 113 then 128 - pc else if pc == 114 then 11 else 129 - pc)
    else if pc <= 130 then (if pc <= 127 then 142 - pc else if pc == 128 then 11 else 143 - pc)
    else if pc <= 142 then 143 - pc
    else if pc <= 144 then 153 - pc
    else if pc == 145 then 9
    else if pc <= 153 then 154 - pc
    else 196 - pc
  }

  /** One instruction keeps the probe facts, stores in bounds and makes progress. */
  ghost predicate Progress(s: Core, s': Core) {
    && Probed(s') && OnlyOutputs(s.mem, s'.mem)
    && (s.pc != LOOP ==> Left(s'.pc) < Left(s.pc))
  }

  lemma ProbeProgress(s: Core)
    requires Ram(s) && Probed(s) && 34 <= s.pc < 46
    ensures Progress(s, ProbeStep(s))
  {
    match s.pc
    case 34 => case 35 => case 36 => case 37 => case 38 => case 39 => case 40 => case 41 =>
    case 42 => case 43 => case 44 => case 45 =>
  }

  /** Away from the probe the control flow alone decides. */
  lemma FarProgress(s: Core, s': Core)
    requires Framed(s, s') && Probed(s) && !(34 <= s.pc < 46)
    ensures Progress(s, s')
  {
    StoresOutputs(s.pc);
    FollowsLeft(s.pc, s.taken);
  }

  lemma StoresOutputs(pc: int)
    ensures Stores(pc) == -1 || Writable(Stores(pc))
  {
  }

  lemma FollowsLeft(pc: int, taken: bool)
    requires 8 <= pc < 158 && !(34 <= pc < 46)
    ensures 8 <= Follows(pc, taken) < 158 && !(37 < Follows(pc, taken) < 46)
    ensures pc != LOOP ==> Left(Follows(pc, taken)) < Left(pc)
  {
  }

  lemma CoreProgress(s: Core)
    requires Ram(s) && Probed(s)
    ensures Progress(s, CoreStep(s))
  {
    if 34 <= s.pc < 46 {
      ProbeProgress(s);
    } else {
      Frame(s);
      FarProgress(s, CoreStep(s));
    }
  }

  /** The invariant of every state the machine can be in once it is running. */
  ghost predicate Safe(m: Machine) {
    Loaded(m.mem) && Ready(m) && Probed(View(m))
  }

  /** Any registers and flags will do, as long as the CPU is at word 8. */
  lemma SafeAtEntry(m: Machine)
    requires Valid(m) && m.pc == BASE && Loaded(m.mem)
    ensures Safe(m)
  {
  }

  lemma ImageKept(mem: seq<Word>, mem': seq<Word>)
    requires Loaded(mem) && OnlyOutputs(mem, mem')
    ensures Loaded(mem')
  {
    forall k | BASE <= k < BASE + LEN
      ensures mem'[k] == mem[k]
    {
      assert !Writable(k);
    }
  }

  /**
    One step of a running machine: a defined instruction, three cycles, one step of
    the trading core, no store outside the output block and CFG_RESTART.
   */
  lemma StepSafe(m: Machine)
    requires Safe(m)
    ensures Safe(Step(m)) && View(Step(m)) == CoreStep(View(m))
    ensures !Fetch(m).Halt? && !Fetch(m).Undefined?
    ensures OnlyOutputs(m.mem, Step(m).mem)
    ensures Step(m).cycles == m.cycles + 3 && Step(m).instructions == m.instructions + 1
    ensures m.pc != LOOP ==> Left(Step(m).pc) < Left(m.pc)
  {
    ImageDecodes(m.pc);
    InstructionSim(m);
    var m' := Exec(m, Code(m.pc));
    CoreProgress(View(m));
    ImageKept(m.mem, m'.mem);
    TickHidden(m', Code(m.pc));
  }

  /** The cycle counters are no part of the core. */
  lemma TickHidden(m: Machine, d: Instr)
    requires Valid(m)
    ensures Valid(Tick(m, d)) && View(Tick(m, d)) == View(m) && (Ready(m) ==> Ready(Tick(m, d)))
  {
  }
}
