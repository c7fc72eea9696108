/**
  Whole runs against a host that may store anything anywhere outside the image:
  safety, the bound on one pass of the loop, the idle pass, the heartbeat.
 */
module Pass {
  import opened Isa
  import opened CpuModel
  import opened Program
  import opened TradingCore
  import opened Flow
  import opened Simulation
  import opened Safety

  datatype Move = Instruction | HostStore(a: int, v: Word)

  /** The one thing the host must not do. */
  predicate SparesImage(mv: Move) {
    mv.HostStore? ==> 0 <= mv.a < MEM_WORDS && !(8 <= mv.a < 162)
  }

  ghost predicate Spares(moves: seq<Move>) {
    forall i :: 0 <= i < |moves| ==> SparesImage(moves[i])
  }

  function Apply(m: Machine, mv: Move): (m': Machine)
    requires Valid(m) && SparesImage(mv)
    ensures Valid(m')
  {
    if mv.Instruction? then Step(m) else m.(mem := m.mem[mv.a := mv.v])
  }

  ghost function ApplyAll(m: Machine, moves: seq<Move>): (m': Machine)
    requires Valid(m) && Spares(moves)
    ensures Valid(m')
    decreases |moves|
  {
    if moves == [] then m else ApplyAll(Apply(m, moves[0]), moves[1..])
  }

  function Instructions(moves: seq<Move>): nat {
    if moves == [] then 0
    else (if moves[0].Instruction? then 1 else 0) + Instructions(moves[1..])
  }

  lemma StoreSafe(m: Machine, a: int, v: Word)
    requires Safe(m) && 0 <= a < MEM_WORDS && !(8 <= a < 162)
    ensures var m' := m.(mem := m.mem[a := v]); Safe(m') && View(m') == View(m).(mem := m.mem[a := v])
  {
  }

  lemma MoveSafe(m: Machine, mv: Move)
    requires Safe(m) && SparesImage(mv)
    ensures Safe(Apply(m, mv))
  {
    if mv.Instruction? { StepSafe(m); } else { StoreSafe(m, mv.a, mv.v); }
  }

  /**
    Whatever the host stores, a running machine stays safe: its program counter in
    8..157, its image intact, its next instruction defined, three cycles each.
   */
  lemma {:induction false} SafeForever(m: Machine, moves: seq<Move>)
    requires Safe(m) && Spares(moves)
    ensures var m' := ApplyAll(m, moves);
            && Safe(m') && 8 <= m'.pc <= 157 && !Fetch(m').Halt? && !Fetch(m').Undefined?
            && m'.cycles == m.cycles + 3 * Instructions(moves)
            && m'.instructions == m.instructions + Instructions(moves)
            && m'.polls == m.polls
    decreases |moves|
  {
    if moves == [] {
      StepSafe(m);
    } else {
      if moves[0].Instruction? { StepSafe(m); }
      MoveSafe(m, moves[0]);
      SafeForever(Apply(m, moves[0]), moves[1..]);
    }
  }

  // ----- one pass of the loop

  /** Within `Left` instructions the CPU is at the loop head. */
  lemma {:induction false} ReachesLoop(m: Machine, moves: seq<Move>) returns (k: nat)
    requires Safe(m) && Spares(moves) && Left(m.pc) <= Instructions(moves)
    ensures k <= |moves| && ApplyAll(m, moves[..k]).pc == LOOP && Instructions(moves[..k]) <= Left(m.pc)
    decreases |moves|
  {
    if m.pc == LOOP {
      return 0;
    }
    LeftPositive(m.pc);
    MoveSafe(m, moves[0]);
    if moves[0].Instruction? { StepSafe(m); }
    k := ReachesLoop(Apply(m, moves[0]), moves[1..]);
    assert moves[..k + 1][0] == moves[0] && moves[..k + 1][1..] == moves[1..][..k];
    k := k + 1;
  }

  lemma LeftPositive(pc: int)
    requires 8 <= pc < 158
    ensures 0 <= Left(pc) <= 80 && (pc != LOOP ==> Left(pc) > 0)
  {
  }

  /**
    From the loop head the CPU is back there within 81 instructions, 243 cycles,
    whatever the host stores in the meantime.
   */
  lemma BoundedPass(m: Machine, moves: seq<Move>) returns (k: nat)
    requires Safe(m) && m.pc == LOOP && Spares(moves) && Instructions(moves) >= 81
    ensures k <= |moves| && 0 < Instructions(moves[..k]) <= 81
    ensures var m' := ApplyAll(m, moves[..k]); m'.pc == LOOP && m'.cycles <= m.cycles + 243
  {
    k := LeavesLoop(m, moves);
    SafeForever(m, moves[..k]);
  }

  lemma {:induction false} LeavesLoop(m: Machine, moves: seq<Move>) returns (k: nat)
    requires Safe(m) && m.pc == LOOP && Spares(moves) && Instructions(moves) >= 81
    ensures k <= |moves| && 0 < Instructions(moves[..k]) <= 81 && ApplyAll(m, moves[..k]).pc == LOOP
    decreases |moves|
  {
    MoveSafe(m, moves[0]);
    var m1 := Apply(m, moves[0]);
    if moves[0].Instruction? {
      StepSafe(m);
      LeftPositive(m1.pc);
      k := ReachesLoop(m1, moves[1..]);
    } else {
      k := LeavesLoop(m1, moves[1..]);
    }
    assert moves[..k + 1][0] == moves[0] && moves[..k + 1][1..] == moves[1..][..k];
    k := k + 1;
  }

  // ----- the same moves on the trading core

  function CoreMove(s: Core, mv: Move): (s': Core)
    requires Ram(s) && SparesImage(mv)
    ensures Ram(s')
  {
    if mv.Instruction? then CoreStep(s) else s.(mem := s.mem[mv.a := mv.v])
  }

  ghost function CoreMoves(s: Core, moves: seq<Move>): (s': Core)
    requires Ram(s) && Spares(moves)
    ensures Ram(s')
    decreases |moves|
  {
    if moves == [] then s else CoreMoves(CoreMove(s, moves[0]), moves[1..])
  }

  lemma MoveView(m: Machine, mv: Move)
    requires Safe(m) && SparesImage(mv)
    ensures Safe(Apply(m, mv)) && View(Apply(m, mv)) == CoreMove(View(m), mv)
  {
    if mv.Instruction? { StepSafe(m); } else { StoreSafe(m, mv.a, mv.v); }
  }

  lemma {:induction false} MovesView(m: Machine, moves: seq<Move>)
    requires Safe(m) && Spares(moves)
    ensures Safe(ApplyAll(m, moves)) && View(ApplyAll(m, moves)) == CoreMoves(View(m), moves)
    decreases |moves|
  {
    if moves != [] {
      MoveView(m, moves[0]);
      MovesView(Apply(m, moves[0]), moves[1..]);
    }
  }

  // ----- the idle pass

  /** Nothing to do: no restart request, no new fill, no new quote. */
  predicate Quiet(s: Core)
    requires Ram(s)
  {
    s.mem[266] == 0 && s.mem[267] == s.seen && s.mem[256] == s.tick
  }

  /** The word the idle pass is at after `j` of its 13 instructions. */
  function IdleWord(j: int): int {
    if j <= 9 then 46 + j else if j <= 12 then 58 + j else LOOP
  }

  predicate Idling(s: Core, j: int) {
    && Ram(s) && Quiet(s) && 0 <= j <= 13 && s.pc == IdleWord(j)
    && (j == 4 ==> s.y == 0)
    && (j == 5 ==> !s.taken)
    && (j == 8 ==> s.y == s.seen)
    && (j == 9 ==> s.taken)
    && (j == 11 ==> s.x == s.tick)
    && (j == 12 ==> s.taken)
  }

  lemma IdleStep(s: Core, j: int)
    requires Idling(s, j) && j < 13
    ensures Idling(CoreStep(s), j + 1)
  {
    match j
    case 0 => case 1 => case 2 => case 3 => case 4 => case 5 => case 6 =>
    case 7 => case 8 => case 9 => case 10 => case 11 => case 12 =>
  }

  /** The host leaves the three words alone that would end the idling. */
  ghost predicate LeavesQuiet(moves: seq<Move>) {
    forall i :: 0 <= i < |moves| && moves[i].HostStore? ==> moves[i].a !in {256, 266, 267}
  }

  /**
    An idle pass is exactly 13 instructions, 39 cycles: after j of them the CPU is at
    a known word, which is the loop head again only for j = 13.
   */
  lemma {:induction false} IdlePass(m: Machine, j: int, moves: seq<Move>)
    requires Safe(m) && Idling(View(m), j) && Spares(moves) && LeavesQuiet(moves)
    requires j + Instructions(moves) <= 13
    ensures var m', j' := ApplyAll(m, moves), j + Instructions(moves);
            && Safe(m') && Idling(View(m'), j') && m'.pc == IdleWord(j')
            && m'.cycles == m.cycles + 3 * Instructions(moves)
            && (0 < j' < 13 ==> m'.pc != LOOP)
  {
    SafeForever(m, moves);
    MovesView(m, moves);
    CoreIdle(View(m), j, moves);
  }

  lemma {:induction false} CoreIdle(s: Core, j: int, moves: seq<Move>)
    requires Idling(s, j) && Spares(moves) && LeavesQuiet(moves) && j + Instructions(moves) <= 13
    ensures Idling(CoreMoves(s, moves), j + Instructions(moves))
    decreases |moves|
  {
    if moves != [] {
      if moves[0].Instruction? {
        IdleStep(s, j);
        CoreIdle(CoreStep(s), j + 1, moves[1..]);
      } else {
        CoreIdle(CoreMove(s, moves[0]), j, moves[1..]);
      }
    }
  }

  // ----- the heartbeat

  /** The CPU does not get to the restart at word 154. */
  ghost predicate StaysUp(s: Core, moves: seq<Move>)
    requires Ram(s) && Spares(moves)
    decreases |moves|
  {
    s.pc < 154 && (moves != [] ==> StaysUp(CoreMove(s, moves[0]), moves[1..]))
  }

  /** How often the CPU comes back to the loop head. */
  ghost function Returns(s: Core, moves: seq<Move>): nat
    requires Ram(s) && Spares(moves)
    decreases |moves|
  {
    if moves == [] then 0
    else
      var s1 := CoreMove(s, moves[0]);
      (if moves[0].Instruction? && s1.pc == LOOP then 1 else 0) + Returns(s1, moves[1..])
  }

  /** The host leaves HEARTBEAT alone. */
  ghost predicate LeavesBeat(moves: seq<Move>) {
    forall i :: 0 <= i < |moves| && moves[i].HostStore? ==> moves[i].a != 320
  }

  /**
    In the pass that began with the beat at `h`: word 46 counts, word 47 stores.  The
    word itself shows `h` until then, unless this is the first pass after a start.
   */
  predicate Beating(s: Core, h: int, first: bool) {
    && Ram(s) && 46 <= s.pc < 154
    && s.beat == U32(if s.pc == 46 then h else h + 1)
    && (s.pc > 47 ==> s.mem[320] == U32(h + 1))
    && (s.pc <= 47 && !first ==> s.mem[320] == U32(h))
  }

  lemma FarBeats(s: Core, s': Core, h: int, first: bool)
    requires Framed(s, s') && Beating(s, h, first) && s.pc != 46 && s.pc != 47 && s'.pc < 154
    ensures if s'.pc == LOOP then Beating(s', h + 1, false) else Beating(s', h, first)
  {
  }

  lemma BeatMove(s: Core, h: int, first: bool, mv: Move)
    requires Beating(s, h, first) && SparesImage(mv) && CoreMove(s, mv).pc < 154
    requires mv.HostStore? ==> mv.a != 320
    ensures var s' := CoreMove(s, mv);
            if mv.Instruction? && s'.pc == LOOP then Beating(s', h + 1, false) else Beating(s', h, first)
  {
    WrapsOnce(h);
    if mv.Instruction? && s.pc != 46 && s.pc != 47 {
      Frame(s);
      FarBeats(s, CoreStep(s), h, first);
    }
  }

  /** After `n` returns to the loop head the pass under way began at h + n. */
  lemma {:induction false} BeatsOn(s: Core, h: int, first: bool, moves: seq<Move>)
    requires Beating(s, h, first) && Spares(moves) && LeavesBeat(moves) && StaysUp(s, moves)
    ensures var n := Returns(s, moves); Beating(CoreMoves(s, moves), h + n, first && n == 0)
    decreases |moves|
  {
    if moves != [] {
      var mv, s1 := moves[0], CoreMove(s, moves[0]);
      BeatMove(s, h, first, mv);
      if mv.Instruction? && s1.pc == LOOP {
        BeatsOn(s1, h + 1, false, moves[1..]);
      } else {
        BeatsOn(s1, h, first, moves[1..]);
      }
    }
  }

  lemma WrapsOnce(v: int)
    ensures U32(U32(v) + 1) == U32(v + 1)
  {
  }

  /**
    From the loop head, as long as no restart is taken: at each return HEARTBEAT is the
    count the CPU began with plus the number of passes, one for each.  Only in the
    first pass after a start is the word not yet the CPU's count.
   */
  lemma {:induction false} HeartbeatCounts(m: Machine, moves: seq<Move>)
    requires Safe(m) && m.pc == LOOP
    requires Spares(moves) && LeavesBeat(moves) && StaysUp(View(m), moves)
    ensures var m', h, n := ApplyAll(m, moves), View(m).beat, Returns(View(m), moves);
            && (m'.pc > 47 ==> m'.mem[320] == U32(h + n + 1))
            && (m'.pc <= 47 && (n > 0 || m.mem[320] == h) ==> m'.mem[320] == U32(h + n))
            && (m'.pc == LOOP ==> View(m').beat == U32(h + n))
  {
    MovesView(m, moves);
    BeatsOn(View(m), View(m).beat, m.mem[320] != View(m).beat, moves);
  }
}
