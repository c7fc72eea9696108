/**
  How long a published quote can wait.  If no newer quote goes out and no restart is
  taken, a quote that stands in memory is worked through, its decision published or
  refused, within 140 instructions, 420 cycles, whatever the CPU was doing; from the
  loop head within 81.
 */
module Latency {
  import opened Isa
  import opened Program
  import opened TradingCore
  import opened Flow
  import opened Safety
  import opened Strategy
  import opened Board
  import opened Seqlock
  import opened System
  import opened Reports

  /** Quote number `q` is in the record. */
  ghost predicate InRecord(g: Log, q: Word) {
    exists i :: 0 <= i < |g.events| && g.events[i].Quote? && g.events[i].tick == q
  }

  /** The read under way, if any, is of quote `q` and will succeed. */
  predicate Hopeful(s: Core, q: Word) {
    && 46 <= s.pc < 84
    && (s.pc >= 69 ==> s.x == q)
    && (s.pc == 70 || s.pc == 74 || s.pc == 82 ==> !s.taken)
    && (s.pc == 72 ==> s.y == q)
    && (s.pc == 73 ==> s.y == 0)
    && (s.pc == 81 ==> s.y == q)
  }

  /** Instructions until word 83 has been executed, on the longest way there. */
  function ToAccept(pc: int): int {
    if pc <= 62 then 83 - pc else if pc == 63 then 20 else if pc <= 65 then 19 else 84 - pc
  }

  function ToWait(s: Core, q: Word): int {
    if Hopeful(s, q) then ToAccept(s.pc) else Left(s.pc) + 37
  }

  /** The most instructions until the quote is in the record. */
  ghost function ToRecord(s: Core, g: Log, q: Word): int {
    if InRecord(g, q) then 0 else if s.tick == q then Left(s.pc) else ToWait(s, q) + 44
  }

  /** An accepted quote that is not in the record is being worked on. */
  ghost predicate Owed(s: Core, g: Log, q: Word) {
    s.tick == q ==> InRecord(g, q) || InFlight(s.pc)
  }

  lemma HeadWaits(s: Core, q: Word)
    requires Ram(s) && 46 <= s.pc < 68 && CoreStep(s).pc < 154
    ensures var s' := CoreStep(s); Hopeful(s', q) && ToAccept(s'.pc) < ToAccept(s.pc) && s'.tick == s.tick
  {
    Frame(s);
  }

  lemma ReadWaits(s: Core, q: Word)
    requires Ram(s) && 68 <= s.pc < 84 && Hopeful(s, q) && s.mem[256] == q && q % 2 == 0 && s.tick != q
    ensures var s' := CoreStep(s); s'.tick == q || (Hopeful(s', q) && ToAccept(s'.pc) < ToAccept(s.pc))
  {
    match s.pc
    case 68 => case 69 => case 70 => case 71 => case 72 => case 73 => case 74 => case 75 =>
    case 76 => case 77 => case 78 => case 79 => case 80 => case 81 => case 82 => case 83 =>
  }

  /** A pass that does not see the quote ends, and the next one is hopeful. */
  lemma OtherWaits(s: Core, s': Core, q: Word)
    requires Framed(s, s') && 68 <= s.pc < 154 && s'.pc < 154 && !Hopeful(s, q)
    ensures ToWait(s', q) < ToWait(s, q)
  {
    FollowsLeft(s.pc, s.taken);
    LoopRange(s.pc, s.taken);
  }

  lemma LoopRange(pc: int, taken: bool)
    requires 68 <= pc < 154 && Follows(pc, taken) < 154
    ensures Follows(pc, taken) == 46 || 69 <= Follows(pc, taken) < 154
    ensures Left(pc) >= 1 && (69 <= pc < 84 ==> 84 - pc < Left(pc) + 37)
    ensures 69 <= Follows(pc, taken) < 84 ==> ToAccept(Follows(pc, taken)) < Left(pc)
  {
  }

  lemma WaitStep(s: Core, q: Word)
    requires Ram(s) && 46 <= s.pc < 154 && CoreStep(s).pc < 154
    requires s.mem[256] == q && q % 2 == 0 && s.tick != q
    ensures var s' := CoreStep(s); s'.tick == q || ToWait(s', q) < ToWait(s, q)
  {
    if s.pc < 68 {
      HeadWaits(s, q);
    } else if Hopeful(s, q) {
      ReadWaits(s, q);
    } else {
      Frame(s);
      OtherWaits(s, CoreStep(s), q);
    }
  }

  /** Word 83 accepts; leaving the quote again takes an entry in the record. */
  lemma OwedStep(s: Core, g: Log, q: Word, n: nat)
    requires Ram(s) && 46 <= s.pc < 154 && CoreStep(s).pc < 154 && Owed(s, g, q)
    ensures Owed(CoreStep(s), LogStep(s, g, n), q)
    ensures InRecord(g, q) ==> InRecord(LogStep(s, g, n), q)
  {
    Frame(s);
    var g' := LogStep(s, g, n);
    RecordGrows(s, g, n);
    if InRecord(g, q) {
      var i :| 0 <= i < |g.events| && g.events[i].Quote? && g.events[i].tick == q;
      assert g'.events[i] == g.events[i];
    } else if s.tick == q && !InFlight(CoreStep(s).pc) {
      LeavesFlight(s.pc, s.taken);
      assert g'.events[|g.events|].tick == q;
    }
  }

  lemma RecordGrows(s: Core, g: Log, n: nat)
    requires Ram(s) && 46 <= s.pc < 154
    ensures var events := LogStep(s, g, n).events;
            && |events| >= |g.events| && events[..|g.events|] == g.events
            && (Commits(s) ==>
                  |events| == |g.events| + 1 && events[|g.events|].Quote? && events[|g.events|].tick == s.tick)
  {
    LogShape(s, g, n);
  }

  lemma LeavesFlight(pc: int, taken: bool)
    requires 46 <= pc < 154 && InFlight(pc) && !InFlight(Follows(pc, taken))
    ensures ((pc == 85 || pc == 87) && taken) || pc == 103 || pc == 141 || pc == 152
  {
  }

  /** One instruction brings the quote nearer to the record. */
  lemma NearerStep(s: Core, g: Log, q: Word, n: nat)
    requires Ram(s) && 46 <= s.pc < 154 && CoreStep(s).pc < 154
    requires s.mem[256] == q && q % 2 == 0 && Owed(s, g, q) && !InRecord(g, q)
    ensures ToRecord(CoreStep(s), LogStep(s, g, n), q) < ToRecord(s, g, q)
  {
    var s', g' := CoreStep(s), LogStep(s, g, n);
    OwedStep(s, g, q, n);
    Frame(s);
    LeftRange(s.pc);
    LeftRange(s'.pc);
    if s.tick == q {
      FollowsLeft(s.pc, s.taken);
    } else {
      WaitStep(s, q);
      WaitPositive(s, q);
      AcceptedAt(s);
    }
  }

  lemma LeftRange(pc: int)
    requires 46 <= pc < 154
    ensures Left(pc) >= 0 && (pc != 46 ==> Left(pc) >= 1) && (69 <= pc ==> Left(pc) <= 59) && Left(84) == 44
  {
  }

  lemma WaitPositive(s: Core, q: Word)
    requires 46 <= s.pc < 154
    ensures 1 <= ToWait(s, q) <= 96 && (s.pc == LOOP ==> ToWait(s, q) == 37)
  {
    LeftRange(s.pc);
  }

  /** The last quote consumed changes only at word 83, on the way to word 84. */
  lemma AcceptedAt(s: Core)
    requires Ram(s) && 46 <= s.pc < 154
    ensures CoreStep(s).tick != s.tick ==> CoreStep(s).pc == 84
  {
    Frame(s);
  }

  // ----- over a run

  function Instructions(acts: seq<Act>): nat {
    if acts == [] then 0 else (if acts[0].Cpu? then 1 else 0) + Instructions(acts[1..])
  }

  /** No newer quote goes out. */
  predicate NoTick(acts: seq<Act>) {
    forall i :: 0 <= i < |acts| ==> !acts[i].TickBegin? && !acts[i].TickNext?
  }

  lemma HostNearer(b: State, act: Act, q: Word)
    requires Ram(b.core) && Enabled(b, act) && !act.Cpu? && !act.TickNext? && b.core.mem[256] == q
    ensures var b' := Next(b, act);
            && b'.core.mem[256] == q && b'.log == b.log && b'.core == b.core.(mem := b'.core.mem)
  {
    if EffectOf(b, act).Put? {
      HostEffect(b, act);
    }
  }

  /** Within `ToRecord` instructions the quote is in the record, and there it stays. */
  lemma {:induction false} WithinReach(b: State, acts: seq<Act>, q: Word)
    requires Ram(b.core) && Legal(b, acts) && StaysUp(b, acts) && NoTick(acts)
    requires b.core.mem[256] == q && q % 2 == 0 && Owed(b.core, b.log, q)
    requires ToRecord(b.core, b.log, q) <= Instructions(acts)
    ensures InRecord(Run(b, acts).log, q)
    decreases |acts|
  {
    if acts == [] {
      LeftRange(b.core.pc);
      WaitPositive(b.core, q);
    } else {
      var b1 := Next(b, acts[0]);
      if acts[0].Cpu? {
        OwedStep(b.core, b.log, q, Published(b.ticker));
        Frame(b.core);
        if !InRecord(b.log, q) {
          NearerStep(b.core, b.log, q, Published(b.ticker));
        }
      } else {
        HostNearer(b, acts[0], q);
      }
      WithinReach(b1, acts[1..], q);
    }
  }

  /**
    A whole quote stands in memory under `q`, not consumed before.  Whatever the CPU is
    doing in its loop, after 140 instructions without a newer quote or a restart it has
    been worked through; 81 are enough from the loop head.
   */
  lemma {:induction false} QuoteLatency(b: State, acts: seq<Act>, q: Word)
    requires Ram(b.core) && Legal(b, acts) && StaysUp(b, acts) && NoTick(acts)
    requires b.core.mem[256] == q && q % 2 == 0 && b.core.tick != q
    requires Instructions(acts) >= if b.core.pc == LOOP then 81 else 140
    ensures InRecord(Run(b, acts).log, q)
  {
    WaitPositive(b.core, q);
    WithinReach(b, acts, q);
  }
}
