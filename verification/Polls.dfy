/**
  Decision delivery.  Between restarts the polls account for every decision: one
  plus the missed count is the advance of SIGNAL_SEQ, modulo 2^32.  The three words
  are loaded one at a time, so a poll can mix decisions, but never with one older
  than the sequence number it returns.
 */
module Polls {
  import opened Isa
  import opened TradingCore
  import opened Strategy
  import opened Board
  import opened Refinement

  /** `side` is the side of decision `at`, which may be the one being written out. */
  predicate SideIs(s: Core, ds: seq<Decision>, at: nat, side: Word)
    requires Ram(s)
  {
    && 1 <= at <= |ds| + 1
    && (if at <= |ds| then ds[at - 1].side == side else 133 <= s.pc <= 141 && s.mem[321] == side)
  }

  predicate TickIs(s: Core, ds: seq<Decision>, at: nat, tick: Word)
    requires Ram(s)
  {
    && 1 <= at <= |ds| + 1
    && (if at <= |ds| then ds[at - 1].tick == tick else 135 <= s.pc <= 141 && s.mem[322] == tick)
  }

  /** What a delivery says is true of the decisions published. */
  predicate Faithful(s: Core, ds: seq<Decision>, v: Delivery)
    requires Ram(s)
  {
    && v.from <= v.to <= v.sideAt && v.to <= v.tickAt && 1 <= v.to <= |ds|
    && v.seq0 == U32(v.to)
    && 1 + v.missed == (v.to - v.from) % W32
    && SideIs(s, ds, v.sideAt, v.side) && TickIs(s, ds, v.tickAt, v.tick)
  }

  /** Each delivery starts where the one before it ended. */
  predicate Chained(got: seq<Delivery>, known: nat) {
    got != [] ==> var v := got[|got| - 1]; v.to == known && Chained(got[..|got| - 1], v.from)
  }

  ghost predicate Polled(s: Core, ds: seq<Decision>, p: Poller) {
    Ram(s) && (p.synced ==>
      && 45 <= s.pc && 0 <= p.stage <= 2
      && p.known <= |ds| && p.signalSeq == U32(p.known)
      && (p.stage >= 1 ==> p.known <= p.to <= |ds| && p.seq0 == U32(p.to) && p.seq0 != p.signalSeq)
      && (p.stage == 2 ==> p.to <= p.sideAt && SideIs(s, ds, p.sideAt, p.side))
      && Chained(p.got, p.known)
      && forall i :: 0 <= i < |p.got| ==> Faithful(s, ds, p.got[i]))
  }

  /** Only the store of SIGNAL_SEQ adds a decision: the one in SIGNAL and SIGNAL_TICK. */
  lemma DecisionsStep(s: Core, g: Log, published: nat)
    requires Refines(s, g) && 45 <= s.pc
    ensures var ds := g.desk.decisions;
            LogStep(s, g, published).desk.decisions ==
            if s.pc == 141 then ds + [Decision(s.mem[321], s.mem[322])] else ds
  {
    if s.pc < 84 {
    } else if s.pc < 105 {
    } else if s.pc <= 141 {
    } else {
    }
  }

  /** The words of the decision being written out stay put until it is published. */
  lemma CpuKeepsWords(s: Core)
    requires Ram(s) && 45 <= s.pc
    ensures 133 <= s.pc < 141 ==> CoreStep(s).pc == s.pc + 1
    ensures 133 <= s.pc <= 141 ==> CoreStep(s).mem[321] == s.mem[321]
    ensures 135 <= s.pc <= 141 ==> CoreStep(s).mem[322] == s.mem[322]
    ensures s.pc != 157 ==> 45 <= CoreStep(s).pc
  {
  }

  lemma CpuPolled(s: Core, g: Log, p: Poller, published: nat)
    requires Refines(s, g) && Polled(s, g.desk.decisions, p)
    ensures Polled(CoreStep(s), LogStep(s, g, published).desk.decisions, PollerNext(p, s, g.desk, Cpu))
  {
    if p.synced {
      DecisionsStep(s, g, published);
      CpuKeepsWords(s);
      var s', ds := CoreStep(s), g.desk.decisions;
      var ds' := LogStep(s, g, published).desk.decisions;
      forall at: nat, w | SideIs(s, ds, at, w)
        ensures SideIs(s', ds', at, w)
      {
      }
      forall at: nat, w | TickIs(s, ds, at, w)
        ensures TickIs(s', ds', at, w)
      {
      }
    }
  }

  /** A host store outside SIGNAL and SIGNAL_TICK. */
  lemma HostPolled(s: Core, ds: seq<Decision>, p: Poller, mem: seq<Word>)
    requires Polled(s, ds, p) && |mem| == MEM_WORDS && mem[321] == s.mem[321] && mem[322] == s.mem[322]
    ensures Polled(s.(mem := mem), ds, p)
  {
  }

  lemma SyncPolled(s: Core, g: Log, p: Poller)
    requires Refines(s, g) && p.stage == 0 && 45 <= s.pc
    ensures Polled(s, g.desk.decisions, PollerNext(p, s, g.desk, PollSync))
  {
  }

  /** Two counters modulo 2^32 differ by the difference of what they count. */
  lemma MissedCount(from: nat, to: nat)
    requires U32(from) != U32(to)
    ensures 1 + U32(U32(to) - U32(from) - 1) == (to - from) % W32
  {
  }

  lemma PollPolled(s: Core, g: Log, p: Poller)
    requires Refines(s, g) && Polled(s, g.desk.decisions, p)
    ensures Polled(s, g.desk.decisions, PollerNext(p, s, g.desk, PollNext))
  {
    if p.synced {
      if p.stage == 2 { LastLoad(s, g, p); } else { EarlyLoad(s, g, p); }
    }
  }

  lemma EarlyLoad(s: Core, g: Log, p: Poller)
    requires Refines(s, g) && Polled(s, g.desk.decisions, p) && p.synced && p.stage < 2
    ensures Polled(s, g.desk.decisions, PollStep(p, s, g.desk))
  {
  }

  lemma LastLoad(s: Core, g: Log, p: Poller)
    requires Refines(s, g) && Polled(s, g.desk.decisions, p) && p.synced && p.stage == 2
    ensures Polled(s, g.desk.decisions, PollStep(p, s, g.desk))
  {
    var p', ds := PollStep(p, s, g.desk), g.desk.decisions;
    MissedCount(p.known, p.to);
    assert p'.got[..|p.got|] == p.got;
    assert Faithful(s, ds, p'.got[|p.got|]);
  }

  // ----- what the application is told adds up

  /** One for each delivery plus what it says was missed. */
  function Accounted(got: seq<Delivery>): nat {
    if got == [] then 0 else Accounted(got[..|got| - 1]) + 1 + got[|got| - 1].missed
  }

  /**
    As long as fewer than 2^32 decisions fall between two successful polls, the
    deliveries account for exactly the advance of the decision count.
   */
  lemma {:induction false} PollsAccount(s: Core, ds: seq<Decision>, got: seq<Delivery>, known: nat)
    requires Ram(s) && got != [] && Chained(got, known)
    requires forall i :: 0 <= i < |got| ==> Faithful(s, ds, got[i]) && got[i].to - got[i].from < W32
    ensures Accounted(got) == known - got[0].from
  {
    var n := |got| - 1;
    if n > 0 {
      PollsAccount(s, ds, got[..n], got[n].from);
    }
    assert Faithful(s, ds, got[n]);
  }
}
