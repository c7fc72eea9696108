/**
  The one way past the seqlock.  If the host makes exactly 2^31 publications between
  the CPU's load of BID and its second read of TICK_SEQ, the counter is back where it
  was, and the CPU accepts the old bid with the new ask.  The run starts from a fresh
  board, so whole pairs are certain exactly below 2^31 publications.
 */
module Lap {
  import opened Isa
  import opened CpuModel
  import opened Program
  import opened TradingCore
  import opened Flow
  import opened Safety
  import opened Strategy
  import opened Board
  import opened Seqlock
  import opened System
  import opened Compose
  import opened Script
  import opened Rounds
  import opened Results
  import Overshoot

  // ----- as far as the load of BID

  /** Between the loop head and the load of BID, a new quote in memory, the host as in `b0`. */
  ghost predicate Nearing(b0: State, b: State, p: Plan) {
    && Inv(b) && SameHost(b0, b) && Underway(b.core, b.log, p, Published(b.ticker)) && b.core.pc <= 78
    && b.core.mem[256] != p.tick
  }

  lemma TowardsBid(s: Core, s': Core, g: Log, p: Plan, n: nat)
    requires Underway(s, g, p, n) && s.pc < 78 && s.mem[256] != p.tick && Framed(s, s')
    ensures s.pc < s'.pc <= 78
  {
  }

  lemma NearingAct(b0: State, b: State, p: Plan)
    requires Nearing(b0, b, p) && b.core.pc < 78
    ensures Nearing(b0, Next(b, Cpu), p) && b.core.pc < Next(b, Cpu).core.pc
  {
    PlainAct(b, p);
    Frame(b.core);
    TowardsBid(b.core, CoreStep(b.core), b.log, p, Published(b.ticker));
    KeepsTick(b.core, CoreStep(b.core));
  }

  lemma KeepsTick(s: Core, s': Core)
    requires Framed(s, s') && 46 <= s.pc < 154
    ensures s'.mem[256] == s.mem[256]
  {
  }

  lemma {:induction false} ToBid(b0: State, b: State, p: Plan) returns (n: nat)
    requires Nearing(b0, b, p)
    ensures Nearing(b0, AfterAlone(b, n), p) && AfterAlone(b, n).core.pc == 78
    decreases 78 - b.core.pc
  {
    if b.core.pc == 78 {
      return 0;
    }
    NearingAct(b0, b, p);
    n := ToBid(b0, Next(b, Cpu), p);
    n := n + 1;
  }

  // ----- from there to the record

  /** The quote has what `q` has, whatever the settings. */
  predicate Like(e: Event, q: Event) {
    && e.Quote? && q.Quote? && e.tick == q.tick && e.bid == q.bid && e.ask == q.ask
    && e.read == q.read && e.recheck == q.recheck
  }

  predicate Recorded(g: Log, q: Event, before: seq<Event>) {
    && |g.events| == |before| + 1 && g.events[..|before|] == before && Like(g.events[|before|], q)
  }

  /** Words 78..153: what the CPU will record is in its registers, or still to be loaded. */
  predicate Carries(s: Core, g: Log, q: Event, before: seq<Event>) {
    && Ram(s) && 78 <= s.pc < 154 && q.Quote?
    && s.bid == q.bid && (if s.pc < 80 then s.mem[258] == q.ask else s.ask == q.ask)
    && (if s.pc < 84 then s.x == q.tick else s.tick == q.tick)
    && (s.pc <= 80 ==> s.mem[256] == q.tick)
    && (81 <= s.pc <= 82 ==> s.y == q.tick)
    && (s.pc == 82 ==> !s.taken)
    && g.read == q.read && (s.pc >= 81 ==> g.recheck == q.recheck)
    && (if Committed(s.pc) then Recorded(g, q, before) else g.events == before)
  }

  predicate CarriesOn(s: Core, g: Log, q: Event, before: seq<Event>) {
    if s.pc == LOOP then Recorded(g, q, before) else Carries(s, g, q, before)
  }

  lemma ReadCarries(s: Core, g: Log, q: Event, before: seq<Event>)
    requires Carries(s, g, q, before) && s.pc < 84
    ensures CarriesOn(ReadStep(s), LogStep(s, g, q.recheck), q, before)
  {
    match s.pc
    case 78 => case 79 => case 80 => case 81 => case 82 => case 83 =>
  }

  lemma TestCarries(s: Core, s': Core, g: Log, g': Log, q: Event, before: seq<Event>)
    requires Framed(s, s') && Carries(s, g, q, before) && 84 <= s.pc
    requires g'.read == g.read && g'.recheck == g.recheck
    requires g'.events == if Commits(s) then g.events + [QuoteOf(s, g)] else g.events
    ensures CarriesOn(s', g', q, before)
  {
  }

  lemma LateLog(s: Core, g: Log, n: nat)
    requires Ram(s) && 84 <= s.pc < 154
    ensures var g' := LogStep(s, g, n);
            && g'.read == g.read && g'.recheck == g.recheck
            && g'.events == if Commits(s) then g.events + [QuoteOf(s, g)] else g.events
  {
    LogShape(s, g, n);
  }

  lemma CarryStep(s: Core, g: Log, q: Event, before: seq<Event>)
    requires Carries(s, g, q, before)
    ensures CarriesOn(CoreStep(s), LogStep(s, g, q.recheck), q, before)
  {
    if s.pc < 84 {
      ReadCarries(s, g, q, before);
    } else {
      Frame(s);
      LateLog(s, g, q.recheck);
      TestCarries(s, CoreStep(s), g, LogStep(s, g, q.recheck), q, before);
    }
  }

  /** The CPU alone works the quote through and is back at the loop head. */
  lemma {:induction false} CarryOut(b: State, q: Event, before: seq<Event>) returns (n: nat)
    requires Probed(b.core) && Carries(b.core, b.log, q, before) && Published(b.ticker) == q.recheck
    ensures var b' := AfterAlone(b, n); Recorded(b'.log, q, before) && b'.core.pc == LOOP && b'.ticker == b.ticker
    decreases Left(b.core.pc)
  {
    CarryStep(b.core, b.log, q, before);
    CoreProgress(b.core);
    var b1 := Next(b, Cpu);
    if b1.core.pc == LOOP {
      return 1;
    }
    n := CarryOut(b1, q, before);
    n := n + 1;
  }

  // ----- the run

  /** A quote goes out and the CPU gets as far as its bid. */
  lemma {:induction false} BidLoaded(b: State, q: Tick) returns (acts: seq<Act>, b': State)
    requires Resting(b) && b.log.events == []
    ensures Legal(b, acts) && b' == Run(b, acts) && Inv(b')
    ensures AtBid(b', q)
  {
    var b1 := QuoteOut(b, q);
    var n := ToBid(b1, b1, PlanAt(b));
    AloneIsRun(b1, n);
    RunConcat(b, Publication(q), Alone(n));
    acts, b' := Publication(q) + Alone(n), AfterAlone(b1, n);
    BidThere(b1, b', PlanAt(b), q);
  }

  /** Word 77 has been executed on the last quote published, and nothing has been recorded. */
  predicate AtBid(b: State, q: Tick) {
    && Ram(b.core) && b.core.pc == 78 && b.core.bid == q.bid
    && b.core.x == b.core.mem[256] == b.ticker.seq0 && b.ticker.left == 0
    && b.ticker.pubs != [] && b.ticker.pubs[|b.ticker.pubs| - 1] == q
    && b.log.events == [] && b.log.read == Published(b.ticker)
  }

  lemma {:induction false} QuoteOut(b: State, q: Tick) returns (b': State)
    requires Resting(b) && b.log.events == []
    ensures Legal(b, Publication(q)) && b' == Run(b, Publication(q))
    ensures Nearing(b', b', PlanAt(b)) && FreshOut(b', q) && b'.core.mem[267] == b.core.seen
  {
    TickerAtRest(b);
    PublishOnce(b, q);
    RunInv(b, Publication(q));
    b' := Run(b, Publication(q));
  }

  /** The quote in memory is the last one published. */
  predicate FreshOut(b: State, q: Tick) {
    && Ram(b.core) && b.core.mem[256] == b.ticker.seq0 && b.core.mem[257] == q.bid && b.ticker.left == 0
    && b.ticker.pubs != [] && b.ticker.pubs[|b.ticker.pubs| - 1] == q
  }

  lemma BidThere(b: State, b': State, p: Plan, q: Tick)
    requires FreshOut(b, q) && Nearing(b, b', p) && b'.core.pc == 78
    requires p.events == [] && b.core.mem[267] == p.seen
    ensures AtBid(b', q)
  {
    WordsKept(b, b');
  }

  lemma FullTurn(w: Word, n: nat)
    requires n == H31
    ensures U32(w + 2 * n) == w
  {
  }

  /** 2^31 publications while the CPU stands at word 78. */
  lemma {:induction false} FullLap(b: State, q1: Tick, q2: Tick, n: nat) returns (b': State, e: Event)
    requires Inv(b) && AtBid(b, q1) && n == H31
    ensures Legal(b, Publications(q2, n)) && b' == Run(b, Publications(q2, n)) && Inv(b')
    ensures Carries(b'.core, b'.log, e, []) && Published(b'.ticker) == e.recheck
    ensures e.bid == q1.bid && e.ask == q2.ask && e.recheck == e.read + n
    ensures e.read < |b'.ticker.pubs| && b'.ticker.pubs[e.read] == q1
  {
    PublishMany(b, q2, n);
    RunInv(b, Publications(q2, n));
    b' := Run(b, Publications(q2, n));
    FullTurn(b.ticker.seq0, n);
    var read := Published(b.ticker);
    e := Quote(b.ticker.seq0, q1.bid, q2.ask, Config(0, 0, 0), read, read + n);
    assert b'.ticker.pubs[read] == b.ticker.pubs[read];
  }

  /** The first quote recorded has the bid of one quote and the ask of another, 2^31 publications later. */
  predicate Torn(b: State, q1: Tick, q2: Tick) {
    && |b.log.events| == 1 && b.log.events[0].Quote?
    && var e := b.log.events[0];
       && e.bid == q1.bid && e.ask == q2.ask && e.recheck == e.read + H31
       && e.read < |b.ticker.pubs| && b.ticker.pubs[e.read] == q1
  }

  lemma {:induction false} LapRound(b: State, q1: Tick, q2: Tick) returns (acts: seq<Act>)
    requires Resting(b) && b.log.events == []
    ensures Legal(b, acts) && Torn(Run(b, acts), q1, q2) && Run(b, acts).core.pc == LOOP
  {
    var xs, b1 := BidLoaded(b, q1);
    var h: nat :| h == H31;
    var b2, e := FullLap(b1, q1, q2, h);
    var n := CarryOut(b2, e, []);
    AloneIsRun(b2, n);
    RunConcat(b1, Publications(q2, h), Alone(n));
    RunConcat(b, xs, Publications(q2, h) + Alone(n));
    acts := xs + (Publications(q2, h) + Alone(n));
  }

  /** Bid and ask are those of the publication whose number was read. */
  predicate Whole(t: Ticker, e: Event) {
    e.Quote? && e.read < |t.pubs| && e.bid == t.pubs[e.read].bid && e.ask == t.pubs[e.read].ask
  }

  /**
    From any fresh board there is a run of the machine in which the CPU records a quote
    that was never published: for any two quotes with different asks, the bid of the
    first with the ask of the second.
   */
  lemma {:induction false} MixedPair(m: Machine, b: State, max: Word, q1: Tick, q2: Tick) returns (acts: seq<Act>)
    requires Boots(m, b) && FreshBoard(b, max) && 0 < max < H31 && q1.ask != q2.ask
    ensures Legal(b, acts) && MachineRun(m, b, acts).pc == LOOP
    ensures var b' := Run(b, acts); Torn(b', q1, q2) && !Whole(b'.ticker, b'.log.events[0])
  {
    acts := LapRun(b, max, q1, q2);
    BootMachine(m, b, acts);
  }

  lemma {:induction false} LapRun(b: State, max: Word, q1: Tick, q2: Tick) returns (acts: seq<Act>)
    requires FreshBoard(b, max) && 0 < max < H31
    ensures Ram(b.core) && Legal(b, acts) && Torn(Run(b, acts), q1, q2) && Run(b, acts).core.pc == LOOP
  {
    var start := StartRound(b, max, 1);
    var lap := LapRound(Run(b, start), q1, q2);
    RunConcat(b, start, lap);
    acts := start + lap;
  }

  // ----- exactly how many publications are safe

  /** At most `n` publications were completed between the two reads of TICK_SEQ of any recorded quote. */
  predicate AtMost(events: seq<Event>, n: nat) {
    forall i :: 0 <= i < |events| && events[i].Quote? ==> events[i].recheck - events[i].read <= n
  }

  predicate AllWhole(t: Ticker, events: seq<Event>) {
    forall i :: 0 <= i < |events| && events[i].Quote? ==> Whole(t, events[i])
  }

  /** In every run of the machine with at most `n` publications in between, every recorded quote is whole. */
  ghost predicate WholeUpTo(n: nat) {
    forall m, b, acts :: Boots(m, b) && Legal(b, acts) && AtMost(Run(b, acts).log.events, n) ==>
      AllWhole(Run(b, acts).ticker, Run(b, acts).log.events)
  }

  lemma NoLap(t: Ticker, events: seq<Event>, i: int, n: nat)
    requires 0 <= i < |events| && events[i].Quote? && Authentic(t, events, i)
    requires events[i].recheck - events[i].read <= n < H31
    ensures Whole(t, events[i])
  {
  }

  lemma {:induction false} SafeBelow(m: Machine, b: State, acts: seq<Act>, n: nat)
    requires Boots(m, b) && Legal(b, acts) && AtMost(Run(b, acts).log.events, n) && n < H31
    ensures AllWhole(Run(b, acts).ticker, Run(b, acts).log.events)
  {
    var b' := Run(b, acts);
    var t, events := b'.ticker, b'.log.events;
    forall i | 0 <= i < |events| && events[i].Quote?
      ensures Whole(t, events[i])
    {
      QuotesAreGenuine(m, b, acts, i);
      NoLap(t, events, i, n);
    }
  }

  /**
    Every quote acted on is a pair the host published, in all runs with at most `n`
    publications between the two reads, if and only if `n` is below 2^31.
   */
  lemma LapExact(n: nat)
    ensures WholeUpTo(n) <==> n < H31
  {
    if n < H31 {
      forall m, b, acts | Boots(m, b) && Legal(b, acts) && AtMost(Run(b, acts).log.events, n)
        ensures AllWhole(Run(b, acts).ticker, Run(b, acts).log.events)
      {
        SafeBelow(m, b, acts, n);
      }
    } else {
      LapBreaks(n);
    }
  }

  lemma {:induction false} LapBreaks(n: nat)
    requires n >= H31
    ensures !WholeUpTo(n)
  {
    var m, b := Overshoot.FreshMachine(1);
    var acts := MixedPair(m, b, 1, Tick(1, 1, 1, 1), Tick(2, 2, 1, 1));
    TornBreaks(Run(b, acts), Tick(1, 1, 1, 1), Tick(2, 2, 1, 1), n);
  }

  lemma TornBreaks(b: State, q1: Tick, q2: Tick, n: nat)
    requires Torn(b, q1, q2) && q1.ask != q2.ask && n >= H31
    ensures AtMost(b.log.events, n) && !AllWhole(b.ticker, b.log.events)
  {
    assert !Whole(b.ticker, b.log.events[0]);
  }
}
