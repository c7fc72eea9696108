/**
  Fill reports have no acknowledgement.  If the host starts a report only once the
  CPU has applied the previous one, every report is applied exactly once and in
  order, and a restart never applies one made before FILL_SEQ was adopted.
 */
module Fills {
  import opened Isa
  import opened TradingCore
  import opened Flow
  import opened Strategy
  import opened Board

  /** The fills among the events, in order. */
  function FillsOf(events: seq<Event>): seq<Event> {
    if events == [] then []
    else
      var before, e := FillsOf(events[..|events| - 1]), events[|events| - 1];
      if e.Fill? then before + [e] else before
  }

  /** The fills applied after one instruction. */
  function FillsStep(s: Core, f: seq<Event>): seq<Event> {
    if s.pc == 8 || s.pc == 16 then []
    else if s.pc == 63 || s.pc == 65 then f + [Fill(s.y, s.qty)]
    else f
  }

  lemma {:induction false} FillsSnoc(events: seq<Event>, e: Event)
    ensures FillsOf(events + [e]) == if e.Fill? then FillsOf(events) + [e] else FillsOf(events)
  {
    assert (events + [e])[..|events|] == events;
  }

  lemma FillsSteps(s: Core, g: Log, published: nat)
    requires Ram(s)
    ensures FillsOf(LogStep(s, g, published).events) == FillsStep(s, FillsOf(g.events))
  {
    LogShape(s, g, published);
    if s.pc == 63 || s.pc == 65 {
      FillsSnoc(g.events, Fill(s.y, s.qty));
    } else if Commits(s) {
      FillsSnoc(g.events, QuoteOf(s, g));
    }
  }

  /** The CPU is between taking note of a report (word 56) and applying it. */
  predicate Applying(pc: int) {
    57 <= pc <= 63 || pc == 65
  }

  /** The reporter's words in the RAM. */
  predicate ReporterOk(s: Core, r: Reporter)
    requires Ram(s)
  {
    && 0 <= r.left <= 3 && s.mem[267] == r.seq0
    && (1 <= r.left <= 2 ==> s.mem[268] == r.side)
    && (r.left == 1 ==> s.mem[269] == r.qty)
  }

  /** `f` are the reports applied so far; at most one more is waiting. */
  predicate Tracks(s: Core, r: Reporter, f: seq<Event>)
    requires Ram(s)
  {
    var k, n := |f|, |r.reported|;
    if s.pc <= 18 then
      && (s.pc > 8 ==> f == [] && n <= 1)
      && (r.left > 0 ==> n == k)
    else
      && k <= n <= k + 1 && f == r.reported[..k]
      && (r.left > 0 ==> n == k)
      && (n == k + 1 ==> r.reported[k] == Fill(s.mem[268], s.mem[269]))
      && (if Applying(s.pc) then n == k + 1 && s.seen == r.seq0
          else s.seen == if n == k then r.seq0 else U32(r.seq0 - 1))
      && (54 <= s.pc <= 55 ==> s.y == s.seen || (n == k + 1 && s.y == r.seq0))
      && (s.pc == 55 ==> s.taken == (s.y == s.seen))
      && (s.pc == 56 ==> n == k + 1 && s.y == r.seq0)
      && (Applying(s.pc) && s.pc >= 59 ==> s.y == r.reported[k].side)
      && (Applying(s.pc) && s.pc >= 61 ==> s.qty == r.reported[k].qty)
  }

  predicate Tracked(s: Core, g: Log, r: Reporter) {
    Ram(s) && 8 <= s.pc < 158 && ReporterOk(s, r) && Tracks(s, r, FillsOf(g.events))
  }

  /** A report is started only when the CPU has applied the one before. */
  predicate Patient(b: State, act: Act) {
    act.FillBegin? ==> |b.reporter.reported| == |FillsOf(b.log.events)|
  }

  lemma SetupTracks(s: Core, r: Reporter, f: seq<Event>)
    requires Ram(s) && ReporterOk(s, r) && Tracks(s, r, f) && 8 <= s.pc < 20
    ensures Tracks(SetupStep(s), ReporterNext(r, s, Cpu), FillsStep(s, f))
  {
    match s.pc
    case 8 => case 9 => case 10 => case 11 => case 12 => case 13 => case 14 => case 15 =>
    case 16 => case 17 => case 18 => case 19 =>
  }

  lemma HeadTracks(s: Core, r: Reporter, f: seq<Event>)
    requires Ram(s) && ReporterOk(s, r) && Tracks(s, r, f) && 46 <= s.pc < 56
    ensures Tracks(HeadStep(s), ReporterNext(r, s, Cpu), FillsStep(s, f))
  {
    match s.pc
    case 46 => case 47 => case 48 => case 49 => case 50 => case 51 => case 52 => case 53 =>
    case 54 => case 55 =>
  }

  lemma FillTracks(s: Core, r: Reporter, f: seq<Event>)
    requires Ram(s) && ReporterOk(s, r) && Tracks(s, r, f) && 56 <= s.pc < 68
    ensures Tracks(FillStep(s), ReporterNext(r, s, Cpu), FillsStep(s, f))
  {
    match s.pc
    case 56 => case 57 => case 58 => case 59 => case 60 => case 61 => case 62 => case 63 =>
    case 64 => case 65 => case 66 => case 67 =>
  }

  /** Away from the start and from the fill words nothing about the reports changes. */
  lemma FarTracks(s: Core, s': Core, r: Reporter, f: seq<Event>)
    requires Framed(s, s') && ReporterOk(s, r) && Tracks(s, r, f)
    requires 20 <= s.pc < 46 || 68 <= s.pc < 158
    ensures Tracks(s', ReporterNext(r, s, Cpu), FillsStep(s, f))
  {
  }

  lemma CpuTracks(s: Core, r: Reporter, f: seq<Event>)
    requires Ram(s) && 8 <= s.pc < 158 && ReporterOk(s, r) && Tracks(s, r, f)
    ensures Tracks(CoreStep(s), ReporterNext(r, s, Cpu), FillsStep(s, f))
  {
    if s.pc < 20 { SetupTracks(s, r, f); }
    else if 46 <= s.pc < 56 { HeadTracks(s, r, f); }
    else if 56 <= s.pc < 68 { FillTracks(s, r, f); }
    else {
      Frame(s);
      FarTracks(s, CoreStep(s), r, f);
    }
  }

  lemma CpuReporter(s: Core, s': Core, r: Reporter)
    requires Framed(s, s') && ReporterOk(s, r)
    ensures ReporterOk(s', ReporterNext(r, s, Cpu))
  {
  }

  lemma CpuTracked(s: Core, g: Log, r: Reporter, published: nat)
    requires Tracked(s, g, r) && 8 <= CoreStep(s).pc < 158
    ensures Tracked(CoreStep(s), LogStep(s, g, published), ReporterNext(r, s, Cpu))
  {
    FillsSteps(s, g, published);
    CpuTracks(s, r, FillsOf(g.events));
    Frame(s);
    CpuReporter(s, CoreStep(s), r);
  }

  lemma OthersTracked(s: Core, g: Log, r: Reporter, mem: seq<Word>)
    requires Tracked(s, g, r) && |mem| == MEM_WORDS
    requires forall a :: 267 <= a <= 269 ==> mem[a] == s.mem[a]
    ensures Tracked(s.(mem := mem), g, r)
  {
  }

  lemma BeginTracked(s: Core, g: Log, r: Reporter, side: Word, qty: Word)
    requires Tracked(s, g, r) && r.left == 0 && |r.reported| == |FillsOf(g.events)|
    ensures Tracked(s, g, ReporterNext(r, s, FillBegin(side, qty)))
  {
  }

  /** The reporter's next store, in whatever the CPU is doing. */
  lemma ReportTracked(s: Core, g: Log, r: Reporter)
    requires Tracked(s, g, r) && 0 < r.left <= 3
    ensures var st := ReportStores(r.seq0, r.side, r.qty)[3 - r.left];
            Tracked(s.(mem := s.mem[st.0 := st.1]), g, ReporterNext(r, s, FillNext))
  {
    var f := FillsOf(g.events);
    assert r.left == 1 ==> r.reported == f || s.pc <= 18;
  }

  // ----- what the fills add up to

  /** Lots bought less lots sold. */
  function Net(fills: seq<Event>): int {
    if fills == [] then 0
    else
      var before, e := Net(fills[..|fills| - 1]), fills[|fills| - 1];
      if !e.Fill? then before else if e.side == BOUGHT then before + e.qty else before - e.qty
  }

  /** The position is the starting position plus the net of the applied fills. */
  lemma {:induction false} PositionIsNet(start: Word, events: seq<Event>)
    ensures Fold(start, events).pos == U32(start + Net(FillsOf(events)))
  {
    if events != [] {
      var before, e := events[..|events| - 1], events[|events| - 1];
      PositionIsNet(start, before);
      var f := FillsOf(before);
      if e.Fill? {
        assert (f + [e])[..|f|] == f;
        var lots: int := e.qty;
        WrapAdd(start + Net(f), if e.side == BOUGHT then lots else -lots);
      }
    }
  }

  lemma WrapAdd(a: int, b: int)
    ensures U32(U32(a) + b) == U32(a + b)
  {
  }
}
