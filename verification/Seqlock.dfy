/**
  The seqlock on TICK_SEQ.  A quote the CPU acts on is one the host published, whole,
  under the sequence number the CPU stores in SIGNAL_TICK -- unless a multiple of
  2^31 publications fell between the CPU's two reads of TICK_SEQ, which is exactly
  when the 32-bit counter cannot tell.  Accepted quotes move strictly forward.
 */
module Seqlock {
  import opened Isa
  import opened TradingCore
  import opened Flow
  import opened Strategy
  import opened Board

  /** The sequence number publication `k` went out under. */
  function SeqOf(t: Ticker, k: nat): Word {
    U32(t.base + 2 * k)
  }

  /** The RAM shows the last publication and its even number. */
  predicate Stable(t: Ticker) {
    (t.left == 0 || t.left == 6) && !t.torn
  }

  predicate TickerOk(s: Core, t: Ticker)
    requires Ram(s)
  {
    && t.pubs != [] && t.base % 2 == 0 && 0 <= t.left <= 6
    && t.seq0 == SeqOf(t, Published(t))
    && (if Stable(t) then
          var q := t.pubs[Published(t)];
          s.mem[256] == t.seq0 && s.mem[257] == q.bid && s.mem[258] == q.ask
        else s.mem[256] == U32(t.seq0 + 1))
    && (1 <= t.left <= 4 ==> s.mem[257] == t.next.bid)
    && (1 <= t.left <= 3 ==> s.mem[258] == t.next.ask)
  }

  /** The pair read is the one published under `tick`, or the counter has lapped. */
  predicate Genuine(t: Ticker, tick: Word, bid: Word, ask: Word, read: nat, recheck: nat) {
    && tick == SeqOf(t, read) && read <= recheck <= Published(t) && t.pubs != []
    && (recheck - read) % H31 == 0
    && (recheck == read ==> bid == t.pubs[read].bid && ask == t.pubs[read].ask)
  }

  /** The RAM still shows publication `read`. */
  predicate Unmoved(t: Ticker, read: nat) {
    Stable(t) && Published(t) == read
  }

  /** Words 69..83, between the first read of TICK_SEQ and the commit. */
  predicate Reading(s: Core, g: Log, t: Ticker)
    requires t.pubs != []
  {
    && g.read <= Published(t)
    && (s.pc <= 74 ==> s.x == SeqOf(t, g.read) || s.x == U32(SeqOf(t, g.read) + 1))
    && (s.pc == 70 ==> s.taken == (s.x == s.tick))
    && (s.pc >= 71 ==> s.x != s.tick)
    && (s.pc == 72 ==> s.y == s.x)
    && (s.pc == 73 ==> s.y == s.x % 2)
    && (s.pc == 74 ==> s.taken == (s.x % 2 != 0))
    && (s.pc >= 75 ==> s.x == SeqOf(t, g.read))
    && (78 <= s.pc <= 80 && Unmoved(t, g.read) ==> s.bid == t.pubs[g.read].bid)
    && (s.pc == 80 && Unmoved(t, g.read) ==> s.ask == t.pubs[g.read].ask)
    && (81 <= s.pc && s.y == s.x ==> Genuine(t, s.x, s.bid, s.ask, g.read, g.recheck))
    && (s.pc == 82 ==> s.taken == (s.y != s.x))
    && (s.pc == 83 ==> s.y == s.x)
  }

  // ----- the quotes worked through so far

  /** The last quote among the events. */
  datatype Last = Nothing | Of(read: nat, recheck: nat)

  function LastOf(events: seq<Event>): Last {
    if events == [] then Nothing
    else
      match events[|events| - 1]
      case Quote(_, _, _, _, read, recheck) => Of(read, recheck)
      case Fill(_, _) => LastOf(events[..|events| - 1])
  }

  predicate After(l: Last, read: nat) {
    l.Of? ==> l.read < read && l.recheck <= read
  }

  predicate GenuineEvent(t: Ticker, e: Event) {
    e.Quote? ==> Genuine(t, e.tick, e.bid, e.ask, e.read, e.recheck)
  }

  /** Each quote was read after the quotes before it. */
  predicate Forward(events: seq<Event>) {
    events == []
    || (var before, e := events[..|events| - 1], events[|events| - 1];
        Forward(before) && (e.Quote? ==> After(LastOf(before), e.read) && e.read <= e.recheck))
  }

  ghost predicate Past(g: Log, t: Ticker) {
    && Forward(g.events)
    && forall i :: 0 <= i < |g.events| ==> GenuineEvent(t, g.events[i])
  }

  /** A quote is between acceptance and its entry in the record. */
  predicate InFlight(pc: int) {
    84 <= pc <= 152 && pc != 104 && pc != 142
  }

  /** R11 names the last quote; what is being read comes after it. */
  predicate Present(s: Core, g: Log, t: Ticker, l: Last)
    requires t.pubs != []
  {
    && (l.Of? ==> l.read <= l.recheck <= Published(t))
    && (9 <= s.pc <= 45 ==> l == Nothing)
    && (14 <= s.pc <= 45 ==> s.tick == 0)
    && (if InFlight(s.pc) then
          After(l, g.read) && Genuine(t, s.tick, s.bid, s.ask, g.read, g.recheck)
        else s.pc >= 46 ==> (l.Of? ==> s.tick == SeqOf(t, l.read)))
    && (69 <= s.pc <= 83 ==> Reading(s, g, t) && (l.Of? ==> l.recheck <= g.read))
  }

  predicate Locked(s: Core, g: Log, t: Ticker) {
    Ram(s) && 8 <= s.pc < 158 && TickerOk(s, t) && Present(s, g, t, LastOf(g.events))
  }

  /** The last quote after one instruction. */
  function LastStep(s: Core, g: Log, l: Last): Last {
    if s.pc == 8 || s.pc == 16 then Nothing
    else if (s.pc == 85 || s.pc == 87) && s.taken then Of(g.read, g.recheck)
    else if s.pc == 103 || s.pc == 141 || s.pc == 152 then Of(g.read, g.recheck)
    else l
  }

  lemma {:induction false} LastSnoc(events: seq<Event>, e: Event)
    ensures LastOf(events + [e]) == if e.Quote? then Of(e.read, e.recheck) else LastOf(events)
  {
    assert (events + [e])[..|events|] == events;
  }

  lemma LastSteps(s: Core, g: Log, published: nat)
    requires Ram(s)
    ensures LastOf(LogStep(s, g, published).events) == LastStep(s, g, LastOf(g.events))
  {
    LogShape(s, g, published);
    if s.pc == 63 || s.pc == 65 {
      LastSnoc(g.events, Fill(s.y, s.qty));
    } else if Commits(s) {
      LastSnoc(g.events, QuoteOf(s, g));
    }
  }

  // ----- arithmetic of the sequence numbers

  /** Equal numbers are a multiple of 2^31 publications apart. */
  lemma SameSeq(t: Ticker, j: nat, k: nat)
    requires j <= k && SeqOf(t, j) == SeqOf(t, k)
    ensures (k - j) % H31 == 0
  {
    var a, b := t.base + 2 * j, t.base + 2 * k;
    assert a == a / W32 * W32 + a % W32 && b == b / W32 * W32 + b % W32;
    assert 2 * (k - j) == (b / W32 - a / W32) * W32;
    assert k - j == (b / W32 - a / W32) * H31;
    MultipleMod(b / W32 - a / W32);
  }

  lemma MultipleMod(q: int)
    ensures q * H31 % H31 == 0
  {
  }

  /** An odd TICK_SEQ is never the number of a publication. */
  lemma OddIsNone(t: Ticker, j: nat, k: nat)
    requires t.base % 2 == 0
    ensures SeqOf(t, k) % 2 == 0
    ensures U32(SeqOf(t, j) + 1) % 2 == 1
  {
  }

  lemma SetupLocked(s: Core, g: Log, t: Ticker, l: Last)
    requires Ram(s) && TickerOk(s, t) && Present(s, g, t, l) && 8 <= s.pc < 20
    ensures Present(SetupStep(s), LogStep(s, g, Published(t)), t, LastStep(s, g, l))
  {
    match s.pc
    case 8 => case 9 => case 10 => case 11 => case 12 => case 13 => case 14 => case 15 =>
    case 16 => case 17 => case 18 => case 19 =>
  }

  lemma ReadLocked(s: Core, g: Log, t: Ticker, l: Last)
    requires Ram(s) && TickerOk(s, t) && Present(s, g, t, l) && 68 <= s.pc < 76
    ensures Present(ReadStep(s), LogStep(s, g, Published(t)), t, LastStep(s, g, l))
  {
    OddIsNone(t, g.read, Published(t));
    match s.pc
    case 68 => case 69 => case 70 => case 71 => case 72 => case 73 => case 74 => case 75 =>
  }

  lemma SecondReadLocked(s: Core, g: Log, t: Ticker, l: Last)
    requires Ram(s) && TickerOk(s, t) && Present(s, g, t, l) && 76 <= s.pc < 80
    ensures Present(ReadStep(s), LogStep(s, g, Published(t)), t, LastStep(s, g, l))
  {
    match s.pc
    case 76 => case 77 => case 78 => case 79 =>
  }

  lemma RecheckLocked(s: Core, g: Log, t: Ticker, l: Last)
    requires Ram(s) && TickerOk(s, t) && Present(s, g, t, l) && 80 <= s.pc < 84
    ensures Present(ReadStep(s), LogStep(s, g, Published(t)), t, LastStep(s, g, l))
  {
    OddIsNone(t, Published(t), g.read);
    if s.pc == 80 && s.mem[256] == s.x {
      SameSeq(t, g.read, Published(t));
    }
    match s.pc
    case 80 => case 81 => case 82 => case 83 =>
  }

  /** Only words 68 and 80 note when TICK_SEQ was read; the start forgets. */
  lemma ReadsKept(s: Core, g: Log, published: nat)
    requires Ram(s) && 20 <= s.pc && s.pc != 68 && s.pc != 80
    ensures var g' := LogStep(s, g, published); g'.read == g.read && g'.recheck == g.recheck
  {
  }

  /** Away from the start and from the seqlock read. */
  lemma FarLocked(s: Core, s': Core, g: Log, g': Log, t: Ticker, l: Last)
    requires Framed(s, s') && t.pubs != [] && Present(s, g, t, l)
    requires 20 <= s.pc < 68 || 84 <= s.pc < 158
    requires g'.read == g.read && g'.recheck == g.recheck && 8 <= s'.pc < 158
    ensures Present(s', g', t, LastStep(s, g, l))
  {
  }

  lemma CpuPresent(s: Core, g: Log, t: Ticker, l: Last)
    requires Ram(s) && TickerOk(s, t) && Present(s, g, t, l) && 8 <= s.pc < 158 && 8 <= CoreStep(s).pc < 158
    ensures Present(CoreStep(s), LogStep(s, g, Published(t)), t, LastStep(s, g, l))
  {
    if s.pc < 20 { SetupLocked(s, g, t, l); }
    else if 68 <= s.pc < 76 { ReadLocked(s, g, t, l); }
    else if 76 <= s.pc < 80 { SecondReadLocked(s, g, t, l); }
    else if 80 <= s.pc < 84 { RecheckLocked(s, g, t, l); }
    else {
      Frame(s);
      ReadsKept(s, g, Published(t));
      FarLocked(s, CoreStep(s), g, LogStep(s, g, Published(t)), t, l);
    }
  }

  lemma CpuTicker(s: Core, s': Core, t: Ticker)
    requires Framed(s, s') && TickerOk(s, t)
    ensures TickerOk(s', t)
  {
  }

  lemma CpuLocked(s: Core, g: Log, t: Ticker)
    requires Locked(s, g, t) && 8 <= CoreStep(s).pc < 158
    ensures Locked(CoreStep(s), LogStep(s, g, Published(t)), t)
  {
    LastSteps(s, g, Published(t));
    CpuPresent(s, g, t, LastOf(g.events));
    Frame(s);
    CpuTicker(s, CoreStep(s), t);
  }

  /** A store by anyone but the ticker. */
  lemma OthersLocked(s: Core, g: Log, t: Ticker, mem: seq<Word>)
    requires Locked(s, g, t) && |mem| == MEM_WORDS
    requires forall a :: 256 <= a <= 258 ==> mem[a] == s.mem[a]
    ensures Locked(s.(mem := mem), g, t)
  {
  }

  /** A publication begins. */
  lemma BeginLocked(s: Core, g: Log, t: Ticker, q: Tick)
    requires Locked(s, g, t) && t.left == 0
    ensures Locked(s, g, TickerNext(t, TickBegin(q)))
  {
  }

  /** The ticker's next store, in whatever the CPU is doing. */
  lemma TickLocked(s: Core, g: Log, t: Ticker)
    requires Locked(s, g, t) && 0 < t.left <= 6
    ensures var st := PublishStores(t.seq0, t.next)[6 - t.left];
            Locked(s.(mem := s.mem[st.0 := st.1]), g, TickerNext(t, TickNext))
  {
    if t.left == 1 {
      NextSeq(t);
    }
  }

  lemma NextSeq(t: Ticker)
    requires t.seq0 == SeqOf(t, Published(t))
    ensures U32(t.seq0 + 2) == U32(t.base + 2 * (Published(t) + 1))
  {
  }

  // ----- the record only ever grows by genuine, later quotes

  lemma CpuPast(s: Core, g: Log, t: Ticker)
    requires Locked(s, g, t) && Past(g, t)
    ensures Past(LogStep(s, g, Published(t)), t)
  {
    LogShape(s, g, Published(t));
    if s.pc == 63 || s.pc == 65 {
      PastSnoc(g, t, Fill(s.y, s.qty));
    } else if Commits(s) && s.pc != 8 && s.pc != 16 {
      PastSnoc(g, t, QuoteOf(s, g));
    }
  }

  lemma PastSnoc(g: Log, t: Ticker, e: Event)
    requires Past(g, t) && GenuineEvent(t, e) && (e.Quote? ==> After(LastOf(g.events), e.read))
    ensures Past(Append(g, e), t)
  {
    assert (g.events + [e])[..|g.events|] == g.events;
  }

  /** A further publication takes nothing away from the earlier ones. */
  lemma TickPast(g: Log, t: Ticker, act: Act)
    requires Past(g, t) && t.pubs != []
    ensures Past(g, TickerNext(t, act))
  {
    var t' := TickerNext(t, act);
    forall i | 0 <= i < |g.events|
      ensures GenuineEvent(t', g.events[i])
    {
      assert GenuineEvent(t, g.events[i]);
    }
  }

  /** No publication is used twice: of two recorded quotes the later was read later. */
  lemma {:induction false} StrictlyForward(events: seq<Event>, i: int, j: int)
    requires Forward(events) && 0 <= i < j < |events| && events[i].Quote? && events[j].Quote?
    ensures events[i].read < events[j].read && events[i].recheck <= events[j].read
  {
    var n := |events| - 1;
    var before := events[..n];
    if j < n {
      StrictlyForward(before, i, j);
    } else {
      LastIsLatest(before, i);
    }
  }

  lemma {:induction false} LastIsLatest(events: seq<Event>, i: int)
    requires Forward(events) && 0 <= i < |events| && events[i].Quote?
    ensures var l := LastOf(events);
            l.Of? && events[i].read <= l.read && events[i].recheck <= l.recheck && l.read <= l.recheck
  {
    var n := |events| - 1;
    if i < n {
      LastIsLatest(events[..n], i);
    }
  }
}
