/**
  CPU and host on one shared RAM.  One act is one CPU instruction or one host store
  (or one host load, while it polls), so every interleaving of the two is a
  sequence of acts.

  The host's ticker, fill reporter and poller are independent agents here; the real
  host runs them in one thread, which allows fewer interleavings.
 */
module Board {
  import opened Isa
  import opened TradingCore
  import opened Strategy

  // ----- the host's half of the protocol, as lists of stores

  datatype Tick = Tick(bid: Word, ask: Word, bidSize: Word, askSize: Word)

  /** publish_tick: odd sequence number, the four words, even sequence number. */
  function PublishStores(seq0: Word, q: Tick): seq<(int, Word)> {
    [(256, U32(seq0 + 1)), (257, q.bid), (258, q.ask), (259, q.bidSize), (260, q.askSize), (256, U32(seq0 + 2))]
  }

  /** report_fill: side, quantity, then the counter. */
  function ReportStores(seq0: Word, side: Word, qty: Word): seq<(int, Word)> {
    [(268, side), (269, qty), (267, U32(seq0 + 1))]
  }

  /**
    The ticker: its counter, how many stores of the quote `next` are still to do, and
    the quotes published so far.  Entry k of `pubs` went out under `base + 2k`; entry
    0 is what the RAM held to begin with, unless a publication was cut short before
    that (`torn`).
   */
  datatype Ticker = Ticker(seq0: Word, left: int, next: Tick, base: Word, pubs: seq<Tick>, torn: bool)

  /** The fill reporter and the reports made since the CPU last adopted FILL_SEQ. */
  datatype Reporter = Reporter(seq0: Word, left: int, side: Word, qty: Word, reported: seq<Event>)

  // ----- what the CPU has been told, recorded as it reads it

  /**
    The position the CPU started from, the events it has worked through and the desk
    they lead to; `cfg`, `read` and `recheck` belong to the quote being worked on.
   */
  datatype Log = Log(start: Word, events: seq<Event>, desk: Desk, cfg: Config, read: nat, recheck: nat)

  function NewLog(start: Word): Log {
    Log(start, [], Desk(0, start, 0, []), Config(0, 0, 0), 0, 0)
  }

  function Append(g: Log, e: Event): Log {
    g.(events := g.events + [e], desk := OnEvent(g.desk, e))
  }

  function Commit(s: Core, g: Log): Log {
    Append(g, Quote(s.tick, s.bid, s.ask, g.cfg, g.read, g.recheck))
  }

  /** The record after one instruction, when `published` quotes are out. */
  function LogStep(s: Core, g: Log, published: nat): Log
    requires Ram(s)
  {
    if s.pc < 68 then
      match s.pc
      case 8 => NewLog(0)
      case 16 => NewLog(s.mem[270])
      case 63 => Append(g, Fill(s.y, s.qty))
      case 65 => Append(g, Fill(s.y, s.qty))
      case _ => g
    else if s.pc < 105 then
      match s.pc
      case 68 => g.(read := published)
      case 80 => g.(recheck := published)
      case 83 => g.(cfg := Config(s.mem[261], s.mem[263], s.mem[262]))
      case 85 => if s.taken then Commit(s, g) else g
      case 87 => if s.taken then Commit(s, g) else g
      case 93 => g.(cfg := g.cfg.(threshold := s.mem[261]))
      case 103 => Commit(s, g)
      case _ => g
    else
      match s.pc
      case 107 => g.(cfg := g.cfg.(enable := s.mem[263]))
      case 119 => g.(cfg := g.cfg.(enable := s.mem[263]))
      case 111 => g.(cfg := g.cfg.(maxPos := s.mem[262]))
      case 123 => g.(cfg := g.cfg.(maxPos := s.mem[262]))
      case 141 => Commit(s, g)
      case 152 => Commit(s, g)
      case _ => g
  }

  /** The quote being worked on, as it will stand in the record. */
  function QuoteOf(s: Core, g: Log): Event {
    Quote(s.tick, s.bid, s.ask, g.cfg, g.read, g.recheck)
  }

  /** The instruction records the quote. */
  predicate Commits(s: Core) {
    ((s.pc == 85 || s.pc == 87) && s.taken) || s.pc == 103 || s.pc == 141 || s.pc == 152
  }

  /** What one instruction does to the record of events and to the desk. */
  lemma LogShape(s: Core, g: Log, published: nat)
    requires Ram(s)
    ensures var g' := LogStep(s, g, published);
            if s.pc == 8 then g' == NewLog(0)
            else if s.pc == 16 then g' == NewLog(s.mem[270])
            else if s.pc == 63 || s.pc == 65 then g' == Append(g, Fill(s.y, s.qty))
            else if Commits(s) then g' == Append(g, QuoteOf(s, g))
            else g'.start == g.start && g'.events == g.events && g'.desk == g.desk
  {
  }

  // ----- the poller

  /**
    One decision handed to the application.  `from` and `to` count the decisions
    published at the previous successful poll and at this one; `sideAt` and `tickAt`
    say which decision the two words belonged to when they were loaded.
   */
  datatype Delivery = Delivery(
    seq0: Word, side: Word, tick: Word, missed: Word, from: nat, to: nat, sideAt: nat, tickAt: nat)

  /** poll_signal loads three words, one act each; `stage` says which is next. */
  datatype Poller = Poller(
    signalSeq: Word, stage: int, seq0: Word, side: Word,
    synced: bool, known: nat, to: nat, sideAt: nat, got: seq<Delivery>)

  /** The decision the SIGNAL word belongs to, counting from one. */
  function SideIndex(s: Core, d: Desk): nat {
    |d.decisions| + if 133 <= s.pc <= 141 then 1 else 0
  }

  /** The decision the SIGNAL_TICK word belongs to, counting from one. */
  function TickIndex(s: Core, d: Desk): nat {
    |d.decisions| + if 135 <= s.pc <= 141 then 1 else 0
  }

  function PollStep(p: Poller, s: Core, d: Desk): Poller
    requires Ram(s)
  {
    if p.stage == 0 then
      if s.mem[323] == p.signalSeq then p
      else p.(stage := 1, seq0 := s.mem[323], to := |d.decisions|)
    else if p.stage == 1 then
      p.(stage := 2, side := s.mem[321], sideAt := SideIndex(s, d))
    else
      p.(stage := 0, signalSeq := p.seq0, known := p.to,
         got := p.got + [Delivery(p.seq0, p.side, s.mem[322], U32(p.seq0 - p.signalSeq - 1),
                                  p.known, p.to, p.sideAt, TickIndex(s, d))])
  }

  // ----- the whole board

  datatype State = State(core: Core, log: Log, ticker: Ticker, reporter: Reporter, poller: Poller)

  datatype Act =
    | Cpu                                                   // one instruction
    | Store(a: int, v: Word)                                // a host store outside the agents' words
    | TickBegin(q: Tick)
    | TickNext                                              // the ticker's next store
    | FillBegin(side: Word, qty: Word)
    | FillNext                                              // the reporter's next store
    | PollSync                                              // adopt SIGNAL_SEQ, as wait_for_cpu does
    | PollNext                                              // the poller's next load
    | Drop(side: Word)                                      // an order came to nothing; no store

  /** Words the host may store to outside the agents: not the image, not the outputs. */
  predicate HostWord(a: int) {
    && 0 <= a < MEM_WORDS && !(8 <= a < 162) && !(256 <= a <= 260) && !(267 <= a <= 269)
    && (a == 327 || !(320 <= a <= 329))
  }

  /** FW_VERSION is an output the host may only clear. */
  predicate Enabled(b: State, act: Act) {
    match act
    case Store(a, v) => HostWord(a) && (a == 327 ==> v == 0)
    case TickBegin(_) => b.ticker.left == 0
    case TickNext => 0 < b.ticker.left <= 6
    case FillBegin(_, _) => b.reporter.left == 0
    case FillNext => 0 < b.reporter.left <= 3
    case PollSync => b.poller.stage == 0 && 45 <= b.core.pc
    case _ => true
  }

  datatype Effect = Silent | Put(a: int, v: Word)

  /** What an act other than an instruction does to the RAM. */
  function EffectOf(b: State, act: Act): Effect
    requires Enabled(b, act)
  {
    match act
    case Store(a, v) => Put(a, v)
    case TickNext =>
      var st := PublishStores(b.ticker.seq0, b.ticker.next)[6 - b.ticker.left];
      Put(st.0, st.1)
    case FillNext =>
      var st := ReportStores(b.reporter.seq0, b.reporter.side, b.reporter.qty)[3 - b.reporter.left];
      Put(st.0, st.1)
    case _ => Silent
  }

  function Poke(mem: seq<Word>, e: Effect): (mem': seq<Word>)
    ensures |mem'| == |mem|
  {
    if e.Put? && 0 <= e.a < |mem| then mem[e.a := e.v] else mem
  }

  function Published(t: Ticker): nat {
    if t.pubs == [] then 0 else |t.pubs| - 1
  }

  function TickerNext(t: Ticker, act: Act): Ticker {
    match act
    case TickBegin(q) => t.(left := 6, next := q)
    case TickNext =>
      if t.left == 1 then t.(left := 0, seq0 := U32(t.seq0 + 2), pubs := t.pubs + [t.next], torn := false)
      else t.(left := t.left - 1)
    case _ => t
  }

  /** The reports are counted afresh when a restart begins and when FILL_SEQ is adopted. */
  function ReporterNext(r: Reporter, s: Core, act: Act): Reporter {
    match act
    case FillBegin(side, qty) => r.(left := 3, side := side, qty := qty)
    case FillNext =>
      if r.left == 1 then
        r.(left := 0, seq0 := U32(r.seq0 + 1), reported := r.reported + [Fill(r.side, r.qty)])
      else r.(left := r.left - 1)
    case Cpu => if s.pc == 8 || s.pc == 18 then r.(reported := []) else r
    case _ => r
  }

  /** A restart makes the poller's counts void until it synchronises again. */
  function PollerNext(p: Poller, s: Core, d: Desk, act: Act): Poller
    requires Ram(s)
  {
    match act
    case Cpu => if s.pc == 157 then p.(synced := false, got := []) else p
    case PollSync => p.(signalSeq := s.mem[323], synced := true, known := |d.decisions|, got := [])
    case PollNext => PollStep(p, s, d)
    case _ => p
  }

  function Next(b: State, act: Act): (b': State)
    requires Ram(b.core) && Enabled(b, act)
    ensures Ram(b'.core)
  {
    State(
      if act.Cpu? then CoreStep(b.core) else b.core.(mem := Poke(b.core.mem, EffectOf(b, act))),
      if act.Cpu? then LogStep(b.core, b.log, Published(b.ticker)) else b.log,
      TickerNext(b.ticker, act),
      ReporterNext(b.reporter, b.core, act),
      PollerNext(b.poller, b.core, b.log.desk, act))
  }

  /** `acts` is a legal run from `b`. */
  predicate Legal(b: State, acts: seq<Act>)
    requires Ram(b.core)
    decreases |acts|
  {
    acts == [] || (Enabled(b, acts[0]) && Legal(Next(b, acts[0]), acts[1..]))
  }

  function Run(b: State, acts: seq<Act>): (b': State)
    requires Ram(b.core) && Legal(b, acts)
    ensures Ram(b'.core)
    decreases |acts|
  {
    if acts == [] then b else Run(Next(b, acts[0]), acts[1..])
  }
}
