/**
  What the board promises, told of the machine's own memory words: every run starts
  with the image loaded and the CPU at word 8, the registers holding anything, and
  every legal interleaving of instructions, host stores and host loads is covered.
 */
module Results {
  import opened Isa
  import opened CpuModel
  import opened Program
  import opened TradingCore
  import opened Simulation
  import opened Safety
  import opened Strategy
  import opened CStrategy
  import opened Board
  import opened Refinement
  import opened Seqlock
  import opened Fills
  import opened Polls
  import opened Inventory
  import opened System
  import KillSwitch

  /** A loaded machine at the entry word beside an idle host. */
  ghost predicate Boots(m: Machine, b: State) {
    Valid(m) && m.pc == BASE && Loaded(m.mem) && View(m) == b.core && Initial(b)
  }

  lemma {:induction false} BootRuns(m: Machine, b: State, acts: seq<Act>)
    requires Boots(m, b) && Legal(b, acts)
    ensures Runs(MachineRun(m, b, acts), Run(b, acts)) && Inv(Run(b, acts))
  {
    SafeAtEntry(m);
    InitialInv(b);
    MachineRuns(m, b, acts);
    RunInv(b, acts);
  }

  lemma {:induction false} BootMachine(m: Machine, b: State, acts: seq<Act>)
    requires Boots(m, b) && Legal(b, acts)
    ensures var m', s := MachineRun(m, b, acts), Run(b, acts).core; m'.pc == s.pc && m'.mem == s.mem
  {
    BootRuns(m, b, acts);
  }

  lemma {:induction false} BootInv(b: State, acts: seq<Act>)
    requires Initial(b) && Legal(b, acts)
    ensures Inv(Run(b, acts))
  {
    InitialInv(b);
    RunInv(b, acts);
  }

  // ----- the decisions, as an onlooker sees them

  /**
    The decisions an onlooker collects from the machine alone: SIGNAL and SIGNAL_TICK
    at each store of SIGNAL_SEQ, forgetting all when the program starts over.
   */
  function Seen(m: Machine, ds: seq<Decision>, act: Act): seq<Decision>
    requires Valid(m)
  {
    if !act.Cpu? then ds
    else if m.pc == 8 then []
    else if m.pc == 141 then ds + [Decision(m.mem[321], m.mem[322])]
    else ds
  }

  function Witnessed(m: Machine, b: State, acts: seq<Act>, ds: seq<Decision>): seq<Decision>
    requires Valid(m) && Ram(b.core) && Legal(b, acts)
    decreases |acts|
  {
    if acts == [] then ds
    else Witnessed(MachineNext(m, b, acts[0]), Next(b, acts[0]), acts[1..], Seen(m, ds, acts[0]))
  }

  lemma SeenIsLogged(m: Machine, b: State, act: Act)
    requires Runs(m, b) && Inv(b) && Enabled(b, act)
    ensures Next(b, act).log.desk.decisions == Seen(m, b.log.desk.decisions, act)
  {
    if act.Cpu? && b.core.pc >= 46 {
      DecisionsStep(b.core, b.log, Published(b.ticker));
    }
  }

  lemma {:induction false} WitnessedIsLogged(m: Machine, b: State, acts: seq<Act>)
    requires Runs(m, b) && Inv(b) && Legal(b, acts)
    ensures Witnessed(m, b, acts, b.log.desk.decisions) == Run(b, acts).log.desk.decisions
    decreases |acts|
  {
    if acts != [] {
      SeenIsLogged(m, b, acts[0]);
      MachineFollows(m, b, acts[0]);
      if acts[0].Cpu? { CpuInv(b); } else { HostInv(b, acts[0]); }
      WitnessedIsLogged(MachineNext(m, b, acts[0]), Next(b, acts[0]), acts[1..]);
    }
  }

  // ----- refinement

  /** The counters, the position and the last decision are those of `c`. */
  predicate Shows(m: Machine, c: Book)
    requires Valid(m)
  {
    && m.mem[323] == U32(|c.decisions|)
    && m.mem[326] == U32(c.soft.rejects)
    && (!(64 <= m.pc <= 67) ==> S32(m.mem[324]) == c.soft.position)
    && (!(133 <= m.pc <= 141) && c.decisions != [] ==>
          c.decisions[|c.decisions| - 1] == Decision(m.mem[321], m.mem[322]))
  }

  /**
    The machine code refines the C strategy.  In every run the decisions seen since
    the last restart are those fmma_strategy makes of the quotes accepted and the
    fills consumed, in order; and the output words show its counters and position.
   */
  lemma {:induction false} MachineRefinesC(m: Machine, b: State, acts: seq<Act>)
    requires Boots(m, b) && Legal(b, acts)
    ensures var m', g := MachineRun(m, b, acts), Run(b, acts).log;
            InRange32(S32(g.start), g.events) ==>
              var c := SoftFold(S32(g.start), g.events);
              && Witnessed(m, b, acts, []) == c.decisions
              && (m'.pc >= LOOP ==> Shows(m', c))
  {
    BootRuns(m, b, acts);
    SafeAtEntry(m);
    InitialInv(b);
    WitnessedIsLogged(m, b, acts);
    var g := Run(b, acts).log;
    if InRange32(S32(g.start), g.events) {
      FoldAgreement(g.start, g.events);
    }
  }

  /** Without any condition: SIGNAL_SEQ plus REJECTS counts the moves out of the band. */
  lemma {:induction false} TriggersCounted(m: Machine, b: State, acts: seq<Act>, m': Machine, g: Log)
    requires Boots(m, b) && Legal(b, acts) && m' == MachineRun(m, b, acts) && g == Run(b, acts).log
    ensures m'.pc >= LOOP ==> U32(m'.mem[323] as int + m'.mem[326]) == U32(TriggerCount(g.events))
  {
    BootMachine(m, b, acts);
    if m'.pc >= LOOP {
      TotalsHold(b, acts, Run(b, acts).core, g);
    }
  }

  lemma {:induction false} TotalsHold(b: State, acts: seq<Act>, s: Core, g: Log)
    requires Initial(b) && Legal(b, acts) && s == Run(b, acts).core && g == Run(b, acts).log && s.pc >= LOOP
    ensures Ram(s) && U32(s.mem[323] as int + s.mem[326]) == U32(TriggerCount(g.events))
  {
    BootInv(b, acts);
    CountersAddUp(s, g);
  }

  lemma CountersAddUp(s: Core, g: Log)
    requires Refines(s, g) && Folded(g) && s.pc >= LOOP
    ensures U32(s.mem[323] as int + s.mem[326]) == U32(TriggerCount(g.events))
  {
    CountersShow(s, g);
    DeskAddsUp(g);
    SumWraps(s.mem[323], s.mem[326], |g.desk.decisions|, g.desk.rejects, TriggerCount(g.events));
  }

  lemma CountersShow(s: Core, g: Log)
    requires Refines(s, g) && s.pc >= LOOP
    ensures s.mem[323] == U32(|g.desk.decisions|) && s.mem[326] == U32(g.desk.rejects)
  {
  }

  lemma DeskAddsUp(g: Log)
    requires Folded(g)
    ensures |g.desk.decisions| + g.desk.rejects == TriggerCount(g.events)
  {
    TriggersAccounted(g.start, g.events);
  }

  lemma SumWraps(x: Word, y: Word, a: int, b: int, c: int)
    requires x == U32(a) && y == U32(b) && a + b == c
    ensures U32(x as int + y) == U32(c)
  {
  }

  // ----- the quotes

  /**
    Every quote the CPU acted on is a pair the host published, whole, under the
    sequence number recorded, unless exactly a positive multiple of 2^31 publications
    fell between the two reads; and no publication is used twice or out of order.
   */
  lemma {:induction false} QuotesAreGenuine(m: Machine, b: State, acts: seq<Act>, i: int)
    requires Boots(m, b) && Legal(b, acts)
    requires 0 <= i < |Run(b, acts).log.events| && Run(b, acts).log.events[i].Quote?
    ensures Authentic(Run(b, acts).ticker, Run(b, acts).log.events, i)
  {
    BootRuns(m, b, acts);
    PastIsAuthentic(Run(b, acts), i);
  }

  /**
    Quote `i` was read under the number of publication `read`; the recheck came a
    multiple of 2^31 publications later, and if that is none the pair is the one
    published; every later quote is of a later publication.
   */
  predicate Authentic(t: Ticker, events: seq<Event>, i: int)
    requires 0 <= i < |events| && events[i].Quote?
  {
    var e := events[i];
    && e.read <= e.recheck < |t.pubs| && e.tick == SeqOf(t, e.read) && (e.recheck - e.read) % H31 == 0
    && (e.recheck == e.read ==> e.bid == t.pubs[e.read].bid && e.ask == t.pubs[e.read].ask)
    && forall j :: i < j < |events| && events[j].Quote? ==> e.read < events[j].read
  }

  lemma PastIsAuthentic(b: State, i: int)
    requires Inv(b) && 0 <= i < |b.log.events| && b.log.events[i].Quote?
    ensures Authentic(b.ticker, b.log.events, i)
  {
    var events := b.log.events;
    assert GenuineEvent(b.ticker, events[i]);
    forall j | i < j < |events| && events[j].Quote?
      ensures events[i].read < events[j].read
    {
      StrictlyForward(events, i, j);
    }
  }

  /** Each decision of a fold is the side and the tick of a quote that moved out of the band. */
  lemma {:induction false} FoldNamesQuotes(start: Word, events: seq<Event>, k: int) returns (i: int)
    requires 0 <= k < |Fold(start, events).decisions|
    ensures 0 <= i < |events| && Triggers(events[..i], events[i])
    ensures Fold(start, events).decisions[k] == DecisionOn(events, i)
  {
    var n := |events| - 1;
    var before := events[..n];
    AnchorIsLastQuote(start, before);
    if k < |Fold(start, before).decisions| {
      i := FoldNamesQuotes(start, before, k);
      assert before[..i] == events[..i];
    } else {
      i := n;
    }
  }

  /** What event `i`, a quote, asks for. */
  function DecisionOn(events: seq<Event>, i: int): Decision
    requires 0 <= i < |events| && events[i].Quote?
  {
    var e := events[i];
    Decision(Want(Anchor(events[..i]), Sum(e.bid, e.ask), e.cfg.threshold), e.tick)
  }

  /**
    Every decision seen since the last restart, in any run, is the side and the tick of
    an authentic quote that moved out of the band.
   */
  lemma {:induction false} DecisionsNameQuotes(m: Machine, b: State, acts: seq<Act>, k: int) returns (i: int)
    requires Boots(m, b) && Legal(b, acts) && 0 <= k < |Witnessed(m, b, acts, [])|
    ensures var b' := Run(b, acts); var events := b'.log.events;
            && 0 <= i < |events| && Triggers(events[..i], events[i]) && Authentic(b'.ticker, events, i)
            && Witnessed(m, b, acts, [])[k] == DecisionOn(events, i)
  {
    SafeAtEntry(m);
    InitialInv(b);
    WitnessedIsLogged(m, b, acts);
    BootInv(b, acts);
    var g := Run(b, acts).log;
    i := FoldNamesQuotes(g.start, g.events, k);
    PastIsAuthentic(Run(b, acts), i);
  }

  // ----- the fills

  /**
    What has been applied is what has been reported, but for at most the last; and
    POSITION is the CFG_POSITION read at the start plus the net of it.
   */
  predicate FillsShown(m: Machine, b: State)
    requires Valid(m)
  {
    var applied, reported := FillsOf(b.log.events), b.reporter.reported;
    && |applied| <= |reported| <= |applied| + 1 && applied == reported[..|applied|]
    && (!(64 <= m.pc <= 67) ==> m.mem[324] == U32(b.log.start + Net(applied)))
  }

  /**
    With reports that wait for one another, every report made since the CPU adopted
    FILL_SEQ is applied exactly once and in order, and no earlier one is.
   */
  lemma {:induction false} FillsExactlyOnce(m: Machine, b: State, acts: seq<Act>)
    requires Boots(m, b) && Legal(b, acts) && PatientRun(b, acts)
    ensures var m' := MachineRun(m, b, acts); m'.pc >= LOOP ==> FillsShown(m', Run(b, acts))
  {
    var m', b' := MachineRun(m, b, acts), Run(b, acts);
    BootRuns(m, b, acts);
    BootTracked(b, acts);
    if m'.pc >= LOOP {
      TrackedShown(m', b');
    }
  }

  lemma {:induction false} BootTracked(b: State, acts: seq<Act>)
    requires Initial(b) && Legal(b, acts) && PatientRun(b, acts)
    ensures var b' := Run(b, acts); Tracked(b'.core, b'.log, b'.reporter)
  {
    InitialInv(b);
    RunTracked(b, acts);
  }

  lemma TrackedShown(m: Machine, b: State)
    requires Runs(m, b) && Inv(b) && Tracked(b.core, b.log, b.reporter) && m.pc >= LOOP
    ensures FillsShown(m, b)
  {
    PositionIsNet(b.log.start, b.log.events);
  }

  // ----- the polls

  /**
    Between restarts, from a synchronised poller: the deliveries account for exactly
    the decisions published since, and the side and the tick of each belong to decisions
    no older than the number it returns, though perhaps not to the same one.
   */
  lemma {:induction false} PollsDeliver(m: Machine, b: State, acts: seq<Act>)
    requires Boots(m, b) && Legal(b, acts)
    requires var p := Run(b, acts).poller; p.synced && p.got != []
    requires var p := Run(b, acts).poller;
             forall i :: 0 <= i < |p.got| ==> p.got[i].to - p.got[i].from < W32
    ensures var b' := Run(b, acts); var got := b'.poller.got;
            && Accounted(got) == b'.poller.known - got[0].from
            && b'.poller.signalSeq == U32(b'.poller.known)
            && b'.poller.known <= |b'.log.desk.decisions|
    ensures var b' := Run(b, acts);
            forall i :: 0 <= i < |b'.poller.got| ==>
              var v, ds := b'.poller.got[i], b'.log.desk.decisions;
              && v.seq0 == U32(v.to) && 1 <= v.to <= |ds|
              && v.to <= v.sideAt && SideIs(b'.core, ds, v.sideAt, v.side)
              && v.to <= v.tickAt && TickIs(b'.core, ds, v.tickAt, v.tick)
  {
    BootRuns(m, b, acts);
    var b' := Run(b, acts);
    var ds, got := b'.log.desk.decisions, b'.poller.got;
    PollsAccount(b'.core, ds, got, b'.poller.known);
    forall i | 0 <= i < |got|
      ensures Faithful(b'.core, ds, got[i])
    {
    }
  }

  /** The CPU is running and not between the stores of a decision. */
  predicate Clear(b: State) {
    45 <= b.core.pc < 154 && !(133 <= b.core.pc <= 141)
  }

  /** Throughout `acts` the CPU publishes nothing and the host does not poll. */
  predicate Undisturbed(b: State, acts: seq<Act>)
    requires Ram(b.core) && Legal(b, acts)
    decreases |acts|
  {
    && Clear(b)
    && (acts != [] ==> !acts[0].PollNext? && !acts[0].PollSync? && Undisturbed(Next(b, acts[0]), acts[1..]))
  }

  lemma UndisturbedStep(b: State, act: Act)
    requires Inv(b) && Enabled(b, act) && Clear(b) && !act.PollNext? && !act.PollSync?
    ensures var b' := Next(b, act);
            Inv(b') && b'.poller == b.poller && b'.log.desk.decisions == b.log.desk.decisions
  {
    if act.Cpu? {
      CpuInv(b);
      DecisionsStep(b.core, b.log, Published(b.ticker));
    } else {
      HostInv(b, act);
    }
  }

  /** Then SIGNAL and SIGNAL_TICK stay those of the last decision. */
  lemma {:induction false} UndisturbedRun(b: State, acts: seq<Act>)
    requires Inv(b) && Legal(b, acts) && Undisturbed(b, acts)
    ensures var b', ds := Run(b, acts), b.log.desk.decisions;
            && Inv(b') && b'.poller == b.poller && b'.log.desk.decisions == ds
            && (ds != [] ==> ds[|ds| - 1] == Decision(b'.core.mem[321], b'.core.mem[322]))
    decreases |acts|
  {
    if acts != [] {
      UndisturbedStep(b, acts[0]);
      UndisturbedRun(Next(b, acts[0]), acts[1..]);
    }
  }

  /**
    A poll that no publication overlaps: a synchronised poller finds SIGNAL_SEQ moved,
    and from its first load to its third the CPU is never between the stores of a
    decision.  Whatever else happens, it delivers exactly the last decision.
   */
  lemma {:induction false} UndisturbedPoll(b: State, mid1: seq<Act>, mid2: seq<Act>, b1: State, b3: State, b5: State)
    requires Inv(b) && b.poller.synced && b.poller.stage == 0 && b.core.mem[323] != b.poller.signalSeq
    requires b1 == Next(b, PollNext) && Legal(b1, mid1) && Undisturbed(b1, mid1)
    requires b3 == Next(Run(b1, mid1), PollNext) && Legal(b3, mid2) && Undisturbed(b3, mid2)
    requires b5 == Next(Run(b3, mid2), PollNext)
    ensures var ds, n := b.log.desk.decisions, |b.poller.got|;
            && ds != [] && |b5.poller.got| == n + 1 && b5.poller.got[n].seq0 == b.core.mem[323]
            && Decision(b5.poller.got[n].side, b5.poller.got[n].tick) == ds[|ds| - 1]
  {
    SeqLoad(b);
    SideLoad(b1, mid1);
    TickLoad(b3, mid2);
  }

  /** The first load, of SIGNAL_SEQ. */
  lemma SeqLoad(b: State)
    requires Inv(b) && b.poller.synced && b.poller.stage == 0 && b.core.mem[323] != b.poller.signalSeq
    ensures var b' := Next(b, PollNext);
            && Inv(b') && b'.log == b.log && b.log.desk.decisions != []
            && b'.poller.stage == 1 && b'.poller.seq0 == b.core.mem[323] && b'.poller.got == b.poller.got
  {
    LoadOnly(b);
    HasDecision(b);
  }

  /** The second load, of SIGNAL, after an undisturbed wait. */
  lemma {:induction false} SideLoad(b: State, mid: seq<Act>)
    requires Inv(b) && Legal(b, mid) && Undisturbed(b, mid) && b.poller.stage == 1 && b.log.desk.decisions != []
    ensures var b', ds := Next(Run(b, mid), PollNext), b.log.desk.decisions;
            && Inv(b') && b'.log.desk.decisions == ds
            && b'.poller.stage == 2 && b'.poller.seq0 == b.poller.seq0 && b'.poller.got == b.poller.got
            && b'.poller.side == ds[|ds| - 1].side
  {
    UndisturbedRun(b, mid);
    LoadOnly(Run(b, mid));
  }

  /** The third load, of SIGNAL_TICK, after an undisturbed wait. */
  lemma {:induction false} TickLoad(b: State, mid: seq<Act>)
    requires Inv(b) && Legal(b, mid) && Undisturbed(b, mid) && b.poller.stage == 2 && b.log.desk.decisions != []
    ensures var p, p', ds := b.poller, Next(Run(b, mid), PollNext).poller, b.log.desk.decisions;
            && |p'.got| == |p.got| + 1
            && var v := p'.got[|p.got|]; v.seq0 == p.seq0 && v.side == p.side && v.tick == ds[|ds| - 1].tick
  {
    UndisturbedRun(b, mid);
    LoadOnly(Run(b, mid));
  }

  /** A load by the poller changes nothing but the poller. */
  lemma LoadOnly(b: State)
    requires Inv(b)
    ensures var b' := Next(b, PollNext);
            && Inv(b') && b'.core == b.core && b'.log == b.log
            && b'.poller == PollStep(b.poller, b.core, b.log.desk)
  {
    HostInv(b, PollNext);
  }

  /** SIGNAL_SEQ has moved, so there is a decision. */
  lemma HasDecision(b: State)
    requires Inv(b) && b.poller.synced && b.core.mem[323] != b.poller.signalSeq
    ensures b.log.desk.decisions != []
  {
  }

  // ----- the inventory

  /** The POSITION word stays within MAX - 1 + K lots either way. */
  lemma {:induction false} PositionBounded(m: Machine, b: State, acts: seq<Act>, k: int)
    requires Boots(m, b) && Legal(b, acts)
    requires k >= 1 && Limit(b.core) - 1 + k < H31
    requires HonestRun(b, Orders(0, 0), acts, k)
    ensures var m' := MachineRun(m, b, acts);
            && m'.mem[262] == m.mem[262]
            && (m'.pc >= LOOP && !(64 <= m'.pc <= 67) ==>
                  -(m.mem[262] - 1 + k) <= S32(m'.mem[324]) <= m.mem[262] - 1 + k)
  {
    BootRuns(m, b, acts);
    InventoryBound(b, Orders(0, 0), acts, k);
  }

  // ----- the kill switch

  /**
    At any moment of any run at which CFG_ENABLE reads zero: as long as the host does
    not switch it back on, at most one more decision comes out.
   */
  lemma {:induction false} KillSwitchHolds(m: Machine, b: State, acts: seq<Act>, more: seq<Act>)
    requires Boots(m, b) && Legal(b, acts) && MachineRun(m, b, acts).mem[263] == 0
    requires Legal(Run(b, acts), more) && KillSwitch.StaysOff(more)
    ensures KillSwitch.Publications(Run(b, acts), more) <= 1
  {
    BootRuns(m, b, acts);
    KillSwitch.AtMostOneMore(Run(b, acts), more);
  }
}
