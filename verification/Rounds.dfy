/**
  Rounds of the board with a known outcome: the CPU starts, a quote goes out and is
  worked through, a fill is reported and applied.  Each round is honest in the sense
  of module Inventory, and leaves the CPU at the loop head with nothing to do.
 */
module Rounds {
  import opened Isa
  import opened Program
  import opened TradingCore
  import opened Flow
  import opened Safety
  import opened Strategy
  import opened Board
  import opened Refinement
  import opened Seqlock
  import opened Fills
  import opened Polls
  import opened System
  import opened Inventory
  import opened Compose
  import opened Script

  // ----- orders outstanding, from the record

  function Placed(ds: seq<Decision>, buy: bool): nat {
    if ds == [] then 0
    else Placed(ds[..|ds| - 1], buy) + if (ds[|ds| - 1].side == BUY) == buy then 1 else 0
  }

  function Answered(events: seq<Event>, buy: bool): nat {
    if events == [] then 0
    else
      var e := events[|events| - 1];
      Answered(events[..|events| - 1], buy) + if e.Fill? && (e.side == BOUGHT) == buy then 1 else 0
  }

  function OrdersOf(start: Word, events: seq<Event>): Orders {
    var ds := Fold(start, events).decisions;
    Orders(Placed(ds, true) - Answered(events, true), Placed(ds, false) - Answered(events, false))
  }

  function OrdersAt(b: State): Orders {
    OrdersOf(b.log.start, b.log.events)
  }

  lemma {:induction false} PlacedSnoc(ds: seq<Decision>, d: Decision, buy: bool)
    ensures Placed(ds + [d], buy) == Placed(ds, buy) + if (d.side == BUY) == buy then 1 else 0
  {
    assert (ds + [d])[..|ds|] == ds;
  }

  lemma {:induction false} AnsweredSnoc(events: seq<Event>, e: Event, buy: bool)
    ensures Answered(events + [e], buy) == Answered(events, buy) + if e.Fill? && (e.side == BOUGHT) == buy then 1 else 0
  {
    assert (events + [e])[..|events|] == events;
  }

  /** An event changes the orders outstanding by the decision it leads to, or by its fill. */
  lemma {:induction false} OrdersSnoc(start: Word, events: seq<Event>, e: Event)
    ensures var o, o' := OrdersOf(start, events), OrdersOf(start, events + [e]);
            match e
            case Fill(side, _) => o' == if side == BOUGHT then o.(buys := o.buys - 1) else o.(sells := o.sells - 1)
            case Quote(_, _, _, _, _, _) =>
              var ds, ds' := Fold(start, events).decisions, Fold(start, events + [e]).decisions;
              if ds' == ds then o' == o
              else
                && |ds'| == |ds| + 1
                && o' == if ds'[|ds|].side == BUY then o.(buys := o.buys + 1) else o.(sells := o.sells + 1)
  {
    var ds := Fold(start, events).decisions;
    FoldSnoc(start, events, e);
    var ds' := Fold(start, events + [e]).decisions;
    AnsweredSnoc(events, e, true);
    AnsweredSnoc(events, e, false);
    if ds' != ds {
      assert ds' == ds + [ds'[|ds|]];
      PlacedSnoc(ds, ds'[|ds|], true);
      PlacedSnoc(ds, ds'[|ds|], false);
    }
  }

  /** What one instruction of the loop adds to the record. */
  lemma LogEvents(s: Core, g: Log, n: nat)
    requires Ram(s) && 46 <= s.pc < 154
    ensures var g' := LogStep(s, g, n);
            && g'.start == g.start
            && g'.events == g.events +
               if s.pc == 63 || s.pc == 65 then [Fill(s.y, s.qty)]
               else if Commits(s) then [QuoteOf(s, g)]
               else []
  {
    LogShape(s, g, n);
  }

  lemma FillOrders(s: Core, g: Log, n: nat)
    requires Refines(s, g) && (s.pc == 63 || s.pc == 65)
    ensures OrdersOf(g.start, g.events + [Fill(s.y, s.qty)]) == OrdersNext(OrdersOf(g.start, g.events), s, Cpu)
  {
    OrdersSnoc(g.start, g.events, Fill(s.y, s.qty));
  }

  lemma QuoteOrders(s: Core, g: Log, n: nat)
    requires Refines(s, g) && Folded(g) && 46 <= s.pc < 154 && Commits(s)
    ensures var e := QuoteOf(s, g);
            OrdersOf(g.start, g.events + [e]) == OrdersNext(OrdersOf(g.start, g.events), s, Cpu)
  {
    var e := QuoteOf(s, g);
    DecisionsStep(s, g, n);
    LogFolds(s, g, n);
    LogEvents(s, g, n);
    OrdersSnoc(g.start, g.events, e);
  }

  /** The orders followed along a run are those of the record. */
  lemma OrdersFollow(s: Core, g: Log, n: nat)
    requires Refines(s, g) && Folded(g) && 46 <= s.pc < 154
    ensures var g' := LogStep(s, g, n);
            OrdersOf(g'.start, g'.events) == OrdersNext(OrdersOf(g.start, g.events), s, Cpu)
  {
    LogEvents(s, g, n);
    if s.pc == 63 || s.pc == 65 {
      FillOrders(s, g, n);
    } else if Commits(s) {
      QuoteOrders(s, g, n);
    } else {
      assert LogStep(s, g, n).events == g.events;
    }
  }

  // ----- the CPU alone, to the end of the pass

  function OrdersAfter(b: State, o: Orders, acts: seq<Act>): Orders
    requires Ram(b.core) && Legal(b, acts)
    decreases |acts|
  {
    if acts == [] then o else OrdersAfter(Next(b, acts[0]), OrdersNext(o, b.core, acts[0]), acts[1..])
  }

  /** A legal, honest run whose orders are those of the record at both ends. */
  predicate Good(b: State, acts: seq<Act>, k: int) {
    && Ram(b.core) && Legal(b, acts) && HonestRun(b, OrdersAt(b), acts, k)
    && OrdersAfter(b, OrdersAt(b), acts) == OrdersAt(Run(b, acts))
  }

  /** The waiting fill is one lot bought on an open order; the new quote may open one more. */
  predicate Allows(s: Core, start: Word, p: Plan, k: int)
    requires Ram(s)
  {
    && (s.mem[267] != p.seen ==> s.mem[268] == BOUGHT && s.mem[269] == 1 && OrdersOf(start, p.events).buys > 0)
    && (s.mem[256] != p.tick ==> var o := OrdersOf(start, AfterFill(s, p)); o.buys + o.sells < k)
  }

  lemma HonestStep(s: Core, g: Log, p: Plan, n: nat, k: int)
    requires Refines(s, g) && Underway(s, g, p, n) && Allows(s, g.start, p, k)
    ensures Honest(OrdersOf(g.start, g.events), s, Cpu, k)
  {
  }

  lemma AllowsKept(s: Core, s': Core, start: Word, p: Plan, k: int)
    requires Framed(s, s') && 46 <= s.pc < 154 && Allows(s, start, p, k)
    ensures Allows(s', start, p, k) && s'.mem[256..271] == s.mem[256..271]
  {
    KeepsInputs(s, s');
    forall a | 256 <= a < 271
      ensures s'.mem[a] == s.mem[a]
    {
      assert s'.mem[256..271][a - 256] == s.mem[256..271][a - 256];
    }
  }

  /** What stays the same on the host's side while the CPU runs alone. */
  predicate SameHost(b: State, b': State) {
    && Ram(b.core) && Ram(b'.core)
    && b'.ticker == b.ticker && b'.reporter == b.reporter && b'.log.start == b.log.start
    && b'.core.mem[256..271] == b.core.mem[256..271]
  }

  lemma PassAct(b: State, p: Plan, k: int)
    requires Inv(b) && Underway(b.core, b.log, p, Published(b.ticker)) && Allows(b.core, b.log.start, p, k)
    ensures var b' := Next(b, Cpu);
            && Inv(b') && SameHost(b, b') && Onward(b'.core, b'.log, p, Published(b.ticker))
            && Allows(b'.core, b.log.start, p, k) && OrdersAt(b') == OrdersNext(OrdersAt(b), b.core, Cpu)
            && (b.core.pc != LOOP ==> Left(b'.core.pc) < Left(b.core.pc))
            && Honest(OrdersAt(b), b.core, Cpu, k)
  {
    var s, n := b.core, Published(b.ticker);
    CpuInv(b);
    CoreProgress(s);
    Frame(s);
    PassStep(s, b.log, p, n);
    HonestStep(s, b.log, p, n, k);
    AllowsKept(s, CoreStep(s), b.log.start, p, k);
    OrdersFollow(s, b.log, n);
    LogEvents(s, b.log, n);
  }

  lemma {:induction false} GoodCons(b: State, act: Act, acts: seq<Act>, k: int)
    requires Ram(b.core) && Enabled(b, act) && Honest(OrdersAt(b), b.core, act, k)
    requires OrdersAt(Next(b, act)) == OrdersNext(OrdersAt(b), b.core, act) && Good(Next(b, act), acts, k)
    ensures Good(b, [act] + acts, k) && Run(b, [act] + acts) == Run(Next(b, act), acts)
  {
    assert ([act] + acts)[1..] == acts;
  }

  lemma {:induction false} GoodConcat(b: State, xs: seq<Act>, ys: seq<Act>, k: int)
    requires Good(b, xs, k) && Good(Run(b, xs), ys, k)
    ensures Good(b, xs + ys, k) && Run(b, xs + ys) == Run(Run(b, xs), ys)
  {
    RunConcat(b, xs, ys);
    HonestConcat(b, OrdersAt(b), xs, ys, k);
  }

  lemma {:induction false} HonestConcat(b: State, o: Orders, xs: seq<Act>, ys: seq<Act>, k: int)
    requires Ram(b.core) && Legal(b, xs) && Legal(Run(b, xs), ys) && Legal(b, xs + ys)
    requires HonestRun(b, o, xs, k) && HonestRun(Run(b, xs), OrdersAfter(b, o, xs), ys, k)
    ensures HonestRun(b, o, xs + ys, k)
    ensures OrdersAfter(b, o, xs + ys) == OrdersAfter(Run(b, xs), OrdersAfter(b, o, xs), ys)
    decreases |xs|
  {
    if xs == [] {
      assert xs + ys == ys;
    } else {
      assert (xs + ys)[1..] == xs[1..] + ys;
      HonestConcat(Next(b, xs[0]), OrdersNext(o, b.core, xs[0]), xs[1..], ys, k);
    }
  }

  /** The state at the end of a pass. */
  predicate Ends(b: State, b': State, p: Plan) {
    SameHost(b, b') && Finished(b'.core, b'.log, p, Published(b.ticker))
  }

  /** The board after `n` instructions on its own. */
  function AfterAlone(b: State, n: nat): (b': State)
    requires Ram(b.core)
    ensures Ram(b'.core)
    decreases n
  {
    if n == 0 then b else AfterAlone(Next(b, Cpu), n - 1)
  }

  predicate GoodAlone(b: State, n: nat, k: int)
    requires Ram(b.core)
    decreases n
  {
    n > 0 ==>
      && Honest(OrdersAt(b), b.core, Cpu, k) && OrdersAt(Next(b, Cpu)) == OrdersNext(OrdersAt(b), b.core, Cpu)
      && GoodAlone(Next(b, Cpu), n - 1, k)
  }

  lemma {:induction false} AloneIsRun(b: State, n: nat)
    requires Ram(b.core)
    ensures Legal(b, Alone(n)) && Run(b, Alone(n)) == AfterAlone(b, n)
    decreases n
  {
    if n > 0 {
      AloneIsRun(Next(b, Cpu), n - 1);
      assert Alone(n)[1..] == Alone(n - 1);
    }
  }

  lemma {:induction false} GoodAloneIsGood(b: State, n: nat, k: int)
    requires Ram(b.core) && GoodAlone(b, n, k)
    ensures Good(b, Alone(n), k)
    decreases n
  {
    if n > 0 {
      GoodAloneIsGood(Next(b, Cpu), n - 1, k);
      GoodCons(b, Cpu, Alone(n - 1), k);
    }
  }

  /** The pass comes to its end. */
  lemma {:induction false} PassEnds(b: State, p: Plan) returns (n: nat)
    requires Inv(b) && Underway(b.core, b.log, p, Published(b.ticker))
    ensures Inv(AfterAlone(b, n)) && Ends(b, AfterAlone(b, n), p)
    decreases if b.core.pc == LOOP then 81 else Left(b.core.pc)
  {
    PlainAct(b, p);
    var b1 := Next(b, Cpu);
    if b1.core.pc == LOOP {
      return 1;
    }
    LeftBound(b1.core.pc);
    n := PassEnds(b1, p);
    EndsOn(b, b1, AfterAlone(b1, n), p);
    n := n + 1;
  }

  lemma EndsOn(b: State, b1: State, b': State, p: Plan)
    requires SameHost(b, b1) && Ends(b1, b', p)
    ensures Ends(b, b', p)
  {
  }

  /** And it does so honestly, if the fill and the decision are honest ones. */
  lemma {:induction false} PassIsGood(b: State, p: Plan, k: int) returns (n: nat)
    requires Inv(b) && Underway(b.core, b.log, p, Published(b.ticker)) && Allows(b.core, b.log.start, p, k)
    ensures GoodAlone(b, n, k) && Inv(AfterAlone(b, n)) && Ends(b, AfterAlone(b, n), p)
    decreases if b.core.pc == LOOP then 81 else Left(b.core.pc)
  {
    PassAct(b, p, k);
    var b1 := Next(b, Cpu);
    if b1.core.pc == LOOP {
      return 1;
    }
    LeftBound(b1.core.pc);
    n := PassIsGood(b1, p, k);
    EndsOn(b, b1, AfterAlone(b1, n), p);
    n := n + 1;
  }

  lemma {:induction false} PassRuns(b: State, p: Plan, k: int) returns (n: nat, b': State)
    requires Inv(b) && Underway(b.core, b.log, p, Published(b.ticker)) && Allows(b.core, b.log.start, p, k)
    ensures Good(b, Alone(n), k) && b' == Run(b, Alone(n)) && Inv(b') && Ends(b, b', p)
  {
    n := PassIsGood(b, p, k);
    GoodAloneIsGood(b, n, k);
    AloneIsRun(b, n);
    b' := AfterAlone(b, n);
  }

  lemma PlainAct(b: State, p: Plan)
    requires Inv(b) && Underway(b.core, b.log, p, Published(b.ticker))
    ensures var b' := Next(b, Cpu);
            && Inv(b') && SameHost(b, b') && Onward(b'.core, b'.log, p, Published(b.ticker))
            && (b.core.pc != LOOP ==> Left(b'.core.pc) < Left(b.core.pc))
  {
    var s, n := b.core, Published(b.ticker);
    CpuInv(b);
    CoreProgress(s);
    Frame(s);
    PassStep(s, b.log, p, n);
    KeepsInputs(s, CoreStep(s));
    LogEvents(s, b.log, n);
  }

  lemma LeftBound(pc: int)
    requires 46 <= pc < 154
    ensures 0 <= Left(pc) <= 80
  {
  }

  // ----- the host's part of a round

  predicate Agents(act: Act) {
    act.TickBegin? || act.TickNext? || act.FillBegin? || act.FillNext?
  }

  /** The ticker and the reporter at work: honest, and nothing for the record. */
  lemma {:induction false} AgentsGood(b: State, acts: seq<Act>, k: int)
    requires Inv(b) && Legal(b, acts) && forall i :: 0 <= i < |acts| ==> Agents(acts[i])
    ensures Good(b, acts, k) && Inv(Run(b, acts)) && Run(b, acts).log == b.log
    decreases |acts|
  {
    if acts != [] {
      HostInv(b, acts[0]);
      AgentsGood(Next(b, acts[0]), acts[1..], k);
      GoodCons(b, acts[0], acts[1..], k);
      assert [acts[0]] + acts[1..] == acts;
    }
  }

  lemma {:induction false} TicksOnly(b: State, acts: seq<Act>)
    requires Ram(b.core) && Legal(b, acts) && forall i :: 0 <= i < |acts| ==> acts[i].TickBegin? || acts[i].TickNext?
    ensures Run(b, acts).reporter == b.reporter
    decreases |acts|
  {
    if acts != [] {
      TicksOnly(Next(b, acts[0]), acts[1..]);
    }
  }

  /** One whole report. */
  function Reporting(side: Word, qty: Word): seq<Act> {
    [FillBegin(side, qty), FillNext, FillNext, FillNext]
  }

  lemma {:induction false} ReportOnce(b: State, side: Word, qty: Word)
    requires Ram(b.core) && b.reporter.left == 0
    ensures Legal(b, Reporting(side, qty))
    ensures var b', seq0 := Run(b, Reporting(side, qty)), U32(b.reporter.seq0 + 1);
            && b'.core == b.core.(mem := b.core.mem[268 := side][269 := qty][267 := seq0])
            && b'.reporter.left == 0 && b'.reporter.seq0 == seq0
            && b'.reporter.reported == b.reporter.reported + [Fill(side, qty)]
            && b'.ticker == b.ticker && b'.log == b.log
  {
    var b1 := Next(b, FillBegin(side, qty));
    var b2 := Next(b1, FillNext);
    var b3 := Next(b2, FillNext);
    RunCons(b3, FillNext, []);
    assert [FillNext] + [] == [FillNext];
    RunCons(b2, FillNext, [FillNext]);
    assert [FillNext] + [FillNext] == [FillNext, FillNext];
    RunCons(b1, FillNext, [FillNext, FillNext]);
    assert [FillNext] + [FillNext, FillNext] == [FillNext, FillNext, FillNext];
    RunCons(b, FillBegin(side, qty), [FillNext, FillNext, FillNext]);
    assert [FillBegin(side, qty)] + [FillNext, FillNext, FillNext] == Reporting(side, qty);
  }

  // ----- rounds

  /** At the loop head with nothing to do, the host's agents at rest. */
  ghost predicate Resting(b: State) {
    && Inv(b) && b.core.pc == LOOP && Plain(b.core)
    && b.core.seen == b.core.mem[267] && b.core.tick == b.core.mem[256]
    && b.ticker.left == 0 && b.reporter.left == 0
  }

  /** A whole even TICK_SEQ in memory is the ticker's own. */
  lemma TickerAtRest(b: State)
    requires Resting(b)
    ensures b.ticker.seq0 == b.core.mem[256] && U32(b.ticker.seq0 + 2) % 2 == 0
    ensures U32(b.ticker.seq0 + 2) != b.core.tick
  {
    OddIsNone(b.ticker, Published(b.ticker), Published(b.ticker));
    TwoOn(b.ticker.seq0);
  }

  lemma TwoOn(w: Word)
    requires w % 2 == 0
    ensures U32(w + 2) != w && U32(w + 2) % 2 == 0
  {
  }

  function PlanAt(b: State): Plan {
    Plan(b.log.events, b.core.seen, b.core.tick)
  }

  /** The board once a quote is out. */
  lemma Quoted(b: State, q: Tick, k: int) returns (b1: State)
    requires Resting(b) && OrdersAt(b).buys + OrdersAt(b).sells < k
    ensures Good(b, Publication(q), k) && b1 == Run(b, Publication(q)) && Inv(b1)
    ensures Underway(b1.core, b1.log, PlanAt(b), Published(b1.ticker)) && Allows(b1.core, b.log.start, PlanAt(b), k)
    ensures b1.ticker.left == 0 && b1.reporter == b.reporter && b1.log == b.log
    ensures Settings(b1.core) == Settings(b.core)
    ensures b1.core.mem[256] != b.core.tick && b1.core.mem[257] == q.bid && b1.core.mem[258] == q.ask
    ensures b1.core.mem[267] == b.core.seen
  {
    PublishOnce(b, q);
    TickerAtRest(b);
    AgentsGood(b, Publication(q), k);
    TicksOnly(b, Publication(q));
    b1 := Run(b, Publication(q));
    assert AfterFill(b1.core, PlanAt(b)) == b.log.events;
  }

  /** A quote goes out and is worked through. */
  lemma QuoteRound(b: State, q: Tick, k: int) returns (acts: seq<Act>, e: Event)
    requires Resting(b) && OrdersAt(b).buys + OrdersAt(b).sells < k
    ensures Good(b, acts, k)
    ensures var b' := Run(b, acts);
            && Resting(b') && b'.log.start == b.log.start && b'.log.events == b.log.events + [e]
            && e.Quote? && e.bid == q.bid && e.ask == q.ask && e.cfg == Settings(b.core)
            && Settings(b'.core) == Settings(b.core) && b'.reporter == b.reporter
  {
    var b1 := Quoted(b, q, k);
    var n, b' := PassRuns(b1, PlanAt(b), k);
    GoodConcat(b, Publication(q), Alone(n), k);
    acts := Publication(q) + Alone(n);
    WordsKept(b1, b');
    e := Quote(b'.core.mem[256], q.bid, q.ask, Settings(b.core), Published(b1.ticker), Published(b1.ticker));
    assert AfterPass(b'.core, PlanAt(b), Published(b1.ticker)) == b.log.events + [e];
  }

  lemma WordsKept(b: State, b': State)
    requires SameHost(b, b')
    ensures forall a :: 256 <= a < 271 ==> b'.core.mem[a] == b.core.mem[a]
  {
    forall a | 256 <= a < 271
      ensures b'.core.mem[a] == b.core.mem[a]
    {
      assert b'.core.mem[256..271][a - 256] == b.core.mem[256..271][a - 256];
    }
  }

  /** The board once a fill is reported. */
  lemma ReportedOne(b: State, k: int) returns (b1: State)
    requires Resting(b) && OrdersAt(b).buys > 0
    ensures Good(b, Reporting(BOUGHT, 1), k) && b1 == Run(b, Reporting(BOUGHT, 1)) && Inv(b1)
    ensures Underway(b1.core, b1.log, PlanAt(b), Published(b1.ticker)) && Allows(b1.core, b.log.start, PlanAt(b), k)
    ensures b1.ticker == b.ticker && b1.reporter.left == 0 && b1.log == b.log && Settings(b1.core) == Settings(b.core)
    ensures b1.core.mem[267] != b.core.seen && b1.core.mem[268] == BOUGHT && b1.core.mem[269] == 1
    ensures b1.core.mem[256] == b.core.tick
  {
    ReportOnce(b, BOUGHT, 1);
    AgentsGood(b, Reporting(BOUGHT, 1), k);
    b1 := Run(b, Reporting(BOUGHT, 1));
    OneOn(b.reporter.seq0);
  }

  /** One bought lot is reported and applied. */
  lemma FillRound(b: State, k: int) returns (acts: seq<Act>)
    requires Resting(b) && OrdersAt(b).buys > 0
    ensures Good(b, acts, k)
    ensures var b' := Run(b, acts);
            && Resting(b') && b'.log.start == b.log.start && b'.log.events == b.log.events + [Fill(BOUGHT, 1)]
            && Settings(b'.core) == Settings(b.core)
  {
    var b1 := ReportedOne(b, k);
    var n, b' := PassRuns(b1, PlanAt(b), k);
    GoodConcat(b, Reporting(BOUGHT, 1), Alone(n), k);
    acts := Reporting(BOUGHT, 1) + Alone(n);
    WordsKept(b1, b');
    assert AfterPass(b'.core, PlanAt(b), Published(b1.ticker)) == b.log.events + [Fill(BOUGHT, 1)];
  }

  lemma OneOn(w: Word)
    ensures U32(w + 1) != w
  {
  }

  // ----- the start

  /** Words 8..45, and the first time at the loop head. */
  predicate Begun(s: Core, g: Log) {
    && Ram(s) && 8 <= s.pc <= LOOP && g.events == []
    && (s.pc > 13 ==> s.tick == 0)
    && (s.pc > 16 ==> g.start == s.mem[270])
    && (s.pc > 18 ==> s.seen == s.mem[267])
  }

  ghost predicate Starts(b: State) {
    Inv(b) && Begun(b.core, b.log) && b.reporter.reported == []
  }

  /** The position the CPU starts from is within the limit. */
  predicate StartWithin(s: Core)
    requires Ram(s)
  {
    -(s.mem[262] as int) <= S32(s.mem[270]) <= s.mem[262]
  }

  lemma StartLog(s: Core, g: Log, n: nat)
    requires Ram(s) && 8 <= s.pc < 46 && g.events == []
    ensures var g' := LogStep(s, g, n);
            g'.events == [] && g'.start == if s.pc == 8 then 0 else if s.pc == 16 then s.mem[270] else g.start
  {
  }

  lemma StartFar(s: Core, s': Core, g: Log, g': Log)
    requires Framed(s, s') && Begun(s, g) && s.pc < LOOP && (s.pc == 41 ==> !s.taken)
    requires s.pc == 13 ==> s'.tick == 0
    requires s.pc == 18 ==> s'.seen == s.mem[267]
    requires g'.events == [] && (s.pc == 16 ==> g'.start == s.mem[270])
    requires s.pc != 8 && s.pc != 16 ==> g'.start == g.start
    ensures Begun(s', g') && s'.pc == s.pc + 1 && s'.mem[256..271] == s.mem[256..271]
  {
    StoresOutputs(s.pc);
    assert forall a :: 256 <= a < 271 ==> s'.mem[a] == s.mem[a];
  }

  lemma SetupReads(s: Core)
    requires Ram(s)
    ensures s.pc == 13 ==> CoreStep(s).tick == 0
    ensures s.pc == 18 ==> CoreStep(s).seen == s.mem[267]
  {
  }

  lemma StartCore(s: Core, g: Log, n: nat)
    requires Begun(s, g) && s.pc < LOOP && (s.pc == 41 ==> !s.taken)
    ensures var s' := CoreStep(s);
            Begun(s', LogStep(s, g, n)) && s'.pc == s.pc + 1 && s'.mem[256..271] == s.mem[256..271]
  {
    Frame(s);
    StartLog(s, g, n);
    SetupReads(s);
    StartFar(s, CoreStep(s), g, LogStep(s, g, n));
  }

  lemma StartAct(b: State)
    requires Starts(b) && b.core.pc < LOOP
    ensures var b' := Next(b, Cpu);
            && Starts(b') && b'.core.pc == b.core.pc + 1 && b'.core.mem[256..271] == b.core.mem[256..271]
            && b'.ticker == b.ticker && b'.reporter.left == b.reporter.left
            && OrdersAt(b') == OrdersNext(OrdersAt(b), b.core, Cpu)
  {
    CpuInv(b);
    StartCore(b.core, b.log, Published(b.ticker));
    NoOrders(b.log.start);
    NoOrders(Next(b, Cpu).log.start);
  }

  lemma NoOrders(start: Word)
    ensures OrdersOf(start, []) == Orders(0, 0)
  {
  }

  lemma {:induction false} StartRuns(b: State, k: int) returns (n: nat)
    requires Starts(b) && StartWithin(b.core)
    ensures Good(b, Alone(n), k)
    ensures var b' := Run(b, Alone(n));
            && Starts(b') && b'.core.pc == LOOP && b'.core.mem[256..271] == b.core.mem[256..271]
            && b'.ticker == b.ticker && b'.reporter.left == b.reporter.left
    decreases LOOP - b.core.pc
  {
    if b.core.pc == LOOP {
      return 0;
    }
    StartAct(b);
    var b1 := Next(b, Cpu);
    assert b1.core.mem[262] == b1.core.mem[256..271][6] && b1.core.mem[270] == b1.core.mem[256..271][14];
    assert b.core.mem[262] == b.core.mem[256..271][6] && b.core.mem[270] == b.core.mem[256..271][14];
    n := StartRuns(b1, k);
    GoodCons(b, Cpu, Alone(n), k);
    n := n + 1;
  }

  /** From a fresh board: trading enabled, a threshold of one, no restart asked for, no quote yet. */
  predicate FreshBoard(b: State, max: Word) {
    Initial(b) && !b.ticker.torn && Fresh(b.core, max)
  }

  predicate Fresh(s: Core, max: Word) {
    && Ram(s) && s.mem[256] == 0 && s.mem[266] == 0
    && Settings(s) == Config(1, 1, max) && s.mem[270] == max - 1
  }

  lemma StartRound(b: State, max: Word, k: int) returns (acts: seq<Act>)
    requires FreshBoard(b, max) && 0 < max < H31
    ensures OrdersAt(b) == Orders(0, 0) && Good(b, acts, k)
    ensures var b' := Run(b, acts);
            && Resting(b') && b'.log.events == [] && b'.log.start == max - 1
            && Settings(b'.core) == Config(1, 1, max) && b'.reporter.reported == []
  {
    FreshStarts(b, max);
    acts := StartsToRest(b, max, k);
  }

  lemma StartsToRest(b: State, max: Word, k: int) returns (acts: seq<Act>)
    requires Starts(b) && StartWithin(b.core) && b.ticker.left == 0 && b.reporter.left == 0 && Fresh(b.core, max)
    requires 0 < max < H31
    ensures Good(b, acts, k)
    ensures var b' := Run(b, acts);
            && Resting(b') && b'.log.events == [] && b'.log.start == max - 1
            && Settings(b'.core) == Config(1, 1, max) && b'.reporter.reported == []
  {
    var n := StartRuns(b, k);
    acts := Alone(n);
    StartRests(b, Run(b, acts), max);
  }

  lemma StartRests(b: State, b': State, max: Word)
    requires Fresh(b.core, max) && 0 < max < H31 && Ram(b'.core)
    requires Starts(b') && b'.core.pc == LOOP && b'.core.mem[256..271] == b.core.mem[256..271]
    requires b'.ticker.left == 0 && b'.reporter.left == 0
    ensures Resting(b') && b'.log.events == [] && b'.log.start == max - 1 && Settings(b'.core) == Config(1, 1, max)
  {
    StartWords(b, b');
  }

  lemma FreshStarts(b: State, max: Word)
    requires FreshBoard(b, max) && 0 < max < H31
    ensures Starts(b) && StartWithin(b.core) && OrdersAt(b) == Orders(0, 0)
    ensures b.ticker.left == 0 && b.reporter.left == 0 && Ram(b.core)
  {
    InitialInv(b);
  }

  lemma StartWords(b: State, b': State)
    requires Ram(b.core) && Ram(b'.core) && b'.core.mem[256..271] == b.core.mem[256..271]
    ensures forall a :: 256 <= a < 271 ==> b'.core.mem[a] == b.core.mem[a]
  {
    forall a | 256 <= a < 271
      ensures b'.core.mem[a] == b.core.mem[a]
    {
      assert b'.core.mem[256..271][a - 256] == b.core.mem[256..271][a - 256];
    }
  }
}
