/**
  The glue of the host program: one fill goes to the profit-and-loss desk, to the
  fabric and to the software strategy; one decision is checked and then sent.
 */
module App {
  import opened Isa
  import Strategy
  import CStrategy
  import Risk
  import Exec
  import Host
  import Board

  const SOLD: Word := 2

  /** The host program's own state; the fabric is beside it. */
  datatype Desk = Desk(risk: Risk.Ledger, soft: CStrategy.Soft, orders: Exec.Table, mid: int)

  /** Clock, feed age and network at the moment a decision is acted on. */
  datatype Moment = Moment(feedAgeUs: nat, nowMs: nat, nowUs: nat, link: Exec.Link)

  datatype Happening =
    | Quoted(bid: Word, ask: Word, at: Moment)
    | Decided(side: Word, at: Moment)                       // the fabric's decision, drained
    | Broker(event: Exec.Event)                             // a reply, an error or a poll

  predicate Wellformed(d: Desk) {
    Exec.Wellformed(d.orders)
  }

  predicate Possible(h: Happening) {
    h.Broker? ==> Exec.Fits(h.event) && !h.event.Send?
  }

  function SideOf(r: Exec.Report): Word {
    if r.bought then Strategy.BOUGHT else SOLD
  }

  /** A fill came back: the same side and quantity to both position keepers. */
  function Filled(d: Desk, r: Exec.Report): Desk
    requires r.qty < W32
  {
    d.(risk := Risk.OnFill(d.risk, Risk.Trade(SideOf(r), r.qty, r.price)),
       soft := CStrategy.SoftFill(d.soft, SideOf(r), r.qty))
  }

  function SendOf(d: Desk, side: Word, at: Moment): Exec.Event {
    Exec.Send(side, d.mid, at.nowMs, at.nowUs, at.link)
  }

  /** Ask the risk desk first; only its consent lets the order out. */
  function ActOn(d: Desk, cfg: Exec.Settings, side: Word, at: Moment): (d': Desk)
    requires Wellformed(d)
    ensures Wellformed(d')
  {
    var (risk, verdict) := Risk.Check(d.risk, at.feedAgeUs);
    if !verdict.Fine? then d.(risk := risk)
    else d.(risk := risk, orders := Exec.Step(d.orders, cfg, SendOf(d, side, at)).0)
  }

  /** Reports carry one lot. */
  lemma OneLot(t: Exec.Table, cfg: Exec.Settings, e: Exec.Event)
    requires Exec.Wellformed(t) && Exec.Fits(e) && Exec.Step(t, cfg, e).1.Some?
    ensures Exec.Step(t, cfg, e).1.value.qty == 1
  {
    Exec.StepSlots(t, cfg, e);
  }

  function Step(d: Desk, cfg: Exec.Settings, fabric: bool, h: Happening): (d': Desk)
    requires Wellformed(d) && Possible(h)
    ensures Wellformed(d')
  {
    match h
    case Quoted(bid, ask, at) =>
      var mid := (bid + ask) / 2;
      var d1 := d.(mid := mid, risk := Risk.Mark(d.risk, mid));
      if fabric then d1
      else
        var (soft, side) := CStrategy.SoftQuote(d.soft, bid, ask);
        var d2 := d1.(soft := soft);
        if side == Strategy.NONE then d2 else ActOn(d2, cfg, side, at)
    case Decided(side, at) =>
      if side == Strategy.BUY || side == Strategy.SELL then ActOn(d, cfg, side, at) else d
    case Broker(e) =>
      var (orders, report) := Exec.Step(d.orders, cfg, e);
      var d1 := d.(orders := orders);
      if report.None? then d1 else
      OneLot(d.orders, cfg, e);
      Filled(d1, report.value)
  }

  function Run(d: Desk, cfg: Exec.Settings, fabric: bool, hs: seq<Happening>): (d': Desk)
    requires Wellformed(d) && forall i :: 0 <= i < |hs| ==> Possible(hs[i])
    ensures Wellformed(d')
  {
    if hs == [] then d else Step(Run(d, cfg, fabric, hs[..|hs| - 1]), cfg, fabric, hs[|hs| - 1])
  }

  // ----- the host program in place

  class HostApp {
    const risk: Risk.RiskDesk
    const soft: CStrategy.SoftStrategy
    const orders: Exec.OrderTable
    const fpga: Host.Fpga
    const present: bool
    var mid: int

    ghost predicate Valid()
      reads this, orders, fpga
    {
      orders.Valid() && fpga.Ok()
    }

    ghost function State(): (d: Desk)
      reads this, risk, soft, orders, orders.pending, fpga
      requires Valid()
      ensures Wellformed(d)
    {
      Desk(risk.State(), soft.State(), orders.State(), mid)
    }

    constructor (risk: Risk.RiskDesk, soft: CStrategy.SoftStrategy, orders: Exec.OrderTable, fpga: Host.Fpga, present: bool)
      requires orders.Valid() && fpga.Ok()
      ensures Valid() && State() == Desk(risk.State(), soft.State(), orders.State(), 0)
      ensures this.risk == risk && this.soft == soft && this.orders == orders && this.fpga == fpga
    {
      this.risk, this.soft, this.orders, this.fpga, this.present := risk, soft, orders, fpga, present;
      mid := 0;
    }

    /** on_fill: three position keepers, one fill. */
    method OnFill(r: Exec.Report)
      requires Valid() && r.qty < W32
      modifies risk, soft, fpga, fpga.regs
      ensures Valid() && State() == Filled(old(State()), r)
      ensures fpga.trace == old(fpga.trace) +
              if present then Board.ReportStores(old(fpga.fillSeq), SideOf(r), r.qty) else []
    {
      risk.Fill(Risk.Trade(SideOf(r), r.qty, r.price));
      if present {
        fpga.ReportFill(SideOf(r), r.qty);
      }
      soft.OnFill(SideOf(r), r.qty);
    }

    /** act_on: a refusal for good also stores zero in CFG_ENABLE. */
    method Act(cfg: Exec.Settings, side: Word, at: Moment)
      requires Valid()
      modifies risk, orders, orders.pending, fpga, fpga.regs
      ensures Valid() && State() == ActOn(old(State()), cfg, side, at)
      ensures var verdict := Risk.Check(old(risk.State()), at.feedAgeUs).1;
              fpga.trace == old(fpga.trace) +
              if present && (verdict.LossLimit? || verdict.Halted?) then [(263, 0)] else []
    {
      var v := risk.MayTrade(at.feedAgeUs);
      if !v.Fine? {
        if v.LossLimit? || v.Halted? {
          if present {
            fpga.SetEnabled(false);
          }
        }
        return;
      }
      var ok := orders.Send(cfg, side, mid, at.nowMs, at.nowUs, at.link);
    }

    /** on_quote: mark, then either the fabric gets the quote or the software decides. */
    method OnQuote(cfg: Exec.Settings, q: Board.Tick, at: Moment)
      requires Valid()
      modifies this`mid, risk, soft, orders, orders.pending, fpga, fpga.regs
      ensures Valid() && State() == Step(old(State()), cfg, present, Quoted(q.bid, q.ask, at))
      ensures fpga.trace == old(fpga.trace) + if present then Board.PublishStores(old(fpga.tickSeq), q) else []
    {
      mid := (q.bid + q.ask) / 2;
      risk.MarkTo(mid);
      if present {
        var sequence := fpga.PublishTick(q);
      } else {
        var side := soft.OnQuote(q.bid, q.ask);
        if side != Strategy.NONE {
          Act(cfg, side, at);
        }
      }
    }
  }

  // ----- agreement and the sticky halt

  /** The two position keepers agree. */
  predicate Agreed(d: Desk) {
    d.risk.position == d.soft.position
  }

  lemma StepAgreed(d: Desk, cfg: Exec.Settings, fabric: bool, h: Happening)
    requires Wellformed(d) && Possible(h) && Agreed(d)
    ensures Agreed(Step(d, cfg, fabric, h))
  {
    if h.Broker? && Exec.Step(d.orders, cfg, h.event).1.Some? {
      OneLot(d.orders, cfg, h.event);
    }
  }

  /** In every run the risk position equals the software strategy's. */
  lemma {:induction false} PositionsAgree(d: Desk, cfg: Exec.Settings, fabric: bool, hs: seq<Happening>)
    requires Wellformed(d) && Agreed(d) && forall i :: 0 <= i < |hs| ==> Possible(hs[i])
    ensures Agreed(Run(d, cfg, fabric, hs))
  {
    if hs != [] {
      PositionsAgree(d, cfg, fabric, hs[..|hs| - 1]);
      StepAgreed(Run(d, cfg, fabric, hs[..|hs| - 1]), cfg, fabric, hs[|hs| - 1]);
    }
  }

  lemma StepHalted(d: Desk, cfg: Exec.Settings, fabric: bool, h: Happening)
    requires Wellformed(d) && Possible(h) && d.risk.halted
    ensures var d' := Step(d, cfg, fabric, h); d'.risk.halted && d'.orders.sent == d.orders.sent
  {
    if h.Broker? {
      Exec.StepConserves(d.orders, cfg, h.event);
    }
  }

  /** Once halted, always halted: every check refuses and no order is ever sent again. */
  lemma {:induction false} HaltIsForGood(d: Desk, cfg: Exec.Settings, fabric: bool, hs: seq<Happening>, age: nat)
    requires Wellformed(d) && Risk.Check(d.risk, age).1.LossLimit? && forall i :: 0 <= i < |hs| ==> Possible(hs[i])
    ensures var d' := Run(d.(risk := Risk.Check(d.risk, age).0), cfg, fabric, hs);
            && d'.orders.sent == d.orders.sent
            && forall later: nat :: Risk.Check(d'.risk, later).1.Halted?
  {
    HaltedRun(d.(risk := Risk.Check(d.risk, age).0), cfg, fabric, hs);
  }

  lemma {:induction false} HaltedRun(d: Desk, cfg: Exec.Settings, fabric: bool, hs: seq<Happening>)
    requires Wellformed(d) && d.risk.halted && forall i :: 0 <= i < |hs| ==> Possible(hs[i])
    ensures var d' := Run(d, cfg, fabric, hs); d'.risk.halted && d'.orders.sent == d.orders.sent
  {
    if hs != [] {
      HaltedRun(d, cfg, fabric, hs[..|hs| - 1]);
      StepHalted(Run(d, cfg, fabric, hs[..|hs| - 1]), cfg, fabric, hs[|hs| - 1]);
    }
  }

  // ----- what a decision comes to

  /** The program has a decision to act on: the fabric's, or without a fabric its own. */
  predicate Decides(d: Desk, fabric: bool, h: Happening) {
    match h
    case Decided(side, _) => side == Strategy.BUY || side == Strategy.SELL
    case Quoted(bid, ask, _) => !fabric && CStrategy.SoftQuote(d.soft, bid, ask).1 != Strategy.NONE
    case Broker(_) => false
  }

  function SideDecided(d: Desk, h: Happening): Word
    requires !h.Broker?
  {
    if h.Decided? then h.side else CStrategy.SoftQuote(d.soft, h.bid, h.ask).1
  }

  /** The order the decision asks for, at the middle of the last quote. */
  function Order(d: Desk, h: Happening, mid: int): Exec.Event
    requires !h.Broker?
  {
    Exec.Send(SideDecided(d, h), mid, h.at.nowMs, h.at.nowUs, h.at.link)
  }

  /** Realised and unrealised together have fallen to the limit, where there is one. */
  predicate AtLossLimit(r: Risk.Ledger) {
    r.maxLoss > 0 && r.realised + r.unrealised <= -r.maxLoss
  }

  predicate FeedIsStale(r: Risk.Ledger, at: Moment) {
    r.staleFeedMs > 0 && at.feedAgeUs > r.staleFeedMs * 1000
  }

  /** The order table takes a new order: cooldown over, mode, credentials, a slot and a connection. */
  predicate Accepts(t: Exec.Table, cfg: Exec.Settings, at: Moment) {
    && (at.nowMs - t.lastOrderMs) % Exec.W64 >= cfg.cooldownMs && !cfg.dryRun && cfg.credentials
    && Exec.SomeFree(t.slots) && at.link.Connected?
  }

  /** The middle of the last quote, or the one at the start. */
  function LastMid(mid: int, hs: seq<Happening>): int {
    if hs == [] then mid
    else
      var h := hs[|hs| - 1];
      if h.Quoted? then (h.bid + h.ask) / 2 else LastMid(mid, hs[..|hs| - 1])
  }

  /**
    An order goes out exactly if there is a decision, the desk is not halted, the profit
    and loss, at the new mid if there is one, is above the limit, the feed is fresh and
    the table takes the order; it is then the order decided on.  The desk is halted by a
    decision at the limit and by nothing else.
   */
  lemma SentWithConsent(d: Desk, cfg: Exec.Settings, fabric: bool, h: Happening)
    requires Wellformed(d) && Possible(h)
    ensures var d' := Step(d, cfg, fabric, h);
            && (d'.orders.sent == d.orders.sent + 1 <==>
                  && Decides(d, fabric, h) && !d.risk.halted && !AtLossLimit(d'.risk)
                  && !FeedIsStale(d.risk, h.at) && Accepts(d.orders, cfg, h.at))
            && (d'.orders.sent == d.orders.sent || d'.orders.sent == d.orders.sent + 1)
            && (d'.orders.sent == d.orders.sent + 1 ==>
                  exists k :: Exec.Opens(d.orders, d'.orders, k, Order(d, h, LastMid(d.mid, [h]))))
            && (d'.risk.halted <==> d.risk.halted || (Decides(d, fabric, h) && AtLossLimit(d'.risk)))
            && d'.risk.maxLoss == d.risk.maxLoss && d'.risk.staleFeedMs == d.risk.staleFeedMs
            && d'.mid == LastMid(d.mid, [h])
  {
    if h.Broker? {
      Exec.StepConserves(d.orders, cfg, h.event);
    } else if Decides(d, fabric, h) {
      var e := Order(d, h, LastMid(d.mid, [h]));
      DecisionStep(d, cfg, fabric, h, e);
      Exec.SendExact(d.orders, cfg, e);
      if Step(d, cfg, fabric, h).orders.sent == d.orders.sent + 1 {
        var k :| Exec.Opens(d.orders, Step(d, cfg, fabric, h).orders, k, e);
      }
    }
  }

  /** A decision is checked, and its order tried only with consent. */
  lemma DecisionStep(d: Desk, cfg: Exec.Settings, fabric: bool, h: Happening, e: Exec.Event)
    requires Wellformed(d) && Decides(d, fabric, h) && e == Order(d, h, LastMid(d.mid, [h]))
    ensures var d' := Step(d, cfg, fabric, h);
            && d'.orders == (if d.risk.halted || AtLossLimit(d'.risk) || FeedIsStale(d.risk, h.at)
                             then d.orders else Exec.Step(d.orders, cfg, e).0)
            && (d'.risk.halted <==> d.risk.halted || AtLossLimit(d'.risk))
            && d'.risk.maxLoss == d.risk.maxLoss && d'.risk.staleFeedMs == d.risk.staleFeedMs
            && d'.mid == LastMid(d.mid, [h])
  {
  }

  /** A quote values the open position at its middle and moves no money. */
  lemma QuoteMarks(d: Desk, cfg: Exec.Settings, fabric: bool, bid: Word, ask: Word, at: Moment)
    requires Wellformed(d)
    ensures var r, r' := d.risk, Step(d, cfg, fabric, Quoted(bid, ask, at)).risk;
            && r'.position == r.position && r'.avg == r.avg && r'.realised == r.realised
            && (r.avg != 0 ==> r'.unrealised == ((bid + ask) / 2 - r.avg) * r.position)
            && (r.position == 0 || r.avg == 0 ==> r'.unrealised == 0)
  {
  }

  // ----- over whole runs

  predicate AllPossible(hs: seq<Happening>) {
    forall i :: 0 <= i < |hs| ==> Possible(hs[i])
  }

  /** The program after the first `n` happenings. */
  function After(d: Desk, cfg: Exec.Settings, fabric: bool, hs: seq<Happening>, n: nat): (d': Desk)
    requires Wellformed(d) && AllPossible(hs) && n <= |hs|
    ensures Wellformed(d')
  {
    Run(d, cfg, fabric, hs[..n])
  }

  lemma {:induction false} AfterNext(d: Desk, cfg: Exec.Settings, fabric: bool, hs: seq<Happening>, n: nat)
    requires Wellformed(d) && AllPossible(hs) && n < |hs|
    ensures After(d, cfg, fabric, hs, n + 1) == Step(After(d, cfg, fabric, hs, n), cfg, fabric, hs[n])
  {
    assert hs[..n + 1][..n] == hs[..n];
  }

  lemma {:induction false} MidNext(mid: int, hs: seq<Happening>, n: nat)
    requires n < |hs|
    ensures LastMid(mid, hs[..n + 1]) == LastMid(LastMid(mid, hs[..n]), [hs[n]])
  {
    assert hs[..n + 1][..n] == hs[..n];
    assert [hs[n]][..0] == [];
  }

  /** The limits never change, and the mid is that of the last quote. */
  lemma {:induction false} RunKeeps(d: Desk, cfg: Exec.Settings, fabric: bool, hs: seq<Happening>, n: nat)
    requires Wellformed(d) && AllPossible(hs) && n <= |hs|
    ensures var d' := After(d, cfg, fabric, hs, n);
            && d'.risk.maxLoss == d.risk.maxLoss && d'.risk.staleFeedMs == d.risk.staleFeedMs
            && d'.mid == LastMid(d.mid, hs[..n])
    decreases n
  {
    if n > 0 {
      RunKeeps(d, cfg, fabric, hs, n - 1);
      AfterNext(d, cfg, fabric, hs, n - 1);
      MidNext(d.mid, hs, n - 1);
      SentWithConsent(After(d, cfg, fabric, hs, n - 1), cfg, fabric, hs[n - 1]);
    }
  }

  /** At happening `i` there is a decision while the profit and loss is at the limit. */
  predicate LossAt(d: Desk, cfg: Exec.Settings, fabric: bool, hs: seq<Happening>, i: nat)
    requires Wellformed(d) && AllPossible(hs) && i < |hs|
  {
    var r := After(d, cfg, fabric, hs, i + 1).risk;
    && Decides(After(d, cfg, fabric, hs, i), fabric, hs[i])
    && d.risk.maxLoss > 0 && r.realised + r.unrealised <= -d.risk.maxLoss
  }

  /**
    A run that begins not halted ends halted if and only if at some decision in it the
    profit and loss had fallen to the limit.
   */
  lemma {:induction false} HaltExact(d: Desk, cfg: Exec.Settings, fabric: bool, hs: seq<Happening>, n: nat)
    requires Wellformed(d) && AllPossible(hs) && n <= |hs| && !d.risk.halted
    ensures After(d, cfg, fabric, hs, n).risk.halted <==> exists i :: 0 <= i < n && LossAt(d, cfg, fabric, hs, i)
    decreases n
  {
    if n > 0 {
      HaltExact(d, cfg, fabric, hs, n - 1);
      AfterNext(d, cfg, fabric, hs, n - 1);
      RunKeeps(d, cfg, fabric, hs, n);
      SentWithConsent(After(d, cfg, fabric, hs, n - 1), cfg, fabric, hs[n - 1]);
      assert After(d, cfg, fabric, hs, n).risk.halted <==>
             After(d, cfg, fabric, hs, n - 1).risk.halted || LossAt(d, cfg, fabric, hs, n - 1);
    }
  }

  // ----- from the decision to the fill

  /** At happening `i` the order decided on goes out, into slot `k`. */
  predicate GoesOut(d: Desk, cfg: Exec.Settings, fabric: bool, hs: seq<Happening>, i: nat, k: nat)
    requires Wellformed(d) && AllPossible(hs) && i < |hs|
  {
    var before := After(d, cfg, fabric, hs, i);
    && Decides(before, fabric, hs[i])
    && Exec.Opens(before.orders, After(d, cfg, fabric, hs, i + 1).orders, k,
                  Order(before, hs[i], LastMid(d.mid, hs[..i + 1])))
  }

  /** A slot that is open after a happening was open for the same order before it, or has just been taken. */
  lemma SlotStep(d: Desk, cfg: Exec.Settings, fabric: bool, h: Happening, k: nat)
    requires Wellformed(d) && Possible(h) && k < 8 && Step(d, cfg, fabric, h).orders.slots[k].active
    ensures var s, t' := d.orders.slots[k], Step(d, cfg, fabric, h).orders;
            if s.active then t'.slots[k].side == s.side && t'.slots[k].mark == s.mark
            else Decides(d, fabric, h) && Exec.Opens(d.orders, t', k, Order(d, h, LastMid(d.mid, [h])))
  {
    SentWithConsent(d, cfg, fabric, h);
    if h.Broker? {
      Exec.StepSlots(d.orders, cfg, h.event);
    } else if Decides(d, fabric, h) {
      Exec.SendExact(d.orders, cfg, Order(d, h, LastMid(d.mid, [h])));
    }
  }

  /** The order that went out at `i` is the one slot `k` is still open for after `n` happenings. */
  predicate OpenSince(d: Desk, cfg: Exec.Settings, fabric: bool, hs: seq<Happening>, n: nat, k: nat, i: nat)
    requires Wellformed(d) && AllPossible(hs) && n <= |hs| && k < 8
  {
    && i < n && GoesOut(d, cfg, fabric, hs, i, k)
    && (forall m :: i < m <= n ==> After(d, cfg, fabric, hs, m).orders.slots[k].active)
    && var s := After(d, cfg, fabric, hs, n).orders.slots[k];
       s.side == SideDecided(After(d, cfg, fabric, hs, i), hs[i]) && s.mark == LastMid(d.mid, hs[..i + 1])
  }

  lemma StillOpen(d: Desk, cfg: Exec.Settings, fabric: bool, hs: seq<Happening>, n: nat, k: nat, i: nat, s: Exec.Slot)
    requires Wellformed(d) && AllPossible(hs) && n < |hs| && k < 8 && OpenSince(d, cfg, fabric, hs, n, k, i)
    requires s == After(d, cfg, fabric, hs, n + 1).orders.slots[k] && s.active
    requires s.side == After(d, cfg, fabric, hs, n).orders.slots[k].side
    requires s.mark == After(d, cfg, fabric, hs, n).orders.slots[k].mark
    ensures OpenSince(d, cfg, fabric, hs, n + 1, k, i)
  {
  }

  lemma {:induction false} JustOpened(d: Desk, cfg: Exec.Settings, fabric: bool, hs: seq<Happening>, n: nat, k: nat)
    requires Wellformed(d) && AllPossible(hs) && n < |hs| && k < 8
    requires !After(d, cfg, fabric, hs, n).orders.slots[k].active
    requires After(d, cfg, fabric, hs, n + 1).orders.slots[k].active
    ensures OpenSince(d, cfg, fabric, hs, n + 1, k, n)
  {
    AfterNext(d, cfg, fabric, hs, n);
    RunKeeps(d, cfg, fabric, hs, n);
    MidNext(d.mid, hs, n);
    SlotStep(After(d, cfg, fabric, hs, n), cfg, fabric, hs[n], k);
  }

  /** Every open slot was taken by an order that went out, and has its side and mid. */
  lemma {:induction false} SlotTraced(d: Desk, cfg: Exec.Settings, fabric: bool, hs: seq<Happening>, n: nat, k: nat)
    returns (i: nat)
    requires Wellformed(d) && AllPossible(hs) && n <= |hs| && k < 8
    requires !d.orders.slots[k].active && After(d, cfg, fabric, hs, n).orders.slots[k].active
    ensures OpenSince(d, cfg, fabric, hs, n, k, i)
    decreases n
  {
    assert n > 0 by {
      assert hs[..0] == [];
    }
    if After(d, cfg, fabric, hs, n - 1).orders.slots[k].active {
      i := SlotTraced(d, cfg, fabric, hs, n - 1, k);
      AfterNext(d, cfg, fabric, hs, n - 1);
      SlotStep(After(d, cfg, fabric, hs, n - 1), cfg, fabric, hs[n - 1], k);
      StillOpen(d, cfg, fabric, hs, n - 1, k, i, After(d, cfg, fabric, hs, n).orders.slots[k]);
    } else {
      JustOpened(d, cfg, fabric, hs, n - 1, k);
      i := n - 1;
    }
  }

  /** What a fill does to the books, or what there is when there is none. */
  lemma BookStep(d: Desk, cfg: Exec.Settings, fabric: bool, h: Happening)
    requires Wellformed(d) && Possible(h)
    ensures var d' := Step(d, cfg, fabric, h);
            if d'.orders.filled == d.orders.filled
            then d'.risk.position == d.risk.position && d'.soft.position == d.soft.position
            else
              && h.Broker? && (h.event.OrderReply? || h.event.QueryReply?)
              && d'.orders.filled == d.orders.filled + 1
              && var s := d.orders.slots[h.event.slot];
                 var lots := if s.side == Strategy.BUY then 1 else -1;
                 && s.active && !d'.orders.slots[h.event.slot].active
                 && d'.risk.position == d.risk.position + lots && d'.soft.position == d.soft.position + lots
                 && d'.risk == Risk.OnFill(d.risk, Risk.Trade(if lots == 1 then Strategy.BOUGHT else SOLD, 1,
                                 match h.event.price case Some(p) => p case None => s.mark))
  {
    if h.Broker? {
      Exec.StepConserves(d.orders, cfg, h.event);
      Exec.StepSlots(d.orders, cfg, h.event);
    } else if Decides(d, fabric, h) {
      Exec.StepConserves(d.orders, cfg, Order(d, h, LastMid(d.mid, [h])));
    }
  }

  /**
    From no open orders: a fill in any run is of one order that a decision sent out, into
    the slot the broker's reply is for, which has been open ever since.  Both positions
    rise by one if that decision was to buy and fall by one otherwise; the price booked is
    the broker's, or else the middle of the last quote when the order went out.
   */
  lemma {:induction false} FillTraced(d: Desk, cfg: Exec.Settings, fabric: bool, hs: seq<Happening>, j: nat) returns (i: nat)
    requires Wellformed(d) && AllPossible(hs) && j < |hs| && forall k :: 0 <= k < 8 ==> !d.orders.slots[k].active
    requires After(d, cfg, fabric, hs, j + 1).orders.filled != After(d, cfg, fabric, hs, j).orders.filled
    ensures hs[j].Broker? && (hs[j].event.OrderReply? || hs[j].event.QueryReply?)
    ensures OpenSince(d, cfg, fabric, hs, j, hs[j].event.slot, i)
    ensures var b, b' := After(d, cfg, fabric, hs, j), After(d, cfg, fabric, hs, j + 1);
            var bought := SideDecided(After(d, cfg, fabric, hs, i), hs[i]) == Strategy.BUY;
            var price := match hs[j].event.price case Some(p) => p case None => LastMid(d.mid, hs[..i + 1]);
            && b'.risk.position == b.risk.position + (if bought then 1 else -1)
            && b'.soft.position == b.soft.position + (if bought then 1 else -1)
            && b'.risk == Risk.OnFill(b.risk, Risk.Trade(if bought then Strategy.BOUGHT else SOLD, 1, price))
            && !b'.orders.slots[hs[j].event.slot].active
  {
    AfterNext(d, cfg, fabric, hs, j);
    var before := After(d, cfg, fabric, hs, j);
    BookStep(before, cfg, fabric, hs[j]);
    i := SlotTraced(d, cfg, fabric, hs, j, hs[j].event.slot);
  }

  /** Without a fill no position moves. */
  lemma {:induction false} NoFillNoMove(d: Desk, cfg: Exec.Settings, fabric: bool, hs: seq<Happening>, j: nat)
    requires Wellformed(d) && AllPossible(hs) && j < |hs|
    requires After(d, cfg, fabric, hs, j + 1).orders.filled == After(d, cfg, fabric, hs, j).orders.filled
    ensures var b, b' := After(d, cfg, fabric, hs, j), After(d, cfg, fabric, hs, j + 1);
            b'.risk.position == b.risk.position && b'.soft.position == b.soft.position
  {
    AfterNext(d, cfg, fabric, hs, j);
    BookStep(After(d, cfg, fabric, hs, j), cfg, fabric, hs[j]);
  }
}
