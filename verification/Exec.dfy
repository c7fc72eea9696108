/**
  The order table: eight slots, the rate limit on sending, and what the broker's
  replies do to a slot.  Network and clock are parameters.
 */
module Exec {
  import opened Arith
  import opened Wrappers

  const MAX_PENDING: int := 8
  const GIVE_UP_US: int := 60_000_000
  const BUY: int := 1

  datatype Slot = Slot(
    active: bool, id: string, side: int, mark: int, sentUs: nat, lastPollUs: nat, querying: bool)

  const BLANK := Slot(false, "", 0, 0, 0, 0, false)

  datatype Table = Table(
    slots: seq<Slot>, lastOrderMs: nat,
    sent: nat, filled: nat, rejected: nat, drops: nat, errors: nat)

  datatype Settings = Settings(cooldownMs: nat, dryRun: bool, credentials: bool, pollMs: nat)

  datatype Status = Filled | Canceled | Expired | Rejected | DoneForDay | Working

  /** Whether a request could be made. */
  datatype Link = NoMemory | NoConnection | Connected

  /** A fill handed to the application. */
  datatype Report = Report(bought: bool, qty: nat, price: int)

  datatype Event =
    | Send(side: int, mark: int, nowMs: nat, nowUs: nat, link: Link)
    | OrderReply(slot: nat, accepted: bool, id: string, status: Status, price: Option<int>)
    | OrderError(slot: nat)
    | QueryReply(slot: nat, status: Status, price: Option<int>, nothing: bool)
    | QueryError(slot: nat)
    | QueryClose(slot: nat)
    | Poll(now: nat, links: seq<Link>)

  predicate Terminal(s: Status) {
    !s.Working?
  }

  predicate Wellformed(t: Table) {
    |t.slots| == MAX_PENDING
  }

  predicate Fits(e: Event) {
    match e
    case Send(_, _, _, _, _) => true
    case OrderReply(i, _, _, _, _) => i < MAX_PENDING
    case OrderError(i) => i < MAX_PENDING
    case QueryReply(i, _, _, _) => i < MAX_PENDING
    case QueryError(i) => i < MAX_PENDING
    case QueryClose(i) => i < MAX_PENDING
    case Poll(_, links) => |links| == MAX_PENDING
  }

  // ----- the operations on values

  /** The first slot from `i` on that is free. */
  function FreeFrom(slots: seq<Slot>, i: nat): (k: nat)
    requires i <= |slots|
    ensures i <= k <= |slots| && (k < |slots| ==> !slots[k].active)
    ensures forall j :: i <= j < k ==> slots[j].active
    decreases |slots| - i
  {
    if i == |slots| || !slots[i].active then i else FreeFrom(slots, i + 1)
  }

  function Closed(t: Table, i: nat): Table
    requires i < |t.slots|
  {
    t.(slots := t.slots[i := t.slots[i].(active := false)])
  }

  function Settle(t: Table, i: nat, status: Status, price: int, qty: nat): (Table, Option<Report>)
    requires i < |t.slots|
  {
    if !t.slots[i].active then (t, None)
    else if status.Filled? then
      (Closed(t, i).(filled := t.filled + 1), Some(Report(t.slots[i].side == BUY, qty, price)))
    else (Closed(t, i).(rejected := t.rejected + 1), None)
  }

  /** The reported price, or else the mid when the order was sent. */
  function PriceOr(price: Option<int>, mark: int): int {
    if price.Some? then price.value else mark
  }

  const W64: int := 0x1_0000_0000_0000_0000

  /** The difference of two clock readings, in 64 bits without sign. */
  function Since(now: int, before: int): int {
    (now - before) % W64
  }

  predicate Cooling(t: Table, cfg: Settings, nowMs: int) {
    Since(nowMs, t.lastOrderMs) < cfg.cooldownMs
  }

  /** The order goes out. */
  predicate Goes(t: Table, cfg: Settings, e: Event) {
    && e.Send? && !Cooling(t, cfg, e.nowMs) && !cfg.dryRun && cfg.credentials
    && FreeFrom(t.slots, 0) < |t.slots| && e.link.Connected?
  }

  function Sending(t: Table, cfg: Settings, e: Event): Table
    requires e.Send?
  {
    if Cooling(t, cfg, e.nowMs) then t.(drops := t.drops + 1)
    else if cfg.dryRun then t.(lastOrderMs := e.nowMs)
    else if !cfg.credentials then t.(rejected := t.rejected + 1)
    else
      var i := FreeFrom(t.slots, 0);
      if i == |t.slots| then t
      else
        var taken := BLANK.(active := e.link.Connected?, side := e.side, mark := e.mark,
                            sentUs := e.nowUs, lastPollUs := e.nowUs);
        var t1 := t.(slots := t.slots[i := taken]);
        match e.link
        case NoMemory => t1
        case NoConnection => t1.(errors := t.errors + 1)
        case Connected => t1.(sent := t.sent + 1, lastOrderMs := e.nowMs)
  }

  function WithId(t: Table, i: nat, id: string): Table
    requires i < |t.slots|
  {
    t.(slots := t.slots[i := t.slots[i].(id := id)])
  }

  function Answered(t: Table, i: nat): Table
    requires i < |t.slots|
  {
    t.(slots := t.slots[i := t.slots[i].(querying := false)])
  }

  /** One slot of a poll; `true` when the order is given up. */
  function PollSlot(s: Slot, period: nat, now: nat, link: Link): (Slot, bool) {
    if !s.active || s.querying || s.id == "" || Since(now, s.lastPollUs) < period then (s, false)
    else if Since(now, s.sentUs) > GIVE_UP_US then (s.(lastPollUs := now, active := false), true)
    else if link.Connected? then (s.(lastPollUs := now, querying := true), false)
    else (s.(lastPollUs := now), false)
  }

  /** The first `n` slots polled. */
  function Polled(t: Table, period: nat, now: nat, links: seq<Link>, n: nat): (t': Table)
    requires n <= |t.slots| && n <= |links|
    ensures |t'.slots| == |t.slots|
    ensures forall k :: n <= k < |t.slots| ==> t'.slots[k] == t.slots[k]
    ensures t'.sent == t.sent && t'.filled == t.filled && t'.lastOrderMs == t.lastOrderMs
  {
    if n == 0 then t
    else
      var t1 := Polled(t, period, now, links, n - 1);
      var (s, gone) := PollSlot(t1.slots[n - 1], period, now, links[n - 1]);
      t1.(slots := t1.slots[n - 1 := s], rejected := t1.rejected + if gone then 1 else 0)
  }

  function Step(t: Table, cfg: Settings, e: Event): (r: (Table, Option<Report>))
    requires Wellformed(t) && Fits(e)
    ensures Wellformed(r.0)
  {
    match e
    case Send(_, _, _, _, _) => (Sending(t, cfg, e), None)
    case OrderReply(i, accepted, id, status, price) =>
      if !accepted then (Closed(t, i).(rejected := t.rejected + 1), None)
      else
        var t1 := WithId(t, i, id);
        if Terminal(status) then Settle(t1, i, status, PriceOr(price, t1.slots[i].mark), 1) else (t1, None)
    case OrderError(i) => (Closed(t, i).(errors := t.errors + 1), None)
    case QueryReply(i, status, price, nothing) =>
      if !Terminal(status) then (Answered(t, i), None)
      else if nothing then (Answered(Closed(t, i).(rejected := t.rejected + 1), i), None)
      else
        var (t1, report) := Settle(t, i, status, PriceOr(price, t.slots[i].mark), 1);
        (Answered(t1, i), report)
    case QueryError(i) => (Answered(t, i).(errors := t.errors + 1), None)
    case QueryClose(i) => (Answered(t, i), None)
    case Poll(now, links) => (Polled(t, cfg.pollMs * 1000, now, links, |t.slots|), None)
  }

  // ----- the table in place

  class OrderTable {
    const pending: array<Slot>
    var lastOrderMs: nat
    var sent: nat
    var filled: nat
    var rejected: nat
    var drops: nat
    var errors: nat

    ghost predicate Valid()
      reads this
    {
      pending.Length == MAX_PENDING
    }

    ghost function State(): (t: Table)
      reads this, pending
      requires Valid()
      ensures Wellformed(t)
    {
      Table(pending[..], lastOrderMs, sent, filled, rejected, drops, errors)
    }

    constructor ()
      ensures Valid() && fresh(pending)
      ensures State() == Table(seq(MAX_PENDING, _ => BLANK), 0, 0, 0, 0, 0, 0)
    {
      pending := new Slot[MAX_PENDING](_ => BLANK);
      lastOrderMs, sent, filled, rejected, drops, errors := 0, 0, 0, 0, 0, 0;
    }

    method Alloc() returns (i: nat)
      requires Valid()
      modifies pending
      ensures i == FreeFrom(old(pending[..]), 0)
      ensures pending[..] == if i == MAX_PENDING then old(pending[..])
                             else old(pending[..])[i := BLANK.(active := true)]
    {
      i := 0;
      while i < MAX_PENDING
        invariant 0 <= i <= MAX_PENDING && pending[..] == old(pending[..])
        invariant FreeFrom(pending[..], i) == FreeFrom(pending[..], 0)
      {
        if !pending[i].active {
          pending[i] := BLANK.(active := true);
          return;
        }
        i := i + 1;
      }
    }

    method Send(cfg: Settings, side: int, mark: int, nowMs: nat, nowUs: nat, link: Link) returns (ok: bool)
      requires Valid()
      modifies this, pending
      ensures Valid()
      ensures var e := Event.Send(side, mark, nowMs, nowUs, link);
              State() == Step(old(State()), cfg, e).0 && ok == Goes(old(State()), cfg, e)
    {
      if Since(nowMs, lastOrderMs) < cfg.cooldownMs {
        drops := drops + 1;
        return false;
      }
      if cfg.dryRun {
        lastOrderMs := nowMs;
        return false;
      }
      if !cfg.credentials {
        rejected := rejected + 1;
        return false;
      }
      var i := Alloc();
      if i == MAX_PENDING {
        return false;
      }
      pending[i] := pending[i].(side := side, mark := mark, sentUs := nowUs, lastPollUs := nowUs);
      if link.NoMemory? {
        pending[i] := pending[i].(active := false);
        return false;
      }
      if link.NoConnection? {
        errors := errors + 1;
        pending[i] := pending[i].(active := false);
        return false;
      }
      sent := sent + 1;
      lastOrderMs := nowMs;
      return true;
    }

    method SettleSlot(i: nat, status: Status, price: int, qty: nat) returns (report: Option<Report>)
      requires Valid() && i < MAX_PENDING
      modifies this`filled, this`rejected, pending
      ensures (State(), report) == Settle(old(State()), i, status, price, qty)
    {
      var p := pending[i];
      if !p.active {
        return None;
      }
      report := None;
      if status.Filled? {
        filled := filled + 1;
        report := Some(Report(p.side == BUY, qty, price));
      } else {
        rejected := rejected + 1;
      }
      pending[i] := p.(active := false);
    }

    method OnOrderReply(i: nat, accepted: bool, id: string, status: Status, price: Option<int>)
      returns (report: Option<Report>)
      requires Valid() && i < MAX_PENDING
      modifies this`filled, this`rejected, pending
      ensures (State(), report) == Step(old(State()), Settings(0, false, false, 0), OrderReply(i, accepted, id, status, price))
    {
      report := None;
      if accepted {
        pending[i] := pending[i].(id := id);
        if Terminal(status) {
          report := SettleSlot(i, status, PriceOr(price, pending[i].mark), 1);
        }
      } else {
        rejected := rejected + 1;
        pending[i] := pending[i].(active := false);
      }
    }

    method OnQueryReply(i: nat, status: Status, price: Option<int>, nothing: bool) returns (report: Option<Report>)
      requires Valid() && i < MAX_PENDING
      modifies this`filled, this`rejected, pending
      ensures (State(), report) == Step(old(State()), Settings(0, false, false, 0), QueryReply(i, status, price, nothing))
    {
      report := None;
      if Terminal(status) {
        if nothing {
          rejected := rejected + 1;
          pending[i] := pending[i].(active := false);
        } else {
          report := SettleSlot(i, status, PriceOr(price, pending[i].mark), 1);
        }
      }
      pending[i] := pending[i].(querying := false);
    }

    /** The status poll over all slots. */
    method PollOrders(cfg: Settings, now: nat, links: seq<Link>)
      requires Valid() && |links| == MAX_PENDING
      modifies this`rejected, pending
      ensures State() == Step(old(State()), cfg, Poll(now, links)).0
    {
      ghost var t0 := State();
      var period, i := cfg.pollMs * 1000, 0;
      while i < MAX_PENDING
        invariant 0 <= i <= MAX_PENDING
        invariant State() == Polled(t0, period, now, links, i)
      {
        var p := pending[i];
        var (s, gone) := PollSlot(p, period, now, links[i]);
        pending[i] := s;
        if gone {
          rejected := rejected + 1;
        }
        i := i + 1;
      }
    }

    method Working() returns (n: nat)
      requires Valid()
      ensures n == Active(pending[..])
    {
      var i := 0;
      n := 0;
      while i < MAX_PENDING
        invariant 0 <= i <= MAX_PENDING && n == Active(pending[..i])
      {
        assert pending[..i + 1][..i] == pending[..i];
        if pending[i].active { n := n + 1; }
        i := i + 1;
      }
      assert pending[..i] == pending[..];
    }
  }

  // ----- conservation

  function Active(slots: seq<Slot>): nat {
    if slots == [] then 0
    else Active(slots[..|slots| - 1]) + if slots[|slots| - 1].active then 1 else 0
  }

  function One(b: bool): nat {
    if b then 1 else 0
  }

  lemma {:induction false} ActiveUpdate(slots: seq<Slot>, i: nat, s: Slot)
    requires i < |slots|
    ensures Active(slots[i := s]) + One(slots[i].active) == Active(slots) + One(s.active)
  {
    var n := |slots| - 1;
    if i < n {
      ActiveUpdate(slots[..n], i, s);
      assert slots[i := s][..n] == slots[..n][i := s];
    } else {
      assert slots[i := s][..n] == slots[..n];
    }
  }

  lemma {:induction false} ActiveSwap(a: seq<Slot>, b: seq<Slot>, i: nat)
    requires |a| == |b| && i < |a| && forall k :: 0 <= k < |a| && k != i ==> a[k] == b[k]
    ensures Active(b) + One(a[i].active) == Active(a) + One(b[i].active)
  {
    assert b == a[i := b[i]];
    ActiveUpdate(a, i, b[i]);
  }

  /** What polling one more slot changes. */
  lemma PollNext(t: Table, period: nat, now: nat, links: seq<Link>, n: nat)
    requires n < |t.slots| && n < |links|
    ensures var t1, t' := Polled(t, period, now, links, n), Polled(t, period, now, links, n + 1);
            && (forall k :: 0 <= k < |t.slots| && k != n ==> t1.slots[k] == t'.slots[k])
            && t'.errors == t1.errors && t'.rejected >= t1.rejected
            && One(t'.slots[n].active) + t'.rejected == One(t1.slots[n].active) + t1.rejected
  {
    PollOne(Polled(t, period, now, links, n).slots[n], period, now, links[n]);
  }

  /** A poll only closes slots. */
  lemma {:induction false} PollCloses(t: Table, period: nat, now: nat, links: seq<Link>, n: nat)
    requires n <= |t.slots| && n <= |links|
    ensures forall k :: 0 <= k < |t.slots| && Polled(t, period, now, links, n).slots[k].active ==> t.slots[k].active
  {
    if n > 0 {
      PollCloses(t, period, now, links, n - 1);
      PollOne(t.slots[n - 1], period, now, links[n - 1]);
    }
  }

  /** Each order a poll gives up is counted as rejected. */
  lemma {:induction false} PollCounts(t: Table, period: nat, now: nat, links: seq<Link>, n: nat)
    requires n <= |t.slots| && n <= |links|
    ensures var t' := Polled(t, period, now, links, n);
            && Active(t'.slots) + t'.rejected == Active(t.slots) + t.rejected
            && t'.errors == t.errors && t'.rejected >= t.rejected
  {
    if n > 0 {
      PollCounts(t, period, now, links, n - 1);
      PollNext(t, period, now, links, n - 1);
      ActiveSwap(Polled(t, period, now, links, n - 1).slots, Polled(t, period, now, links, n).slots, n - 1);
    }
  }

  /** A polled slot closes exactly when its order is given up. */
  lemma PollOne(s: Slot, period: nat, now: nat, link: Link)
    ensures var (s', gone) := PollSlot(s, period, now, link); One(s'.active) + One(gone) == One(s.active)
  {
  }

  /** Orders open, filled, or counted as rejected or failed. */
  function Accounted(t: Table): nat {
    Active(t.slots) + t.filled + t.rejected + t.errors
  }

  /** No order appears from nowhere, and none vanishes without being counted. */
  predicate Conserves(t: Table, t': Table, goes: bool, reported: bool) {
    && t'.sent == t.sent + One(goes) && t'.filled == t.filled + One(reported)
    && Active(t'.slots) + t'.filled - t'.sent <= Active(t.slots) + t.filled - t.sent
    && Accounted(t') - t'.sent >= Accounted(t) - t.sent
  }

  lemma SendConserves(t: Table, cfg: Settings, e: Event)
    requires Wellformed(t) && e.Send?
    ensures Conserves(t, Sending(t, cfg, e), Goes(t, cfg, e), false)
  {
    var i, t' := FreeFrom(t.slots, 0), Sending(t, cfg, e);
    if i < |t.slots| {
      ActiveUpdate(t.slots, i, t'.slots[i]);
      assert t'.slots == t.slots || t'.slots == t.slots[i := t'.slots[i]];
    }
  }

  lemma ReplyConserves(t: Table, cfg: Settings, e: Event)
    requires Wellformed(t) && Fits(e) && (e.OrderReply? || e.QueryReply?)
    ensures var (t', report) := Step(t, cfg, e); Conserves(t, t', false, report.Some?)
  {
    var t' := Step(t, cfg, e).0;
    ActiveUpdate(t.slots, e.slot, t'.slots[e.slot]);
    assert t'.slots == t.slots[e.slot := t'.slots[e.slot]];
  }

  /** What one event does to the counts. */
  lemma StepConserves(t: Table, cfg: Settings, e: Event)
    requires Wellformed(t) && Fits(e)
    ensures var (t', report) := Step(t, cfg, e); Conserves(t, t', Goes(t, cfg, e), report.Some?)
  {
    var t' := Step(t, cfg, e).0;
    match e {
      case Send(_, _, _, _, _) => SendConserves(t, cfg, e);
      case OrderReply(_, _, _, _, _) => ReplyConserves(t, cfg, e);
      case QueryReply(_, _, _, _) => ReplyConserves(t, cfg, e);
      case Poll(now, links) => PollCounts(t, cfg.pollMs * 1000, now, links, |t.slots|);
      case OrderError(i) => ActiveUpdate(t.slots, i, t'.slots[i]);
      case QueryError(i) => ActiveUpdate(t.slots, i, t'.slots[i]);
      case QueryClose(i) => ActiveUpdate(t.slots, i, t'.slots[i]);
    }
  }

  // ----- what each event does to the slots

  predicate SomeFree(slots: seq<Slot>) {
    exists k :: 0 <= k < |slots| && !slots[k].active
  }

  /**
    Sending an order: it goes out exactly if the cooldown is over, orders are meant to be
    sent, there are credentials, a free slot and a connection.  It then takes the first
    free slot, with its side, mid and time; otherwise no open slot changes, and each
    refusal shows in its own counter.
   */
  lemma SendExact(t: Table, cfg: Settings, e: Event)
    requires Wellformed(t) && e.Send?
    ensures var waited, t' := (e.nowMs - t.lastOrderMs) % W64 >= cfg.cooldownMs, Step(t, cfg, e).0;
            && (Goes(t, cfg, e) <==>
                  waited && !cfg.dryRun && cfg.credentials && SomeFree(t.slots) && e.link.Connected?)
            && (Goes(t, cfg, e) ==> exists i :: Opens(t, t', i, e))
            && (!Goes(t, cfg, e) ==> SameOrders(t, t') && t'.sent == t.sent)
            && t'.drops == t.drops + One(!waited)
            && t'.rejected == t.rejected + One(waited && !cfg.dryRun && !cfg.credentials)
            && t'.errors == t.errors
                 + One(waited && !cfg.dryRun && cfg.credentials && SomeFree(t.slots) && e.link.NoConnection?)
            && t'.lastOrderMs == (if Goes(t, cfg, e) || (waited && cfg.dryRun) then e.nowMs else t.lastOrderMs)
  {
    var i := FreeFrom(t.slots, 0);
    if Goes(t, cfg, e) {
      assert Opens(t, Step(t, cfg, e).0, i, e);
    }
  }

  /** The order `e` has taken slot `i`, the first that was free. */
  predicate Opens(t: Table, t': Table, i: nat, e: Event)
    requires Wellformed(t) && e.Send?
  {
    && i < MAX_PENDING && !t.slots[i].active && (forall k :: 0 <= k < i ==> t.slots[k].active)
    && t'.slots == t.slots[i := Slot(true, "", e.side, e.mark, e.nowUs, e.nowUs, false)]
    && t'.sent == t.sent + 1
  }

  /** The same slots are open, for the same orders. */
  predicate SameOrders(t: Table, t': Table) {
    && |t'.slots| == |t.slots|
    && forall k :: 0 <= k < |t.slots| ==>
         (t'.slots[k].active <==> t.slots[k].active) && (t.slots[k].active ==> t'.slots[k] == t.slots[k])
  }

  /** The slot, if still open, is open for the order it was. */
  predicate KeepsOrder(s: Slot, s': Slot) {
    s'.active ==> s.active && s'.side == s.side && s'.mark == s.mark && s'.sentUs == s.sentUs
  }

  /** A slot is due for a query: open, with an id, none under way, and none made for a period. */
  predicate Due(s: Slot, cfg: Settings, now: nat) {
    s.active && !s.querying && s.id != "" && (now - s.lastPollUs) % W64 >= cfg.pollMs * 1000
  }

  /**
    A poll treats every slot on its own: the due ones are queried, if a connection can be
    had, or given up when more than a minute old, which counts as a rejection.
   */
  lemma {:induction false} PollExact(t: Table, cfg: Settings, now: nat, links: seq<Link>, k: nat)
    requires Wellformed(t) && |links| == MAX_PENDING && k < MAX_PENDING
    ensures var s, s' := t.slots[k], Step(t, cfg, Poll(now, links)).0.slots[k];
            && (!Due(s, cfg, now) ==> s' == s)
            && (Due(s, cfg, now) ==>
                  s' == s.(lastPollUs := now, active := (now - s.sentUs) % W64 <= 60_000_000,
                           querying := (now - s.sentUs) % W64 <= 60_000_000 && links[k].Connected?))
    ensures var t' := Step(t, cfg, Poll(now, links)).0; t'.rejected - t.rejected == Active(t.slots) - Active(t'.slots)
  {
    PolledAt(t, cfg.pollMs * 1000, now, links, MAX_PENDING, k);
    PollCounts(t, cfg.pollMs * 1000, now, links, MAX_PENDING);
  }

  lemma {:induction false} PolledAt(t: Table, period: nat, now: nat, links: seq<Link>, n: nat, k: nat)
    requires n <= |t.slots| && n <= |links| && k < n
    ensures Polled(t, period, now, links, n).slots[k] == PollSlot(t.slots[k], period, now, links[k]).0
  {
    if k < n - 1 {
      PolledAt(t, period, now, links, n - 1, k);
    }
  }

  /** The broker, or the lack of it, ends the order: refused, broken off, or done with one way or another. */
  predicate Ends(e: Event) {
    || e.OrderError? || (e.OrderReply? && !e.accepted)
    || ((e.OrderReply? || e.QueryReply?) && e.status in {Filled, Canceled, Expired, Rejected, DoneForDay})
  }

  /** The slot an event is about. */
  predicate Concerns(e: Event, k: nat) {
    !e.Send? && !e.Poll? && e.slot == k
  }

  /**
    A reply closes the slot it is for exactly if it ends the order, and touches no other;
    an order that ended without a fill counts as rejected, or as an error if it broke off.
   */
  lemma ReplyExact(t: Table, cfg: Settings, e: Event)
    requires Wellformed(t) && Fits(e) && !e.Send? && !e.Poll?
    ensures var t' := Step(t, cfg, e).0;
            && (t'.slots[e.slot].active <==> t.slots[e.slot].active && !Ends(e))
            && (forall k :: 0 <= k < MAX_PENDING && !Concerns(e, k) ==> t'.slots[k] == t.slots[k])
            && (t'.slots[e.slot].querying <==> t.slots[e.slot].querying && (e.OrderReply? || e.OrderError?))
            && t'.slots[e.slot].id == (if e.OrderReply? && e.accepted then e.id else t.slots[e.slot].id)
            && t'.errors == t.errors + One(e.OrderError? || e.QueryError?)
            && (t.slots[e.slot].active ==>
                  t'.filled + t'.rejected == t.filled + t.rejected + One(Ends(e) && !e.OrderError?))
            && t'.drops == t.drops && t'.lastOrderMs == t.lastOrderMs
  {
  }

  /**
    Only a sent order opens a slot; every other event leaves each slot open for its order
    or closes it, and a fill is reported exactly when an order said to be filled closes the
    slot it came for: the slot's side, one lot, the broker's price or else the slot's mid.
   */
  lemma StepSlots(t: Table, cfg: Settings, e: Event)
    requires Wellformed(t) && Fits(e)
    ensures var (t', report) := Step(t, cfg, e);
            && (!e.Send? ==> forall k :: 0 <= k < MAX_PENDING ==> KeepsOrder(t.slots[k], t'.slots[k]))
            && (report.Some? <==>
                  && ((e.OrderReply? && e.accepted) || (e.QueryReply? && !e.nothing))
                  && e.status.Filled? && t.slots[e.slot].active)
            && (report.Some? ==>
                  && !t'.slots[e.slot].active
                  && report.value.bought == (t.slots[e.slot].side == BUY) && report.value.qty == 1
                  && report.value.price == match e.price case Some(p) => p case None => t.slots[e.slot].mark)
  {
    if e.Poll? {
      forall k | 0 <= k < MAX_PENDING
        ensures KeepsOrder(t.slots[k], Step(t, cfg, e).0.slots[k])
      {
        PollExact(t, cfg, e.now, e.links, k);
      }
    }
  }

  // ----- over whole runs

  /** A fill report, the order whose slot it closed, and the price the broker gave. */
  datatype Fired = Fired(order: nat, report: Report, told: Option<int>)

  /**
    The table with the orders that went out, numbered from zero: which order each slot was
    last opened for, and the fill reports made, in order.
   */
  datatype Watch = Watch(table: Table, sends: seq<Event>, order: seq<nat>, fired: seq<Fired>)

  function WatchStep(w: Watch, cfg: Settings, e: Event): (w': Watch)
    requires Wellformed(w.table) && |w.order| == MAX_PENDING && Fits(e)
    ensures Wellformed(w'.table) && |w'.order| == MAX_PENDING
  {
    var (t', report) := Step(w.table, cfg, e);
    Watch(
      t',
      if t'.sent > w.table.sent then w.sends + [e] else w.sends,
      seq(MAX_PENDING, k requires 0 <= k < MAX_PENDING =>
        if t'.slots[k].active && !w.table.slots[k].active then |w.sends| else w.order[k]),
      if report.Some? && (e.OrderReply? || e.QueryReply?)
      then w.fired + [Fired(w.order[e.slot], report.value, e.price)] else w.fired)
  }

  ghost predicate Balanced(w: Watch) {
    && Wellformed(w.table) && |w.order| == MAX_PENDING && |w.sends| == w.table.sent
    && w.table.filled + Active(w.table.slots) <= w.table.sent <= Accounted(w.table)
    && |w.fired| == w.table.filled
    && (forall k :: 0 <= k < |w.fired| ==> w.fired[k].order < |w.sends|)
    && (forall j, k :: 0 <= j < k < |w.fired| ==> w.fired[j].order != w.fired[k].order)
    && (forall k, j :: 0 <= k < MAX_PENDING && w.table.slots[k].active && 0 <= j < |w.fired| ==>
          w.order[k] != w.fired[j].order)
    && (forall k :: 0 <= k < MAX_PENDING && w.table.slots[k].active ==> w.order[k] < |w.sends|)
    && (forall j, k :: 0 <= j < k < MAX_PENDING && w.table.slots[j].active && w.table.slots[k].active ==>
          w.order[j] != w.order[k])
  }

  /** The slot is open for the order `e`. */
  predicate Holds(s: Slot, e: Event) {
    e.Send? && s.side == e.side && s.mark == e.mark && s.sentUs == e.nowUs
  }

  /** The report is of the order `e`: its side, one lot, the broker's price or its mid. */
  predicate Answers(f: Fired, e: Event) {
    && e.Send? && f.report.bought == (e.side == BUY) && f.report.qty == 1
    && f.report.price == match f.told case Some(p) => p case None => e.mark
  }

  /** Every open slot holds its order and every report answers the order it closed. */
  predicate Faithful(w: Watch)
    requires Wellformed(w.table) && |w.order| == MAX_PENDING
  {
    && (forall k :: 0 <= k < MAX_PENDING && w.table.slots[k].active ==>
          w.order[k] < |w.sends| && Holds(w.table.slots[k], w.sends[w.order[k]]))
    && (forall k :: 0 <= k < |w.fired| ==> w.fired[k].order < |w.sends| && Answers(w.fired[k], w.sends[w.fired[k].order]))
  }

  lemma OpenBalanced(w: Watch, cfg: Settings, e: Event)
    requires Balanced(w) && Fits(e) && Goes(w.table, cfg, e)
    ensures Balanced(WatchStep(w, cfg, e))
  {
    SendExact(w.table, cfg, e);
    StepConserves(w.table, cfg, e);
    var i :| Opens(w.table, Step(w.table, cfg, e).0, i, e);
  }

  lemma CloseBalanced(w: Watch, cfg: Settings, e: Event)
    requires Balanced(w) && Fits(e) && !Goes(w.table, cfg, e)
    ensures Balanced(WatchStep(w, cfg, e))
  {
    NothingOpens(w, cfg, e);
    var w' := WatchStep(w, cfg, e);
    if Step(w.table, cfg, e).1.Some? {
      StepSlots(w.table, cfg, e);
      ReportBalanced(w, w', e.slot);
    } else {
      QuietBalanced(w, w');
    }
  }

  /** Slots only close, and no order goes out. */
  predicate Shuts(w: Watch, w': Watch, reported: bool) {
    && |w.table.slots| == |w'.table.slots| == MAX_PENDING && |w.order| == MAX_PENDING
    && w'.order == w.order && w'.sends == w.sends
    && (forall k :: 0 <= k < MAX_PENDING && w'.table.slots[k].active ==> w.table.slots[k].active)
    && Conserves(w.table, w'.table, false, reported)
  }

  lemma NothingOpens(w: Watch, cfg: Settings, e: Event)
    requires Wellformed(w.table) && |w.order| == MAX_PENDING && Fits(e) && !Goes(w.table, cfg, e)
    ensures Shuts(w, WatchStep(w, cfg, e), Step(w.table, cfg, e).1.Some?)
  {
    if e.Send? { SendExact(w.table, cfg, e); }
    StepSlots(w.table, cfg, e);
    StepConserves(w.table, cfg, e);
  }

  lemma QuietBalanced(w: Watch, w': Watch)
    requires Balanced(w) && Shuts(w, w', false) && w'.fired == w.fired
    ensures Balanced(w')
  {
  }

  lemma ReportBalanced(w: Watch, w': Watch, i: nat)
    requires Balanced(w) && Shuts(w, w', true) && i < MAX_PENDING
    requires w.table.slots[i].active && !w'.table.slots[i].active
    requires |w'.fired| == |w.fired| + 1 && w'.fired[..|w.fired|] == w.fired
    requires w'.fired[|w.fired|].order == w.order[i]
    ensures Balanced(w')
  {
    assert forall k :: 0 <= k < |w.fired| ==> w'.fired[k] == w.fired[k];
  }

  lemma StepBalanced(w: Watch, cfg: Settings, e: Event)
    requires Balanced(w) && Fits(e)
    ensures Balanced(WatchStep(w, cfg, e))
  {
    if Goes(w.table, cfg, e) { OpenBalanced(w, cfg, e); } else { CloseBalanced(w, cfg, e); }
  }

  lemma OpenFaithful(w: Watch, cfg: Settings, e: Event)
    requires Wellformed(w.table) && |w.order| == MAX_PENDING && Faithful(w) && Goes(w.table, cfg, e)
    ensures Faithful(WatchStep(w, cfg, e))
  {
    SendExact(w.table, cfg, e);
    var i :| Opens(w.table, Step(w.table, cfg, e).0, i, e);
  }

  lemma StepFaithful(w: Watch, cfg: Settings, e: Event)
    requires Wellformed(w.table) && |w.order| == MAX_PENDING && Faithful(w) && Fits(e)
    ensures Faithful(WatchStep(w, cfg, e))
  {
    if Goes(w.table, cfg, e) {
      OpenFaithful(w, cfg, e);
    } else {
      if e.Send? { SendExact(w.table, cfg, e); }
      StepSlots(w.table, cfg, e);
      StepConserves(w.table, cfg, e);
    }
  }

  function WatchRun(w: Watch, cfg: Settings, es: seq<Event>): (w': Watch)
    requires Wellformed(w.table) && |w.order| == MAX_PENDING
    requires forall i :: 0 <= i < |es| ==> Fits(es[i])
    ensures Wellformed(w'.table) && |w'.order| == MAX_PENDING
  {
    if es == [] then w else WatchStep(WatchRun(w, cfg, es[..|es| - 1]), cfg, es[|es| - 1])
  }

  /**
    After any events: orders filled plus orders open never exceed orders sent, and
    together with those counted as rejected or failed they make up at least all of
    them; one fill report was made for each order filled, and no order was reported
    twice.
   */
  lemma {:induction false} RunBalanced(w: Watch, cfg: Settings, es: seq<Event>)
    requires Balanced(w) && forall i :: 0 <= i < |es| ==> Fits(es[i])
    ensures Balanced(WatchRun(w, cfg, es))
  {
    if es != [] {
      RunBalanced(w, cfg, es[..|es| - 1]);
      StepBalanced(WatchRun(w, cfg, es[..|es| - 1]), cfg, es[|es| - 1]);
    }
  }

  /** After any events every report has the side of the order it closed, and its price or the broker's. */
  lemma {:induction false} RunFaithful(w: Watch, cfg: Settings, es: seq<Event>)
    requires Wellformed(w.table) && |w.order| == MAX_PENDING && Faithful(w)
    requires forall i :: 0 <= i < |es| ==> Fits(es[i])
    ensures Faithful(WatchRun(w, cfg, es))
  {
    if es != [] {
      RunFaithful(w, cfg, es[..|es| - 1]);
      StepFaithful(WatchRun(w, cfg, es[..|es| - 1]), cfg, es[|es| - 1]);
    }
  }

  // ----- when an order goes out, over whole runs

  lemma {:induction false} RoomIfFew(slots: seq<Slot>)
    ensures SomeFree(slots) <==> Active(slots) < |slots|
    ensures Active(slots) <= |slots|
  {
    if slots != [] {
      var before, last := slots[..|slots| - 1], slots[|slots| - 1];
      RoomIfFew(before);
      if SomeFree(before) {
        var k :| 0 <= k < |before| && !before[k].active;
        assert !slots[k].active;
      }
      if SomeFree(slots) {
        var k :| 0 <= k < |slots| && !slots[k].active;
        assert k == |slots| - 1 || !before[k].active;
      }
    }
  }

  /** When the last order went out; before the first, what the table remembers. */
  function LastSend(t: Table, sends: seq<Event>): int {
    if sends == [] || !sends[|sends| - 1].Send? then t.lastOrderMs else sends[|sends| - 1].nowMs
  }

  lemma {:induction false} RemembersSend(w: Watch, cfg: Settings, es: seq<Event>)
    requires Wellformed(w.table) && |w.order| == MAX_PENDING && w.sends == [] && !cfg.dryRun
    requires forall i :: 0 <= i < |es| ==> Fits(es[i])
    ensures var w' := WatchRun(w, cfg, es); w'.table.lastOrderMs == LastSend(w.table, w'.sends)
  {
    if es != [] {
      var before, e := es[..|es| - 1], es[|es| - 1];
      RemembersSend(w, cfg, before);
      var t := WatchRun(w, cfg, before).table;
      if e.Send? {
        SendExact(t, cfg, e);
      } else {
        StepConserves(t, cfg, e);
        LastMoves(t, cfg, e);
      }
    }
  }

  /**
    In any run that is not a dry one, an order goes out exactly when the last one went out
    at least the cooldown ago, there are credentials and a connection, and fewer than
    eight orders are open.
   */
  lemma {:induction false} GoesOut(w: Watch, cfg: Settings, es: seq<Event>, e: Event, w1: Watch)
    requires Wellformed(w.table) && |w.order| == MAX_PENDING && w.sends == [] && !cfg.dryRun
    requires e.Send? && (forall i :: 0 <= i < |es| ==> Fits(es[i])) && w1 == WatchRun(w, cfg, es)
    requires LastSend(w.table, w1.sends) <= e.nowMs < W64
    ensures WatchStep(w1, cfg, e).sends == w1.sends + [e] <==>
            && e.nowMs - LastSend(w.table, w1.sends) >= cfg.cooldownMs
            && cfg.credentials && e.link.Connected? && Active(w1.table.slots) < 8
  {
    RemembersSend(w, cfg, es);
    SendExact(w1.table, cfg, e);
    RoomIfFew(w1.table.slots);
    assert w1.sends + [e] != w1.sends;
  }

  // ----- the rate limit

  /** The clock does not run backwards from `clock` on. */
  predicate Clocked(es: seq<Event>, clock: nat) {
    && (forall i :: 0 <= i < |es| && es[i].Send? ==> clock <= es[i].nowMs < W64)
    && (forall i, j :: 0 <= i < j < |es| && es[i].Send? && es[j].Send? ==> es[i].nowMs <= es[j].nowMs)
  }

  /** When the orders went out. */
  function SendTimes(w: Watch, cfg: Settings, es: seq<Event>): (times: seq<nat>)
    requires Wellformed(w.table) && |w.order| == MAX_PENDING
    requires forall i :: 0 <= i < |es| ==> Fits(es[i])
  {
    if es == [] then []
    else
      var before, e := es[..|es| - 1], es[|es| - 1];
      SendTimes(w, cfg, before) + if Goes(WatchRun(w, cfg, before).table, cfg, e) then [e.nowMs] else []
  }

  predicate Spaced(times: seq<nat>, gap: nat) {
    forall i :: 0 <= i < |times| - 1 ==> times[i] + gap <= times[i + 1]
  }

  /** The last order went out no later than the table remembers. */
  predicate Remembered(times: seq<nat>, last: nat) {
    times != [] ==> times[|times| - 1] <= last
  }

  lemma LastMoves(t: Table, cfg: Settings, e: Event)
    requires Wellformed(t) && Fits(e)
    ensures var last := Step(t, cfg, e).0.lastOrderMs;
            if e.Send? && last != t.lastOrderMs then last == e.nowMs && !Cooling(t, cfg, e.nowMs)
            else last == t.lastOrderMs
    ensures Goes(t, cfg, e) ==> Step(t, cfg, e).0.lastOrderMs == e.nowMs
  {
  }

  /** An order that goes out keeps its distance from the last one remembered. */
  lemma SendSpacing(t: Table, cfg: Settings, e: Event, times: seq<nat>)
    requires Wellformed(t) && Fits(e) && (e.Send? ==> t.lastOrderMs <= e.nowMs < W64)
    requires Spaced(times, cfg.cooldownMs) && Remembered(times, t.lastOrderMs)
    ensures var later := times + if Goes(t, cfg, e) then [e.nowMs] else [];
            Spaced(later, cfg.cooldownMs) && Remembered(later, Step(t, cfg, e).0.lastOrderMs)
  {
    LastMoves(t, cfg, e);
  }

  lemma {:induction false} SendsSpaced(w: Watch, cfg: Settings, es: seq<Event>, clock: nat)
    requires Wellformed(w.table) && |w.order| == MAX_PENDING && w.table.lastOrderMs <= clock
    requires (forall i :: 0 <= i < |es| ==> Fits(es[i])) && Clocked(es, clock)
    ensures Spaced(SendTimes(w, cfg, es), cfg.cooldownMs)
    ensures var last := WatchRun(w, cfg, es).table.lastOrderMs;
            && Remembered(SendTimes(w, cfg, es), last)
            && (last <= clock || exists i :: 0 <= i < |es| && es[i].Send? && last == es[i].nowMs)
  {
    if es != [] {
      var n := |es| - 1;
      var before, e := es[..n], es[n];
      SendsSpaced(w, cfg, before, clock);
      var t, times := WatchRun(w, cfg, before).table, SendTimes(w, cfg, before);
      if t.lastOrderMs > clock {
        var i :| 0 <= i < n && before[i].Send? && t.lastOrderMs == before[i].nowMs;
        assert es[i] == before[i];
      }
      assert e == es[n];
      LastMoves(t, cfg, e);
      SendSpacing(t, cfg, e, times);
    }
  }

  function CountIn(times: seq<nat>, lo: int, hi: int): nat {
    if times == [] then 0
    else CountIn(times[..|times| - 1], lo, hi) + One(lo <= times[|times| - 1] <= hi)
  }

  /** The orders in a window span it in steps of at least `gap`. */
  lemma {:induction false} WindowSpan(times: seq<nat>, gap: nat, lo: int, hi: int)
    requires Spaced(times, gap)
    ensures var n := CountIn(times, lo, hi); n > 0 ==> (n - 1) * gap <= hi - lo
  {
    if times != [] {
      var before, x := times[..|times| - 1], times[|times| - 1];
      WindowSpan(before, gap, lo, hi);
      if lo <= x <= hi {
        WindowSpan(before, gap, lo, x - gap);
        NoneBetween(before, gap, lo, x - gap, hi);
        var n := CountIn(before, lo, x - gap);
        assert (n - 1) * gap == n * gap - gap;
      }
    }
  }

  /** No window of W milliseconds holds more than W / gap + 1 orders. */
  lemma {:induction false} WindowBound(times: seq<nat>, gap: nat, lo: int, hi: int)
    requires Spaced(times, gap) && gap > 0 && lo <= hi
    ensures CountIn(times, lo, hi) <= (hi - lo) / gap + 1
  {
    WindowSpan(times, gap, lo, hi);
    var n := CountIn(times, lo, hi);
    if n > 0 {
      AtMostQuotient(n - 1, hi - lo, gap);
    } else {
      AtMostQuotient(0, hi - lo, gap);
    }
  }

  /**
    The rate limit: with a clock that does not run backwards, no run sends more than
    W / cooldown + 1 orders within any W milliseconds.
   */
  lemma {:induction false} RateLimit(w: Watch, cfg: Settings, es: seq<Event>, clock: nat, lo: int, hi: int)
    requires Wellformed(w.table) && |w.order| == MAX_PENDING && w.table.lastOrderMs <= clock
    requires (forall i :: 0 <= i < |es| ==> Fits(es[i])) && Clocked(es, clock)
    requires cfg.cooldownMs > 0 && lo <= hi
    ensures CountIn(SendTimes(w, cfg, es), lo, hi) <= (hi - lo) / cfg.cooldownMs + 1
  {
    SendsSpaced(w, cfg, es, clock);
    WindowBound(SendTimes(w, cfg, es), cfg.cooldownMs, lo, hi);
  }

  lemma AtMostQuotient(k: nat, w: nat, gap: nat)
    requires gap > 0 && k * gap <= w
    ensures k <= w / gap
  {
    var q, r := w / gap, w % gap;
    assert w == q * gap + r;
    if q < k {
      Widen(q + 1, k, gap);
    }
  }

  lemma {:induction false} NoneBetween(times: seq<nat>, gap: nat, lo: int, mid: int, hi: int)
    requires Spaced(times, gap) && (times != [] ==> times[|times| - 1] <= mid)
    requires mid <= hi
    ensures CountIn(times, lo, hi) == CountIn(times, lo, mid)
  {
    if times != [] {
      NoneBetween(times[..|times| - 1], gap, lo, mid, hi);
    }
  }
}
