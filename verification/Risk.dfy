/**
  Host-side risk: average-cost accounting with the integer division of C, marking to
  market, and the loss limit that halts trading for good.
 */
module Risk {
  import opened Isa
  import opened Arith

  const BOUGHT: int := 1

  datatype Verdict = Fine | LossLimit | StaleFeed | Halted

  datatype Ledger = Ledger(
    position: int, avg: int, realised: int, unrealised: int,
    maxLoss: int, staleFeedMs: nat, halted: bool)

  datatype Trade = Trade(side: int, qty: Word, price: int)

  function Abs(x: int): nat {
    if x < 0 then -x else x
  }

  function Min(a: int, b: int): int {
    if a < b then a else b
  }

  /** Division rounding toward zero. */
  function TruncDiv(a: int, b: int): int
    requires b != 0
  {
    if (a >= 0) == (b > 0) then Abs(a) / Abs(b) else -(Abs(a) / Abs(b))
  }

  /** The quantity as the code casts it, to int32_t and to the 32-bit long of the board. */
  function Lots(t: Trade): int {
    S32(t.qty)
  }

  /** The change of position a trade makes. */
  function Signed(t: Trade): int {
    if t.side == BOUGHT then Lots(t) else -Lots(t)
  }

  /** The trade does not reduce the position. */
  predicate Adding(position: int, t: Trade) {
    position == 0 || (position > 0) == (Signed(t) > 0)
  }

  function OnFill(r: Ledger, t: Trade): Ledger {
    if t.qty == 0 then r
    else
      var was, now := r.position, r.position + Signed(t);
      if Adding(was, t) then
        var units := Abs(was) + Lots(t);
        r.(avg := if units == 0 then 0 else TruncDiv(r.avg * Abs(was) + t.price * Lots(t), units), position := now)
      else
        var closed := Min(Abs(Signed(t)), Abs(was));
        var perLot := if was > 0 then t.price - r.avg else r.avg - t.price;
        r.(realised := r.realised + perLot * closed,
           avg := if now == 0 then 0 else if (was > 0) != (now > 0) then t.price else r.avg,
           position := now)
  }

  function Mark(r: Ledger, mid: int): Ledger {
    r.(unrealised := if r.position == 0 || r.avg == 0 then 0 else (mid - r.avg) * r.position)
  }

  function Pnl(r: Ledger): int {
    r.realised + r.unrealised
  }

  function Check(r: Ledger, feedAgeUs: nat): (Ledger, Verdict) {
    if r.halted then (r, Halted)
    else if r.maxLoss > 0 && Pnl(r) <= -r.maxLoss then (r.(halted := true), LossLimit)
    else if r.staleFeedMs > 0 && feedAgeUs > r.staleFeedMs * 1000 then (r, StaleFeed)
    else (r, Fine)
  }

  /** The struct in place. */
  class RiskDesk {
    var position: int
    var avg: int
    var realised: int
    var unrealised: int
    var maxLoss: int
    var staleFeedMs: nat
    var halted: bool

    ghost function State(): Ledger
      reads this
    {
      Ledger(position, avg, realised, unrealised, maxLoss, staleFeedMs, halted)
    }

    constructor (maxLoss: int, staleFeedMs: nat, startPosition: int)
      ensures State() == Ledger(startPosition, 0, 0, 0, maxLoss, staleFeedMs, false)
    {
      position, avg, realised, unrealised := startPosition, 0, 0, 0;
      this.maxLoss, this.staleFeedMs, halted := maxLoss, staleFeedMs, false;
    }

    method Fill(t: Trade)
      modifies this
      ensures State() == OnFill(old(State()), t)
    {
      if t.qty == 0 { return; }
      var was := position;
      var now := was + Signed(t);
      if was == 0 || (was > 0) == (Signed(t) > 0) {
        var total := avg * Abs(was) + t.price * Lots(t);
        var units := Abs(was) + Lots(t);
        avg := if units == 0 then 0 else TruncDiv(total, units);
      } else {
        var closed := if Abs(Signed(t)) < Abs(was) then Abs(Signed(t)) else Abs(was);
        var perLot := if was > 0 then t.price - avg else avg - t.price;
        realised := realised + perLot * closed;
        if (was > 0) != (now > 0) && now != 0 {
          avg := t.price;
        } else if now == 0 {
          avg := 0;
        }
      }
      position := now;
    }

    method MarkTo(mid: int)
      modifies this`unrealised
      ensures State() == Mark(old(State()), mid)
    {
      if position == 0 || avg == 0 {
        unrealised := 0;
        return;
      }
      unrealised := (mid - avg) * position;
    }

    method Halt()
      modifies this`halted
      ensures State() == old(State()).(halted := true)
    {
      if !halted {
        halted := true;
      }
    }

    method MayTrade(feedAgeUs: nat) returns (v: Verdict)
      modifies this`halted
      ensures (State(), v) == Check(old(State()), feedAgeUs)
      ensures v.Halted? <==> old(halted)
      ensures v.LossLimit? <==> !old(halted) && maxLoss > 0 && realised + unrealised <= -maxLoss
      ensures v.StaleFeed? <==>
                !old(halted) && !v.LossLimit? && staleFeedMs > 0 && feedAgeUs > staleFeedMs * 1000
      ensures halted <==> old(halted) || v.LossLimit?
    {
      if halted { return Halted; }
      if maxLoss > 0 && realised + unrealised <= -maxLoss {
        Halt();
        return LossLimit;
      }
      if staleFeedMs > 0 && feedAgeUs > staleFeedMs * 1000 {
        return StaleFeed;
      }
      return Fine;
    }
  }

  // ----- conservation

  /** What a trade pays out. */
  function CashOf(t: Trade): int {
    -(Signed(t) * t.price)
  }

  /** Money booked so far, the open position valued at its average. */
  function Booked(r: Ledger): int {
    r.realised - r.avg * r.position
  }

  /** What rounding the average adds to the books on this trade. */
  function Drift(r: Ledger, t: Trade): int {
    Booked(OnFill(r, t)) - Booked(r) - CashOf(t)
  }

  /** Upward while long, downward while short, by less than a unit a lot. */
  predicate SmallDrift(r: Ledger, t: Trade) {
    var position := OnFill(r, t).position;
    if position > 0 then 0 <= Drift(r, t) <= Abs(position) - 1
    else -(Abs(position) - 1) <= Drift(r, t) <= 0
  }

  lemma Distribute(a: int, b: int, c: int)
    ensures a * (b + c) == a * b + a * c
  {
  }

  lemma DivMod(total: nat, units: nat)
    requires units > 0
    ensures TruncDiv(total, units) >= 0
    ensures 0 <= total - TruncDiv(total, units) * units <= units - 1
  {
    QuotRem(total, units);
  }

  /** What an adding fill of a castable quantity does. */
  lemma AddingFill(r: Ledger, t: Trade)
    requires 0 < t.qty < H31 && Adding(r.position, t)
    ensures var units := Abs(r.position) + t.qty;
            && OnFill(r, t) == r.(avg := TruncDiv(r.avg * Abs(r.position) + t.price * t.qty, units),
                                  position := r.position + Signed(t))
            && r.position + Signed(t) == (if t.side == BOUGHT then units as int else -(units as int))
            && r.position == (if t.side == BOUGHT then Abs(r.position) as int else -(Abs(r.position) as int))
  {
  }

  /** Truncation: less than a whole divisor is left, of the sign of the dividend. */
  lemma TruncExact(a: int, b: int)
    requires b > 0
    ensures var rest := a - TruncDiv(a, b) * b; -b < rest < b && (a >= 0 ==> rest >= 0) && (a <= 0 ==> rest <= 0)
  {
    QuotRem(Abs(a), b);
    var q: int := Abs(a) / b;
    assert -q * b == -(q * b);
  }

  /** Whatever the prices, the new average is the mean of the lots, rounded toward zero. */
  lemma AverageRounds(r: Ledger, t: Trade)
    requires 0 < t.qty < H31 && Adding(r.position, t)
    ensures var total, units := r.avg * Abs(r.position) + t.price * t.qty, Abs(r.position) + t.qty;
            var rest := total - OnFill(r, t).avg * units;
            -units < rest < units && (total >= 0 ==> rest >= 0) && (total <= 0 ==> rest <= 0)
  {
    AddingFill(r, t);
    TruncExact(r.avg * Abs(r.position) + t.price * t.qty, Abs(r.position) + t.qty);
  }

  /** The arithmetic of it: `have` lots at `avg`, `more` at `price`, `avg'` a lot together. */
  lemma AddingArith(have: int, avg: int, more: int, price: int, avg': int, rest: int)
    requires avg * have + price * more == avg' * (have + more) + rest
    ensures -(avg' * (have + more)) + avg * have + more * price == rest
    ensures -(avg' * -(have + more)) + avg * -have + -more * price == -rest
  {
    assert avg' * -(have + more) == -(avg' * (have + more));
    assert avg * -have == -(avg * have);
    assert -more * price == -(price * more);
  }

  lemma AddingDrift(r: Ledger, t: Trade)
    requires r.avg >= 0 && t.price >= 0 && 0 < t.qty < H31 && Adding(r.position, t)
    ensures OnFill(r, t).avg >= 0 && SmallDrift(r, t)
  {
    AddingFill(r, t);
    var have, avg' := Abs(r.position), OnFill(r, t).avg;
    var total := r.avg * have + t.price * t.qty;
    NotNegative(r.avg, have);
    NotNegative(t.price, t.qty);
    DivMod(total, have + t.qty);
    AddingArith(have, r.avg, t.qty, t.price, avg', total - avg' * (have + t.qty));
    DriftIs(r, t, have + t.qty, total - avg' * (have + t.qty));
  }

  lemma NotNegative(a: int, b: int)
    requires a >= 0 && b >= 0
    ensures a * b >= 0
  {
  }

  lemma DriftIs(r: Ledger, t: Trade, units: int, rest: int)
    requires 0 < t.qty < H31 && Adding(r.position, t) && units == Abs(r.position) + t.qty && 0 <= rest <= units - 1
    requires var avg' := OnFill(r, t).avg;
             && -(avg' * units) + r.avg * Abs(r.position) + t.qty * t.price == rest
             && -(avg' * -units) + r.avg * -(Abs(r.position) as int) + -(t.qty as int) * t.price == -rest
    ensures SmallDrift(r, t)
  {
    AddingFill(r, t);
  }

  /** What a fill against the position does to the realised profit. */
  lemma ClosingFill(r: Ledger, t: Trade, closed: int)
    requires !Adding(r.position, t) && Signed(t) != 0
    requires closed == if Abs(r.position) <= Abs(Signed(t)) then r.position else -Signed(t)
    ensures OnFill(r, t).realised == r.realised + (t.price - r.avg) * closed
  {
    var perLot, p := if r.position > 0 then t.price - r.avg else r.avg - t.price, t.price - r.avg;
    if r.position > 0 {
      assert Min(Abs(Signed(t)), Abs(r.position)) == closed;
    } else {
      assert Min(Abs(Signed(t)), Abs(r.position)) == -closed;
      assert perLot * -closed == p * closed;
    }
  }

  lemma ClosingExact(r: Ledger, t: Trade)
    requires !Adding(r.position, t) && Signed(t) != 0
    ensures Drift(r, t) == 0
  {
    var was, d, p, avg := r.position, Signed(t), t.price, r.avg;
    if Abs(was) <= Abs(d) {
      ClosingFill(r, t, was);
      assert (p - avg) * was == p * was - avg * was;
      Distribute(p, was, d);
    } else {
      ClosingFill(r, t, -d);
      assert (p - avg) * -d == -(p * d) + avg * d;
      Distribute(avg, was, d);
    }
  }

  function Fills(r: Ledger, ts: seq<Trade>): Ledger {
    if ts == [] then r else OnFill(Fills(r, ts[..|ts| - 1]), ts[|ts| - 1])
  }

  function Cash(ts: seq<Trade>): int {
    if ts == [] then 0 else Cash(ts[..|ts| - 1]) + CashOf(ts[|ts| - 1])
  }

  /**
    The most the books can drift over the trades, counted on the long side or on the
    short side: |position| - 1 for each trade that adds to it there.
   */
  function Slack(r: Ledger, ts: seq<Trade>, long: bool): int {
    if ts == [] then 0
    else
      var before, t := ts[..|ts| - 1], ts[|ts| - 1];
      var was := Fills(r, before).position;
      var now := was + Signed(t);
      Slack(r, before, long) + if t.qty > 0 && Adding(was, t) && (now > 0) == long then Abs(now) - 1 else 0
  }

  /** Prices of at least `least` and quantities that survive the cast. */
  predicate Priced(ts: seq<Trade>, least: int) {
    forall i :: 0 <= i < |ts| ==> ts[i].price >= least && ts[i].qty < H31
  }

  /**
    Whatever the fills at non-negative prices, the books equal the cash paid and
    received up to a drift that only adding fills cause: upward while long, downward
    while short, by at most |position| - 1 lots' worth of one price unit each.
   */
  lemma {:induction false} Conservation(r: Ledger, ts: seq<Trade>)
    requires r.avg >= 0 && Priced(ts, 0)
    ensures var r' := Fills(r, ts);
            && r'.avg >= 0
            && -Slack(r, ts, false) <= Booked(r') - Booked(r) - Cash(ts) <= Slack(r, ts, true)
  {
    if ts != [] {
      var before, t := ts[..|ts| - 1], ts[|ts| - 1];
      assert Priced(before, 0);
      Conservation(r, before);
      var r1 := Fills(r, before);
      if t.qty > 0 {
        if Adding(r1.position, t) { AddingDrift(r1, t); } else { ClosingExact(r1, t); }
      }
    }
  }

  /** From flat with positive prices, the average is zero exactly when the position is. */
  lemma {:induction false} AverageMarksPosition(r: Ledger, ts: seq<Trade>)
    requires r.position == 0 && r.avg == 0 && Priced(ts, 1)
    ensures var r' := Fills(r, ts); r'.avg >= 0 && (r'.avg == 0 <==> r'.position == 0)
  {
    if ts != [] {
      var before, t := ts[..|ts| - 1], ts[|ts| - 1];
      assert Priced(before, 1);
      AverageMarksPosition(r, before);
      var r1 := Fills(r, before);
      if t.qty > 0 && Adding(r1.position, t) {
        AtLeastOne(r1.avg, Abs(r1.position), t.price, t.qty);
      }
    }
  }

  lemma AtLeastOne(avg: int, lots: nat, price: int, qty: nat)
    requires price >= 1 && qty >= 1 && avg >= 0 && (lots > 0 ==> avg >= 1)
    ensures TruncDiv(avg * lots + price * qty, lots + qty) >= 1
  {
    assert price * qty >= qty;
    assert avg * lots >= lots;
  }

  /**
    After a mark the profit and loss is the money booked plus the position at the mid
    -- except for an open position whose average is zero, which counts as worthless.
   */
  lemma MarkedPnl(r: Ledger, mid: int)
    ensures Pnl(Mark(r, mid)) == Booked(r) + r.position * mid <==> r.avg != 0 || r.position * mid == 0
  {
    if r.position != 0 && r.avg != 0 {
      assert (mid - r.avg) * r.position == mid * r.position - r.avg * r.position;
    }
  }

  /** From flat: the profit and loss after a mark, from the cash, the mid and the drift. */
  lemma {:induction false} PnlFromCash(r: Ledger, ts: seq<Trade>, mid: int)
    requires r.position == 0 && r.avg == 0 && r.realised == 0 && Priced(ts, 1)
    ensures var r' := Fills(r, ts);
            -Slack(r, ts, false) <= Pnl(Mark(r', mid)) - (Cash(ts) + r'.position * mid) <= Slack(r, ts, true)
  {
    assert Priced(ts, 0);
    Conservation(r, ts);
    AverageMarksPosition(r, ts);
    MarkedPnl(Fills(r, ts), mid);
  }

  // ----- quantities that do not survive the cast

  /** The drift of a trade of this side and quantity is small whatever the books and the price. */
  ghost predicate AlwaysSmall(side: int, qty: Word) {
    forall r: Ledger, price: int {:trigger SmallDrift(r, Trade(side, qty, price))} ::
      r.avg >= 0 && price >= 0 && Adding(r.position, Trade(side, qty, price)) ==> SmallDrift(r, Trade(side, qty, price))
  }

  /**
    From 2^31 on a quantity turns negative: the position moves the wrong way and the
    units of the average come out wrong.  Adding is accounted for exactly below that.
   */
  lemma QuantityExact(side: int, qty: Word)
    requires qty > 0
    ensures AlwaysSmall(side, qty) <==> qty < H31
  {
    if qty < H31 {
      forall r: Ledger, price: int | r.avg >= 0 && price >= 0 && Adding(r.position, Trade(side, qty, price))
        ensures SmallDrift(r, Trade(side, qty, price))
      {
        AddingDrift(r, Trade(side, qty, price));
      }
    } else {
      var t := Trade(side, qty, 0);
      var lost := 0x1_0000_0000 - qty;
      var r := Ledger(if side == BOUGHT then -2 * lost else 2 * lost, 1, 0, 0, 0, 0, false);
      WrongUnits(r, t, lost);
      assert !SmallDrift(r, Trade(side, qty, 0));
    }
  }

  lemma WrongUnits(r: Ledger, t: Trade, lost: int)
    requires 0 < lost <= H31 && Lots(t) == -lost && t.price == 0 && t.qty > 0
    requires r.avg == 1 && r.realised == 0 && r.position == if t.side == BOUGHT then -2 * lost else 2 * lost
    ensures Adding(r.position, t) && !SmallDrift(r, t)
  {
    Halved(lost);
    assert OnFill(r, t) == r.(avg := 2, position := if t.side == BOUGHT then -3 * lost else 3 * lost);
  }

  lemma Halved(x: int)
    requires x > 0
    ensures TruncDiv(2 * x, x) == 2
  {
    var q, rest := 2 * x / x, 2 * x % x;
    assert 2 * x == q * x + rest;
    assert (2 - q) * x == rest;
    if q < 2 {
      Widen(1, 2 - q, x);
    } else if q > 2 {
      Widen(1, q - 2, x);
    }
  }
}
