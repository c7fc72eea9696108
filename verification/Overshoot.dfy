/**
  The inventory bound is tight.  For every limit and every number K of decisions that
  may be outstanding there is an honest run of the machine at whose end POSITION is
  MAX - 1 + K; so the documented limit of MAX is kept exactly when K is one.
 */
module Overshoot {
  import opened Isa
  import opened CpuModel
  import opened Program
  import opened TradingCore
  import opened Simulation
  import opened Safety
  import opened Strategy
  import opened Board
  import opened Refinement
  import opened System
  import opened Inventory
  import opened Script
  import opened Rounds
  import opened Results

  /** Resting one lot below the limit, anchored at 17, with `open` buys outstanding and `filled` applied. */
  ghost predicate Poised(b: State, max: Word, open: nat, filled: nat) {
    && Resting(b) && Settings(b.core) == Config(1, 1, max) && b.log.start == max - 1 && max > 0
    && b.log.desk.anchor == 17 && b.log.desk.pos == max - 1 + filled
    && OrdersAt(b) == Orders(open, 0)
  }

  // ----- the desk

  /** The first quote sets the anchor. */
  lemma {:induction false} FirstQuote(start: Word, e: Event)
    requires e.Quote? && e.bid == 9 && e.ask == 8
    ensures var d := Fold(start, [e]); d.anchor == 17 && d.pos == start && d.decisions == []
  {
    FoldSnoc(start, [], e);
    assert [] + [e] == [e];
  }

  /** A rise within the band moves the anchor and nothing else. */
  lemma Rises(d: Desk, e: Event, max: Word)
    requires e.Quote? && e.cfg == Config(1, 1, max) && e.bid == 10
    requires (d.anchor == 17 && e.ask == 9) || (d.anchor == 19 && e.ask == 10)
    ensures OnEvent(d, e) == d.(anchor := 10 + e.ask)
  {
  }

  /** A fall by three asks to buy, which is allowed one lot below the limit. */
  lemma Falls(d: Desk, e: Event, max: Word)
    requires e.Quote? && e.cfg == Config(1, 1, max) && e.bid == 9 && e.ask == 8
    requires d.anchor == 20 && 0 < max < H31 && d.pos == max - 1
    ensures OnEvent(d, e) == d.(anchor := 17, decisions := d.decisions + [Decision(BUY, e.tick)])
  {
  }

  // ----- rounds

  /** The desk after a quote round, and the orders if it decides nothing. */
  lemma RoundDesk(b: State, b': State, e: Event)
    requires Resting(b) && Resting(b') && b'.log.start == b.log.start && b'.log.events == b.log.events + [e]
    ensures b'.log.desk == OnEvent(b.log.desk, e)
  {
    FoldSnoc(b.log.start, b.log.events, e);
  }

  lemma QuietOrders(b: State, b': State, e: Event)
    requires Resting(b) && Resting(b') && b'.log.start == b.log.start && b'.log.events == b.log.events + [e]
    requires e.Quote? && b'.log.desk.decisions == b.log.desk.decisions
    ensures OrdersAt(b') == OrdersAt(b)
  {
    FoldSnoc(b.log.start, b.log.events, e);
    OrdersSnoc(b.log.start, b.log.events, e);
  }

  /** A rise. */
  lemma RiseRound(b: State, ask: Word, max: Word, k: int) returns (acts: seq<Act>)
    requires Resting(b) && Settings(b.core) == Config(1, 1, max) && OrdersAt(b).buys + OrdersAt(b).sells < k
    requires (b.log.desk.anchor == 17 && ask == 9) || (b.log.desk.anchor == 19 && ask == 10)
    ensures Good(b, acts, k)
    ensures var b' := Run(b, acts);
            && Resting(b') && Settings(b'.core) == Settings(b.core) && b'.log.start == b.log.start
            && b'.log.desk == b.log.desk.(anchor := 10 + ask) && OrdersAt(b') == OrdersAt(b)
  {
    var e;
    acts, e := QuoteRound(b, Tick(10, ask, 1, 1), k);
    var b' := Run(b, acts);
    RoundDesk(b, b', e);
    Rises(b.log.desk, e, max);
    QuietOrders(b, b', e);
  }

  /** A fall, and one more buy is outstanding. */
  lemma FallRound(b: State, max: Word, open: nat, k: int) returns (acts: seq<Act>)
    requires Resting(b) && Settings(b.core) == Config(1, 1, max) && OrdersAt(b) == Orders(open, 0) && open < k
    requires b.log.desk.anchor == 20 && 0 < max < H31 && b.log.desk.pos == max - 1 && b.log.start == max - 1
    ensures Good(b, acts, k) && Poised(Run(b, acts), max, open + 1, 0)
  {
    var e;
    acts, e := QuoteRound(b, Tick(9, 8, 1, 1), k);
    FallPoises(b, Run(b, acts), e, max, open);
  }

  lemma FallPoises(b: State, b': State, e: Event, max: Word, open: nat)
    requires Resting(b) && OrdersAt(b) == Orders(open, 0)
    requires b.log.desk.anchor == 20 && 0 < max < H31 && b.log.desk.pos == max - 1 && b.log.start == max - 1
    requires Resting(b') && b'.log.start == b.log.start && b'.log.events == b.log.events + [e]
    requires e.Quote? && e.bid == 9 && e.ask == 8 && e.cfg == Settings(b'.core) == Config(1, 1, max)
    ensures Poised(b', max, open + 1, 0)
  {
    RoundDesk(b, b', e);
    Falls(b.log.desk, e, max);
    FoldSnoc(b.log.start, b.log.events, e);
    OrdersSnoc(b.log.start, b.log.events, e);
  }

  /** Up, up and down: one more buy is outstanding. */
  lemma BuyRound(b: State, max: Word, open: nat, k: int) returns (acts: seq<Act>)
    requires Poised(b, max, open, 0) && open < k && max < H31
    ensures Good(b, acts, k) && Poised(Run(b, acts), max, open + 1, 0)
  {
    var up1 := RiseRound(b, 9, max, k);
    var b1 := Run(b, up1);
    var up2 := RiseRound(b1, 10, max, k);
    var b2 := Run(b1, up2);
    var down := FallRound(b2, max, open, k);
    acts := up1 + (up2 + down);
    ThreeRounds(b, up1, up2, down, k);
  }

  lemma {:induction false} ThreeRounds(b: State, xs: seq<Act>, ys: seq<Act>, zs: seq<Act>, k: int)
    requires Good(b, xs, k) && Good(Run(b, xs), ys, k) && Good(Run(Run(b, xs), ys), zs, k)
    ensures Good(b, xs + (ys + zs), k) && Run(b, xs + (ys + zs)) == Run(Run(Run(b, xs), ys), zs)
  {
    GoodConcat(Run(b, xs), ys, zs, k);
    GoodConcat(b, xs, ys + zs, k);
  }

  lemma {:induction false} BuyRounds(b: State, max: Word, open: nat, k: nat) returns (acts: seq<Act>)
    requires Poised(b, max, open, 0) && open <= k && max < H31
    ensures Good(b, acts, k) && Poised(Run(b, acts), max, k, 0)
    decreases k - open
  {
    if open == k {
      return [];
    }
    var first := BuyRound(b, max, open, k);
    var rest := BuyRounds(Run(b, first), max, open + 1, k);
    GoodConcat(b, first, rest, k);
    acts := first + rest;
  }

  /** One of the outstanding buys is filled. */
  lemma ApplyRound(b: State, max: Word, open: nat, filled: nat, k: int) returns (acts: seq<Act>)
    requires Poised(b, max, open, filled) && open > 0 && max + filled < H31
    ensures Good(b, acts, k) && Poised(Run(b, acts), max, open - 1, filled + 1)
  {
    acts := FillRound(b, k);
    FillPoises(b, Run(b, acts), max, open, filled);
  }

  lemma FillPoises(b: State, b': State, max: Word, open: nat, filled: nat)
    requires Poised(b, max, open, filled) && open > 0 && max + filled < H31
    requires Resting(b') && b'.log.start == b.log.start && b'.log.events == b.log.events + [Fill(BOUGHT, 1)]
    requires Settings(b'.core) == Settings(b.core)
    ensures Poised(b', max, open - 1, filled + 1)
  {
    RoundDesk(b, b', Fill(BOUGHT, 1));
    OrdersSnoc(b.log.start, b.log.events, Fill(BOUGHT, 1));
  }

  lemma {:induction false} ApplyRounds(b: State, max: Word, open: nat, filled: nat, k: int) returns (acts: seq<Act>)
    requires Poised(b, max, open, filled) && max - 1 + filled + open < H31
    ensures Good(b, acts, k) && Poised(Run(b, acts), max, 0, filled + open)
    decreases open
  {
    if open == 0 {
      return [];
    }
    var first := ApplyRound(b, max, open, filled, k);
    var rest := ApplyRounds(Run(b, first), max, open - 1, filled + 1, k);
    GoodConcat(b, first, rest, k);
    acts := first + rest;
  }

  // ----- the whole run

  /** From a fresh board to the first quote. */
  lemma OpeningRound(b: State, max: Word, k: int) returns (acts: seq<Act>)
    requires FreshBoard(b, max) && 0 < max < H31 && k >= 1
    ensures OrdersAt(b) == Orders(0, 0) && Good(b, acts, k) && Poised(Run(b, acts), max, 0, 0)
  {
    var start := StartRound(b, max, k);
    var b1 := Run(b, start);
    NoOrders(b1.log.start);
    var quote, e := QuoteRound(b1, Tick(9, 8, 1, 1), k);
    OpeningPoises(b1, Run(b1, quote), e, max);
    GoodConcat(b, start, quote, k);
    acts := start + quote;
  }

  lemma OpeningPoises(b: State, b': State, e: Event, max: Word)
    requires Resting(b) && b.log.events == [] && b.log.start == max - 1 && max > 0
    requires Resting(b') && b'.log.start == b.log.start && b'.log.events == b.log.events + [e]
    requires e.Quote? && e.bid == 9 && e.ask == 8 && Settings(b'.core) == Config(1, 1, max)
    ensures Poised(b', max, 0, 0)
  {
    assert b'.log.events == [e];
    FirstQuote(b.log.start, e);
    NoOrders(b.log.start);
    OrdersSnoc(b.log.start, [], e);
    assert [] + [e] == [e];
  }

  lemma TradeRounds(b: State, max: Word, k: nat) returns (acts: seq<Act>)
    requires Poised(b, max, 0, 0) && k >= 1 && max - 1 + k < H31
    ensures Good(b, acts, k) && Shows(Run(b, acts).core, max - 1 + k)
  {
    var buys := BuyRounds(b, max, 0, k);
    var fills := ApplyRounds(Run(b, buys), max, k, 0, k);
    GoodConcat(b, buys, fills, k);
    acts := buys + fills;
    PoisedShows(Run(b, acts), max, k);
  }

  /** At the loop head with POSITION at `lots`. */
  predicate Shows(s: Core, lots: int) {
    Ram(s) && s.pc == LOOP && s.mem[324] == lots
  }

  lemma PoisedShows(b: State, max: Word, k: nat)
    requires Poised(b, max, 0, k)
    ensures Shows(b.core, max - 1 + k)
  {
  }

  lemma OvershootRun(b: State, max: Word, k: nat) returns (acts: seq<Act>)
    requires FreshBoard(b, max) && 0 < max && k >= 1 && max - 1 + k < H31
    ensures Good(b, acts, k) && OrdersAt(b) == Orders(0, 0) && Shows(Run(b, acts).core, max - 1 + k)
  {
    var opening := OpeningRound(b, max, k);
    var trades := TradeRounds(Run(b, opening), max, k);
    GoodConcat(b, opening, trades, k);
    acts := opening + trades;
  }

  /**
    From any fresh board there is an honest run with at most `k` decisions outstanding
    that ends at the loop head with POSITION at MAX - 1 + k.
   */
  lemma LimitOvershoot(m: Machine, b: State, max: Word, k: nat) returns (acts: seq<Act>)
    requires Boots(m, b) && FreshBoard(b, max) && 0 < max && k >= 1 && max - 1 + k < H31
    ensures Legal(b, acts) && HonestRun(b, Orders(0, 0), acts, k)
    ensures var m' := MachineRun(m, b, acts); m'.pc == LOOP && S32(m'.mem[324]) == max - 1 + k
  {
    acts := OvershootBoard(b, max, k);
    BootMachine(m, b, acts);
  }

  lemma OvershootBoard(b: State, max: Word, k: nat) returns (acts: seq<Act>)
    requires FreshBoard(b, max) && 0 < max && k >= 1 && max - 1 + k < H31
    ensures Ram(b.core) && Legal(b, acts) && HonestRun(b, Orders(0, 0), acts, k)
    ensures Shows(Run(b, acts).core, max - 1 + k)
  {
    acts := OvershootRun(b, max, k);
  }

  // ----- exactly when the limit is kept

  /** In every honest run with at most `k` decisions outstanding POSITION stays within `max`. */
  ghost predicate KeepsLimit(max: Word, k: int) {
    forall m, b, acts ::
      Boots(m, b) && Legal(b, acts) && m.mem[262] == max && HonestRun(b, Orders(0, 0), acts, k) ==>
        WithinLimit(MachineRun(m, b, acts), max)
  }

  predicate WithinLimit(m: Machine, max: int)
    requires Valid(m)
  {
    m.pc >= LOOP && !(64 <= m.pc <= 67) ==> -max <= S32(m.mem[324]) <= max
  }

  /** A machine with the image loaded and a fresh board beside it. */
  lemma FreshMachine(max: Word) returns (m: Machine, b: State)
    requires 0 < max < H31
    ensures Boots(m, b) && FreshBoard(b, max) && m.mem[262] == max
  {
    var mem := seq<Word>(MEM_WORDS, i => FreshWord(i, max));
    m := Machine(BASE, Regs(0, 0, 0, 0, 0, 0, 0, 0, 0, 0, 0, 0, 0, 0, 0, 0), mem, CLEAR, 0, 0, 0);
    var q := Tick(0, 0, 0, 0);
    b := State(View(m), NewLog(0), Ticker(0, 0, q, 0, [q], false), Reporter(0, 0, 0, 0, []),
               Poller(0, 0, 0, 0, false, 0, 0, 0, []));
    forall i | BASE <= i < BASE + LEN
      ensures mem[i] == ImageWord(i)
    {
    }
  }

  function FreshWord(i: int, max: Word): Word
    requires max > 0
  {
    if BASE <= i < BASE + LEN then ImageWord(i)
    else
      match i
      case 261 => 1
      case 262 => max
      case 263 => 1
      case 270 => max - 1
      case _ => 0
  }

  // ----- a limit of zero

  /** With a limit of zero and at most one order out, no decision comes to be published. */
  lemma ZeroHonest(o: Orders, s: Core, act: Act, k: int)
    requires Bounded(s, o, 1) && Limit(s) == 0 && Honest(o, s, act, k)
    ensures Honest(o, s, act, 1)
  {
  }

  /** So in an honest run none is ever outstanding. */
  lemma {:induction false} ZeroHonestRun(b: State, o: Orders, acts: seq<Act>, k: int)
    requires Probed(b.core) && Bounded(b.core, o, 1) && Limit(b.core) == 0 && Legal(b, acts) && HonestRun(b, o, acts, k)
    ensures HonestRun(b, o, acts, 1)
    decreases |acts|
  {
    if acts != [] {
      ZeroHonest(o, b.core, acts[0], k);
      NextBounded(b, o, acts[0], 1);
      ZeroHonestRun(Next(b, acts[0]), OrdersNext(o, b.core, acts[0]), acts[1..], k);
    }
  }

  lemma {:induction false} MoreIsHonest(b: State, o: Orders, acts: seq<Act>, j: int, k: int)
    requires Ram(b.core) && Legal(b, acts) && HonestRun(b, o, acts, j) && j <= k
    ensures HonestRun(b, o, acts, k)
    decreases |acts|
  {
    if acts != [] {
      MoreIsHonest(Next(b, acts[0]), OrdersNext(o, b.core, acts[0]), acts[1..], j, k);
    }
  }

  /**
    The documented limit is kept in every honest run if and only if one decision at a
    time is outstanding, or the limit is zero.
   */
  lemma LimitExact(max: Word, k: nat)
    requires max + 1 < H31 && k >= 1
    ensures KeepsLimit(max, k) <==> k == 1 || max == 0
  {
    if k == 1 || max == 0 {
      forall m, b, acts | Boots(m, b) && Legal(b, acts) && m.mem[262] == max && HonestRun(b, Orders(0, 0), acts, k)
        ensures WithinLimit(MachineRun(m, b, acts), max)
      {
        if max == 0 {
          ZeroHonestRun(b, Orders(0, 0), acts, k);
        }
        PositionBounded(m, b, acts, 1);
      }
    } else {
      Overshoots(max, k);
    }
  }

  lemma {:induction false} Overshoots(max: Word, k: nat)
    requires 0 < max && max + 1 < H31 && k >= 2
    ensures !KeepsLimit(max, k)
  {
    var m, b := FreshMachine(max);
    var acts := LimitOvershoot(m, b, max, 2);
    MoreIsHonest(b, Orders(0, 0), acts, 2, k);
    assert !WithinLimit(MachineRun(m, b, acts), max);
  }
}
