/**
  The strategy twice: in the 32-bit arithmetic the CPU computes with, and as the C
  host program states it (fmma_strategy.c) over wide integers.
 */
module Strategy {
  import opened Isa

  const NONE: Word := 0
  const BUY: Word := 1
  const SELL: Word := 2
  const BOUGHT: Word := 1

  /** The configuration words in force for one quote. */
  datatype Config = Config(threshold: Word, enable: Word, maxPos: Word)

  /**
    What the strategy is told.  `read` and `recheck` say how many quotes had been
    published at the two reads of TICK_SEQ; the strategy does not look at them.
   */
  datatype Event =
    | Quote(tick: Word, bid: Word, ask: Word, cfg: Config, read: nat, recheck: nat)
    | Fill(side: Word, qty: Word)

  datatype Decision = Decision(side: Word, tick: Word)

  // ----- 32-bit arithmetic

  datatype Desk = Desk(anchor: Word, pos: Word, rejects: nat, decisions: seq<Decision>)

  function Sum(bid: Word, ask: Word): Word {
    U32(bid + ask)
  }

  function Low(anchor: Word, threshold: Word): Word {
    U32(anchor - U32(threshold + threshold))
  }

  function High(anchor: Word, threshold: Word): Word {
    U32(anchor + U32(threshold + threshold))
  }

  /** The side a move from `anchor` to `sum` asks for. */
  function Want(anchor: Word, sum: Word, threshold: Word): Word {
    if S32(sum) < S32(Low(anchor, threshold)) then BUY
    else if S32(High(anchor, threshold)) < S32(sum) then SELL
    else NONE
  }

  /** The enable switch first, then the position limit of the wanted side. */
  predicate Allowed(pos: Word, side: Word, cfg: Config) {
    && cfg.enable != 0
    && (if side == BUY then S32(pos) < S32(cfg.maxPos) else S32(U32(0 - cfg.maxPos)) < S32(pos))
  }

  function OnQuote(d: Desk, tick: Word, bid: Word, ask: Word, cfg: Config): Desk {
    if bid == 0 || ask == 0 then d
    else
      var sum := Sum(bid, ask);
      if d.anchor == 0 then d.(anchor := sum)
      else
        var want := Want(d.anchor, sum, cfg.threshold);
        if want == NONE then d.(anchor := sum)
        else if Allowed(d.pos, want, cfg) then
          d.(anchor := sum, decisions := d.decisions + [Decision(want, tick)])
        else
          d.(anchor := sum, rejects := d.rejects + 1)
  }

  function OnFill(d: Desk, side: Word, qty: Word): Desk {
    d.(pos := if side == BOUGHT then U32(d.pos + qty) else U32(d.pos - qty))
  }

  function OnEvent(d: Desk, e: Event): Desk {
    match e
    case Quote(tick, bid, ask, cfg, _, _) => OnQuote(d, tick, bid, ask, cfg)
    case Fill(side, qty) => OnFill(d, side, qty)
  }

  function Fold(start: Word, events: seq<Event>): Desk {
    if events == [] then Desk(0, start, 0, [])
    else OnEvent(Fold(start, events[..|events| - 1]), events[|events| - 1])
  }

  lemma {:induction false} FoldSnoc(start: Word, events: seq<Event>, e: Event)
    ensures Fold(start, events + [e]) == OnEvent(Fold(start, events), e)
  {
    assert (events + [e])[..|events|] == events;
  }

  // ----- what triggers, told from the quotes alone

  /** The doubled mid of the last two-sided quote; zero when there is none. */
  function Anchor(events: seq<Event>): Word {
    if events == [] then 0
    else
      match events[|events| - 1]
      case Quote(_, bid, ask, _, _, _) =>
        if bid != 0 && ask != 0 then Sum(bid, ask) else Anchor(events[..|events| - 1])
      case Fill(_, _) => Anchor(events[..|events| - 1])
  }

  /** The quote `e` moves out of the band around the quotes before it. */
  predicate Triggers(before: seq<Event>, e: Event) {
    && e.Quote? && e.bid != 0 && e.ask != 0 && Anchor(before) != 0
    && Want(Anchor(before), Sum(e.bid, e.ask), e.cfg.threshold) != NONE
  }

  function TriggerCount(events: seq<Event>): nat {
    if events == [] then 0
    else
      var before := events[..|events| - 1];
      TriggerCount(before) + if Triggers(before, events[|events| - 1]) then 1 else 0
  }

  lemma {:induction false} AnchorIsLastQuote(start: Word, events: seq<Event>)
    ensures Fold(start, events).anchor == Anchor(events)
  {
    if events != [] {
      AnchorIsLastQuote(start, events[..|events| - 1]);
    }
  }

  /** Every move out of the band is either published or counted as rejected. */
  lemma {:induction false} TriggersAccounted(start: Word, events: seq<Event>)
    ensures var d := Fold(start, events); |d.decisions| + d.rejects == TriggerCount(events)
  {
    if events != [] {
      TriggersAccounted(start, events[..|events| - 1]);
      AnchorIsLastQuote(start, events[..|events| - 1]);
    }
  }
}
