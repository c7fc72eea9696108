/**
  fmma_strategy.c: the strategy as the host program states it, over 64-bit sums and
  a signed position, and when the CPU's 32-bit arithmetic agrees with it.
 */
module CStrategy {
  import opened Isa
  import opened Strategy
  import Fixed

  /** The C struct's contents. */
  datatype Soft = Soft(anchor: int, threshold: Word, maxPosition: Word, position: int, enabled: bool, rejects: nat)

  /** The band test of the C code. */
  function SoftWant(anchor: int, sum: int, threshold: Word): Word {
    if sum < anchor - 2 * threshold then BUY
    else if sum > anchor + 2 * threshold then SELL
    else NONE
  }

  /** The position limit of the C code. */
  predicate SoftBlocked(s: Soft, want: Word) {
    || (want == BUY && s.position >= S32(s.maxPosition))
    || (want == SELL && s.position <= -S32(s.maxPosition))
  }

  function SoftQuote(s: Soft, bid: Word, ask: Word): (Soft, Word) {
    if bid == 0 || ask == 0 then (s, NONE)
    else
      var sum: int := bid + ask;
      if s.anchor == 0 then (s.(anchor := sum), NONE)
      else
        var want := SoftWant(s.anchor, sum, s.threshold);
        var s1 := s.(anchor := sum);
        if want == NONE then (s1, NONE)
        else if !s.enabled || SoftBlocked(s, want) then (s1.(rejects := s.rejects + 1), NONE)
        else (s1, want)
  }

  function SoftFill(s: Soft, side: Word, qty: Word): Soft {
    s.(position := if side == BOUGHT then s.position + S32(qty) else s.position - S32(qty))
  }

  /** The struct in place. */
  class SoftStrategy {
    var anchor: int
    var threshold: Word
    var maxPosition: Word
    var position: int
    var enabled: bool
    var rejects: nat

    ghost function State(): Soft
      reads this
    {
      Soft(anchor, threshold, maxPosition, position, enabled, rejects)
    }

    constructor (threshold: Word, maxPosition: Word, startPosition: int)
      ensures State() == Soft(0, threshold, maxPosition, startPosition, true, 0)
    {
      this.anchor, this.threshold, this.maxPosition := 0, threshold, maxPosition;
      this.position, this.enabled, this.rejects := startPosition, true, 0;
    }

    method OnQuote(bid: Word, ask: Word) returns (signal: Word)
      modifies this
      ensures (State(), signal) == SoftQuote(old(State()), bid, ask)
    {
      if bid == 0 || ask == 0 { return NONE; }
      var sum: int := bid + ask;
      var band := 2 * threshold as int;
      if anchor == 0 {
        anchor := sum;
        return NONE;
      }
      var want := NONE;
      if sum < anchor - band { want := BUY; }
      else if sum > anchor + band { want := SELL; }
      anchor := sum;
      if want == NONE { return NONE; }
      if !enabled {
        rejects := rejects + 1;
        return NONE;
      }
      if want == BUY && position >= S32(maxPosition) {
        rejects := rejects + 1;
        return NONE;
      }
      if want == SELL && position <= -S32(maxPosition) {
        rejects := rejects + 1;
        return NONE;
      }
      return want;
    }

    method OnFill(side: Word, qty: Word)
      modifies this
      ensures State() == SoftFill(old(State()), side, qty)
    {
      if side == BOUGHT { position := position + S32(qty); }
      else { position := position - S32(qty); }
    }
  }

  // ----- folding the C strategy over what the CPU was told

  datatype Book = Book(soft: Soft, decisions: seq<Decision>)

  /** The struct with the configuration the CPU saw for this quote. */
  function Configured(s: Soft, cfg: Config): Soft {
    s.(threshold := cfg.threshold, maxPosition := cfg.maxPos, enabled := cfg.enable != 0)
  }

  function SoftEvent(b: Book, e: Event): Book {
    match e
    case Quote(tick, bid, ask, cfg, _, _) =>
      var (s, signal) := SoftQuote(Configured(b.soft, cfg), bid, ask);
      Book(s, if signal == NONE then b.decisions else b.decisions + [Decision(signal, tick)])
    case Fill(side, qty) => b.(soft := SoftFill(b.soft, side, qty))
  }

  function SoftFold(start: int, events: seq<Event>): Book {
    if events == [] then Book(Soft(0, 0, 0, start, true, 0), [])
    else SoftEvent(SoftFold(start, events[..|events| - 1]), events[|events| - 1])
  }

  // ----- when the two agree

  /** Both band tests, anchor and sum being in the range clamped prices give. */
  lemma BandAgreement(anchor: Word, sum: Word, threshold: Word)
    requires 0 < anchor < H31 && 0 < sum < H31 && threshold < H31
    ensures Want(anchor, sum, threshold) == SoftWant(anchor, sum, threshold) <==>
            || anchor + 2 * threshold < H31
            || sum < anchor - 2 * threshold
            || (anchor + 2 * threshold >= W32 && 2 * threshold <= anchor + H31
                && sum <= anchor + 2 * threshold - W32)
  {
    BandEdges(anchor, threshold);
  }

  /** The edges of the band without the remainder operations. */
  lemma BandEdges(anchor: Word, threshold: Word)
    requires threshold < H31
    ensures Low(anchor, threshold) ==
            if anchor >= 2 * threshold then anchor - 2 * threshold else anchor - 2 * threshold + W32
    ensures High(anchor, threshold) ==
            if anchor + 2 * threshold < W32 then anchor + 2 * threshold else anchor + 2 * threshold - W32
  {
    var d := U32(threshold + threshold);
    assert d == 2 * threshold;
  }

  /** A threshold with its top bit set acts as the threshold without it. */
  lemma ThresholdWraps(anchor: Word, sum: Word, threshold: Word)
    requires threshold >= H31
    ensures Want(anchor, sum, threshold) == Want(anchor, sum, threshold - H31)
    ensures anchor < H31 && sum < H31 ==> SoftWant(anchor, sum, threshold) == NONE
  {
    DoubledWraps(threshold, threshold - H31);
  }

  lemma DoubledWraps(t: Word, u: Word)
    requires t == u + H31
    ensures U32(t + t) == U32(u + u)
    ensures forall anchor: Word {:trigger Low(anchor, t)} :: Low(anchor, t) == Low(anchor, u)
    ensures forall anchor: Word {:trigger High(anchor, t)} :: High(anchor, t) == High(anchor, u)
  {
    OneTurn(u + u);
  }

  lemma OneTurn(v: int)
    ensures U32(v + W32) == U32(v)
  {
  }

  /** Both sides want the same of every quote with clamped prices. */
  ghost predicate BandAgrees(anchor: Word, threshold: Word) {
    forall bid: Word, ask: Word :: 0 < bid <= Fixed.PRICE_MAX && 0 < ask <= Fixed.PRICE_MAX ==>
      Want(anchor, Sum(bid, ask), threshold) == SoftWant(anchor, bid + ask, threshold)
  }

  /**
    The band's upper edge stays below 2^31.  A threshold with its top bit set doubles to
    what it would without it, so then that band must also hold every clamped quote.
   */
  predicate BandFits(anchor: Word, threshold: Word) {
    if threshold < H31 then anchor + 2 * threshold < H31
    else
      var half: int := 2 * (threshold - H31);
      anchor + half < H31 && anchor - half <= 2 && 2 * Fixed.PRICE_MAX <= anchor + half
  }

  /**
    For a given anchor and threshold the CPU agrees with the C code on every quote
    with clamped prices exactly when the band fits.
   */
  lemma BandExact(anchor: Word, threshold: Word)
    requires 0 < anchor <= 2 * Fixed.PRICE_MAX
    ensures BandAgrees(anchor, threshold) <==> BandFits(anchor, threshold)
  {
    AgreeBySums(anchor, threshold);
    if threshold < H31 { SmallBand(anchor, threshold); } else { LargeBand(anchor, threshold); }
  }

  /** The sums that clamped prices give. */
  predicate Clamped(sum: int) {
    2 <= sum <= 2 * Fixed.PRICE_MAX
  }

  lemma ClampedSum(bid: Word, ask: Word)
    requires 0 < bid <= Fixed.PRICE_MAX && 0 < ask <= Fixed.PRICE_MAX
    ensures Sum(bid, ask) == bid + ask && Clamped(bid + ask)
  {
  }

  ghost predicate SumsAgree(anchor: Word, threshold: Word) {
    forall sum: Word :: Clamped(sum) ==> Want(anchor, sum, threshold) == SoftWant(anchor, sum, threshold)
  }

  lemma AgreeBySums(anchor: Word, threshold: Word)
    ensures BandAgrees(anchor, threshold) <==> SumsAgree(anchor, threshold)
  {
    forall bid: Word, ask: Word | 0 < bid <= Fixed.PRICE_MAX && 0 < ask <= Fixed.PRICE_MAX
      ensures Sum(bid, ask) == bid + ask && Clamped(bid + ask)
    {
      ClampedSum(bid, ask);
    }
    forall sum: Word | Clamped(sum) && BandAgrees(anchor, threshold)
      ensures Want(anchor, sum, threshold) == SoftWant(anchor, sum, threshold)
    {
      var bid: Word := if sum <= Fixed.PRICE_MAX then 1 else sum - Fixed.PRICE_MAX;
      var ask: Word := sum - bid;
      ClampedSum(bid, ask);
      assert Want(anchor, Sum(bid, ask), threshold) == SoftWant(anchor, bid + ask, threshold);
    }
  }

  lemma SmallBand(anchor: Word, threshold: Word)
    requires 0 < anchor <= 2 * Fixed.PRICE_MAX && threshold < H31
    ensures SumsAgree(anchor, threshold) <==> anchor + 2 * threshold < H31
  {
    forall sum: Word | Clamped(sum) && anchor + 2 * threshold < H31
      ensures Want(anchor, sum, threshold) == SoftWant(anchor, sum, threshold)
    {
      BandAgreement(anchor, sum, threshold);
    }
    TopSum(anchor, threshold);
  }

  lemma TopSum(anchor: Word, threshold: Word)
    requires 0 < anchor <= 2 * Fixed.PRICE_MAX && threshold < H31
    ensures Clamped(2 * Fixed.PRICE_MAX)
    ensures anchor + 2 * threshold >= H31 ==>
            Want(anchor, 2 * Fixed.PRICE_MAX, threshold) != SoftWant(anchor, 2 * Fixed.PRICE_MAX, threshold)
  {
    BandAgreement(anchor, 2 * Fixed.PRICE_MAX, threshold);
  }

  /** With the top bit set: the CPU wants what it does without, and the C code nothing. */
  lemma LargeBand(anchor: Word, threshold: Word)
    requires 0 < anchor <= 2 * Fixed.PRICE_MAX && threshold >= H31
    ensures SumsAgree(anchor, threshold) <==> BandFits(anchor, threshold)
  {
    var u: Word := threshold - H31;
    forall sum: Word | Clamped(sum)
      ensures SoftWant(anchor, sum, threshold) == NONE && Want(anchor, sum, threshold) == Want(anchor, sum, u)
    {
      ThresholdWraps(anchor, sum, threshold);
    }
    QuietBand(anchor, u);
    if SumsAgree(anchor, threshold) {
      assert forall sum: Word :: Clamped(sum) ==> Want(anchor, sum, u) == NONE;
    }
  }

  /** When the CPU wants nothing of any sum. */
  lemma QuietBand(anchor: Word, u: Word)
    requires 0 < anchor <= 2 * Fixed.PRICE_MAX && u < H31
    ensures (forall sum: Word :: Clamped(sum) ==> Want(anchor, sum, u) == NONE) <==>
            anchor + 2 * u < H31 && anchor - 2 * u <= 2 && 2 * Fixed.PRICE_MAX <= anchor + 2 * u
  {
    var top: Word, bottom: Word := 2 * Fixed.PRICE_MAX, 2;
    if anchor + 2 * u < H31 {
      forall sum: Word | Clamped(sum)
        ensures Want(anchor, sum, u) == SoftWant(anchor, sum, u)
      {
        BandAgreement(anchor, sum, u);
      }
      assert Clamped(top) && Clamped(bottom);
      assert Want(anchor, top, u) == SoftWant(anchor, top, u) && Want(anchor, bottom, u) == SoftWant(anchor, bottom, u);
    } else {
      TopSum(anchor, u);
      assert Want(anchor, top, u) != SoftWant(anchor, top, u) == NONE;
    }
  }

  /** Both position limits agree for every limit the C code can negate. */
  lemma LimitAgreement(pos: Word, want: Word, cfg: Config, s: Soft)
    requires want == BUY || want == SELL
    requires s.position == S32(pos) && s.maxPosition == cfg.maxPos && s.enabled == (cfg.enable != 0)
    requires cfg.maxPos != H31
    ensures Allowed(pos, want, cfg) <==> s.enabled && !SoftBlocked(s, want)
  {
  }

  /** The quote keeps both arithmetics in range, seen from the quotes before it. */
  predicate Sane(before: seq<Event>, e: Event) {
    e.Quote? ==>
      && e.bid <= Fixed.PRICE_MAX && e.ask <= Fixed.PRICE_MAX
      && e.cfg.maxPos != H31
      && (Anchor(before) != 0 ==> BandFits(Anchor(before), e.cfg.threshold))
  }

  /** All quotes are sane and the C position never leaves the int32 range. */
  predicate InRange32(start: int, events: seq<Event>) {
    && -H31 <= SoftFold(start, events).soft.position < H31
    && (events != [] ==>
          var before := events[..|events| - 1];
          InRange32(start, before) && Sane(before, events[|events| - 1]))
  }

  ghost predicate Agree(d: Desk, b: Book) {
    && d.anchor == b.soft.anchor && d.anchor <= 2 * Fixed.PRICE_MAX
    && S32(d.pos) == b.soft.position
    && d.rejects == b.soft.rejects
    && d.decisions == b.decisions
  }

  lemma SignedStep(pos: Word, qty: Word, position: int)
    requires S32(pos) == position
    ensures -H31 <= position + S32(qty) < H31 ==> S32(U32(pos + qty)) == position + S32(qty)
    ensures -H31 <= position - S32(qty) < H31 ==> S32(U32(pos - qty)) == position - S32(qty)
  {
  }

  lemma {:induction false} EventAgreement(d: Desk, b: Book, before: seq<Event>, e: Event)
    requires Agree(d, b) && d.anchor == Anchor(before) && Sane(before, e)
    requires e.Fill? ==> -H31 <= SoftEvent(b, e).soft.position < H31
    ensures Agree(OnEvent(d, e), SoftEvent(b, e))
  {
    match e
    case Fill(side, qty) => SignedStep(d.pos, qty, b.soft.position);
    case Quote(tick, bid, ask, cfg, _, _) =>
      if bid != 0 && ask != 0 && d.anchor != 0 {
        var sum := Sum(bid, ask);
        assert sum == bid + ask;
        var s := Configured(b.soft, cfg);
        BandExact(d.anchor, cfg.threshold);
        var want := Want(d.anchor, sum, cfg.threshold);
        if want != NONE {
          LimitAgreement(d.pos, want, cfg, s);
        }
      }
  }

  /**
    The 32-bit fold is the C fold: same decisions in the same order, same rejects,
    same position, same anchor.
   */
  lemma {:induction false} FoldAgreement(start: Word, events: seq<Event>)
    requires InRange32(S32(start), events)
    ensures Agree(Fold(start, events), SoftFold(S32(start), events))
  {
    if events != [] {
      var before, e := events[..|events| - 1], events[|events| - 1];
      FoldAgreement(start, before);
      AnchorIsLastQuote(start, before);
      EventAgreement(Fold(start, before), SoftFold(S32(start), before), before, e);
    }
  }
}
