/**
  Decimal text to scaled integers and back, and the clamp that fits a price into the
  range the fabric's arithmetic is safe in.
 */
module Fixed {
  import opened Arith
  import opened Wrappers
  import opened Isa

  const WHOLE_SATURATE: int := 100_000_000
  const WHOLE_END: int := 1_000_000_000
  const SCALE_MAX: int := 3_567_587_328
  const PRICE_MAX: int := 0x3FFF_FFFF

  function Pow10(n: nat): (p: nat)
    ensures p > 0
  {
    if n == 0 then 1 else 10 * Pow10(n - 1)
  }

  // ----- numerals

  predicate IsDigit(c: char) {
    '0' <= c <= '9'
  }

  function Digit(c: char): (d: nat)
    requires IsDigit(c)
    ensures d <= 9
  {
    c as int - '0' as int
  }

  predicate AllDigits(s: string) {
    forall i :: 0 <= i < |s| ==> IsDigit(s[i])
  }

  /** The number a string of digits denotes. */
  function Val(ds: string): nat
    requires AllDigits(ds)
  {
    if ds == "" then 0 else 10 * Val(ds[..|ds| - 1]) + Digit(ds[|ds| - 1])
  }

  /** Where the digits that start at `i` end. */
  function RunEnd(s: string, i: nat): (j: nat)
    requires i <= |s|
    ensures i <= j <= |s| && AllDigits(s[i..j])
    ensures forall k :: i <= k < j ==> IsDigit(s[k])
    ensures j < |s| ==> !IsDigit(s[j])
    decreases |s| - i
  {
    if i < |s| && IsDigit(s[i]) then
      var j := RunEnd(s, i + 1);
      assert s[i..j] == [s[i]] + s[i + 1..j];
      j
    else i
  }

  predicate Negative(s: string) {
    s != "" && s[0] == '-'
  }

  function SignEnd(s: string): (i: nat)
    ensures i <= |s|
  {
    if s != "" && (s[0] == '-' || s[0] == '+') then 1 else 0
  }

  /** The text starts with a number: an optional sign and at least one digit. */
  predicate IsNumeral(s: string) {
    SignEnd(s) < |s| && IsDigit(s[SignEnd(s)])
  }

  function Whole(s: string): (ds: string)
    ensures AllDigits(ds)
  {
    s[SignEnd(s)..RunEnd(s, SignEnd(s))]
  }

  function Fraction(s: string): (ds: string)
    ensures AllDigits(ds)
  {
    var e := RunEnd(s, SignEnd(s));
    if e < |s| && s[e] == '.' then s[e + 1..RunEnd(s, e + 1)] else ""
  }

  // ----- what the parser computes

  /** The integer part as accumulated: digits past the threshold are dropped. */
  function Saturated(ds: string): nat
    requires AllDigits(ds)
  {
    if ds == "" then 0
    else
      var w := Saturated(ds[..|ds| - 1]);
      if w < WHOLE_SATURATE then 10 * w + Digit(ds[|ds| - 1]) else w
  }

  /** The parser's divisor after `m` digits: 10^m in 32 bits, zero from the 32nd on. */
  function Div(m: nat): nat {
    match m
    case 0 => 1 case 1 => 10 case 2 => 100 case 3 => 1000
    case 4 => 10000 case 5 => 100000 case 6 => 1000000 case 7 => 10000000
    case 8 => 100000000 case 9 => 1000000000 case 10 => 1410065408 case 11 => 1215752192
    case 12 => 3567587328 case 13 => 1316134912 case 14 => 276447232 case 15 => 2764472320
    case 16 => 1874919424 case 17 => 1569325056 case 18 => 2808348672 case 19 => 2313682944
    case 20 => 1661992960 case 21 => 3735027712 case 22 => 2990538752 case 23 => 4135583744
    case 24 => 2701131776 case 25 => 1241513984 case 26 => 3825205248 case 27 => 3892314112
    case 28 => 268435456 case 29 => 2684354560 case 30 => 1073741824 case 31 => 2147483648
    case _ => 0
  }

  /** Each digit multiplies the divisor by ten, truncated to 32 bits. */
  lemma DivStep(m: nat)
    ensures Div(m) * 10 % W32 == Div(m + 1)
  {
    match m
    case 0 => case 1 => case 2 => case 3 => case 4 => case 5 => case 6 => case 7 =>
    case 8 => case 9 => case 10 => case 11 => case 12 => case 13 => case 14 => case 15 =>
    case 16 => case 17 => case 18 => case 19 => case 20 => case 21 => case 22 => case 23 =>
    case 24 => case 25 => case 26 => case 27 => case 28 => case 29 => case 30 => case 31 =>
    case _ =>
  }

  const DIVISOR_MAX: int := 4_135_583_744

  /** The divisor ever reaches the scale, and the padding loop ends, up to 4135583744 and no further. */
  lemma NeverReached(scale: nat)
    ensures (exists m: nat :: Div(m) >= scale) <==> scale <= DIVISOR_MAX
  {
    if scale <= DIVISOR_MAX {
      assert Div(23) >= scale;
    }
  }

  /** The number of decimal places of a scale: where the divisor first reaches it. */
  function PlacesFrom(scale: nat, m: nat): (k: nat)
    requires scale <= SCALE_MAX && m <= 12
    ensures m <= k <= 12 && Div(k) >= scale
    ensures forall i :: m <= i < k ==> Div(i) < scale
    decreases 12 - m
  {
    if Div(m) >= scale then m else PlacesFrom(scale, m + 1)
  }

  function Places(scale: nat): (k: nat)
    requires scale <= SCALE_MAX
    ensures k <= 12
  {
    PlacesFrom(scale, 0)
  }

  function Least(a: nat, b: nat): nat {
    if a < b then a else b
  }

  /** The first `m` fraction digits, zeros where there are none. */
  function FractionValue(ds: string, m: nat): nat
    requires AllDigits(ds)
  {
    var n := Least(|ds|, m);
    Val(ds[..n]) * Pow10(m - n)
  }

  function Parsed(s: string, scale: nat): Option<int>
    requires scale <= SCALE_MAX
  {
    if scale == 0 || !IsNumeral(s) then None
    else
      var v := Saturated(Whole(s)) * scale + FractionValue(Fraction(s), Places(scale));
      Some(if Negative(s) then -v else v)
  }

  lemma {:induction false} RunEndStep(s: string, i: nat, p: nat)
    requires i <= |s| && i <= p <= RunEnd(s, i)
    ensures p < |s| && IsDigit(s[p]) <==> p < RunEnd(s, i)
    ensures RunEnd(s, i) == RunEnd(s, p)
    decreases p - i
  {
    if i < p {
      RunEndStep(s, i + 1, p);
    }
  }

  /** fmma_parse_scaled. */
  method ParseScaled(s: string, scale: nat) returns (r: Option<int>)
    requires scale <= SCALE_MAX
    ensures r == Parsed(s, scale)
  {
    if scale == 0 {
      return None;
    }
    var p, neg := 0, false;
    if p < |s| && s[p] == '-' {
      neg, p := true, 1;
    } else if p < |s| && s[p] == '+' {
      p := 1;
    }
    if !(p < |s| && IsDigit(s[p])) {
      return None;
    }
    var whole;
    p, whole := ReadWhole(s, p);
    var frac;
    frac := ReadAfterPoint(s, p, scale);
    var v := whole * scale + frac;
    return Some(if neg then -v else v);
  }

  /** The fraction, scaled, of a number whose integer part ends at `start`. */
  method ReadAfterPoint(s: string, start: nat, scale: nat) returns (frac: nat)
    requires start <= |s| && 0 < scale <= SCALE_MAX
    ensures frac == FractionValue(if start < |s| && s[start] == '.' then s[start + 1..RunEnd(s, start + 1)] else "",
                                  Places(scale))
  {
    ghost var n := 0;
    var div := 1;
    frac := 0;
    if start < |s| && s[start] == '.' {
      frac, div, n := ReadFraction(s, start + 1, scale);
    }
    frac := Pad(frac, div, scale, n);
  }

  method Pad(frac0: nat, div0: nat, scale: nat, ghost n0: nat) returns (frac: nat)
    requires scale <= SCALE_MAX && n0 <= Places(scale) && div0 == Div(n0)
    ensures frac == frac0 * Pow10(Places(scale) - n0)
  {
    frac := frac0;
    var div := div0;
    ghost var n := n0;
    while div < scale
      invariant n0 <= n <= Places(scale) && div == Div(n)
      invariant frac == frac0 * Pow10(n - n0)
      decreases Places(scale) - n
    {
      PlacesExact(scale, n);
      DivStep(n);
      TenTimes(frac0, Pow10(n - n0));
      frac := frac * 10;
      div := div * 10 % W32;
      n := n + 1;
    }
    PlacesExact(scale, n);
  }

  /** The divisor is below the scale exactly while there are places to fill. */
  lemma {:induction false} PlacesExact(scale: nat, n: nat)
    requires scale <= SCALE_MAX && n <= Places(scale)
    ensures Div(n) < scale <==> n < Places(scale)
  {
  }

  method ReadWhole(s: string, start: nat) returns (p: nat, whole: nat)
    requires start <= |s|
    ensures p == RunEnd(s, start) && whole == Saturated(s[start..p])
  {
    p, whole := start, 0;
    while p < |s| && IsDigit(s[p])
      invariant start <= p <= RunEnd(s, start) && AllDigits(s[start..p])
      invariant whole == Saturated(s[start..p])
    {
      RunEndStep(s, start, p);
      assert s[start..p + 1][..p - start] == s[start..p];
      if whole < WHOLE_SATURATE {
        whole := whole * 10 + Digit(s[p]);
      }
      p := p + 1;
    }
    RunEndStep(s, start, p);
  }

  method ReadFraction(s: string, start: nat, scale: nat) returns (frac: nat, div: nat, ghost n: nat)
    requires start <= |s| && 0 < scale <= SCALE_MAX
    ensures n == Least(RunEnd(s, start) - start, Places(scale))
    ensures div == Div(n) && frac == Val(s[start..RunEnd(s, start)][..n])
  {
    ghost var m := Places(scale);
    ghost var run := s[start..RunEnd(s, start)];
    frac, div, n := 0, 1, 0;
    var p := start;
    while p < |s| && IsDigit(s[p])
      invariant start <= p <= start + |run| && n == Least(p - start, m) && div == Div(n)
      invariant frac == Val(run[..n])
    {
      RunEndStep(s, start, p);
      NextDigit(run, n);
      assert s[p] == run[p - start];
      frac, div, n := TakeDigit(frac, div, scale, Digit(s[p]), n, m);
      p := p + 1;
    }
    RunEndStep(s, start, p);
  }

  /** One more digit of a run. */
  lemma {:induction false} NextDigit(run: string, n: nat)
    requires n < |run| && AllDigits(run)
    ensures Val(run[..n + 1]) == 10 * Val(run[..n]) + Digit(run[n])
  {
    assert run[..n + 1][..n] == run[..n];
  }

  /** A digit beyond the scale is dropped. */
  method TakeDigit(frac0: nat, div0: nat, scale: nat, digit: nat, ghost n0: nat, ghost m: nat)
    returns (frac: nat, div: nat, ghost n: nat)
    requires scale <= SCALE_MAX && m == Places(scale) && n0 <= m && div0 == Div(n0)
    ensures n == (if n0 < m then n0 + 1 else n0) && div == Div(n)
    ensures frac == if n0 < m then frac0 * 10 + digit else frac0
  {
    frac, div, n := frac0, div0, n0;
    PlacesExact(scale, n);
    if div < scale {
      DivStep(n);
      frac := frac * 10 + digit;
      div := div * 10 % W32;
      n := n + 1;
    }
  }

  // ----- saturation

  /** Below 10^9 the integer part is exact; from there on it is stuck in [10^8, 10^9). */
  lemma {:induction false} SaturatesHigh(ds: string)
    requires AllDigits(ds)
    ensures Val(ds) < WHOLE_END ==> Saturated(ds) == Val(ds)
    ensures Val(ds) >= WHOLE_END ==> Saturated(ds) >= WHOLE_SATURATE
    ensures Saturated(ds) < WHOLE_END
  {
    if ds != "" {
      SaturatesHigh(ds[..|ds| - 1]);
    }
  }

  // ----- truncation of the fraction

  lemma {:induction false} Pow10Sum(a: nat, b: nat)
    ensures Pow10(a + b) == Pow10(a) * Pow10(b)
  {
    if a > 0 {
      Pow10Sum(a - 1, b);
      assert Pow10(a + b) == 10 * (Pow10(a - 1) * Pow10(b));
    }
  }

  lemma TenTimes(x: nat, p: nat)
    ensures x * (10 * p) == 10 * (x * p)
  {
  }

  lemma {:induction false} ValConcat(a: string, b: string)
    requires AllDigits(a) && AllDigits(b)
    ensures AllDigits(a + b) && Val(a + b) == Val(a) * Pow10(|b|) + Val(b)
    ensures Val(b) < Pow10(|b|)
    decreases |b|
  {
    if b == "" {
      assert a + b == a;
    } else {
      var c := b[..|b| - 1];
      ValConcat(a, c);
      assert (a + b)[..|a + b| - 1] == a + c;
      TenTimes(Val(a), Pow10(|c|));
    }
  }

  /** Keeping the first `m` digits is rounding the fraction down at `m` places. */
  lemma {:induction false} FractionTruncates(ds: string, m: nat)
    requires AllDigits(ds)
    ensures FractionValue(ds, m) == Val(ds) * Pow10(m) / Pow10(|ds|)
  {
    if m <= |ds| {
      KeepsHead(ds, m, Val(ds[..m]), Val(ds[m..]), Pow10(|ds| - m));
    } else {
      assert ds[..|ds|] == ds;
      AppendsZeros(Val(ds), m - |ds|, |ds|);
    }
  }

  lemma KeepsHead(ds: string, m: nat, head: nat, tail: nat, T: nat)
    requires AllDigits(ds) && m <= |ds| && head == Val(ds[..m]) && tail == Val(ds[m..]) && T == Pow10(|ds| - m)
    ensures head == Val(ds) * Pow10(m) / Pow10(|ds|)
  {
    assert ds == ds[..m] + ds[m..];
    ValConcat(ds[..m], ds[m..]);
    Pow10Sum(|ds| - m, m);
    Shorten(head, T, tail, Pow10(m));
  }

  lemma AppendsZeros(v: nat, a: nat, b: nat)
    ensures v * Pow10(a + b) / Pow10(b) == v * Pow10(a)
  {
    Pow10Sum(a, b);
    Regroup(v, Pow10(a), Pow10(b));
    QuotientIs(v * Pow10(a) * Pow10(b), Pow10(b), v * Pow10(a), 0);
  }

  lemma Regroup(x: nat, y: nat, z: nat)
    ensures x * (y * z) == (x * y) * z
  {
  }

  lemma Shorten(x: nat, k: nat, r: nat, p: nat)
    requires r < k && p > 0
    ensures (x * k + r) * p / (k * p) == x
  {
    assert (x * k + r) * p == x * (k * p) + r * p;
    assert r * p < k * p by { Scale(r, k, p); }
    QuotientIs(x * (k * p) + r * p, k * p, x, r * p);
  }

  lemma Scale(a: nat, b: nat, p: nat)
    requires a < b && p > 0
    ensures a * p < b * p
  {
  }

  // ----- the whole parse

  /** The number times 10^d, rounded toward zero: all its digits over 10^|fraction|. */
  function Scaled(s: string, d: nat): int {
    Val(Whole(s) + Fraction(s)) * Pow10(d) / Pow10(|Fraction(s)|)
  }

  lemma {:induction false} ScaledSplits(s: string, d: nat)
    ensures Scaled(s, d) == Val(Whole(s)) * Pow10(d) + FractionValue(Fraction(s), d)
  {
    var w, f := Whole(s), Fraction(s);
    ValConcat(w, f);
    FractionTruncates(f, d);
    SplitAll(Val(w), Val(f), Pow10(d), Pow10(|f|));
  }

  lemma SplitAll(w: nat, f: nat, P: nat, F: nat)
    requires F > 0
    ensures (w * F + f) * P / F == w * P + f * P / F
  {
    assert (w * F + f) * P == (w * P) * F + f * P;
    AddWhole(w * P, F, f * P);
  }

  lemma AddWhole(x: nat, k: nat, y: nat)
    requires k > 0
    ensures (x * k + y) / k == x + y / k
  {
    var q, r := y / k, y % k;
    assert y == q * k + r;
    assert x * k + y == (x + q) * k + r;
    QuotientIs((x + q) * k + r, k, x + q, r);
  }

  lemma {:induction false} PlacesOfPower(d: nat)
    requires d <= 9
    ensures Pow10(d) <= SCALE_MAX && Places(Pow10(d)) == d
  {
    SmallPowers();
    DivIsPow10(d);
    Pow10Grows(d);
    forall i | 0 <= i < d
      ensures Div(i) < Pow10(d)
    {
      DivIsPow10(i);
    }
  }

  lemma SmallPowers()
    ensures Pow10(0) == 1 && Pow10(1) == 10 && Pow10(2) == 100 && Pow10(3) == 1000 && Pow10(4) == 1_0000
    ensures Pow10(5) == 10_0000 && Pow10(6) == 100_0000 && Pow10(7) == 1000_0000 && Pow10(8) == 1_0000_0000
    ensures Pow10(9) == 10_0000_0000
  {
    assert Pow10(3) == 1000;
    assert Pow10(6) == 100_0000;
    assert Pow10(9) == 10_0000_0000;
  }

  /** Up to 10^9 the divisor is the power of ten, beyond that it is less. */
  lemma {:induction false} DivIsPow10(m: nat)
    requires m <= 12
    ensures m <= 9 ==> Div(m) == Pow10(m)
    ensures Div(m) <= Pow10(m)
  {
    SmallPowers();
    if m >= 9 {
      Pow10Least(m);
    }
  }

  lemma {:induction false} Pow10Least(m: nat)
    requires 9 <= m
    ensures Pow10(m) >= 10_0000_0000 && (m >= 10 ==> Pow10(m) >= 100_0000_0000)
  {
    if m == 9 {
      SmallPowers();
    } else {
      Pow10Least(m - 1);
    }
  }

  lemma {:induction false} Pow10Grows(d: nat)
    ensures forall i :: 0 <= i < d ==> Pow10(i) < Pow10(d)
  {
    if d > 0 {
      Pow10Grows(d - 1);
    }
  }

  function Magnitude(v: int): nat {
    if v < 0 then -v else v
  }

  function Distance(a: int, b: int): nat {
    Magnitude(a - b)
  }

  /** fmma_clamp_price: the nearest price in range, and whether it had to be changed. */
  function Clamp(value: int): (r: (int, bool))
    ensures 0 <= r.0 <= PRICE_MAX && (r.1 <==> r.0 != value)
    ensures forall x :: 0 <= x <= PRICE_MAX ==> Distance(value, r.0) <= Distance(value, x)
  {
    if value < 0 then (0, true)
    else if value > PRICE_MAX then (PRICE_MAX, true)
    else (value, false)
  }

  /** The clamped parse is the exact scaled value, rounded down and capped. */
  predicate ParsesRight(s: string, d: nat)
    requires d <= 9
  {
    PlacesOfPower(d);
    && Parsed(s, Pow10(d)).Some?
    && Clamp(Parsed(s, Pow10(d)).value).0 == if Scaled(s, d) < PRICE_MAX then Scaled(s, d) else PRICE_MAX
  }

  lemma {:induction false} ParsedIs(s: string, d: nat)
    requires d <= 9 && IsNumeral(s) && !Negative(s)
    ensures Pow10(d) <= SCALE_MAX
    ensures Parsed(s, Pow10(d)) == Some(Saturated(Whole(s)) * Pow10(d) + FractionValue(Fraction(s), d))
  {
    PlacesOfPower(d);
  }

  /** With two places or more saturation does not show after clamping. */
  lemma {:induction false} ClampedParseExact(s: string, d: nat)
    requires IsNumeral(s) && !Negative(s) && 2 <= d <= 9
    ensures ParsesRight(s, d)
  {
    ParsedIs(s, d);
    ScaledSplits(s, d);
    SaturatesHigh(Whole(s));
    Hundred(d);
    CapsAlike(Val(Whole(s)), Saturated(Whole(s)), Pow10(d), FractionValue(Fraction(s), d));
  }

  lemma CapsAlike(w: nat, sat: nat, P: nat, f: nat)
    requires P >= 100 && (if w < WHOLE_END then sat == w else sat >= WHOLE_SATURATE)
    ensures Clamp(sat * P + f).0 == if w * P + f < PRICE_MAX then w * P + f else PRICE_MAX
  {
    if w >= WHOLE_END {
      Times(w, WHOLE_END, P);
      Times(sat, WHOLE_SATURATE, P);
    }
  }

  lemma {:induction false} Hundred(d: nat)
    requires d >= 2
    ensures Pow10(d) >= 100
  {
    if d > 2 {
      Hundred(d - 1);
    } else {
      SmallPowers();
    }
  }

  lemma Times(a: nat, b: nat, p: nat)
    requires a >= b && p >= 100
    ensures a * p >= b * 100
  {
  }

  /** A one and `n` zeros. */
  function OneAndZeros(n: nat): (ds: string)
    ensures ds != "" && AllDigits(ds)
  {
    "1" + Zeros(n)
  }

  lemma {:induction false} BillionReads(n: nat, s: string)
    requires n == 9 && s == OneAndZeros(n)
    ensures IsNumeral(s) && !Negative(s) && Whole(s) == s && Fraction(s) == ""
    ensures Val(s) == WHOLE_END && Saturated(s) == WHOLE_SATURATE
  {
    assert s == Join(false, s, "");
    Joined(false, s, "", s);
    ValConcat("1", Zeros(n));
    ZerosVal(n);
    SmallPowers();
    OneIsOne();
    SaturatedZeros(n);
  }

  lemma OneIsOne()
    ensures Val("1") == 1
  {
    assert "1"[..0] == "";
  }

  lemma {:induction false} SaturatedZeros(n: nat)
    requires n <= 9
    ensures AllDigits("1" + Zeros(n)) && Saturated("1" + Zeros(n)) == if n <= 8 then Pow10(n) else WHOLE_SATURATE
  {
    SmallPowers();
    if n > 0 {
      SaturatedZeros(n - 1);
      assert ("1" + Zeros(n))[..n] == "1" + Zeros(n - 1);
      assert ("1" + Zeros(n))[n] == '0';
    } else {
      assert ("1" + Zeros(0))[..0] == "";
    }
  }

  /**
    For a scale of `d` places the clamped parse is right for every non-negative number
    if and only if there are at least two: with fewer, a billion already saturates
    below the cap.
   */
  lemma {:induction false} PlacesNeeded(d: nat)
    requires d <= 9
    ensures (forall s :: IsNumeral(s) && !Negative(s) ==> ParsesRight(s, d)) <==> d >= 2
  {
    if d >= 2 {
      forall s | IsNumeral(s) && !Negative(s)
        ensures ParsesRight(s, d)
      {
        ClampedParseExact(s, d);
      }
    } else {
      var s := OneAndZeros(9);
      BillionParses(s, d);
      assert !ParsesRight(s, d);
    }
  }

  lemma {:induction false} BillionParses(s: string, d: nat)
    requires s == OneAndZeros(9) && d < 2
    ensures IsNumeral(s) && !Negative(s) && !ParsesRight(s, d)
  {
    BillionReads(9, s);
    ParsedIs(s, d);
    ScaledSplits(s, d);
    SmallPowers();
    NoFraction(d);
  }

  lemma NoFraction(m: nat)
    ensures FractionValue("", m) == 0
  {
    assert ""[..0] == "";
  }

  // ----- formatting

  function DigitChar(d: nat): (c: char)
    requires d <= 9
    ensures IsDigit(c) && Digit(c) == d
  {
    ['0', '1', '2', '3', '4', '5', '6', '7', '8', '9'][d]
  }

  /** A number in decimal without leading zeros. */
  function Decimal(n: nat): (ds: string)
    ensures ds != "" && AllDigits(ds)
  {
    if n < 10 then [DigitChar(n)] else Decimal(n / 10) + [DigitChar(n % 10)]
  }

  function Zeros(n: nat): (ds: string)
    ensures |ds| == n && AllDigits(ds)
  {
    if n == 0 then "" else Zeros(n - 1) + "0"
  }

  /** A number in decimal, filled up with zeros on the left to `width`. */
  function Padded(n: nat, width: nat): (ds: string)
    ensures AllDigits(ds)
  {
    var ds := Decimal(n);
    if |ds| < width then Zeros(width - |ds|) + ds else ds
  }

  /** The digits printed after the point: divisions by ten until one is left, at most 9. */
  function PrintedFrom(d: nat, k: nat): nat
    decreases d
  {
    if d > 1 && k < 9 then PrintedFrom(d / 10, k + 1) else k
  }

  function Printed(scale: nat): nat {
    PrintedFrom(scale, 0)
  }

  /** The sign, the integer part and what follows it. */
  function Join(neg: bool, w: string, tail: string): string {
    (if neg then "-" else "") + w + tail
  }

  function Tail(frac: nat, places: nat): string {
    if places > 0 then "." + Padded(frac, places) else ""
  }

  function Formatted(value: int, scale: nat): string
    requires scale > 0
  {
    var mag := Magnitude(value);
    QuotRem(mag, scale);
    Join(value < 0, Decimal(mag / scale), Tail(mag % scale, Printed(scale)))
  }

  /** fmma_format_scaled into a buffer of `room` characters, one of them the terminator. */
  method FormatScaled(value: int, scale0: nat, room: nat) returns (text: string)
    ensures var full := Formatted(value, if scale0 == 0 then 1 else scale0);
            text == if room == 0 then "" else full[..Least(|full|, room - 1)]
  {
    if room == 0 {
      return "";
    }
    var scale := if scale0 == 0 then 1 else scale0;
    var mag := if value < 0 then -value else value;
    QuotRem(mag, scale);
    var whole, frac := mag / scale, mag % scale;
    var digits := CountPlaces(scale);
    text := Write(value < 0, whole, frac, digits);
    text := text[..Least(|text|, room - 1)];
  }

  method CountPlaces(scale: nat) returns (digits: nat)
    ensures digits == Printed(scale)
  {
    var d: nat := scale;
    digits := 0;
    while d > 1 && digits < 9
      invariant digits <= 9 && PrintedFrom(d, digits) == Printed(scale)
    {
      d := d / 10;
      digits := digits + 1;
    }
  }

  method Write(neg: bool, whole: nat, frac: nat, digits: nat) returns (text: string)
    ensures text == Join(neg, Decimal(whole), Tail(frac, digits))
  {
    text := (if neg then "-" else "") + Decimal(whole);
    if digits > 0 {
      text := text + ("." + Padded(frac, digits));
    }
  }

  // ----- reading back what was written

  lemma {:induction false} RunEndIs(s: string, i: nat, j: nat)
    requires i <= j <= |s| && AllDigits(s[i..j]) && (j < |s| ==> !IsDigit(s[j]))
    ensures RunEnd(s, i) == j
  {
    assert forall k :: i <= k < j ==> s[k] == s[i..j][k - i];
  }

  /** Where the parts of a text are. */
  lemma JoinedAt(neg: bool, w: string, tail: string, s: string)
    requires s == Join(neg, w, tail)
    ensures var i := if neg then 1 else 0;
            && |s| == i + |w| + |tail| && s[i..i + |w|] == w && s[i + |w|..] == tail
            && (neg ==> s[0] == '-')
  {
  }

  /** What the parser takes for the sign and the integer part. */
  lemma {:induction false} JoinedWhole(neg: bool, w: string, tail: string, s: string)
    requires s == Join(neg, w, tail) && w != "" && AllDigits(w) && (tail == "" || !IsDigit(tail[0]))
    ensures var i := if neg then 1 else 0;
            IsNumeral(s) && Negative(s) == neg && SignEnd(s) == i && RunEnd(s, i) == i + |w| && Whole(s) == w
  {
    JoinedAt(neg, w, tail, s);
    var i := if neg then 1 else 0;
    assert s[i] == s[i..i + |w|][0];
    assert i + |w| < |s| ==> s[i + |w|] == s[i + |w|..][0];
    RunEndIs(s, i, i + |w|);
  }

  /** What it takes for the fraction. */
  lemma {:induction false} JoinedFraction(neg: bool, w: string, f: string, s: string)
    requires s == Join(neg, w, "." + f) && w != "" && AllDigits(w) && AllDigits(f)
    ensures Fraction(s) == f
  {
    JoinedWhole(neg, w, "." + f, s);
    JoinedAt(neg, w, "." + f, s);
    var e := (if neg then 1 else 0) + |w|;
    assert s[e] == s[e..][0] == '.';
    assert s[e + 1..] == s[e..][1..] == f;
    assert s[e + 1..|s|] == f;
    RunEndIs(s, e + 1, |s|);
  }

  lemma {:induction false} Joined(neg: bool, w: string, tail: string, s: string)
    requires s == Join(neg, w, tail) && w != "" && AllDigits(w)
    requires tail == "" || (tail[0] == '.' && AllDigits(tail[1..]))
    ensures IsNumeral(s) && Negative(s) == neg && Whole(s) == w && Fraction(s) == if tail == "" then "" else tail[1..]
  {
    JoinedWhole(neg, w, tail, s);
    if tail == "" {
      JoinedAt(neg, w, tail, s);
    } else {
      assert tail == "." + tail[1..];
      JoinedFraction(neg, w, tail[1..], s);
    }
  }

  // ----- digits

  lemma {:induction false} DecimalVal(n: nat)
    ensures Val(Decimal(n)) == n
  {
    if n >= 10 {
      DecimalVal(n / 10);
      assert Decimal(n)[..|Decimal(n)| - 1] == Decimal(n / 10);
    }
  }

  lemma {:induction false} ZerosVal(n: nat)
    ensures Val(Zeros(n)) == 0
  {
    if n > 0 {
      ZerosVal(n - 1);
      assert Zeros(n)[..n - 1] == Zeros(n - 1);
    }
  }

  lemma {:induction false} DecimalLength(n: nat, width: nat)
    requires n < Pow10(width) && width > 0
    ensures |Decimal(n)| <= width
    decreases width
  {
    if n >= 10 {
      DecimalLength(n / 10, width - 1);
    }
  }

  lemma {:induction false} PrependZeros(fill: nat, ds: string)
    requires AllDigits(ds)
    ensures AllDigits(Zeros(fill) + ds) && Val(Zeros(fill) + ds) == Val(ds)
  {
    ZerosVal(fill);
    ValConcat(Zeros(fill), ds);
  }

  lemma {:induction false} PaddedVal(n: nat, width: nat)
    ensures Val(Padded(n, width)) == n && |Padded(n, width)| >= width
  {
    DecimalVal(n);
    var ds := Decimal(n);
    if |ds| < width {
      PrependZeros(width - |ds|, ds);
    }
  }

  // ----- how many places are printed and read

  /** Printing stops at the last digit that still leaves more than one. */
  lemma {:induction false} PrintedBounds(d: nat, k: nat)
    requires k <= 9
    ensures var p := PrintedFrom(d, k);
            && k <= p <= 9
            && (p > k ==> d >= 2 * Pow10(p - k - 1))
            && (p < 9 ==> d < 2 * Pow10(p - k))
    decreases d
  {
    if d > 1 && k < 9 {
      PrintedBounds(d / 10, k + 1);
      var p := PrintedFrom(d, k);
      if p > k + 1 {
        assert Pow10(p - k - 1) == 10 * Pow10(p - (k + 1) - 1);
      }
      if p < 9 {
        assert Pow10(p - k) == 10 * Pow10(p - (k + 1));
      }
    }
  }

  /** A scale prints at most as many places as it reads, and at most three fewer. */
  lemma {:induction false} PrintedPlaces(scale: nat)
    requires 0 < scale <= SCALE_MAX
    ensures Printed(scale) <= Places(scale) <= Printed(scale) + 3
    ensures Printed(scale) == 0 ==> scale == 1
  {
    var p, m := Printed(scale), Places(scale);
    PrintedBounds(scale, 0);
    SmallPowers();
    if m < p {
      DivIsPow10(m);
      PowersOrdered(m, p - 1);
    }
    if p < 9 {
      DivIsPow10(p + 1);
      assert Pow10(p + 1) == 10 * Pow10(p);
    }
  }

  lemma {:induction false} PowersOrdered(a: nat, b: nat)
    requires a <= b
    ensures Pow10(a) <= Pow10(b)
    decreases b
  {
    if a < b {
      PowersOrdered(a, b - 1);
    }
  }

  /** The fraction of a value below the scale never prints more places than are read. */
  lemma {:induction false} TailLength(frac: nat, scale: nat)
    requires 0 < scale <= SCALE_MAX && frac < scale && Printed(scale) > 0
    ensures Printed(scale) <= |Padded(frac, Printed(scale))| <= Places(scale)
  {
    var m := Places(scale);
    PrintedPlaces(scale);
    DivIsPow10(m);
    DecimalLength(frac, m);
    PaddedVal(frac, Printed(scale));
  }

  // ----- the text

  /** Digits without zeros in front. */
  predicate Canonical(ds: string) {
    ds != "" && (|ds| > 1 ==> ds[0] != '0')
  }

  lemma {:induction false} DecimalCanonical(n: nat)
    ensures Canonical(Decimal(n)) && (n > 0 ==> Decimal(n)[0] != '0')
  {
    if n >= 10 {
      DecimalCanonical(n / 10);
    }
  }

  lemma {:induction false} PaddedCanonical(n: nat, width: nat)
    ensures |Padded(n, width)| > width ==> Canonical(Padded(n, width))
  {
    DecimalCanonical(n);
  }

  /**
    The text of a value at a scale: a minus sign exactly for a negative one, the integer
    part without zeros in front, and for a scale that prints places a point and the
    remainder in so many digits, or in more without zeros in front; and nothing else.
   */
  lemma {:induction false} FormatExact(value: int, scale: nat, s: string)
    requires scale > 0 && s == Formatted(value, scale)
    ensures var mag, i, p := Magnitude(value), if value < 0 then 1 else 0, Printed(scale);
            && IsNumeral(s) && Negative(s) == (value < 0) && SignEnd(s) == i
            && Canonical(Whole(s)) && Val(Whole(s)) == mag / scale
            && |s| == i + |Whole(s)| + (if p == 0 then 0 else 1 + |Fraction(s)|)
            && (p > 0 ==> Val(Fraction(s)) == mag % scale && |Fraction(s)| >= p)
            && (|Fraction(s)| > p ==> Canonical(Fraction(s)))
  {
    var mag := Magnitude(value);
    QuotRem(mag, scale);
    var w, tail := Decimal(mag / scale), Tail(mag % scale, Printed(scale));
    TextParts(value < 0, w, mag % scale, scale, s);
    JoinedAt(value < 0, w, tail, s);
    JoinedWhole(value < 0, w, tail, s);
    DecimalVal(mag / scale);
    DecimalCanonical(mag / scale);
    PaddedVal(mag % scale, Printed(scale));
    PaddedCanonical(mag % scale, Printed(scale));
  }

  // ----- the round trip

  /** The places printed for a fraction. */
  function Width(frac: nat, scale: nat): nat {
    if Printed(scale) == 0 then 0 else |Padded(frac, Printed(scale))|
  }

  lemma {:induction false} WidthFits(frac: nat, scale: nat)
    requires 0 < scale <= SCALE_MAX && frac < scale
    ensures Printed(scale) <= Width(frac, scale) <= Places(scale) <= Width(frac, scale) + 3
  {
    PrintedPlaces(scale);
    if Printed(scale) > 0 {
      TailLength(frac, scale);
    }
  }

  /** The fraction digits of a formatted text. */
  function FractionText(frac: nat, scale: nat): (ds: string)
    ensures AllDigits(ds) && |ds| == Width(frac, scale)
  {
    if Printed(scale) == 0 then "" else Padded(frac, Printed(scale))
  }

  /** Short of places, a fraction is read too large. */
  lemma {:induction false} FractionReads(frac: nat, scale: nat, m: nat, width: nat)
    requires 0 < scale <= SCALE_MAX && frac < scale && m == Places(scale) && width == Width(frac, scale)
    ensures width <= m && FractionValue(FractionText(frac, scale), m) == frac * Pow10(m - width)
  {
    var f := FractionText(frac, scale);
    WidthFits(frac, scale);
    if Printed(scale) == 0 {
      PrintedPlaces(scale);
      NoFraction(m);
    } else {
      PaddedVal(frac, Printed(scale));
    }
    assert f[..|f|] == f;
  }

  /** The parts the parser finds in a text. */
  predicate Parts(s: string, neg: bool, w: string, f: string) {
    IsNumeral(s) && Negative(s) == neg && Whole(s) == w && Fraction(s) == f
  }

  lemma {:induction false} TextParts(neg: bool, w: string, frac: nat, scale: nat, s: string)
    requires w != "" && AllDigits(w) && s == Join(neg, w, Tail(frac, Printed(scale)))
    ensures Parts(s, neg, w, FractionText(frac, scale))
  {
    var tail := Tail(frac, Printed(scale));
    if Printed(scale) > 0 {
      assert tail[1..] == Padded(frac, Printed(scale));
    }
    Joined(neg, w, tail, s);
  }

  function Sgn(neg: bool, v: int): int {
    if neg then -v else v
  }

  /** The parse of a text whose parts are known. */
  lemma {:induction false} ParsedParts(s: string, scale: nat, neg: bool, w: string, f: string, sat: nat, frac: nat, v: int)
    requires 0 < scale <= SCALE_MAX && Parts(s, neg, w, f) && AllDigits(w) && AllDigits(f)
    requires Saturated(w) == sat && FractionValue(f, Places(scale)) == frac && v == sat * scale + frac
    ensures Parsed(s, scale) == Some(Sgn(neg, v))
  {
  }

  /** The value survives: the integer part does not saturate and every place is printed that is read. */
  predicate Survives(v: int, scale: nat)
    requires 0 < scale <= SCALE_MAX
  {
    var mag := Magnitude(v);
    QuotRem(mag, scale);
    mag / scale < WHOLE_END && (mag % scale == 0 || Width(mag % scale, scale) == Places(scale))
  }

  /**
    Parsing what was formatted gives the value back if and only if its integer part is
    below 10^9 and its fraction is zero or printed with all the places that are read.
   */
  lemma {:induction false} RoundTrip(v: int, scale: nat)
    requires 0 < scale <= SCALE_MAX
    ensures Parsed(Formatted(v, scale), scale) == Some(v) <==> Survives(v, scale)
  {
    var mag := Magnitude(v);
    QuotRem(mag, scale);
    PartsRoundTrip(v, scale, mag / scale, mag % scale, Formatted(v, scale));
  }

  lemma {:induction false} PartsRoundTrip(v: int, scale: nat, w: nat, frac: nat, s: string)
    requires 0 < scale <= SCALE_MAX && frac < scale && Magnitude(v) == w * scale + frac
    requires s == Join(v < 0, Decimal(w), Tail(frac, Printed(scale)))
    ensures Parsed(s, scale) == Some(v) <==> w < WHOLE_END && (frac == 0 || Width(frac, scale) == Places(scale))
  {
    var sat := WholeBack(w);
    var p := FractionBack(frac, scale);
    var x := Sgn(v < 0, sat * scale + frac * p);
    TextParses(v < 0, Decimal(w), frac, scale, s, sat, frac * p, x);
    PartsSurvive(v, scale, w, frac, sat, p);
  }

  /** What comes back from a text, given its parts. */
  lemma {:induction false} TextParses(neg: bool, w: string, frac: nat, scale: nat, s: string, sat: nat, back: nat, x: int)
    requires 0 < scale <= SCALE_MAX && w != "" && AllDigits(w) && s == Join(neg, w, Tail(frac, Printed(scale)))
    requires Saturated(w) == sat && FractionValue(FractionText(frac, scale), Places(scale)) == back
    requires x == Sgn(neg, sat * scale + back)
    ensures Parsed(s, scale) == Some(x)
  {
    TextParts(neg, w, frac, scale, s);
    ParsedParts(s, scale, neg, w, FractionText(frac, scale), sat, back, sat * scale + back);
  }

  lemma {:induction false} FractionBack(frac: nat, scale: nat) returns (p: nat)
    requires 0 < scale <= SCALE_MAX && frac < scale
    ensures FractionValue(FractionText(frac, scale), Places(scale)) == frac * p
    ensures 1 <= p <= 1000 && (p == 1 <==> Width(frac, scale) == Places(scale))
  {
    var m, width := Places(scale), Width(frac, scale);
    WidthFits(frac, scale);
    FractionReads(frac, scale, m, width);
    PlacesShort(m - width);
    p := Pow10(m - width);
  }

  lemma {:induction false} WholeBack(w: nat) returns (sat: nat)
    ensures sat == Saturated(Decimal(w))
    ensures if w < WHOLE_END then sat == w else 10 * sat <= w
  {
    sat := Saturated(Decimal(w));
    DecimalVal(w);
    SaturatesHigh(Decimal(w));
    if w >= WHOLE_END {
      SaturatesLow(Decimal(w));
    }
  }

  lemma {:induction false} PlacesShort(k: nat)
    requires k <= 3
    ensures 1 <= Pow10(k) <= 1000 && (Pow10(k) == 1 <==> k == 0)
  {
    SmallPowers();
  }

  /** The arithmetic of it: integer part and fraction must both come back. */
  lemma PartsSurvive(v: int, scale: nat, w: nat, frac: nat, sat: nat, p: nat)
    requires scale > 0 && frac < scale && Magnitude(v) == w * scale + frac && 1 <= p <= 1000
    requires if w < WHOLE_END then sat == w else 10 * sat <= w
    ensures v == Sgn(v < 0, sat * scale + frac * p) <==>
            w < WHOLE_END && (frac == 0 || p == 1)
  {
    Enlarges(frac, p);
    if w >= WHOLE_END {
      Short(sat, w, scale, frac, frac * p);
    }
  }

  lemma Enlarges(frac: nat, p: nat)
    requires 1 <= p <= 1000
    ensures 0 <= frac * p <= 1000 * frac && (frac * p == frac <==> frac == 0 || p == 1)
  {
    assert frac * p == p * frac;
    Widen(p, 1000, frac);
    if p > 1 {
      Widen(2, p, frac);
    }
  }

  /** A saturated integer part is at most a tenth of the real one. */
  lemma {:induction false} SaturatesLow(ds: string)
    requires AllDigits(ds) && Val(ds) >= WHOLE_END
    ensures 10 * Saturated(ds) <= Val(ds)
  {
    var before := ds[..|ds| - 1];
    SaturatesHigh(before);
    if Val(before) >= WHOLE_END {
      SaturatesLow(before);
    }
  }

  lemma Short(sat: nat, w: nat, scale: nat, frac: nat, back: nat)
    requires 10 * sat <= w && w >= WHOLE_END && frac < scale && back <= 1000 * frac
    ensures sat * scale + back < w * scale + frac
  {
    Widen(sat + 1000, w, scale);
    assert (sat + 1000) * scale == sat * scale + 1000 * scale;
  }

  /** Powers of ten print as many places as they read, so there only the integer part matters. */
  lemma {:induction false} PowersSurvive(v: int, d: nat)
    requires d <= 9
    ensures Pow10(d) <= SCALE_MAX && Printed(Pow10(d)) == Places(Pow10(d)) == d
    ensures Survives(v, Pow10(d)) <==> Magnitude(v) / Pow10(d) < WHOLE_END
  {
    PlacesOfPower(d);
    PrintedOfPower(d, 0);
    var mag := Magnitude(v);
    QuotRem(mag, Pow10(d));
    WidthFits(mag % Pow10(d), Pow10(d));
  }

  lemma {:induction false} PrintedOfPower(d: nat, k: nat)
    requires d + k <= 9
    ensures PrintedFrom(Pow10(d), k) == d + k
  {
    if d > 0 {
      PrintedOfPower(d - 1, k + 1);
    }
  }
}
