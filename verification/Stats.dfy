/**
  The latency histogram: powers of two in 24 buckets, and the percentile read from
  it, against the samples themselves.
 */
module Stats {
  import opened Arith

  const BUCKETS: int := 24
  const HISTORY: int := 256

  /** Halvings until one is left, starting the count at `b` and stopping at 23. */
  function BucketFrom(us: nat, b: nat): nat
    decreases us
  {
    if us > 1 && b < BUCKETS - 1 then BucketFrom(us / 2, b + 1) else b
  }

  function Bucket(us: nat): nat {
    BucketFrom(us, 0)
  }

  /** Bucket k holds [2^k, 2^(k+1)); the first also holds 0 and the last everything above. */
  lemma {:induction false} BucketBounds(us: nat, b: nat)
    requires b < BUCKETS
    ensures var k := BucketFrom(us, b);
            && b <= k < BUCKETS
            && (k < BUCKETS - 1 ==> us < Pow2(k - b + 1))
            && (k > b ==> Pow2(k - b) <= us)
    decreases us
  {
    if us > 1 && b < BUCKETS - 1 {
      BucketBounds(us / 2, b + 1);
      var k := BucketFrom(us, b);
      assert k > b + 1 ==> Pow2(k - b) == 2 * Pow2(k - (b + 1));
      assert k < BUCKETS - 1 ==> Pow2(k - b + 1) == 2 * Pow2(k - (b + 1) + 1);
      assert Pow2(1) == 2 * Pow2(0);
    }
  }

  method BucketOf(us0: nat) returns (b: nat)
    ensures b == Bucket(us0)
    ensures b < BUCKETS && (b < BUCKETS - 1 ==> us0 < Pow2(b + 1)) && (b > 0 ==> Pow2(b) <= us0)
  {
    var us := us0;
    b := 0;
    while us > 1 && b < BUCKETS - 1
      invariant b < BUCKETS && BucketFrom(us, b) == Bucket(us0)
      decreases us
    {
      us := us / 2;
      b := b + 1;
    }
    BucketBounds(us0, 0);
  }

  // ----- counting samples

  function Count(s: seq<nat>, b: nat): nat {
    if s == [] then 0 else Count(s[..|s| - 1], b) + if Bucket(s[|s| - 1]) == b then 1 else 0
  }

  /** Samples in buckets below `b`. */
  function Below(s: seq<nat>, b: nat): nat {
    if s == [] then 0 else Below(s[..|s| - 1], b) + if Bucket(s[|s| - 1]) < b then 1 else 0
  }

  /** Samples not above `y`. */
  function AtMost(s: seq<nat>, y: nat): nat {
    if s == [] then 0 else AtMost(s[..|s| - 1], y) + if s[|s| - 1] <= y then 1 else 0
  }

  function Max(s: seq<nat>): nat {
    if s == [] then 0
    else
      var m := Max(s[..|s| - 1]);
      if s[|s| - 1] > m then s[|s| - 1] else m
  }

  const NEVER: nat := 0xFFFF_FFFF_FFFF_FFFF

  /** The least of the samples; 2^64 - 1 when there is none that small. */
  function Min(s: seq<nat>): nat {
    if s == [] then NEVER
    else
      var m := Min(s[..|s| - 1]);
      if s[|s| - 1] < m then s[|s| - 1] else m
  }

  function Sum(s: seq<nat>): nat {
    if s == [] then 0 else Sum(s[..|s| - 1]) + s[|s| - 1]
  }

  lemma {:induction false} BelowNext(s: seq<nat>, b: nat)
    ensures Below(s, b + 1) == Below(s, b) + Count(s, b)
    ensures b == 0 ==> Below(s, b) == 0
  {
    if s != [] {
      BelowNext(s[..|s| - 1], b);
    }
  }

  lemma {:induction false} BelowAll(s: seq<nat>)
    ensures Below(s, BUCKETS) == |s|
  {
    if s != [] {
      BelowAll(s[..|s| - 1]);
      BucketBounds(s[|s| - 1], 0);
    }
  }

  /** All samples fit the histogram: none reaches 2^24 microseconds. */
  predicate Measurable(s: seq<nat>) {
    forall i :: 0 <= i < |s| ==> s[i] < 0x100_0000
  }

  /** Everything in buckets up to `b` is below the upper edge of bucket `b`. */
  lemma {:induction false} EdgeCovers(s: seq<nat>, b: nat)
    requires b < BUCKETS && Measurable(s)
    ensures AtMost(s, Pow2(b + 1)) >= Below(s, b + 1)
  {
    if s != [] {
      var before, x := s[..|s| - 1], s[|s| - 1];
      EdgeCovers(before, b);
      BucketBounds(x, 0);
      var k := Bucket(x);
      if k <= b {
        if k == BUCKETS - 1 {
          Pow2Values();
        } else {
          Pow2Grows(k + 1, b + 1);
        }
      }
    }
  }

  lemma {:induction false} Pow2Grows(a: nat, b: nat)
    requires a <= b
    ensures Pow2(a) <= Pow2(b)
    decreases b
  {
    if a < b {
      Pow2Grows(a, b - 1);
    }
  }

  lemma {:induction false} MaxCovers(s: seq<nat>, y: nat)
    requires y >= Max(s)
    ensures AtMost(s, y) == |s|
  {
    if s != [] {
      MaxCovers(s[..|s| - 1], y);
    }
  }

  /** More samples up to `y` than below bucket `b`: then `y` reaches bucket `b`. */
  lemma {:induction false} ReachesBucket(s: seq<nat>, b: nat, y: nat)
    requires AtMost(s, y) > Below(s, b) && 0 < b < BUCKETS
    ensures y >= Pow2(b)
  {
    var before, x := s[..|s| - 1], s[|s| - 1];
    if x <= y && Bucket(x) >= b {
      BucketBounds(x, 0);
      Pow2Grows(b, Bucket(x));
    } else {
      ReachesBucket(before, b, y);
    }
  }

  /** Max is the largest sample and Min the least. */
  lemma {:induction false} Extremes(s: seq<nat>)
    requires s != []
    ensures Max(s) in s && forall i :: 0 <= i < |s| ==> s[i] <= Max(s)
    ensures (Min(s) in s || Min(s) == NEVER) && forall i :: 0 <= i < |s| ==> Min(s) <= s[i]
  {
    var before, x := s[..|s| - 1], s[|s| - 1];
    if before != [] {
      Extremes(before);
      assert forall i :: 0 <= i < |before| ==> s[i] == before[i];
    }
  }

  lemma {:induction false} OneMore(s: seq<nat>, x: nat)
    ensures var s' := s + [x];
            && Sum(s') == Sum(s) + x
            && Min(s') == (if x < Min(s) then x else Min(s))
            && Max(s') == (if x > Max(s) then x else Max(s))
            && forall b: nat :: Count(s', b) == Count(s, b) + if Bucket(x) == b then 1 else 0
  {
    assert (s + [x])[..|s|] == s;
  }

  // ----- the counters in place

  class Latency {
    const hist: array<nat>
    const tickTime: array<nat>
    var count: nat
    var sum: nat
    var min: nat
    var max: nat
    var signals: nat
    ghost var samples: seq<nat>

    ghost predicate Valid()
      reads this, hist
    {
      && hist.Length == BUCKETS && tickTime.Length == HISTORY
      && count == |samples| && sum == Sum(samples) && min == Min(samples) && max == Max(samples)
      && forall b :: 0 <= b < BUCKETS ==> hist[b] == Count(samples, b)
    }

    constructor ()
      ensures Valid() && samples == [] && signals == 0 && fresh(hist) && fresh(tickTime)
      ensures forall k :: 0 <= k < HISTORY ==> tickTime[k] == 0
    {
      hist := new nat[BUCKETS](_ => 0);
      tickTime := new nat[HISTORY](_ => 0);
      count, sum, min, max, signals := 0, 0, NEVER, 0, 0;
      samples := [];
    }

    method Tick(seq0: nat, now: nat)
      requires Valid()
      modifies tickTime
      ensures Valid() && samples == old(samples)
      ensures tickTime[..] == old(tickTime[..])[seq0 % HISTORY := now]
    {
      tickTime[seq0 % HISTORY] := now;
    }

    /** A decision on tick `seq0` is seen at `now`; unknown or future ticks do not count. */
    method Signal(seq0: nat, now: nat) returns (dt: nat)
      requires Valid()
      modifies this, hist
      ensures Valid() && signals == old(signals) + 1 && tickTime[..] == old(tickTime[..])
      ensures var published := tickTime[seq0 % HISTORY];
              if published == 0 || now < published then dt == 0 && samples == old(samples)
              else dt == now - published && samples == old(samples) + [dt]
    {
      signals := signals + 1;
      var published := tickTime[seq0 % HISTORY];
      if published == 0 { return 0; }
      if now < published { return 0; }
      dt := now - published;
      Record(dt);
    }

    method Record(dt: nat)
      requires Valid()
      modifies this`count, this`sum, this`min, this`max, this`samples, hist
      ensures Valid() && samples == old(samples) + [dt]
    {
      count := count + 1;
      sum := sum + dt;
      if dt < min { min := dt; }
      if dt > max { max := dt; }
      var b := BucketOf(dt);
      hist[b] := hist[b] + 1;
      OneMore(samples, dt);
      samples := samples + [dt];
    }

    /**
      fmma_stats_percentile for the fraction `p`, with any rounding of its sums and
      products that is as near as double arithmetic.  Samples at or below the answer
      make up the fraction but for a thousandth of a sample and the rounding; and the
      answer is no more than twice, or 2 when that is more, any value within which so
      much and a thousandth less than a whole sample lie.
     */
    method PercentileOf(p: real, round: real -> real) returns (r: nat)
      requires Valid() && 0.0 <= p <= 1.0 && Rounding(round)
      ensures count == 0 ==> r == 0
      ensures count > 0 ==> r <= Max(samples)
      ensures count > 0 && Measurable(samples) ==> Covers(AtMost(samples, r), count, p)
      ensures count > 0 ==> forall y: nat :: Suffices(AtMost(samples, y), count, p) ==> r <= 2 || r <= 2 * y
    {
      var rank := Rank(count, p, round);
      r := Percentile(rank);
      if count > 0 {
        var want: nat := if rank == 0 then 1 else if rank > count then count else rank;
        RankCovers(count, p, round, want);
        if Measurable(samples) {
          MoreCovers(want, AtMost(samples, r), count, p);
        }
        forall y: nat | Suffices(AtMost(samples, y), count, p)
          ensures AtMost(samples, y) >= want
        {
          RankReached(count, p, round, want, AtMost(samples, y));
        }
      }
    }

    /**
      The answer for rank `rank`: 0 asks for one sample and a rank above the count for
      all.  Never above the largest sample; no more than twice, or 2 when that is more,
      any value that many samples stay within; and, unless a sample overflows the
      histogram, that many samples are at or below it.
     */
    method Percentile(rank: nat) returns (r: nat)
      requires Valid()
      ensures count == 0 ==> r == 0
      ensures count > 0 ==> r <= Max(samples)
      ensures rank == 0 < count ==> Answers(samples, 1, r)
      ensures 1 <= rank <= count ==> Answers(samples, rank, r)
      ensures 0 < count < rank ==> Answers(samples, count, r)
    {
      if count == 0 { return 0; }
      var want := if rank == 0 then 1 else if rank > count then count else rank;
      var seen, b := 0, 0;
      BelowNext(samples, 0);
      while b < BUCKETS
        invariant 0 <= b <= BUCKETS && seen == Below(samples, b) && seen < want
      {
        BelowNext(samples, b);
        if hist[b] == 0 {
          b := b + 1;
          continue;
        }
        seen := seen + hist[b];
        if seen >= want {
          var edge := Pow2(b + 1);
          r := if edge > max then max else edge;
          BucketAnswers(samples, b, want, r);
          return r;
        }
        b := b + 1;
      }
      BelowAll(samples);
      assert false;
      return max;
    }
  }

  // ----- the rank, in double arithmetic

  /** How far rounding to double may move `x`: half a unit in the last place, or next to nothing. */
  function Slack(x: real): real {
    x / 9007199254740992.0 + 0.000000000001
  }

  /** Every result of double arithmetic is near the exact one. */
  ghost predicate Rounding(round: real -> real) {
    forall x: real :: x >= 0.0 ==> 0.0 <= round(x) && x - Slack(x) <= round(x) <= x + Slack(x)
  }

  /** The count as a double, times the fraction, before that is rounded. */
  function Share(count: nat, p: real, round: real -> real): (r: real)
    requires p >= 0.0 && Rounding(round)
    ensures r >= 0.0
  {
    round(count as real) * p
  }

  /** The rank of the fraction `p` among `count` samples: each of the C operations rounds. */
  function Rank(count: nat, p: real, round: real -> real): nat
    requires p >= 0.0 && Rounding(round)
  {
    RankOf(Share(count, p, round), round)
  }

  function RankOf(exact: real, round: real -> real): nat
    requires exact >= 0.0 && Rounding(round)
  {
    round(round(exact) + round(0.999)).Floor
  }

  /** At least one of the `count` samples, and the share `p` of them but for what may be lost, are among the `n`. */
  predicate Covers(n: nat, count: nat, p: real) {
    n >= 1 && n as real > Covered(count as real * p)
  }

  /** So many samples are as many as can be asked for. */
  predicate Suffices(n: nat, count: nat, p: real) {
    n >= 1 && n as real > Reached(count as real * p)
  }

  /** The rank between one and the count, as the percentile takes it. */
  predicate Asked(want: nat, rank: nat, count: nat) {
    want == if rank == 0 then 1 else if rank > count then count else rank
  }

  lemma RankCovers(count: nat, p: real, round: real -> real, want: nat)
    requires 0.0 <= p <= 1.0 && Rounding(round) && count > 0 && Asked(want, Rank(count, p, round), count)
    ensures Covers(want, count, p)
  {
    var share := count as real * p;
    ShareNear(count as real, p, round, share);
    RankNear(share, Share(count, p, round), round, count, want);
  }

  lemma MoreCovers(m: nat, n: nat, count: nat, p: real)
    requires Covers(m, count, p) && m <= n
    ensures Covers(n, count, p)
  {
  }

  lemma RankReached(count: nat, p: real, round: real -> real, want: nat, n: nat)
    requires 0.0 <= p <= 1.0 && Rounding(round) && count > 0 && Asked(want, Rank(count, p, round), count)
    requires Suffices(n, count, p)
    ensures n >= want
  {
    var share := count as real * p;
    ShareNear(count as real, p, round, share);
    RankBelow(share, Share(count, p, round), round, count, want, n);
  }

  lemma ShareNear(c: real, p: real, round: real -> real, share: real)
    requires c >= 0.0 && 0.0 <= p <= 1.0 && Rounding(round) && share == c * p
    ensures 0.0 <= share <= c && share - Slack(share) <= round(c) * p <= share + Slack(share)
  {
    Portion(c, p, share);
    RoundNear(c, round);
    Scaled(c, round(c), p, share);
  }

  lemma RoundNear(x: real, round: real -> real)
    requires x >= 0.0 && Rounding(round)
    ensures 0.0 <= round(x) && x - Slack(x) <= round(x) <= x + Slack(x)
  {
  }

  /** What the rank is sure to exceed: the share, but for a thousandth and the rounding. */
  function Covered(share: real): real {
    share - 4.0 * share / 9007199254740992.0 - 0.00101
  }

  /** What the rank exceeds by at most one: the share and the rounding, less a thousandth. */
  function Reached(share: real): real {
    share + 4.0 * share / 9007199254740992.0 - 0.00099
  }

  lemma RankNear(share: real, exact: real, round: real -> real, count: nat, want: nat)
    requires Rounding(round) && 0.0 <= share <= count as real && exact >= 0.0 && exact >= share - Slack(share)
    requires count > 0 && Asked(want, RankOf(exact, round), count)
    ensures want >= 1 && want as real > Covered(share)
  {
    var sum := round(exact) + round(0.999);
    RoundedTwice(share, exact, round(exact), round(0.999), sum, round(sum));
    assert RankOf(exact, round) as real > round(sum) - 1.0;
  }

  lemma RankBelow(share: real, exact: real, round: real -> real, count: nat, want: nat, n: nat)
    requires Rounding(round) && 0.0 <= share <= count as real && 0.0 <= exact <= share + Slack(share)
    requires count > 0 && Asked(want, RankOf(exact, round), count)
    requires n >= 1 && n as real > Reached(share)
    ensures n >= want
  {
    var sum := round(exact) + round(0.999);
    RoundedUp(share, exact, round(exact), round(0.999), sum, round(sum));
    assert RankOf(exact, round) as real <= round(sum);
  }

  /** The count as a double, times the fraction. */
  lemma Scaled(c: real, d: real, p: real, share: real)
    requires c >= 0.0 && 0.0 <= p <= 1.0 && c - Slack(c) <= d <= c + Slack(c) && share == c * p
    ensures share - Slack(share) <= d * p <= share + Slack(share)
  {
    ScaledBy(d - c + Slack(c), p);
    ScaledBy(c + Slack(c) - d, p);
    assert d * p == share - Slack(c) * p + (d - c + Slack(c)) * p;
    assert d * p == share + Slack(c) * p - (c + Slack(c) - d) * p;
    assert Slack(c) * p == share / 9007199254740992.0 + 0.000000000001 * p;
  }

  lemma ScaledBy(x: real, p: real)
    requires x >= 0.0 && p >= 0.0
    ensures x * p >= 0.0
  {
  }

  lemma RoundedTwice(share: real, exact: real, product: real, thousandth: real, sum: real, rounded: real)
    requires share >= 0.0 && exact >= 0.0 && exact >= share - Slack(share) && product >= exact - Slack(exact)
    requires thousandth >= 0.999 - Slack(0.999) && sum == product + thousandth && rounded >= sum - Slack(sum)
    ensures rounded >= share - 4.0 * share / 9007199254740992.0 + 0.99899
  {
  }

  lemma RoundedUp(share: real, exact: real, product: real, thousandth: real, sum: real, rounded: real)
    requires 0.0 <= exact <= share + Slack(share) && 0.0 <= product <= exact + Slack(exact)
    requires thousandth <= 0.999 + Slack(0.999) && sum == product + thousandth && rounded <= sum + Slack(sum)
    ensures rounded <= share + 4.0 * share / 9007199254740992.0 + 0.99901
  {
  }

  lemma Portion(c: real, p: real, share: real)
    requires c >= 0.0 && 0.0 <= p <= 1.0 && share == c * p
    ensures 0.0 <= share <= c
  {
    assert c * (1.0 - p) >= 0.0;
    assert c * (1.0 - p) == c - share;
  }

  /** So many of the samples are at or below `r`, which is at most twice any other such value. */
  ghost predicate Answers(s: seq<nat>, want: nat, r: nat) {
    && (Measurable(s) ==> AtMost(s, r) >= want)
    && forall y: nat :: AtMost(s, y) >= want ==> r <= 2 || r <= 2 * y
  }

  /** What the edge of the bucket that reaches the rank is good for. */
  lemma BucketAnswers(s: seq<nat>, b: nat, want: nat, r: nat)
    requires b < BUCKETS && Below(s, b) < want <= Below(s, b + 1) && want <= |s|
    requires r == if Pow2(b + 1) > Max(s) then Max(s) else Pow2(b + 1)
    ensures r <= Max(s)
    ensures Answers(s, want, r)
  {
    if Measurable(s) {
      EdgeCovers(s, b);
      MaxCovers(s, Max(s));
    }
    forall y: nat | AtMost(s, y) >= want
      ensures r <= 2 || r <= 2 * y
    {
      if b > 0 {
        ReachesBucket(s, b, y);
      } else {
        assert Pow2(1) == 2 * Pow2(0);
      }
    }
  }
}
