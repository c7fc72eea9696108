/**
  Runs put together: one run after another, whole publications, and the CPU alone.
 */
module Compose {
  import opened Isa
  import opened TradingCore
  import opened Board

  /** One whole publication and `n` of them. */
  function Publication(q: Tick): seq<Act> {
    [TickBegin(q), TickNext, TickNext, TickNext, TickNext, TickNext, TickNext]
  }

  function Publications(q: Tick, n: nat): seq<Act> {
    if n == 0 then [] else Publication(q) + Publications(q, n - 1)
  }

  lemma {:induction false} RunConcat(b: State, xs: seq<Act>, ys: seq<Act>)
    requires Ram(b.core) && Legal(b, xs) && Legal(Run(b, xs), ys)
    ensures Legal(b, xs + ys) && Run(b, xs + ys) == Run(Run(b, xs), ys)
    decreases |xs|
  {
    if xs == [] {
      assert xs + ys == ys;
    } else {
      RunConcat(Next(b, xs[0]), xs[1..], ys);
      assert (xs + ys)[1..] == xs[1..] + ys;
    }
  }

  lemma {:induction false} RunCons(b: State, act: Act, acts: seq<Act>)
    requires Ram(b.core) && Enabled(b, act) && Legal(Next(b, act), acts)
    ensures Legal(b, [act] + acts) && Run(b, [act] + acts) == Run(Next(b, act), acts)
  {
    assert ([act] + acts)[1..] == acts;
  }

  /** The ticker's words after a publication of `q`. */
  function Shown(mem: seq<Word>, seq0: Word, q: Tick): (mem': seq<Word>)
    requires |mem| == MEM_WORDS
    ensures |mem'| == MEM_WORDS
  {
    mem[257 := q.bid][258 := q.ask][259 := q.bidSize][260 := q.askSize][256 := seq0]
  }

  /** The record and the reports are as they were. */
  predicate SameRecord(b: State, b': State) {
    b'.log == b.log && b'.reporter == b.reporter
  }

  /** The ticker makes `n` more stores. */
  function Nexts(n: nat): (acts: seq<Act>)
    ensures |acts| == n && forall i :: 0 <= i < n ==> acts[i] == TickNext
  {
    if n == 0 then [] else [TickNext] + Nexts(n - 1)
  }

  lemma NextsCons(b: State, n: nat)
    requires Ram(b.core) && Enabled(b, TickNext) && Legal(Next(b, TickNext), Nexts(n))
    ensures Legal(b, Nexts(n + 1)) && Run(b, Nexts(n + 1)) == Run(Next(b, TickNext), Nexts(n))
  {
    RunCons(b, TickNext, Nexts(n));
  }

  /** From `b` to `b'` the ticker has published `q` for the `n`th time. */
  predicate Publishes(b: State, b': State, q: Tick, n: nat)
    requires Ram(b.core)
  {
    var seq0 := U32(b.ticker.seq0 + 2 * n);
    && b'.core == b.core.(mem := Shown(b.core.mem, seq0, q))
    && b'.ticker.left == 0 && b'.ticker.seq0 == seq0
    && |b'.ticker.pubs| == |b.ticker.pubs| + n && b.ticker.pubs <= b'.ticker.pubs
    && (n == 1 ==> b'.ticker.pubs == b.ticker.pubs + [q])
    && SameRecord(b, b')
  }

  lemma {:induction false} PublishTail(b: State)
    requires Ram(b.core) && b.ticker.left == 3
    ensures Legal(b, Nexts(3))
    ensures Closed(b, Run(b, Nexts(3)))
  {
    var b1 := Next(b, TickNext);
    var b2 := Next(b1, TickNext);
    NextsCons(b2, 0);
    NextsCons(b1, 1);
    NextsCons(b, 2);
  }

  lemma {:induction false} PublishHead(b: State, q: Tick)
    requires Ram(b.core) && b.ticker.left == 0
    ensures Legal(b, [TickBegin(q)] + Nexts(3)) && Opened(b, Run(b, [TickBegin(q)] + Nexts(3)), q)
  {
    var b0 := Next(b, TickBegin(q));
    OpenStores(b0);
    RunCons(b, TickBegin(q), Nexts(3));
  }

  /** The odd number, the bid and the ask. */
  lemma {:induction false} OpenStores(b: State)
    requires Ram(b.core) && b.ticker.left == 6
    ensures Legal(b, Nexts(3))
    ensures var b', t := Run(b, Nexts(3)), b.ticker;
            && b'.core == b.core.(mem := b.core.mem[256 := U32(t.seq0 + 1)][257 := t.next.bid][258 := t.next.ask])
            && b'.ticker == t.(left := 3) && SameRecord(b, b')
  {
    var b1 := Next(b, TickNext);
    var b2 := Next(b1, TickNext);
    NextsCons(b2, 0);
    NextsCons(b1, 1);
    NextsCons(b, 2);
  }

  lemma {:induction false} PublishOnce(b: State, q: Tick)
    requires Ram(b.core) && b.ticker.left == 0
    ensures Legal(b, Publication(q)) && Publishes(b, Run(b, Publication(q)), q, 1)
  {
    var head := [TickBegin(q)] + Nexts(3);
    assert head + Nexts(3) == Publication(q);
    PublishHead(b, q);
    var b1 := Run(b, head);
    PublishTail(b1);
    RunConcat(b, head, Nexts(3));
    OnceEnds(b, b1, Run(b1, Nexts(3)), q);
  }

  /** The publication is open: the odd number, the bid and the ask are stored. */
  predicate Opened(b: State, b': State, q: Tick)
    requires Ram(b.core)
  {
    && b'.core == b.core.(mem := b.core.mem[256 := U32(b.ticker.seq0 + 1)][257 := q.bid][258 := q.ask])
    && b'.ticker.left == 3 && b'.ticker.seq0 == b.ticker.seq0 && b'.ticker.next == q
    && b'.ticker.pubs == b.ticker.pubs && SameRecord(b, b')
  }

  /** And closed: the sizes and the even number. */
  predicate Closed(b: State, b': State)
    requires Ram(b.core)
  {
    var q, seq0 := b.ticker.next, U32(b.ticker.seq0 + 2);
    && b'.core == b.core.(mem := b.core.mem[259 := q.bidSize][260 := q.askSize][256 := seq0])
    && b'.ticker.left == 0 && b'.ticker.seq0 == seq0
    && b'.ticker.pubs == b.ticker.pubs + [q] && SameRecord(b, b')
  }

  lemma OnceEnds(b: State, b1: State, b': State, q: Tick)
    requires Ram(b.core) && Ram(b1.core) && Opened(b, b1, q) && Closed(b1, b')
    ensures Publishes(b, b', q, 1)
  {
    SixStores(b.core.mem, U32(b.ticker.seq0 + 1), U32(b.ticker.seq0 + 2), q);
  }

  lemma SixStores(mem: seq<Word>, odd: Word, seq0: Word, q: Tick)
    requires |mem| == MEM_WORDS
    ensures mem[256 := odd][257 := q.bid][258 := q.ask][259 := q.bidSize][260 := q.askSize][256 := seq0]
         == Shown(mem, seq0, q)
  {
  }

  lemma PublishesOn(b: State, b1: State, b': State, q: Tick, n: nat)
    requires Ram(b.core) && Publishes(b, b1, q, 1) && Publishes(b1, b', q, n) && n > 0
    ensures Publishes(b, b', q, n + 1)
  {
    var mem, seq1, seq2 := b.core.mem, b1.ticker.seq0, b'.ticker.seq0;
    assert seq2 == U32(b.ticker.seq0 + 2 * (n + 1));
    assert Shown(Shown(mem, seq1, q), seq2, q) == Shown(mem, seq2, q);
  }

  /** `n` publications of the same quote move the counter by 2n and nothing else. */
  lemma {:induction false} PublishMany(b: State, q: Tick, n: nat)
    requires Ram(b.core) && b.ticker.left == 0 && n > 0
    ensures Legal(b, Publications(q, n)) && Publishes(b, Run(b, Publications(q, n)), q, n)
    decreases n
  {
    PublishOnce(b, q);
    var b1 := Run(b, Publication(q));
    if n == 1 {
      assert Publications(q, 1) == Publication(q);
    } else {
      PublishMany(b1, q, n - 1);
      RunConcat(b, Publication(q), Publications(q, n - 1));
      PublishesOn(b, b1, Run(b1, Publications(q, n - 1)), q, n - 1);
    }
  }

  /** The CPU alone runs for `n` instructions. */
  function Alone(n: nat): seq<Act> {
    if n == 0 then [] else [Cpu] + Alone(n - 1)
  }
}
