/**
  The host's access to the shared RAM (fmma_fpga.c) as an object over the mapped
  words.  The object keeps the list of its stores, and each operation is proved to
  append exactly the stores, in order, that the agents of module Board make one act
  at a time.
 */
module Host {
  import opened Isa
  import opened Program
  import opened Board
  import opened ColdStart

  /** The memory after a list of stores. */
  function Stored(mem: seq<Word>, stores: seq<(int, Word)>): (mem': seq<Word>)
    requires forall i :: 0 <= i < |stores| ==> 0 <= stores[i].0 < |mem|
    ensures |mem'| == |mem|
  {
    if stores == [] then mem
    else
      var n := |stores| - 1;
      Stored(mem, stores[..n])[stores[n].0 := stores[n].1]
  }

  lemma {:induction false} StoredSnoc(mem: seq<Word>, stores: seq<(int, Word)>, a: int, v: Word)
    requires forall i :: 0 <= i < |stores| ==> 0 <= stores[i].0 < |mem|
    requires 0 <= a < |mem|
    ensures Stored(mem, stores + [(a, v)]) == Stored(mem, stores)[a := v]
  {
    assert (stores + [(a, v)])[..|stores|] == stores;
  }

  /** Store `i` of the loader: the words in order but for the entry word, which goes last. */
  function LoaderAt(program: seq<Word>, base: nat, i: nat): (int, Word)
    requires i < |program|
  {
    var k := if i < |program| - 1 then i + 1 else 0;
    (base + k, program[k])
  }

  /** The first `n` stores of the loader. */
  function LoaderStores(program: seq<Word>, base: nat, n: nat): (s: seq<(int, Word)>)
    requires n <= |program|
  {
    seq(n, i requires 0 <= i < n => LoaderAt(program, base, i))
  }

  /** `mem'` is `mem` after the first `n` stores of the loader. */
  ghost predicate Installed(mem: seq<Word>, mem': seq<Word>, program: seq<Word>, base: nat, n: nat)
    requires 0 < |program| && base + |program| <= MEM_WORDS == |mem| == |mem'|
  {
    && (forall a :: 0 <= a < MEM_WORDS && !(base <= a < base + |program|) ==> mem'[a] == mem[a])
    && (forall a :: base < a < base + |program| && a <= base + n ==> mem'[a] == program[a - base])
    && (mem'[base] == if n < |program| then mem[base] else program[0])
  }

  /** All of them together put the program in memory and touch nothing else. */
  lemma {:induction false} LoaderInstalls(mem: seq<Word>, program: seq<Word>, base: nat, n: nat)
    requires 0 < |program| && n <= |program| && base + |program| <= MEM_WORDS == |mem|
    ensures Installed(mem, Stored(mem, LoaderStores(program, base, n)), program, base, n)
  {
    if n > 0 {
      LoaderInstalls(mem, program, base, n - 1);
      LoaderSnoc(mem, program, base, n);
      InstallOne(mem, Stored(mem, LoaderStores(program, base, n - 1)), program, base, n);
    }
  }

  lemma InstallOne(mem: seq<Word>, mem1: seq<Word>, program: seq<Word>, base: nat, n: nat)
    requires 0 < n <= |program| && base + |program| <= MEM_WORDS == |mem| == |mem1|
    requires Installed(mem, mem1, program, base, n - 1)
    ensures var k := if n < |program| then n else 0;
            Installed(mem, mem1[base + k := program[k]], program, base, n)
  {
  }

  lemma LoaderNext(program: seq<Word>, base: nat, n: nat)
    requires 0 < n <= |program| && base + |program| <= MEM_WORDS
    ensures var k := if n < |program| then n else 0;
            LoaderStores(program, base, n) == LoaderStores(program, base, n - 1) + [(base + k, program[k])]
  {
    var s, k := LoaderStores(program, base, n), if n < |program| then n else 0;
    assert s[n - 1] == (base + k, program[k]);
    assert s == s[..n - 1] + [s[n - 1]] && s[..n - 1] == LoaderStores(program, base, n - 1);
  }

  lemma {:induction false} LoaderSnoc(mem: seq<Word>, program: seq<Word>, base: nat, n: nat)
    requires 0 < n <= |program| && base + |program| <= MEM_WORDS == |mem|
    ensures var k := if n < |program| then n else 0;
            Stored(mem, LoaderStores(program, base, n)) ==
            Stored(mem, LoaderStores(program, base, n - 1))[base + k := program[k]]
  {
    var k, before := if n < |program| then n else 0, LoaderStores(program, base, n - 1);
    LoaderNext(program, base, n);
    StoredSnoc(mem, before, base + k, program[k]);
  }

  /** The shipped image as the array the loader is given. */
  function Image(): (words: seq<Word>)
    ensures |words| == LEN && forall i :: 0 <= i < LEN ==> words[i] == ImageWord(BASE + i)
  {
    seq<Word>(LEN, i requires 0 <= i < LEN => ImageWord(BASE + i))
  }

  /** The loader's stores of the image are the ones ColdStart interleaves. */
  lemma LoaderOrder(i: nat)
    requires i < LEN
    ensures LoaderStores(Image(), BASE, LEN)[i] == LoaderStore(i)
  {
    assert Image()[0] == ImageWord(BASE + 0);
    if i < LEN - 1 {
      assert Image()[i + 1] == ImageWord(BASE + (i + 1));
    }
  }

  const PROGRAM_LIMIT: int := 256

  // ----- waiting for the CPU

  /** What one look shows: FW_VERSION and HEARTBEAT. */
  datatype Observation = Observation(version: Word, beat: Word)

  /** The three counters wait_for_cpu loads once the CPU is accepted. */
  datatype Counters = Counters(signal: Word, fill: Word, tick: Word)

  /** The outcomes of wait_for_cpu. */
  datatype Boot = Running(at: nat) | WrongVersion | ProbeFailed | NoHeartbeat

  /** What wait_for_cpu concludes from one look, if anything. */
  predicate Decisive(o: Observation, beat0: Word, i: int) {
    || (o.version == 2 && o.beat != beat0)
    || (o.version != 0 && o.version != 2)
    || (o.beat != beat0 && o.version == 0 && i > 20)
  }

  /** The conclusion from look `i` on, of at most fifty. */
  function Concludes(beat0: Word, looks: seq<Observation>, i: nat): (r: Boot)
    ensures r.Running? ==> i <= r.at < |looks| && r.at < 50
    ensures r.Running? ==> looks[r.at].version == 2 && looks[r.at].beat != beat0
    ensures r.Running? ==> forall j :: i <= j < r.at ==> !Decisive(looks[j], beat0, j)
    ensures r.NoHeartbeat? <==> forall j :: i <= j < |looks| && j < 50 ==> !Decisive(looks[j], beat0, j)
    decreases |looks| - i
  {
    if i >= 50 || i >= |looks| then NoHeartbeat
    else if looks[i].version == 2 && looks[i].beat != beat0 then Running(i)
    else if looks[i].version != 0 && looks[i].version != 2 then WrongVersion
    else if looks[i].beat != beat0 && looks[i].version == 0 && i > 20 then ProbeFailed
    else Concludes(beat0, looks, i + 1)
  }

  /** The first look that decides, decides by its version. */
  lemma {:induction false} FirstDecides(beat0: Word, looks: seq<Observation>, i: nat, j: nat)
    requires i <= j < |looks| && j < 50 && Decisive(looks[j], beat0, j)
    requires forall k :: i <= k < j ==> !Decisive(looks[k], beat0, k)
    ensures Concludes(beat0, looks, i) ==
            match looks[j].version case 2 => Running(j) case 0 => ProbeFailed case _ => WrongVersion
    decreases j - i
  {
    if i < j {
      FirstDecides(beat0, looks, i + 1, j);
    }
  }

  /** A word with its lowest bit cleared. */
  function Even(w: Word): Word {
    w - w % 2
  }

  // ----- the mapped words

  /**
    The host's view of the RAM.  Every store goes through `StoreWord`, and `trace` lists
    them in the order they were made.
   */
  class Fpga {
    const regs: array<Word>
    var tickSeq: Word
    var fillSeq: Word
    var signalSeq: Word
    var heartbeat: Word
    ghost var trace: seq<(int, Word)>

    ghost predicate Ok()
      reads this
    {
      regs.Length == MEM_WORDS
    }

    constructor (regs: array<Word>)
      requires regs.Length == MEM_WORDS
      ensures Ok() && this.regs == regs && trace == []
      ensures tickSeq == fillSeq == signalSeq == heartbeat == 0
    {
      this.regs := regs;
      tickSeq, fillSeq, signalSeq, heartbeat, trace := 0, 0, 0, 0, [];
    }

    method StoreWord(a: nat, v: Word)
      requires Ok() && a < MEM_WORDS
      modifies this`trace, regs
      ensures Ok() && trace == old(trace) + [(a, v)] && regs[..] == old(regs[..])[a := v]
    {
      regs[a] := v;
      trace := trace + [(a, v)];
    }

    method PublishTick(q: Tick) returns (sequence: Word)
      requires Ok()
      modifies this`tickSeq, this`trace, regs
      ensures trace == old(trace) + PublishStores(old(tickSeq), q)
      ensures regs[..] == Stored(old(regs[..]), PublishStores(old(tickSeq), q))
      ensures sequence == tickSeq == U32(old(tickSeq) + 2)
    {
      StoredSix(regs[..], PublishStores(tickSeq, q));
      var odd := U32(tickSeq + 1);
      StoreWord(256, odd);
      StoreQuote(q);
      tickSeq := U32(odd as int + 1);
      StoreWord(256, tickSeq);
      return tickSeq;
    }

    method StoreQuote(q: Tick)
      requires Ok()
      modifies this`trace, regs
      ensures trace == old(trace) + [(257, q.bid), (258, q.ask), (259, q.bidSize), (260, q.askSize)]
      ensures regs[..] == old(regs[..])[257 := q.bid][258 := q.ask][259 := q.bidSize][260 := q.askSize]
    {
      StoreWord(257, q.bid);
      StoreWord(258, q.ask);
      StoreWord(259, q.bidSize);
      StoreWord(260, q.askSize);
    }

    method ReportFill(side: Word, qty: Word)
      requires Ok()
      modifies this`fillSeq, this`trace, regs
      ensures trace == old(trace) + ReportStores(old(fillSeq), side, qty)
      ensures regs[..] == Stored(old(regs[..]), ReportStores(old(fillSeq), side, qty))
      ensures fillSeq == U32(old(fillSeq) + 1)
    {
      StoredThree(regs[..], ReportStores(fillSeq, side, qty));
      StoreWord(268, side);
      StoreWord(269, qty);
      fillSeq := U32(fillSeq + 1);
      StoreWord(267, fillSeq);
    }

    /** Three loads; a decision is new exactly when SIGNAL_SEQ has moved. */
    method PollSignal() returns (fresh0: bool, side: Word, tick: Word, missed: Word)
      requires Ok()
      modifies this`signalSeq
      ensures Ok() && signalSeq == regs[323]
      ensures fresh0 <==> regs[323] != old(signalSeq)
      ensures fresh0 ==> side == regs[321] && tick == regs[322]
      ensures fresh0 ==> U32(old(signalSeq) + 1 + missed) == signalSeq
    {
      side, tick, missed := 0, 0, 0;
      var s := regs[323];
      if s == signalSeq {
        return false, side, tick, missed;
      }
      side := regs[321];
      tick := regs[322];
      missed := U32(s - signalSeq - 1);
      signalSeq := s;
      return true, side, tick, missed;
    }

    method SetEnabled(enabled: bool)
      requires Ok()
      modifies this`trace, regs
      ensures trace == old(trace) + [(263, if enabled then 1 else 0)]
      ensures regs[..] == old(regs[..])[263 := if enabled then 1 else 0]
    {
      StoreWord(263, if enabled then 1 else 0);
    }

    /** Entry word last, then every word read back. */
    method WriteProgram(program: seq<Word>, base: nat) returns (ok: bool)
      requires Ok() && program != []
      modifies this`trace, regs
      ensures Ok()
      ensures ok <==> base == BASE && base + |program| <= PROGRAM_LIMIT
      ensures ok ==> trace == old(trace) + LoaderStores(program, base, |program|)
      ensures ok ==> Installed(old(regs[..]), regs[..], program, base, |program|)
      ensures !ok ==> trace == old(trace) && regs[..] == old(regs[..])
    {
      if base != BASE || base + |program| > PROGRAM_LIMIT {
        return false;
      }
      StoreProgram(program, base);
      LoaderInstalls(old(regs[..]), program, base, |program|);
      ok := ReadBack(program, base);
    }

    method StoreProgram(program: seq<Word>, base: nat)
      requires Ok() && 0 < |program| && base + |program| <= MEM_WORDS
      modifies this`trace, regs
      ensures trace == old(trace) + LoaderStores(program, base, |program|)
      ensures regs[..] == Stored(old(regs[..]), LoaderStores(program, base, |program|))
    {
      ghost var mem: seq<Word>, made: seq<(int, Word)> := regs[..], [];
      var i: nat := 1;
      while i < |program|
        invariant 1 <= i <= |program| && made == LoaderStores(program, base, i - 1)
        invariant trace == old(trace) + made && regs[..] == Stored(mem, made)
      {
        LoaderNext(program, base, i);
        StoredSnoc(mem, made, base + i, program[i]);
        StoreWord(base + i, program[i]);
        made := made + [(base + i, program[i])];
        i := i + 1;
      }
      LoaderNext(program, base, |program|);
      StoredSnoc(mem, made, base, program[0]);
      StoreWord(base, program[0]);
      made := made + [(base as int, program[0])];
    }

    method ReadBack(program: seq<Word>, base: nat) returns (ok: bool)
      requires Ok() && base + |program| <= MEM_WORDS
      ensures ok <==> forall a :: base <= a < base + |program| ==> regs[..][a] == program[a - base]
    {
      var i := 0;
      while i < |program|
        invariant 0 <= i <= |program|
        invariant forall a :: base <= a < base + i ==> regs[..][a] == program[a - base]
      {
        if regs[base + i] != program[i] {
          assert regs[..][base + i] != program[base + i - base];
          return false;
        }
        i := i + 1;
      }
      return true;
    }

    /**
      wait_for_cpu.  What its loads return is up to the CPU: `beat0` before the loop, one
      look a round, and `now` once the CPU is accepted.
     */
    method WaitForCpu(beat0: Word, looks: seq<Observation>, now: Counters) returns (r: Boot)
      requires Ok()
      modifies this, regs
      ensures Ok() && r == Concludes(beat0, looks, 0)
      ensures trace == old(trace) + [(327, 0), (266, 1)] && regs[..] == old(regs[..])[327 := 0][266 := 1]
      ensures (heartbeat, signalSeq, fillSeq, tickSeq) ==
              if r.Running? then (looks[r.at].beat, now.signal, now.fill, Even(now.tick))
              else old((heartbeat, signalSeq, fillSeq, tickSeq))
    {
      StoreWord(327, 0);
      StoreWord(266, 1);
      var i := 0;
      while i < 50 && i < |looks|
        invariant 0 <= i <= |looks| && Ok()
        invariant Concludes(beat0, looks, 0) == Concludes(beat0, looks, i)
        invariant trace == old(trace) + [(327, 0), (266, 1)] && regs[..] == old(regs[..])[327 := 0][266 := 1]
        invariant heartbeat == old(heartbeat) && signalSeq == old(signalSeq)
        invariant fillSeq == old(fillSeq) && tickSeq == old(tickSeq)
      {
        var version, beat := looks[i].version, looks[i].beat;
        if version == 2 && beat != beat0 {
          heartbeat := beat;
          signalSeq, fillSeq, tickSeq := now.signal, now.fill, Even(now.tick);
          return Running(i);
        }
        if version != 0 && version != 2 { return WrongVersion; }
        if beat != beat0 && version == 0 && i > 20 { return ProbeFailed; }
        i := i + 1;
      }
      return NoHeartbeat;
    }
  }

  lemma {:induction false} StoredThree(mem: seq<Word>, st: seq<(int, Word)>)
    requires |st| == 3 && forall i :: 0 <= i < 3 ==> 0 <= st[i].0 < |mem|
    ensures Stored(mem, st) == mem[st[0].0 := st[0].1][st[1].0 := st[1].1][st[2].0 := st[2].1]
  {
    assert st[..2][..1] == st[..1] && st[..1][..0] == [];
    assert Stored(mem, st[..1]) == mem[st[0].0 := st[0].1];
    assert Stored(mem, st[..2]) == Stored(mem, st[..1])[st[1].0 := st[1].1];
  }

  lemma {:induction false} StoredSix(mem: seq<Word>, st: seq<(int, Word)>)
    requires |st| == 6 && forall i :: 0 <= i < 6 ==> 0 <= st[i].0 < |mem|
    ensures Stored(mem, st) == mem[st[0].0 := st[0].1][st[1].0 := st[1].1][st[2].0 := st[2].1]
                                  [st[3].0 := st[3].1][st[4].0 := st[4].1][st[5].0 := st[5].1]
  {
    StoredThree(mem, st[..3]);
    StoredSnoc(mem, st[..3], st[3].0, st[3].1);
    assert st[..3] + [st[3]] == st[..4];
    StoredSnoc(mem, st[..4], st[4].0, st[4].1);
    assert st[..4] + [st[4]] == st[..5];
  }
}
