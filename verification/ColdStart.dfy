/**
  Loading a parked CPU and the version handshake.  The loader writes the entry word
  last, so no interleaving executes an instruction before the whole image is in
  memory; and a FW_VERSION that comes back after the host cleared it was stored by
  the program's own word 44.
 */
module ColdStart {
  import opened Isa
  import opened CpuModel
  import opened Program
  import opened TradingCore
  import opened Simulation
  import opened Safety
  import opened Board
  import opened System

  // ----- loading

  /** The loader's stores in order: words 9..161, then word 8. */
  function LoaderStore(i: nat): (int, Word)
    requires i < LEN
  {
    var a := if i < LEN - 1 then BASE + 1 + i else BASE;
    (a, ImageWord(a))
  }

  datatype LoadAct = Fetches | Loads | OtherStore(a: int, v: Word)

  predicate LoadEnabled(i: nat, act: LoadAct) {
    match act
    case Fetches => true
    case Loads => i < LEN
    case OtherStore(a, _) => 0 <= a < MEM_WORDS && !(BASE <= a < BASE + LEN)
  }

  /** The machine and the number of words loaded. */
  datatype Loading = Loading(m: Machine, i: nat)

  function LoadNext(l: Loading, act: LoadAct): (l': Loading)
    requires Valid(l.m) && LoadEnabled(l.i, act)
    ensures Valid(l'.m)
  {
    match act
    case Fetches => l.(m := Step(l.m))
    case Loads =>
      var (a, v) := LoaderStore(l.i);
      Loading(l.m.(mem := l.m.mem[a := v]), l.i + 1)
    case OtherStore(a, v) => l.(m := l.m.(mem := l.m.mem[a := v]))
  }

  predicate LoadLegal(l: Loading, acts: seq<LoadAct>)
    requires Valid(l.m)
    decreases |acts|
  {
    acts == [] || (LoadEnabled(l.i, acts[0]) && LoadLegal(LoadNext(l, acts[0]), acts[1..]))
  }

  function LoadRun(l: Loading, acts: seq<LoadAct>): (l': Loading)
    requires Valid(l.m) && LoadLegal(l, acts)
    ensures Valid(l'.m)
    decreases |acts|
  {
    if acts == [] then l else LoadRun(LoadNext(l, acts[0]), acts[1..])
  }

  /** Parked at a zero entry word until the last store, running the image after it. */
  ghost predicate Booting(l: Loading, executed: nat) {
    && Valid(l.m) && l.i <= LEN
    && (forall k :: BASE < k < BASE + LEN && k <= BASE + l.i ==> l.m.mem[k] == ImageWord(k))
    && (if l.i < LEN then l.m.pc == BASE && l.m.mem[BASE] == 0 && l.m.instructions == executed
        else Safe(l.m))
  }

  lemma LoadStep(l: Loading, act: LoadAct, executed: nat)
    requires Booting(l, executed) && LoadEnabled(l.i, act)
    ensures Booting(LoadNext(l, act), executed)
  {
    match act
    case Fetches =>
      if l.i == LEN {
        StepSafe(l.m);
      }
    case Loads =>
      if l.i == LEN - 1 {
        var l' := LoadNext(l, act);
        SafeAtEntry(l'.m);
      }
    case OtherStore(a, v) =>
      if l.i == LEN {
        var m' := LoadNext(l, act).m;
        assert Loaded(m'.mem);
        StoreView(l.m, m'.mem);
      }
  }

  /**
    From a parked CPU, in every interleaving of its halt polls with the loader's and
    other host stores: no instruction is executed before all 154 words are in place,
    and from then on the machine is safe.
   */
  lemma {:induction false} NoEarlyStart(l: Loading, acts: seq<LoadAct>, executed: nat)
    requires Booting(l, executed) && LoadLegal(l, acts)
    ensures var l' := LoadRun(l, acts);
            && (l'.i < LEN ==> l'.m.instructions == executed && l'.m.pc == BASE)
            && (l'.i == LEN ==> Safe(l'.m))
    decreases |acts|
  {
    if acts != [] {
      LoadStep(l, acts[0], executed);
      NoEarlyStart(LoadNext(l, acts[0]), acts[1..], executed);
    }
  }

  // ----- the handshake

  /**
    FW_VERSION was zero and is not any more: at some act in between the CPU executed
    word 44, and the version is the one the program was built for.
   */
  lemma {:induction false} VersionIsFresh(b: State, acts: seq<Act>) returns (k: nat)
    requires Ram(b.core) && Probed(b.core) && Legal(b, acts)
    requires b.core.mem[327] == 0 && Run(b, acts).core.mem[327] != 0
    ensures k < |acts| && acts[k].Cpu? && Legal(b, acts[..k]) && Run(b, acts[..k]).core.pc == 44
    ensures Next(Run(b, acts[..k]), Cpu).core.mem[327] == 2
    decreases |acts|
  {
    var act := acts[0];
    if act.Cpu? && b.core.pc == 44 {
      assert acts[..0] == [];
      return 0;
    }
    if act.Cpu? {
      CoreProgress(b.core);
      VersionKept(b.core);
    } else if EffectOf(b, act).Put? {
      HostEffect(b, act);
    }
    k := VersionIsFresh(Next(b, act), acts[1..]);
    assert acts[..k + 1][0] == act && acts[..k + 1][1..] == acts[1..][..k];
    k := k + 1;
  }

  lemma VersionKept(s: Core)
    requires Ram(s) && 8 <= s.pc < 158 && s.pc != 44
    ensures CoreStep(s).mem[327] == s.mem[327]
  {
    if s.pc < 34 {
    } else if s.pc < 68 {
    } else if s.pc < 131 {
    } else {
    }
  }
}
