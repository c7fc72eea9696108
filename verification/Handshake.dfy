/**
  wait_for_cpu against the running CPU: acceptance proves that the CPU has executed
  word 44 since FW_VERSION was cleared and word 47 since HEARTBEAT was first loaded,
  and the counters it adopts are the ones the protocol is at.
 */
module Handshake {
  import opened Isa
  import opened TradingCore
  import opened Flow
  import opened Safety
  import opened Board
  import opened Refinement
  import opened Seqlock
  import opened Fills
  import opened System
  import opened ColdStart
  import opened Host

  lemma {:induction false} LegalPrefix(b: State, acts: seq<Act>, n: nat)
    requires Ram(b.core) && Legal(b, acts) && n <= |acts|
    ensures Legal(b, acts[..n])
    decreases n
  {
    if n > 0 {
      LegalPrefix(Next(b, acts[0]), acts[1..], n - 1);
      assert acts[..n][1..] == acts[1..][..n - 1];
    }
  }

  /** The board after the first `n` acts. */
  function Moment(b: State, acts: seq<Act>, n: nat): (b': State)
    requires Ram(b.core) && Legal(b, acts) && n <= |acts|
    ensures Ram(b'.core)
  {
    LegalPrefix(b, acts, n);
    Run(b, acts[..n])
  }

  lemma {:induction false} MomentStep(b: State, acts: seq<Act>, n: nat)
    requires Ram(b.core) && Legal(b, acts) && n < |acts|
    ensures Enabled(Moment(b, acts, n), acts[n])
    ensures Moment(b, acts, n + 1) == Next(Moment(b, acts, n), acts[n])
    decreases n
  {
    LegalPrefix(b, acts, n + 1);
    if n == 0 {
      assert acts[..0] == [] && acts[..1][1..] == [];
      assert Run(b, acts[..1]) == Run(Next(b, acts[0]), acts[..1][1..]);
    } else {
      MomentStep(Next(b, acts[0]), acts[1..], n - 1);
      assert acts[..n][1..] == acts[1..][..n - 1] && acts[..n + 1][1..] == acts[1..][..n];
    }
  }

  lemma {:induction false} MomentProbed(b: State, acts: seq<Act>, n: nat)
    requires Ram(b.core) && Probed(b.core) && Legal(b, acts) && n <= |acts|
    ensures Probed(Moment(b, acts, n).core)
    decreases n
  {
    if n == 0 {
      assert acts[..0] == [];
    } else {
      MomentProbed(b, acts, n - 1);
      MomentStep(b, acts, n - 1);
      StaysProbed(Moment(b, acts, n - 1), acts[n - 1]);
    }
  }

  lemma StaysProbed(b: State, act: Act)
    requires Ram(b.core) && Probed(b.core) && Enabled(b, act)
    ensures Probed(Next(b, act).core)
    ensures Next(b, act).core.mem[320] != b.core.mem[320] ==> act == Cpu && b.core.pc == 47
  {
    if act.Cpu? {
      CoreProgress(b.core);
      Frame(b.core);
      StoresOnly47(b.core.pc);
    } else if EffectOf(b, act).Put? {
      HostEffect(b, act);
    }
  }

  lemma StoresOnly47(pc: int)
    ensures Stores(pc) == 320 <==> pc == 47
  {
  }

  /** HEARTBEAT moves only when the CPU executes word 47. */
  lemma {:induction false} BeatIsFresh(b: State, acts: seq<Act>, i: nat, j: nat) returns (k: nat)
    requires Ram(b.core) && Probed(b.core) && Legal(b, acts) && i <= j <= |acts|
    requires Moment(b, acts, i).core.mem[320] != Moment(b, acts, j).core.mem[320]
    ensures i <= k < j && acts[k] == Cpu && Moment(b, acts, k).core.pc == 47
    decreases j
  {
    k := j - 1;
    MomentProbed(b, acts, k);
    MomentStep(b, acts, k);
    StaysProbed(Moment(b, acts, k), acts[k]);
    if Moment(b, acts, k).core.mem[320] == Moment(b, acts, j).core.mem[320] {
      k := BeatIsFresh(b, acts, i, k);
    }
  }

  /**
    wait_for_cpu loads HEARTBEAT once and then FW_VERSION and HEARTBEAT in turn, each at
    a moment of its own in a run that begins when FW_VERSION has just been cleared.  If
    it accepts, the CPU executed word 44 before the accepting load of FW_VERSION, and
    word 47 between the first load of HEARTBEAT and the accepting one.
   */
  lemma AcceptanceProves(
    b: State, acts: seq<Act>, first: nat, versions: seq<nat>, beats: seq<nat>, beat0: Word, looks: seq<Observation>)
    returns (k: nat, l: nat)
    requires Ram(b.core) && Probed(b.core) && Legal(b, acts) && b.core.mem[327] == 0
    requires |looks| == |versions| == |beats|
    requires first <= |acts| && forall i :: 0 <= i < |looks| ==> versions[i] <= |acts| && first <= beats[i] <= |acts|
    requires beat0 == Moment(b, acts, first).core.mem[320]
    requires forall i :: 0 <= i < |looks| ==> looks[i].version == Moment(b, acts, versions[i]).core.mem[327]
    requires forall i :: 0 <= i < |looks| ==> looks[i].beat == Moment(b, acts, beats[i]).core.mem[320]
    requires Concludes(beat0, looks, 0).Running?
    ensures var at := Concludes(beat0, looks, 0).at;
            && k < versions[at] && acts[k] == Cpu && Moment(b, acts, k).core.pc == 44
            && first <= l < beats[at] && acts[l] == Cpu && Moment(b, acts, l).core.pc == 47
  {
    var at := Concludes(beat0, looks, 0).at;
    var n := versions[at];
    LegalPrefix(b, acts, n);
    assert looks[at].version == Moment(b, acts, n).core.mem[327];
    k := VersionIsFresh(b, acts[..n]);
    assert acts[..n][..k] == acts[..k];
    assert looks[at].beat == Moment(b, acts, beats[at]).core.mem[320];
    l := BeatIsFresh(b, acts, first, beats[at]);
  }

  /**
    The counters loaded at any moment from word 45 on: TICK_SEQ without its lowest bit
    and FILL_SEQ are the numbers the ticker and the reporter are at, and SIGNAL_SEQ
    counts the decisions published.
   */
  lemma AdoptsCounters(b: State)
    requires Inv(b) && 45 <= b.core.pc
    ensures Even(b.core.mem[256]) == b.ticker.seq0
    ensures b.core.mem[267] == b.reporter.seq0
    ensures b.core.mem[323] == U32(|b.log.desk.decisions|)
  {
    TickAdopted(b.core, b.ticker);
    SignalAdopted(b.core, b.log);
  }

  lemma TickAdopted(s: Core, t: Ticker)
    requires Ram(s) && TickerOk(s, t)
    ensures Even(s.mem[256]) == t.seq0
  {
    OddIsNone(t, Published(t), Published(t));
    EvenOfOdd(t.seq0);
  }

  lemma SignalAdopted(s: Core, g: Log)
    requires Refines(s, g) && 45 <= s.pc
    ensures s.mem[323] == U32(|g.desk.decisions|)
  {
  }

  lemma EvenOfOdd(w: Word)
    requires w % 2 == 0
    ensures Even(w) == w && Even(U32(w + 1)) == w
  {
  }
}
