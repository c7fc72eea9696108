/**
  Runs of the whole board.  Every legal interleaving of CPU instructions, host
  stores and host loads keeps the invariants of the other modules, and the machine
  running the image follows the board act by act.
 */
module System {
  import opened Isa
  import opened CpuModel
  import opened Program
  import opened TradingCore
  import opened Flow
  import opened Simulation
  import opened Safety
  import opened Strategy
  import opened Board
  import opened Refinement
  import opened Seqlock
  import opened Fills
  import opened Polls

  /** What holds in every state of every run. */
  ghost predicate Inv(b: State) {
    && Probed(b.core) && Refines(b.core, b.log) && Folded(b.log)
    && Locked(b.core, b.log, b.ticker) && Past(b.log, b.ticker)
    && ReporterOk(b.core, b.reporter)
    && Polled(b.core, b.log.desk.decisions, b.poller)
  }

  /** A board about to execute word 8, with the host idle and nothing recorded. */
  predicate Initial(b: State) {
    && Ram(b.core) && b.core.pc == 8
    && b.log == NewLog(0)
    && b.ticker.left == 0 && |b.ticker.pubs| == 1 && b.ticker.base % 2 == 0
    && b.ticker.seq0 == b.ticker.base
    && (if b.ticker.torn then b.core.mem[256] == U32(b.ticker.seq0 + 1)
        else
          && b.core.mem[256] == b.ticker.seq0
          && b.core.mem[257] == b.ticker.pubs[0].bid && b.core.mem[258] == b.ticker.pubs[0].ask)
    && b.reporter.left == 0 && b.reporter.reported == [] && b.core.mem[267] == b.reporter.seq0
    && !b.poller.synced && b.poller.stage == 0
  }

  lemma InitialInv(b: State)
    requires Initial(b)
    ensures Inv(b) && Tracked(b.core, b.log, b.reporter)
  {
  }

  /** The host never stores into the image or into an output but FW_VERSION. */
  lemma HostEffect(b: State, act: Act)
    requires Enabled(b, act) && EffectOf(b, act).Put?
    ensures var e := EffectOf(b, act);
            && 0 <= e.a < MEM_WORDS && !(8 <= e.a < 162)
            && (320 <= e.a <= 329 ==> e.a == 327 && e.v == 0)
            && (256 <= e.a <= 260 ==> act.TickNext?)
            && (267 <= e.a <= 269 ==> act.FillNext?)
  {
  }

  lemma CpuInv(b: State)
    requires Inv(b)
    ensures Inv(Next(b, Cpu))
  {
    var s, n := b.core, Published(b.ticker);
    CoreProgress(s);
    var s' := CoreStep(s);
    Frame(s);
    CpuReporter(s, s', b.reporter);
    CpuRefines(s, b.log, n);
    LogFolds(s, b.log, n);
    CpuLocked(s, b.log, b.ticker);
    CpuPast(s, b.log, b.ticker);
    CpuPolled(s, b.log, b.poller, n);
  }

  lemma HostLocked(b: State, act: Act)
    requires Inv(b) && Enabled(b, act) && !act.Cpu?
    ensures var b' := Next(b, act); Locked(b'.core, b'.log, b'.ticker) && Past(b'.log, b'.ticker)
  {
    var s, e := b.core, EffectOf(b, act);
    if e.Put? {
      HostEffect(b, act);
    }
    TickPast(b.log, b.ticker, act);
    match act
    case TickBegin(q) => BeginLocked(s, b.log, b.ticker, q);
    case TickNext => TickLocked(s, b.log, b.ticker);
    case _ => OthersLocked(s, b.log, b.ticker, Poke(s.mem, e));
  }

  lemma HostPolls(b: State, act: Act)
    requires Inv(b) && Enabled(b, act) && !act.Cpu?
    ensures var b' := Next(b, act); Polled(b'.core, b'.log.desk.decisions, b'.poller)
  {
    var s, e := b.core, EffectOf(b, act);
    if e.Put? {
      HostEffect(b, act);
    }
    match act
    case PollSync => SyncPolled(s, b.log, b.poller);
    case PollNext => PollPolled(s, b.log, b.poller);
    case _ => HostPolled(s, b.log.desk.decisions, b.poller, Poke(s.mem, e));
  }

  lemma HostInv(b: State, act: Act)
    requires Inv(b) && Enabled(b, act) && !act.Cpu?
    ensures Inv(Next(b, act))
  {
    var e := EffectOf(b, act);
    if e.Put? {
      HostEffect(b, act);
    }
    HostRefines(b.core, b.log, Poke(b.core.mem, e));
    HostLocked(b, act);
    HostPolls(b, act);
  }

  /** Every state of every legal run satisfies the invariant. */
  lemma {:induction false} RunInv(b: State, acts: seq<Act>)
    requires Inv(b) && Legal(b, acts)
    ensures Inv(Run(b, acts))
    decreases |acts|
  {
    if acts != [] {
      if acts[0].Cpu? { CpuInv(b); } else { HostInv(b, acts[0]); }
      RunInv(Next(b, acts[0]), acts[1..]);
    }
  }

  // ----- fill discipline over a run

  /** Every report of the run waits for the one before. */
  predicate PatientRun(b: State, acts: seq<Act>)
    requires Ram(b.core) && Legal(b, acts)
    decreases |acts|
  {
    acts == [] || (Patient(b, acts[0]) && PatientRun(Next(b, acts[0]), acts[1..]))
  }

  lemma NextTracked(b: State, act: Act)
    requires Probed(b.core) && Tracked(b.core, b.log, b.reporter) && Enabled(b, act) && Patient(b, act)
    ensures var b' := Next(b, act); Probed(b'.core) && Tracked(b'.core, b'.log, b'.reporter)
  {
    var s := b.core;
    if act.Cpu? {
      CoreProgress(s);
      CpuTracked(s, b.log, b.reporter, Published(b.ticker));
    } else {
      var e := EffectOf(b, act);
      if e.Put? {
        HostEffect(b, act);
      }
      match act
      case FillBegin(side, qty) => BeginTracked(s, b.log, b.reporter, side, qty);
      case FillNext => ReportTracked(s, b.log, b.reporter);
      case _ => OthersTracked(s, b.log, b.reporter, Poke(s.mem, e));
    }
  }

  lemma {:induction false} RunTracked(b: State, acts: seq<Act>)
    requires Probed(b.core) && Tracked(b.core, b.log, b.reporter)
    requires Legal(b, acts) && PatientRun(b, acts)
    ensures var b' := Run(b, acts); Probed(b'.core) && Tracked(b'.core, b'.log, b'.reporter)
    decreases |acts|
  {
    if acts != [] {
      NextTracked(b, acts[0]);
      RunTracked(Next(b, acts[0]), acts[1..]);
    }
  }

  // ----- the machine runs the board

  function MachineNext(m: Machine, b: State, act: Act): (m': Machine)
    requires Valid(m) && Enabled(b, act)
    ensures Valid(m')
  {
    if act.Cpu? then Step(m) else m.(mem := Poke(m.mem, EffectOf(b, act)))
  }

  function MachineRun(m: Machine, b: State, acts: seq<Act>): (m': Machine)
    requires Valid(m) && Ram(b.core) && Legal(b, acts)
    ensures Valid(m')
    decreases |acts|
  {
    if acts == [] then m
    else MachineRun(MachineNext(m, b, acts[0]), Next(b, acts[0]), acts[1..])
  }

  /** The machine and the board agree on everything the board keeps. */
  ghost predicate Runs(m: Machine, b: State) {
    Safe(m) && View(m) == b.core
  }

  lemma MachineFollows(m: Machine, b: State, act: Act)
    requires Runs(m, b) && Enabled(b, act)
    ensures Runs(MachineNext(m, b, act), Next(b, act))
  {
    if act.Cpu? {
      StepSafe(m);
    } else {
      var e := EffectOf(b, act);
      if e.Put? {
        HostEffect(b, act);
      }
      var mem := Poke(m.mem, e);
      assert Loaded(mem);
      StoreView(m, mem);
    }
  }

  lemma StoreView(m: Machine, mem: seq<Word>)
    requires Ready(m) && |mem| == MEM_WORDS
    ensures Ready(m.(mem := mem)) && View(m.(mem := mem)) == View(m).(mem := mem)
  {
  }

  lemma {:induction false} MachineRuns(m: Machine, b: State, acts: seq<Act>)
    requires Runs(m, b) && Legal(b, acts)
    ensures Runs(MachineRun(m, b, acts), Run(b, acts))
    decreases |acts|
  {
    if acts != [] {
      MachineFollows(m, b, acts[0]);
      MachineRuns(MachineNext(m, b, acts[0]), Next(b, acts[0]), acts[1..]);
    }
  }
}
