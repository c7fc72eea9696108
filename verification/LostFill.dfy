/**
  Two ways in which a fill goes wrong.  Two reports between two looks of the CPU: the
  first is never applied.  A look between the reports, but the second begun before the
  first has been loaded: the second is applied in the place of the first.  Both runs
  start from a fresh board and end at the loop head with nothing left to apply.
 */
module LostFill {
  import opened Isa
  import opened CpuModel
  import opened Program
  import opened TradingCore
  import opened Flow
  import opened Safety
  import opened Strategy
  import opened Board
  import opened Fills
  import opened Reports
  import opened ReportWindow
  import opened System
  import opened Compose
  import opened Script
  import opened Rounds
  import opened Results

  lemma {:induction false} ReportTwice(b: State, q1: Word, q2: Word) returns (acts: seq<Act>, b': State)
    requires Ram(b.core) && b.reporter.left == 0
    ensures Legal(b, acts) && b' == Run(b, acts)
    ensures b'.core == b.core.(mem := b'.core.mem)
    ensures b'.core.mem == b.core.mem[268 := BOUGHT][269 := q2][267 := U32(b.reporter.seq0 + 2)]
    ensures b'.reporter.reported == b.reporter.reported + [Fill(BOUGHT, q1), Fill(BOUGHT, q2)]
    ensures b'.ticker == b.ticker && b'.log == b.log
  {
    var xs, ys := Reporting(BOUGHT, q1), Reporting(BOUGHT, q2);
    ReportOnce(b, BOUGHT, q1);
    var b1 := Run(b, xs);
    ReportOnce(b1, BOUGHT, q2);
    RunConcat(b, xs, ys);
    acts, b' := xs + ys, Run(b1, ys);
    Further(b.reporter.seq0);
    StoredOver(b.core.mem, q1, q2, U32(b.reporter.seq0 + 1), U32(b.reporter.seq0 + 2));
  }

  lemma Further(w: Word)
    ensures U32(U32(w + 1) + 1) == U32(w + 2) != w
  {
  }

  lemma StoredOver(mem: seq<Word>, q1: Word, q2: Word, x: Word, w: Word)
    requires |mem| == MEM_WORDS
    ensures mem[268 := BOUGHT][269 := q1][267 := x][268 := BOUGHT][269 := q2][267 := w]
         == mem[268 := BOUGHT][269 := q2][267 := w]
  {
  }

  /** Both reports are made while the CPU rests. */
  lemma {:induction false} TwoReports(b: State, q1: Word, q2: Word) returns (acts: seq<Act>, b': State)
    requires Resting(b)
    ensures Legal(b, acts) && b' == Run(b, acts) && Inv(b')
    ensures Underway(b'.core, b'.log, PlanAt(b), Published(b'.ticker)) && b'.log == b.log
    ensures b'.core.mem[267] != b.core.seen && b'.core.mem[268] == BOUGHT && b'.core.mem[269] == q2
    ensures b'.core.mem[256] == b.core.tick
    ensures b'.reporter.reported == b.reporter.reported + [Fill(BOUGHT, q1), Fill(BOUGHT, q2)]
  {
    acts, b' := ReportTwice(b, q1, q2);
    RunInv(b, acts);
    Further(b.reporter.seq0);
  }

  /** The pass that follows applies the second alone. */
  lemma {:induction false} LostRound(b: State, q1: Word, q2: Word) returns (acts: seq<Act>)
    requires Resting(b) && b.log.events == [] && b.reporter.reported == []
    ensures Legal(b, acts)
    ensures var b' := Run(b, acts);
            && b'.core.pc == LOOP && b'.core.seen == b'.core.mem[267]
            && b'.log.events == [Fill(BOUGHT, q2)] && b'.reporter.reported == [Fill(BOUGHT, q1), Fill(BOUGHT, q2)]
  {
    var reports, b1 := TwoReports(b, q1, q2);
    var n := PassEnds(b1, PlanAt(b));
    AloneIsRun(b1, n);
    RunConcat(b, reports, Alone(n));
    acts := reports + Alone(n);
    LostEnds(b1, AfterAlone(b1, n), PlanAt(b), q2);
  }

  lemma LostEnds(b: State, b': State, p: Plan, q2: Word)
    requires Ends(b, b', p) && p.events == [] && b.core.mem[267] != p.seen && b.core.mem[256] == p.tick
    requires b.core.mem[268] == BOUGHT && b.core.mem[269] == q2
    ensures b'.log.events == [Fill(BOUGHT, q2)] && b'.core.pc == LOOP && b'.core.seen == b'.core.mem[267]
    ensures b'.reporter == b.reporter
  {
    WordsKept(b, b');
  }

  lemma NotShown(m: Machine, b: State, q1: Word, q2: Word)
    requires Valid(m) && q1 != q2
    requires b.log.events == [Fill(BOUGHT, q2)] && b.reporter.reported == [Fill(BOUGHT, q1), Fill(BOUGHT, q2)]
    ensures FillsOf(b.log.events) == [Fill(BOUGHT, q2)] && !FillsShown(m, b)
  {
    FillsSnoc([], Fill(BOUGHT, q2));
    assert [] + [Fill(BOUGHT, q2)] == [Fill(BOUGHT, q2)];
    assert b.reporter.reported[..1][0] != FillsOf(b.log.events)[0];
  }

  /**
    From any fresh board there is a run of the machine that ends at the loop head with
    FILL_SEQ consumed, two reports made and only the second applied.
   */
  lemma {:induction false} ReportLost(m: Machine, b: State, max: Word, q1: Word, q2: Word) returns (acts: seq<Act>)
    requires Boots(m, b) && FreshBoard(b, max) && 0 < max < H31 && q1 != q2
    ensures Legal(b, acts)
    ensures var m', b' := MachineRun(m, b, acts), Run(b, acts);
            && m'.pc == LOOP && b'.core.seen == m'.mem[267]
            && b'.reporter.reported == [Fill(BOUGHT, q1), Fill(BOUGHT, q2)]
            && FillsOf(b'.log.events) == [Fill(BOUGHT, q2)] && !FillsShown(m', b')
  {
    acts := LostRun(b, max, q1, q2);
    BootMachine(m, b, acts);
    NotShown(MachineRun(m, b, acts), Run(b, acts), q1, q2);
  }

  lemma {:induction false} LostRun(b: State, max: Word, q1: Word, q2: Word) returns (acts: seq<Act>)
    requires FreshBoard(b, max) && 0 < max < H31
    ensures Legal(b, acts)
    ensures var b' := Run(b, acts);
            && b'.core.pc == LOOP && b'.core.seen == b'.core.mem[267]
            && b'.log.events == [Fill(BOUGHT, q2)] && b'.reporter.reported == [Fill(BOUGHT, q1), Fill(BOUGHT, q2)]
  {
    var start := StartRound(b, max, 1);
    var lost := LostRound(Run(b, start), q1, q2);
    RunConcat(b, start, lost);
    acts := start + lost;
  }

  // ----- a report begun too soon

  /** No restart is asked for, nor being taken. */
  predicate NoRestart(s: Core) {
    && Ram(s) && 46 <= s.pc < 154 && s.mem[266] == 0
    && (s.pc == 50 ==> s.y == 0) && (s.pc == 51 ==> !s.taken)
  }

  lemma NoRestartHead(s: Core)
    requires NoRestart(s) && (s.pc == 49 || s.pc == 50)
    ensures NoRestart(CoreStep(s))
  {
  }

  lemma NoRestartFar(s: Core, s': Core)
    requires Framed(s, s') && NoRestart(s) && s.pc != 49 && s.pc != 50
    ensures NoRestart(s')
  {
  }

  lemma NoRestartStep(s: Core)
    requires NoRestart(s)
    ensures NoRestart(CoreStep(s))
  {
    if s.pc == 49 || s.pc == 50 {
      NoRestartHead(s);
    } else {
      Frame(s);
      NoRestartFar(s, CoreStep(s));
    }
  }

  /** The host makes none but its agents' stores. */
  predicate NoStore(acts: seq<Act>) {
    forall i :: 0 <= i < |acts| ==> !acts[i].Store?
  }

  lemma {:induction false} StaysIn(b: State, acts: seq<Act>)
    requires NoRestart(b.core) && Legal(b, acts) && NoStore(acts)
    ensures StaysUp(b, acts)
    decreases |acts|
  {
    if acts != [] {
      if acts[0].Cpu? {
        NoRestartStep(b.core);
      } else if EffectOf(b, acts[0]).Put? {
        HostEffect(b, acts[0]);
      }
      StaysIn(Next(b, acts[0]), acts[1..]);
    }
  }

  /** Between the loop head and the look at FILL_SEQ, the host as in `b0`. */
  ghost predicate Nearing(b0: State, b: State, p: Plan) {
    Inv(b) && SameHost(b0, b) && Underway(b.core, b.log, p, Published(b.ticker)) && b.core.pc <= 54
  }

  /** The CPU alone from the loop head past its look at FILL_SEQ. */
  lemma {:induction false} PastLook(b0: State, b: State, p: Plan) returns (n: nat)
    requires Nearing(b0, b, p)
    ensures Nearing(b0, AfterAlone(b, n), p) && AfterAlone(b, n).core.pc == 54
    decreases 54 - b.core.pc
  {
    if b.core.pc == 54 {
      return 0;
    }
    HeadAct(b0, b, p);
    n := PastLook(b0, Next(b, Cpu), p);
    n := n + 1;
  }

  lemma HeadAct(b0: State, b: State, p: Plan)
    requires Nearing(b0, b, p) && b.core.pc < 54
    ensures Nearing(b0, Next(b, Cpu), p) && Next(b, Cpu).core.pc == b.core.pc + 1
  {
    PlainAct(b, p);
    HeadOn(b.core, b.log, p, Published(b.ticker));
  }

  lemma HeadOn(s: Core, g: Log, p: Plan, n: nat)
    requires Underway(s, g, p, n) && s.pc < 54
    ensures CoreStep(s).pc == s.pc + 1
  {
    match s.pc
    case 46 => case 47 => case 48 => case 49 => case 50 => case 51 => case 52 => case 53 =>
  }

  /** The next report's side and quantity are stored, its number not yet. */
  function Beginning(side: Word, qty: Word): seq<Act> {
    [FillBegin(side, qty), FillNext, FillNext]
  }

  lemma {:induction false} BeginOnce(b: State, side: Word, qty: Word)
    requires Ram(b.core) && b.reporter.left == 0
    ensures Legal(b, Beginning(side, qty))
    ensures var b' := Run(b, Beginning(side, qty));
            && b'.core == b.core.(mem := b.core.mem[268 := side][269 := qty])
            && b'.reporter.reported == b.reporter.reported && b'.ticker == b.ticker && b'.log == b.log
  {
    var b1 := Next(b, FillBegin(side, qty));
    var b2 := Next(b1, FillNext);
    RunCons(b2, FillNext, []);
    assert [FillNext] + [] == [FillNext];
    RunCons(b1, FillNext, [FillNext]);
    assert [FillNext] + [FillNext] == [FillNext, FillNext];
    RunCons(b, FillBegin(side, qty), [FillNext, FillNext]);
    assert [FillBegin(side, qty)] + [FillNext, FillNext] == Beginning(side, qty);
  }

  /** A report is made while the CPU rests. */
  lemma {:induction false} ReportMade(b: State, side: Word, qty: Word) returns (b': State)
    requires Resting(b)
    ensures Legal(b, Reporting(side, qty)) && b' == Run(b, Reporting(side, qty))
    ensures Nearing(b', b', PlanAt(b)) && b'.core.mem[267] != b.core.seen && b'.core.mem[256] == b.core.tick
    ensures b'.reporter.left == 0 && b'.reporter.reported == b.reporter.reported + [Fill(side, qty)]
  {
    ReportOnce(b, side, qty);
    RunInv(b, Reporting(side, qty));
    b' := Run(b, Reporting(side, qty));
    OneOn(b.reporter.seq0);
  }

  /** A report, and the CPU's look at it. */
  lemma {:induction false} ReportSeen(b: State, side: Word, qty: Word) returns (acts: seq<Act>, b': State)
    requires Resting(b)
    ensures Legal(b, acts) && NoStore(acts) && b' == Run(b, acts) && Inv(b')
    ensures Underway(b'.core, b'.log, PlanAt(b), Published(b'.ticker)) && b'.core.pc == 54
    ensures b'.core.mem[267] != b.core.seen && b'.core.mem[256] == b.core.tick
    ensures b'.reporter.left == 0 && b'.reporter.reported == b.reporter.reported + [Fill(side, qty)]
  {
    var b1 := ReportMade(b, side, qty);
    var n := PastLook(b1, b1, PlanAt(b));
    AloneIsRun(b1, n);
    RunConcat(b, Reporting(side, qty), Alone(n));
    acts, b' := Reporting(side, qty) + Alone(n), AfterAlone(b1, n);
    SeenWords(b1, b');
    AloneStores(n);
  }

  lemma SeenWords(b: State, b': State)
    requires SameHost(b, b')
    ensures b'.core.mem[267] == b.core.mem[267] && b'.core.mem[256] == b.core.mem[256]
  {
    WordsKept(b, b');
  }

  lemma {:induction false} AloneStores(n: nat)
    ensures NoStore(Alone(n))
  {
    if n > 0 {
      AloneStores(n - 1);
    }
  }

  /** The look done, the next report is begun. */
  lemma {:induction false} TooSoon(b: State, p: Plan, side: Word, qty: Word) returns (b': State)
    requires Inv(b) && Underway(b.core, b.log, p, Published(b.ticker)) && b.core.pc == 54 && b.reporter.left == 0
    ensures Legal(b, Beginning(side, qty)) && b' == Run(b, Beginning(side, qty)) && Inv(b')
    ensures Underway(b'.core, b'.log, p, Published(b'.ticker))
    ensures b'.core.mem[268] == side && b'.core.mem[269] == qty
    ensures b'.core.mem[267] == b.core.mem[267] && b'.core.mem[256] == b.core.mem[256]
    ensures b'.reporter.reported == b.reporter.reported
  {
    BeginOnce(b, side, qty);
    b' := Run(b, Beginning(side, qty));
    RunInv(b, Beginning(side, qty));
  }

  /** And the pass goes on to its end. */
  lemma {:induction false} SwappedTail(b: State, p: Plan, side: Word, qty: Word) returns (acts: seq<Act>)
    requires Inv(b) && Underway(b.core, b.log, p, Published(b.ticker)) && b.core.pc == 54 && b.reporter.left == 0
    requires p.events == [] && b.core.mem[267] != p.seen && b.core.mem[256] == p.tick
    ensures Legal(b, acts) && NoStore(acts)
    ensures var b' := Run(b, acts);
            && b'.core.pc == LOOP && b'.core.seen == b'.core.mem[267]
            && b'.log.events == [Fill(side, qty)] && b'.reporter.reported == b.reporter.reported
  {
    var b1 := TooSoon(b, p, side, qty);
    var n := PassEnds(b1, p);
    AloneIsRun(b1, n);
    AloneStores(n);
    RunConcat(b, Beginning(side, qty), Alone(n));
    acts := Beginning(side, qty) + Alone(n);
    SwappedEnds(b1, AfterAlone(b1, n), p, side, qty);
  }

  lemma {:induction false} SwappedRound(b: State, side1: Word, qty1: Word, side2: Word, qty2: Word) returns (acts: seq<Act>)
    requires Resting(b) && b.log.events == []
    ensures Legal(b, acts) && NoStore(acts)
    ensures var b' := Run(b, acts);
            && b'.core.pc == LOOP && b'.core.seen == b'.core.mem[267]
            && b'.log.events == [Fill(side2, qty2)] && b'.reporter.reported == b.reporter.reported + [Fill(side1, qty1)]
  {
    var report, b1 := ReportSeen(b, side1, qty1);
    var rest := SwappedTail(b1, PlanAt(b), side2, qty2);
    RunConcat(b, report, rest);
    acts := report + rest;
  }

  lemma SwappedEnds(b: State, b': State, p: Plan, side: Word, qty: Word)
    requires Ends(b, b', p) && p.events == [] && b.core.mem[267] != p.seen && b.core.mem[256] == p.tick
    requires b.core.mem[268] == side && b.core.mem[269] == qty
    ensures b'.log.events == [Fill(side, qty)] && b'.core.pc == LOOP && b'.core.seen == b'.core.mem[267]
    ensures b'.reporter == b.reporter
  {
    WordsKept(b, b');
  }

  /** As many fills as reports, so a look between every two; but not the same fills. */
  lemma {:induction false} CountedNotKept(b: State, acts: seq<Act>, e1: Event, e2: Event)
    requires Resting(b) && b.log.events == [] && b.reporter.reported == [] && e1.Fill? && e2.Fill? && e1 != e2
    requires Legal(b, acts) && NoStore(acts) && NothingWaits(Run(b, acts).core)
    requires Run(b, acts).log.events == [e2] && Run(b, acts).reporter.reported == [e1]
    ensures StaysUp(b, acts) && LooksBetween(b, acts, false) && !AppliedAsReported(b, Run(b, acts))
    ensures FillsOf(Run(b, acts).log.events) == [e2]
  {
    StaysIn(b, acts);
    FillsSnoc([], e2);
    assert [] + [e2] == [e2];
    CountExact(b, acts);
    assert Run(b, acts).reporter.reported[0..][0] != FillsOf(Run(b, acts).log.events)[0];
  }

  /** A run on the board from `b`, by way of `b1`, to the fills swapped. */
  ghost predicate Swaps(b1: State, acts: seq<Act>, e1: Event, e2: Event) {
    && NothingWaits(b1.core) && ReporterOk(b1.core, b1.reporter)
    && Legal(b1, acts) && StaysUp(b1, acts) && LooksBetween(b1, acts, false)
    && var b' := Run(b1, acts);
       && NothingWaits(b'.core) && b'.core.pc == LOOP
       && b'.reporter.reported == [e1] && FillsOf(b'.log.events) == [e2] && !AppliedAsReported(b1, b')
  }

  lemma {:induction false} SwappedRun(b: State, side1: Word, qty1: Word, side2: Word, qty2: Word) returns (acts: seq<Act>)
    requires Resting(b) && b.log.events == [] && b.reporter.reported == []
    requires Fill(side1, qty1) != Fill(side2, qty2)
    ensures Swaps(b, acts, Fill(side1, qty1), Fill(side2, qty2))
  {
    acts := SwappedRound(b, side1, qty1, side2, qty2);
    CountedNotKept(b, acts, Fill(side1, qty1), Fill(side2, qty2));
  }

  /**
    From any fresh board there is a run of the machine that starts and rests, and then
    makes one report and begins another, whatever the two say.  The CPU looks in between
    and nothing waits in the end, but what was applied is the second, which has not been
    made, and not the first.
   */
  lemma {:induction false} ReportSwapped(m: Machine, b: State, max: Word, side1: Word, qty1: Word, side2: Word, qty2: Word)
    returns (start: seq<Act>, acts: seq<Act>)
    requires Boots(m, b) && FreshBoard(b, max) && 0 < max < H31
    requires Fill(side1, qty1) != Fill(side2, qty2)
    ensures Legal(b, start) && Legal(b, start + acts)
    ensures Swaps(Run(b, start), acts, Fill(side1, qty1), Fill(side2, qty2))
    ensures MachineRun(m, b, start + acts).mem == Run(Run(b, start), acts).core.mem
  {
    start := StartRound(b, max, 1);
    var b1 := Run(b, start);
    acts := SwappedRun(b1, side1, qty1, side2, qty2);
    RunConcat(b, start, acts);
    BootMachine(m, b, start + acts);
  }
}
