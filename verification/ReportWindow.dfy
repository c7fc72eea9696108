/**
  Which fills are applied.  A report stays in memory until the next one is stored over
  it, so it is open from its store of FILL_SEQ until the CPU has loaded FILL_SIDE and
  FILL_QTY.  Between two moments at which nothing waits the fills applied are the fills
  reported, in order, if no word of an open report is stored over; and only if, when
  successive reports differ in side and in quantity.
 */
module ReportWindow {
  import opened Isa
  import opened Program
  import opened TradingCore
  import opened Flow
  import opened Safety
  import opened Strategy
  import opened Board
  import opened Fills
  import opened System
  import opened Reports

  /** Whether the side of a report is still to be loaded, after `act`. */
  predicate SideOpen(b: State, act: Act, open: bool) {
    MakesReport(b, act) || (open && !(act.Cpu? && b.core.pc == 58))
  }

  predicate QtyOpen(b: State, act: Act, open: bool) {
    MakesReport(b, act) || (open && !(act.Cpu? && b.core.pc == 60))
  }

  /** The act stores FILL_SIDE or FILL_QTY over a report that still needs it. */
  predicate Overwrites(b: State, act: Act, side: bool, qty: bool) {
    act.FillNext? && ((b.reporter.left == 3 && side) || (b.reporter.left == 2 && qty))
  }

  /**
    From the store of FILL_SEQ on, no FILL_SIDE is stored before the CPU has passed
    word 58 and no FILL_QTY before it has passed word 60.
   */
  predicate Untouched(b: State, acts: seq<Act>, side: bool, qty: bool)
    requires Ram(b.core) && Legal(b, acts)
    decreases |acts|
  {
    acts == [] ||
    (var act := acts[0];
     && !Overwrites(b, act, side, qty)
     && Untouched(Next(b, act), acts[1..], SideOpen(b, act, side), QtyOpen(b, act, qty)))
  }

  /** Each report differs from the one before in side and in quantity. */
  predicate Varies(b: State, acts: seq<Act>)
    requires Ram(b.core) && Legal(b, acts)
    decreases |acts|
  {
    acts == [] ||
    (&& (acts[0].FillBegin? ==> acts[0].side != b.reporter.side && acts[0].qty != b.reporter.qty)
     && Varies(Next(b, acts[0]), acts[1..]))
  }

  // ----- what has been reported and what has been applied

  type Report = e: Event | e.Fill? witness Fill(0, 0)

  /** The reports made and the fills applied since the start, and what is open of the last report. */
  datatype Marks = Marks(made: seq<Report>, done: seq<Report>, side: bool, qty: bool)

  predicate Applies(b: State, act: Act) {
    act.Cpu? && (b.core.pc == 63 || b.core.pc == 65)
  }

  function MarksNext(w: Marks, b: State, act: Act): Marks {
    Marks(
      if MakesReport(b, act) then w.made + [Fill(b.reporter.side, b.reporter.qty)] else w.made,
      if Applies(b, act) then w.done + [Fill(b.core.y, b.core.qty)] else w.done,
      SideOpen(b, act, w.side), QtyOpen(b, act, w.qty))
  }

  function MarksRun(w: Marks, b: State, acts: seq<Act>): Marks
    requires Ram(b.core) && Legal(b, acts)
    decreases |acts|
  {
    if acts == [] then w else MarksRun(MarksNext(w, b, acts[0]), Next(b, acts[0]), acts[1..])
  }

  /** The board has `made` and `done` on top of `r` and `f`. */
  predicate Counted(b: State, w: Marks, r: seq<Event>, f: seq<Event>) {
    b.reporter.reported == r + w.made && FillsOf(b.log.events) == f + w.done
  }

  lemma CountedStep(b: State, act: Act, w: Marks, r: seq<Event>, f: seq<Event>)
    requires Ram(b.core) && Enabled(b, act) && 46 <= b.core.pc && Counted(b, w, r, f)
    ensures Counted(Next(b, act), MarksNext(w, b, act), r, f)
  {
    var w' := MarksNext(w, b, act);
    if act.Cpu? {
      FillsSteps(b.core, b.log, Published(b.ticker));
    }
    if MakesReport(b, act) {
      assert r + w'.made == (r + w.made) + [Fill(b.reporter.side, b.reporter.qty)];
    }
    if Applies(b, act) {
      assert f + w'.done == (f + w.done) + [Fill(b.core.y, b.core.qty)];
    }
  }

  lemma {:induction false} CountedRun(b: State, acts: seq<Act>, w: Marks, r: seq<Event>, f: seq<Event>)
    requires Ram(b.core) && Legal(b, acts) && StaysUp(b, acts) && Counted(b, w, r, f)
    ensures Counted(Run(b, acts), MarksRun(w, b, acts), r, f)
    decreases |acts|
  {
    if acts != [] {
      CountedStep(b, acts[0], w, r, f);
      CountedRun(Next(b, acts[0]), acts[1..], MarksNext(w, b, acts[0]), r, f);
    }
  }

  /** The tally holds, and the board counts on top of `r` and `f`. */
  predicate Both(b: State, t: Tally, w: Marks, r: seq<Event>, f: seq<Event>) {
    Kept(b, t, |r| - |f|) && Counted(b, w, r, f)
  }

  predicate Balanced(t: Tally, w: Marks) {
    |w.made| == |w.done| + t.noted + t.lost + t.since
  }

  lemma Balance(b: State, t: Tally, w: Marks, r: seq<Event>, f: seq<Event>)
    requires Both(b, t, w, r, f)
    ensures Balanced(t, w) && t.noted <= 1 && (b.core.pc == 56 || Applying(b.core.pc) ==> t.noted == 1)
  {
  }

  lemma BothStep(b: State, act: Act, t: Tally, w: Marks, r: seq<Event>, f: seq<Event>)
    requires Both(b, t, w, r, f) && Enabled(b, act) && Next(b, act).core.pc < 154
    ensures Both(Next(b, act), TallyNext(t, b, act), MarksNext(w, b, act), r, f)
  {
    if act.Cpu? { CpuKept(b, t, |r| - |f|); } else { HostKept(b, t, |r| - |f|, act); }
    CountedStep(b, act, w, r, f);
  }

  // ----- what the CPU loads

  predicate SideLoaded(pc: int) {
    Applying(pc) && pc >= 59
  }

  predicate QtyLoaded(pc: int) {
    Applying(pc) && pc >= 61
  }

  /** One instruction, as far as the two words of a report go. */
  predicate Loads(s: Core, s': Core) {
    && Ram(s) && Ram(s') && s'.mem[268] == s.mem[268] && s'.mem[269] == s.mem[269]
    && (SideLoaded(s'.pc) <==> s.pc == 58 || (SideLoaded(s.pc) && s.pc != 63 && s.pc != 65))
    && (QtyLoaded(s'.pc) <==> s.pc == 60 || (QtyLoaded(s.pc) && s.pc != 63 && s.pc != 65))
    && (SideLoaded(s'.pc) ==> s'.y == if s.pc == 58 then s.mem[268] else s.y)
    && (QtyLoaded(s'.pc) ==> s'.qty == if s.pc == 60 then s.mem[269] else s.qty)
  }

  lemma FillLoads(s: Core)
    requires Ram(s) && 56 <= s.pc < 68
    ensures Loads(s, CoreStep(s))
  {
    match s.pc
    case 56 => case 57 => case 58 => case 59 => case 60 => case 61 => case 62 => case 63 =>
    case 64 => case 65 => case 66 => case 67 =>
  }

  lemma FarLoads(s: Core, s': Core)
    requires Framed(s, s') && (46 <= s.pc < 56 || 68 <= s.pc < 154)
    ensures Loads(s, s')
  {
  }

  lemma CpuLoads(s: Core)
    requires Ram(s) && 46 <= s.pc < 154
    ensures Loads(s, CoreStep(s))
  {
    if 56 <= s.pc < 68 {
      FillLoads(s);
    } else {
      Frame(s);
      FarLoads(s, CoreStep(s));
    }
  }

  // ----- as long as no open report is touched

  /** The two words in memory: of the last report, or of the one being stored. */
  predicate Words(s: Core, r: Reporter, made: seq<Report>)
    requires Ram(s)
  {
    && (1 <= r.left <= 2 ==> s.mem[268] == r.side)
    && (r.left == 1 ==> s.mem[269] == r.qty)
    && (made != [] && (r.left == 0 || r.left == 3) ==> s.mem[268] == made[|made| - 1].side)
    && (made != [] && r.left != 1 ==> s.mem[269] == made[|made| - 1].qty)
  }

  /** Everything applied was reported in that order; a report is open until it has been loaded. */
  predicate Right(s: Core, r: Reporter, w: Marks)
    requires Ram(s)
  {
    var k, n := |w.done|, |w.made|;
    && 0 <= r.left <= 3 && Words(s, r, w.made)
    && k <= n <= k + (if QtyLoaded(s.pc) then 2 else 1)
    && w.side == (n == k + if SideLoaded(s.pc) then 2 else 1)
    && w.qty == (n == k + if QtyLoaded(s.pc) then 2 else 1)
    && (w.side ==> r.left == 0 || r.left == 3) && (w.qty ==> r.left != 1)
    && w.done == w.made[..k]
    && (SideLoaded(s.pc) ==> k < n && s.y == w.made[k].side)
    && (QtyLoaded(s.pc) ==> k < n && s.qty == w.made[k].qty)
  }

  lemma RightCpu(b: State, s': Core, w: Marks)
    requires Loads(b.core, s') && Right(b.core, b.reporter, w) && 46 <= b.core.pc
    requires Applying(b.core.pc) ==> |w.done| < |w.made|
    ensures Right(s', b.reporter, MarksNext(w, b, Cpu))
  {
  }

  lemma RightHost(b: State, act: Act, w: Marks)
    requires Ram(b.core) && Enabled(b, act) && !act.Cpu? && Right(b.core, b.reporter, w)
    requires !Overwrites(b, act, w.side, w.qty)
    ensures var b' := Next(b, act); Right(b'.core, b'.reporter, MarksNext(w, b, act))
  {
    if EffectOf(b, act).Put? {
      HostEffect(b, act);
    }
  }

  lemma RightStep(b: State, act: Act, t: Tally, w: Marks, r: seq<Event>, f: seq<Event>)
    requires Both(b, t, w, r, f) && Enabled(b, act) && Next(b, act).core.pc < 154
    requires Right(b.core, b.reporter, w) && !Overwrites(b, act, w.side, w.qty)
    ensures var b' := Next(b, act); Right(b'.core, b'.reporter, MarksNext(w, b, act))
  {
    Balance(b, t, w, r, f);
    if act.Cpu? {
      CpuLoads(b.core);
      RightCpu(b, CoreStep(b.core), w);
    } else {
      RightHost(b, act, w);
    }
  }

  /** While at most one report is made between two looks, none is passed over. */
  lemma NoneLost(b: State, act: Act, t: Tally, base: int)
    requires Kept(b, t, base) && t.lost == 0 && (b.core.pc == 53 ==> t.since <= 1)
    ensures TallyNext(t, b, act).lost == 0
  {
    if t.since == 1 {
      OneShows(t, b.reporter);
    }
  }

  lemma {:induction false} RightRun(b: State, acts: seq<Act>, t: Tally, w: Marks, r: seq<Event>, f: seq<Event>)
    requires Both(b, t, w, r, f) && t.lost == 0 && Right(b.core, b.reporter, w)
    requires Legal(b, acts) && StaysUp(b, acts) && Untouched(b, acts, w.side, w.qty)
    ensures var b', w' := Run(b, acts), MarksRun(w, b, acts);
            Both(b', TallyRun(t, b, acts), w', r, f) && Right(b'.core, b'.reporter, w') && TallyRun(t, b, acts).lost == 0
    decreases |acts|
  {
    if acts != [] {
      var act := acts[0];
      BothStep(b, act, t, w, r, f);
      RightStep(b, act, t, w, r, f);
      Balance(b, t, w, r, f);
      NoneLost(b, act, t, |r| - |f|);
      RightRun(Next(b, act), acts[1..], TallyNext(t, b, act), MarksNext(w, b, act), r, f);
    }
  }

  // ----- once an open report has been touched

  /** Of reports that vary, what is in memory tells which they are. */
  predicate Varied(r: Reporter, made: seq<Report>) {
    && (forall i :: 0 < i < |made| ==> made[i - 1].side != made[i].side && made[i - 1].qty != made[i].qty)
    && (made != [] ==>
          var last := made[|made| - 1];
          if r.left == 0 then r.side == last.side && r.qty == last.qty
          else r.side != last.side && r.qty != last.qty)
  }

  lemma VariedStep(b: State, act: Act, w: Marks)
    requires Ram(b.core) && Enabled(b, act) && 46 <= b.core.pc && Varied(b.reporter, w.made)
    requires act.FillBegin? ==> act.side != b.reporter.side && act.qty != b.reporter.qty
    ensures Varied(Next(b, act).reporter, MarksNext(w, b, act).made)
  {
  }

  /** How many reports' sides, and quantities, have been stored. */
  function Sides(r: Reporter, n: nat): nat {
    if 1 <= r.left <= 2 then n + 1 else n
  }

  function Qtys(r: Reporter, n: nat): nat {
    if r.left == 1 then n + 1 else n
  }

  /** A wrong fill has been applied or loaded, or the words have run ahead of the loads. */
  predicate Wrong(s: Core, r: Reporter, w: Marks) {
    var k, n := |w.done|, |w.made|;
    || (exists i :: 0 <= i < k && i < n && w.done[i] != w.made[i])
    || (SideLoaded(s.pc) && k < n && s.y != w.made[k].side)
    || (QtyLoaded(s.pc) && k < n && s.qty != w.made[k].qty)
    || Sides(r, n) >= k + (if SideLoaded(s.pc) then 3 else 2)
    || Qtys(r, n) >= k + (if QtyLoaded(s.pc) then 3 else 2)
  }

  /** Touching an open report is what goes wrong first. */
  lemma TouchedIsWrong(b: State, act: Act, w: Marks)
    requires Ram(b.core) && Enabled(b, act) && Right(b.core, b.reporter, w) && Overwrites(b, act, w.side, w.qty)
    ensures var b' := Next(b, act); Wrong(b'.core, b'.reporter, MarksNext(w, b, act))
  {
  }

  /** What the two words hold, of reports that vary. */
  predicate Stands(s: Core, r: Reporter, w: Marks)
    requires Ram(s)
  {
    && 0 <= r.left <= 3 && Words(s, r, w.made) && Varied(r, w.made) && |w.done| <= |w.made| <= |w.done| + 2
  }

  lemma SideMeets(s: Core, r: Reporter, w: Marks)
    requires Ram(s) && Stands(s, r, w) && |w.done| < |w.made| && Sides(r, |w.made|) == |w.done| + 2
    ensures s.mem[268] != w.made[|w.done|].side
  {
  }

  lemma QtyMeets(s: Core, r: Reporter, w: Marks)
    requires Ram(s) && Stands(s, r, w) && |w.done| < |w.made| && Qtys(r, |w.made|) == |w.done| + 2
    ensures s.mem[269] != w.made[|w.done|].qty
  {
  }

  lemma WrongCpu(b: State, s': Core, w: Marks)
    requires Loads(b.core, s') && Stands(b.core, b.reporter, w) && Wrong(b.core, b.reporter, w)
    requires Applying(b.core.pc) ==> |w.done| < |w.made|
    ensures Wrong(s', b.reporter, MarksNext(w, b, Cpu))
  {
    var k, n := |w.done|, |w.made|;
    var w' := MarksNext(w, b, Cpu);
    if i :| 0 <= i < k && i < n && w.done[i] != w.made[i] {
      assert w'.done[i] != w'.made[i];
    } else if Applies(b, Cpu) {
      assert w'.done[k] == Fill(b.core.y, b.core.qty) && w'.made == w.made;
    } else if b.core.pc == 58 && Sides(b.reporter, n) == k + 2 {
      SideMeets(b.core, b.reporter, w);
    } else if b.core.pc == 60 && Qtys(b.reporter, n) == k + 2 {
      QtyMeets(b.core, b.reporter, w);
    }
  }

  lemma WrongHost(b: State, act: Act, w: Marks)
    requires Ram(b.core) && Enabled(b, act) && !act.Cpu? && Wrong(b.core, b.reporter, w)
    ensures var b' := Next(b, act); Wrong(b'.core, b'.reporter, MarksNext(w, b, act))
  {
    var w' := MarksNext(w, b, act);
    if i :| 0 <= i < |w.done| && i < |w.made| && w.done[i] != w.made[i] {
      assert w'.done[i] != w'.made[i];
    }
  }

  lemma WordsStep(b: State, act: Act, w: Marks)
    requires Ram(b.core) && 46 <= b.core.pc < 154 && Enabled(b, act)
    requires 0 <= b.reporter.left <= 3 && Words(b.core, b.reporter, w.made)
    ensures var b' := Next(b, act); 0 <= b'.reporter.left <= 3 && Words(b'.core, b'.reporter, MarksNext(w, b, act).made)
  {
    if act.Cpu? {
      CpuLoads(b.core);
    } else if EffectOf(b, act).Put? {
      HostEffect(b, act);
    }
  }

  lemma WrongStep(b: State, act: Act, t: Tally, w: Marks, r: seq<Event>, f: seq<Event>)
    requires Both(b, t, w, r, f) && Enabled(b, act) && Next(b, act).core.pc < 154
    requires Excess(t) == 0 && Words(b.core, b.reporter, w.made) && Varied(b.reporter, w.made)
    requires Wrong(b.core, b.reporter, w)
    ensures var b' := Next(b, act); Wrong(b'.core, b'.reporter, MarksNext(w, b, act))
  {
    Balance(b, t, w, r, f);
    if act.Cpu? {
      CpuLoads(b.core);
      WrongCpu(b, CoreStep(b.core), w);
    } else {
      WrongHost(b, act, w);
    }
  }

  /** Once wrong, always wrong, if no report is passed over. */
  lemma {:induction false} WrongRun(b: State, acts: seq<Act>, t: Tally, w: Marks, r: seq<Event>, f: seq<Event>)
    requires Both(b, t, w, r, f) && Words(b.core, b.reporter, w.made) && Varied(b.reporter, w.made)
    requires Wrong(b.core, b.reporter, w)
    requires Legal(b, acts) && StaysUp(b, acts) && Varies(b, acts) && Excess(TallyRun(t, b, acts)) == 0
    ensures var b' := Run(b, acts); Wrong(b'.core, b'.reporter, MarksRun(w, b, acts))
    decreases |acts|
  {
    if acts != [] {
      var act := acts[0];
      ExcessGrows(t, b, acts);
      WrongStep(b, act, t, w, r, f);
      BothStep(b, act, t, w, r, f);
      WordsStep(b, act, w);
      VariedStep(b, act, w);
      WrongRun(Next(b, act), acts[1..], TallyNext(t, b, act), MarksNext(w, b, act), r, f);
    }
  }

  /** If an open report is touched, something is wrong from then on. */
  lemma {:induction false} TouchedRun(b: State, acts: seq<Act>, t: Tally, w: Marks, r: seq<Event>, f: seq<Event>)
    requires Both(b, t, w, r, f) && Right(b.core, b.reporter, w) && Varied(b.reporter, w.made)
    requires Legal(b, acts) && StaysUp(b, acts) && Varies(b, acts) && Excess(TallyRun(t, b, acts)) == 0
    requires !Untouched(b, acts, w.side, w.qty)
    ensures var b' := Run(b, acts); Wrong(b'.core, b'.reporter, MarksRun(w, b, acts))
    decreases |acts|
  {
    var act := acts[0];
    var b1, t1, w1 := Next(b, act), TallyNext(t, b, act), MarksNext(w, b, act);
    BothStep(b, act, t, w, r, f);
    VariedStep(b, act, w);
    if Overwrites(b, act, w.side, w.qty) {
      TouchedIsWrong(b, act, w);
      WordsStep(b, act, w);
      WrongRun(b1, acts[1..], t1, w1, r, f);
    } else {
      RightStep(b, act, t, w, r, f);
      TouchedRun(b1, acts[1..], t1, w1, r, f);
    }
  }

  // ----- the fills themselves

  /** The fills applied between the two moments are the reports made between them, in order. */
  predicate AppliedAsReported(b: State, b': State) {
    && |b.reporter.reported| <= |b'.reporter.reported|
    && FillsOf(b'.log.events) == FillsOf(b.log.events) + b'.reporter.reported[|b.reporter.reported|..]
  }

  lemma SameFills(b: State, b': State, w: Marks)
    requires Counted(b', w, b.reporter.reported, FillsOf(b.log.events))
    ensures AppliedAsReported(b, b') <==> w.done == w.made
    ensures Gap(b') - Gap(b) == |w.made| - |w.done|
  {
    var r, f := b.reporter.reported, FillsOf(b.log.events);
    assert b'.reporter.reported[|r|..] == w.made;
    assert (f + w.done)[|f|..] == w.done && (f + w.made)[|f|..] == w.made;
  }

  /** Nothing waits and nothing was passed over: as many fills as reports, none half loaded. */
  lemma NoneLeft(b: State, t: Tally, w: Marks, r: seq<Event>, f: seq<Event>)
    requires Both(b, t, w, r, f) && NothingWaits(b.core) && t.lost == 0 && t.since <= 1
    ensures Excess(t) == 0 && |w.made| == |w.done|
  {
    if t.since == 1 {
      OneShows(t, b.reporter);
    }
  }

  /** At the start nothing has been reported or applied. */
  lemma BothBegins(b: State, t: Tally, w: Marks)
    requires NothingWaits(b.core) && ReporterOk(b.core, b.reporter)
    requires t == Tally(b.core.seen, 0, 0, 0) && w == Marks([], [], false, false)
    ensures Both(b, t, w, b.reporter.reported, FillsOf(b.log.events))
    ensures Right(b.core, b.reporter, w) && Varied(b.reporter, w.made)
  {
  }

  lemma {:induction false} UntouchedApplies(b: State, acts: seq<Act>)
    requires NothingWaits(b.core) && ReporterOk(b.core, b.reporter)
    requires Legal(b, acts) && StaysUp(b, acts) && NothingWaits(Run(b, acts).core)
    requires Untouched(b, acts, false, false)
    ensures AppliedAsReported(b, Run(b, acts))
  {
    var t, w := Tally(b.core.seen, 0, 0, 0), Marks([], [], false, false);
    var r, f := b.reporter.reported, FillsOf(b.log.events);
    BothBegins(b, t, w);
    RightRun(b, acts, t, w, r, f);
    var b', t', w' := Run(b, acts), TallyRun(t, b, acts), MarksRun(w, b, acts);
    Balance(b', t', w', r, f);
    NoneLeft(b', t', w', r, f);
    SameFills(b, b', w');
  }

  lemma {:induction false} AppliesUntouched(b: State, acts: seq<Act>)
    requires NothingWaits(b.core) && ReporterOk(b.core, b.reporter)
    requires Legal(b, acts) && StaysUp(b, acts) && NothingWaits(Run(b, acts).core)
    requires Varies(b, acts) && AppliedAsReported(b, Run(b, acts))
    ensures Untouched(b, acts, false, false)
  {
    var t, w := Tally(b.core.seen, 0, 0, 0), Marks([], [], false, false);
    var r, f := b.reporter.reported, FillsOf(b.log.events);
    BothBegins(b, t, w);
    CountedRun(b, acts, w, r, f);
    RunKept(b, t, |r| - |f|, acts);
    var b', t', w' := Run(b, acts), TallyRun(t, b, acts), MarksRun(w, b, acts);
    SameFills(b, b', w');
    AllLooked(b', t', |r| - |f|);
    if !Untouched(b, acts, false, false) {
      TouchedRun(b, acts, t, w, r, f);
      NoneWrong(b', t', w', r, f);
    }
  }

  lemma NoneWrong(b: State, t: Tally, w: Marks, r: seq<Event>, f: seq<Event>)
    requires Both(b, t, w, r, f) && NothingWaits(b.core) && Excess(t) == 0 && w.done == w.made
    ensures !Wrong(b.core, b.reporter, w)
  {
  }

  /**
    Between restarts, from one moment at which nothing waits to another.  If no open
    report is touched, the fills applied are the reports made, in order, and the CPU
    looked between every two of them.  If successive reports differ in side and in
    quantity, the fills are those reported only if no open report is touched.
   */
  lemma {:induction false} FillsExact(b: State, acts: seq<Act>)
    requires NothingWaits(b.core) && ReporterOk(b.core, b.reporter)
    requires Legal(b, acts) && StaysUp(b, acts) && NothingWaits(Run(b, acts).core)
    ensures Untouched(b, acts, false, false) ==> AppliedAsReported(b, Run(b, acts)) && LooksBetween(b, acts, false)
    ensures Varies(b, acts) ==> (AppliedAsReported(b, Run(b, acts)) <==> Untouched(b, acts, false, false))
  {
    if Untouched(b, acts, false, false) {
      UntouchedApplies(b, acts);
      CountExact(b, acts);
      assert Gap(Run(b, acts)) == Gap(b);
    } else if Varies(b, acts) && AppliedAsReported(b, Run(b, acts)) {
      AppliesUntouched(b, acts);
    }
  }
}
