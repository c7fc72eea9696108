/**
  Fill reports and looks.  Between restarts, and whenever nothing is waiting, as many
  fills have been applied as reported if and only if the CPU looked at FILL_SEQ
  between every two reports.  A host can tell from HEARTBEAT that it has.
 */
module Reports {
  import opened Isa
  import opened Program
  import opened TradingCore
  import opened Flow
  import opened Safety
  import opened Strategy
  import opened Board
  import opened Fills
  import opened System

  /** In the loop, from the first act to the last. */
  predicate StaysUp(b: State, acts: seq<Act>)
    requires Ram(b.core) && Legal(b, acts)
    decreases |acts|
  {
    46 <= b.core.pc < 154 && (acts != [] ==> StaysUp(Next(b, acts[0]), acts[1..]))
  }

  /** The act stores FILL_SEQ, which is what makes a report. */
  predicate MakesReport(b: State, act: Act) {
    act.FillNext? && b.reporter.left == 1
  }

  /** The act is the CPU's look at FILL_SEQ. */
  predicate Looks(b: State, act: Act) {
    act.Cpu? && b.core.pc == 53
  }

  /** No two reports without a look between them; `waiting` if one was just made. */
  predicate LooksBetween(b: State, acts: seq<Act>, waiting: bool)
    requires Ram(b.core) && Legal(b, acts)
    decreases |acts|
  {
    acts == [] ||
    (var b1, act := Next(b, acts[0]), acts[0];
     if MakesReport(b, act) then !waiting && LooksBetween(b1, acts[1..], true)
     else LooksBetween(b1, acts[1..], waiting && !Looks(b, act)))
  }

  // ----- a tally

  /**
    FILL_SEQ as last looked at, the reports made since, whether a look has found
    something not yet applied, and how many reports looks have passed over.
   */
  datatype Tally = Tally(last: Word, since: nat, noted: nat, lost: nat)

  function TallyNext(t: Tally, b: State, act: Act): Tally {
    if MakesReport(b, act) then t.(since := t.since + 1)
    else if Looks(b, act) then
      var noted := if b.reporter.seq0 != t.last && t.since > 0 then 1 else 0;
      Tally(b.reporter.seq0, 0, noted, t.lost + t.since - noted)
    else if act.Cpu? && (b.core.pc == 63 || b.core.pc == 65) then t.(noted := 0)
    else t
  }

  function TallyRun(t: Tally, b: State, acts: seq<Act>): Tally
    requires Ram(b.core) && Legal(b, acts)
    decreases |acts|
  {
    if acts == [] then t else TallyRun(TallyNext(t, b, acts[0]), Next(b, acts[0]), acts[1..])
  }

  /** The machine's registers say what the tally says. */
  predicate Tallies(s: Core, t: Tally) {
    && Ram(s) && 46 <= s.pc < 154
    && (if 54 <= s.pc <= 55 then s.y == t.last && t.noted == (if t.last != s.seen then 1 else 0)
        else if s.pc == 56 then s.y == t.last && t.noted == 1
        else s.seen == t.last && t.noted == (if Applying(s.pc) then 1 else 0))
    && (s.pc == 55 ==> s.taken == (s.y == s.seen))
  }

  /** The counter is as many reports past the last look, modulo 2^32. */
  predicate Apart(t: Tally, r: Reporter) {
    t.last == U32(r.seq0 - t.since)
  }

  /** Reports made less fills applied. */
  function Gap(b: State): int {
    |b.reporter.reported| - |FillsOf(b.log.events)|
  }

  predicate Kept(b: State, t: Tally, base: int) {
    && Tallies(b.core, t) && ReporterOk(b.core, b.reporter) && Apart(t, b.reporter)
    && Gap(b) == base + t.noted + t.lost + t.since
  }

  lemma HeadTallies(s: Core, t: Tally)
    requires Tallies(s, t) && 46 <= s.pc < 56 && s.pc != 53 && CoreStep(s).pc < 154
    ensures Tallies(CoreStep(s), t)
  {
    match s.pc
    case 46 => case 47 => case 48 => case 49 => case 50 => case 51 => case 52 => case 54 => case 55 =>
  }

  lemma LookTallies(s: Core, t: Tally, seq0: Word)
    requires Tallies(s, t) && s.pc == 53 && s.mem[267] == seq0
    ensures Tallies(CoreStep(s), Tally(seq0, 0, if seq0 != t.last then 1 else 0, t.lost))
  {
  }

  lemma FillTallies(s: Core, t: Tally)
    requires Tallies(s, t) && 56 <= s.pc < 68
    ensures Tallies(CoreStep(s), if s.pc == 63 || s.pc == 65 then t.(noted := 0) else t)
  {
    match s.pc
    case 56 => case 57 => case 58 => case 59 => case 60 => case 61 => case 62 => case 63 =>
    case 64 => case 65 => case 66 => case 67 =>
  }

  lemma FarTallies(s: Core, s': Core, t: Tally)
    requires Framed(s, s') && Tallies(s, t) && 68 <= s.pc && s'.pc < 154
    ensures Tallies(s', t)
  {
  }

  lemma SameTallies(t: Tally, lost: nat, s: Core)
    requires Tallies(s, t)
    ensures Tallies(s, t.(lost := lost)) && forall n: nat :: Tallies(s, t.(since := n))
  {
  }

  /** Nothing has been reported since a look that finds the same number. */
  lemma NothingSince(t: Tally, r: Reporter)
    requires Apart(t, r) && t.since == 0
    ensures t.last == r.seq0
  {
  }

  lemma CpuKept(b: State, t: Tally, base: int)
    requires Kept(b, t, base) && Next(b, Cpu).core.pc < 154
    ensures Kept(Next(b, Cpu), TallyNext(t, b, Cpu), base)
  {
    var s := b.core;
    Frame(s);
    CpuReporter(s, CoreStep(s), b.reporter);
    FillsSteps(s, b.log, Published(b.ticker));
    if s.pc == 53 {
      LookTallies(s, t, b.reporter.seq0);
      if t.since == 0 {
        NothingSince(t, b.reporter);
      }
      SameTallies(Tally(b.reporter.seq0, 0, if b.reporter.seq0 != t.last then 1 else 0, t.lost), TallyNext(t, b, Cpu).lost, CoreStep(s));
    } else if s.pc < 56 {
      HeadTallies(s, t);
    } else if s.pc < 68 {
      FillTallies(s, t);
    } else {
      FarTallies(s, CoreStep(s), t);
    }
  }

  lemma OneFurther(seq0: Word, since: nat)
    ensures U32(U32(seq0 + 1) - (since + 1)) == U32(seq0 - since)
  {
  }

  lemma HostKept(b: State, t: Tally, base: int, act: Act)
    requires Kept(b, t, base) && Enabled(b, act) && !act.Cpu?
    ensures Kept(Next(b, act), TallyNext(t, b, act), base)
  {
    if EffectOf(b, act).Put? {
      HostEffect(b, act);
    }
    OneFurther(b.reporter.seq0, t.since);
  }

  lemma {:induction false} RunKept(b: State, t: Tally, base: int, acts: seq<Act>)
    requires Kept(b, t, base) && Legal(b, acts) && StaysUp(b, acts)
    ensures Kept(Run(b, acts), TallyRun(t, b, acts), base)
    decreases |acts|
  {
    if acts != [] {
      if acts[0].Cpu? { CpuKept(b, t, base); } else { HostKept(b, t, base, acts[0]); }
      RunKept(Next(b, acts[0]), TallyNext(t, b, acts[0]), base, acts[1..]);
    }
  }

  // ----- lost reports and looks

  /** Reports passed over, or sure to be. */
  function Excess(t: Tally): nat {
    t.lost + if t.since >= 2 then t.since - 1 else 0
  }

  lemma {:induction false} ExcessGrows(t: Tally, b: State, acts: seq<Act>)
    requires Ram(b.core) && Legal(b, acts)
    ensures Excess(TallyRun(t, b, acts)) >= Excess(t)
    decreases |acts|
  {
    if acts != [] {
      ExcessGrows(TallyNext(t, b, acts[0]), Next(b, acts[0]), acts[1..]);
    }
  }

  /** No report is passed over if and only if there is a look between every two. */
  lemma {:induction false} LooksIff(t: Tally, b: State, acts: seq<Act>)
    requires Ram(b.core) && Legal(b, acts) && t.since <= 1 && (t.since == 1 ==> t.last != b.reporter.seq0)
    requires SinceNoted(t, b, acts)
    ensures LooksBetween(b, acts, t.since == 1) <==> Excess(TallyRun(t, b, acts)) == t.lost
    decreases |acts|
  {
    if acts != [] {
      var b1, act := Next(b, acts[0]), acts[0];
      var t1 := TallyNext(t, b, act);
      if MakesReport(b, act) && t.since == 1 {
        ExcessGrows(t1, b1, acts[1..]);
      } else {
        LooksIff(t1, b1, acts[1..]);
      }
    }
  }

  /** Along the run, one report since the last look always shows. */
  predicate SinceNoted(t: Tally, b: State, acts: seq<Act>)
    requires Ram(b.core) && Legal(b, acts)
    decreases |acts|
  {
    && (t.since == 1 ==> t.last != b.reporter.seq0)
    && (acts != [] ==> SinceNoted(TallyNext(t, b, acts[0]), Next(b, acts[0]), acts[1..]))
  }

  lemma OneShows(t: Tally, r: Reporter)
    requires Apart(t, r) && t.since == 1
    ensures t.last != r.seq0
  {
  }

  lemma {:induction false} KeptNotes(b: State, t: Tally, base: int, acts: seq<Act>)
    requires Kept(b, t, base) && Legal(b, acts) && StaysUp(b, acts)
    ensures SinceNoted(t, b, acts)
    decreases |acts|
  {
    if t.since == 1 {
      OneShows(t, b.reporter);
    }
    if acts != [] {
      if acts[0].Cpu? { CpuKept(b, t, base); } else { HostKept(b, t, base, acts[0]); }
      KeptNotes(Next(b, acts[0]), TallyNext(t, b, acts[0]), base, acts[1..]);
    }
  }

  // ----- the count

  /** FILL_SEQ is the number consumed and no fill is under way. */
  predicate NothingWaits(s: Core) {
    && Ram(s) && 46 <= s.pc < 154 && s.seen == s.mem[267]
    && !(54 <= s.pc <= 56) && !Applying(s.pc)
  }

  /**
    Between restarts, from one moment at which nothing waits to another: as many fills
    were applied as reported if and only if the CPU looked between every two reports.
   */
  lemma {:induction false} CountExact(b: State, acts: seq<Act>)
    requires NothingWaits(b.core) && ReporterOk(b.core, b.reporter)
    requires Legal(b, acts) && StaysUp(b, acts) && NothingWaits(Run(b, acts).core)
    ensures Gap(Run(b, acts)) == Gap(b) <==> LooksBetween(b, acts, false)
  {
    var t := Tally(b.core.seen, 0, 0, 0);
    RunKept(b, t, Gap(b), acts);
    KeptNotes(b, t, Gap(b), acts);
    LooksIff(t, b, acts);
    AllLooked(Run(b, acts), TallyRun(t, b, acts), Gap(b));
  }

  lemma AllLooked(b: State, t: Tally, base: int)
    requires Kept(b, t, base) && NothingWaits(b.core)
    ensures Gap(b) == base <==> Excess(t) == 0
  {
    if t.since == 1 {
      OneShows(t, b.reporter);
    }
  }

  // ----- what HEARTBEAT tells the host

  /** The CPU stores HEARTBEAT. */
  function Beats(b: State, acts: seq<Act>): nat
    requires Ram(b.core) && Legal(b, acts)
    decreases |acts|
  {
    if acts == [] then 0
    else (if acts[0].Cpu? && b.core.pc == 47 then 1 else 0) + Beats(Next(b, acts[0]), acts[1..])
  }

  /** The host makes no report. */
  predicate NoReport(acts: seq<Act>) {
    forall i :: 0 <= i < |acts| ==> !acts[i].FillBegin? && !acts[i].FillNext?
  }

  /** The word shows the CPU's count, `h` when the host looked and `beats` more since. */
  predicate InStep(s: Core, h: int, beats: nat) {
    && Ram(s) && 46 <= s.pc < 154 && s.mem[320] == U32(h + beats)
    && s.beat == (if s.pc == 47 then U32(h + beats + 1) else U32(h + beats))
  }

  /** Where the CPU can be while a report is still waiting, so many beats later. */
  predicate Pursued(s: Core, r: Reporter, f: seq<Event>, beats: nat) {
    beats >= 1 && |r.reported| == |f| + 1 ==>
      && beats == 1
      && (48 <= s.pc <= 53 || (54 <= s.pc <= 55 && s.y == r.seq0) || s.pc == 56 || Applying(s.pc))
  }

  lemma BeatInStep(s: Core, h: int, beats: nat)
    requires InStep(s, h, beats) && CoreStep(s).pc < 154
    ensures InStep(CoreStep(s), h, if s.pc == 47 then beats + 1 else beats)
  {
    Wraps(h + beats);
    if s.pc != 46 && s.pc != 47 {
      Frame(s);
      FarInStep(s, CoreStep(s), h, beats);
    }
  }

  lemma Wraps(v: int)
    ensures U32(U32(v) + 1) == U32(v + 1)
  {
  }

  lemma FarInStep(s: Core, s': Core, h: int, beats: nat)
    requires Framed(s, s') && InStep(s, h, beats) && s.pc != 46 && s.pc != 47 && s'.pc < 154
    ensures InStep(s', h, beats)
  {
  }

  lemma HeadPursued(s: Core, r: Reporter, f: seq<Event>, beats: nat)
    requires Ram(s) && ReporterOk(s, r) && Tracks(s, r, f) && Pursued(s, r, f, beats) && 46 <= s.pc < 56
    requires CoreStep(s).pc < 154
    ensures Pursued(CoreStep(s), r, f, if s.pc == 47 then beats + 1 else beats)
  {
    NeverSame(r.seq0);
    match s.pc
    case 46 => case 47 => case 48 => case 49 => case 50 => case 51 => case 52 => case 53 =>
    case 54 => case 55 =>
  }

  lemma NeverSame(w: Word)
    ensures U32(w - 1) != w
  {
  }

  lemma FillPursued(s: Core, r: Reporter, f: seq<Event>, beats: nat)
    requires Ram(s) && Tracks(s, r, f) && Pursued(s, r, f, beats) && 56 <= s.pc < 68
    ensures Pursued(CoreStep(s), r, FillsStep(s, f), beats)
  {
    match s.pc
    case 56 => case 57 => case 58 => case 59 => case 60 => case 61 => case 62 => case 63 =>
    case 64 => case 65 => case 66 => case 67 =>
  }

  lemma CpuPursued(s: Core, r: Reporter, f: seq<Event>, beats: nat)
    requires Ram(s) && ReporterOk(s, r) && Tracks(s, r, f) && Pursued(s, r, f, beats)
    requires 46 <= s.pc < 154 && CoreStep(s).pc < 154
    ensures Pursued(CoreStep(s), ReporterNext(r, s, Cpu), FillsStep(s, f), if s.pc == 47 then beats + 1 else beats)
  {
    if s.pc < 56 { HeadPursued(s, r, f, beats); }
    else if s.pc < 68 { FillPursued(s, r, f, beats); }
  }

  /** What the host can rely on while it watches the word. */
  predicate Watched(b: State, h: int, beats: nat) {
    && Tracked(b.core, b.log, b.reporter) && Probed(b.core)
    && InStep(b.core, h, beats) && Pursued(b.core, b.reporter, FillsOf(b.log.events), beats)
  }

  lemma WatchStep(b: State, act: Act, h: int, beats: nat)
    requires Watched(b, h, beats) && Enabled(b, act) && !act.FillBegin? && !act.FillNext?
    requires Next(b, act).core.pc < 154
    ensures Watched(Next(b, act), h, if act.Cpu? && b.core.pc == 47 then beats + 1 else beats)
  {
    NextTracked(b, act);
    if act.Cpu? {
      BeatInStep(b.core, h, beats);
      FillsSteps(b.core, b.log, Published(b.ticker));
      CpuPursued(b.core, b.reporter, FillsOf(b.log.events), beats);
    } else if EffectOf(b, act).Put? {
      HostEffect(b, act);
    }
  }

  lemma {:induction false} WatchRun(b: State, acts: seq<Act>, h: int, beats: nat)
    requires Watched(b, h, beats) && NoReport(acts) && Legal(b, acts) && StaysUp(b, acts)
    ensures Watched(Run(b, acts), h, beats + Beats(b, acts))
    decreases |acts|
  {
    if acts != [] {
      WatchStep(b, acts[0], h, beats);
      WatchRun(Next(b, acts[0]), acts[1..], h, if acts[0].Cpu? && b.core.pc == 47 then beats + 1 else beats);
    }
  }

  lemma TwoBeats(h: Word, w: Word, n: nat)
    requires w == U32(h + n) && w != h && w != U32(h + 1)
    ensures n >= 2
  {
  }

  lemma Caught(s: Core, r: Reporter, f: seq<Event>, beats: nat)
    requires Ram(s) && 46 <= s.pc && Tracks(s, r, f) && Pursued(s, r, f, beats) && beats >= 2
    ensures |r.reported| == |f|
  {
  }

  /** The CPU's count and the HEARTBEAT word agree, as they do from the first beat after a start on. */
  predicate BeatShown(s: Core, h: Word) {
    Ram(s) && s.mem[320] == h && s.beat == if s.pc == 47 then U32(h + 1) else h
  }

  /**
    A host that has made a report reads HEARTBEAT as `h` and then waits, without a
    further report or a restart.  Once HEARTBEAT reads anything but `h` or the next
    value, the report has been applied and the next may begin.
   */
  lemma {:induction false} HeartbeatTells(b: State, acts: seq<Act>, h: Word, w: Word, side: Word, qty: Word)
    requires Probed(b.core) && Tracked(b.core, b.log, b.reporter) && NoReport(acts)
    requires Legal(b, acts) && StaysUp(b, acts) && BeatShown(b.core, h)
    requires Run(b, acts).core.mem[320] == w && w != h && w != U32(h + 1)
    ensures Gap(Run(b, acts)) == 0 && Patient(Run(b, acts), FillBegin(side, qty))
  {
    WatchBegins(b, h);
    WatchRun(b, acts, h, 0);
    var b', n := Run(b, acts), Beats(b, acts);
    TwoBeats(h, w, n);
    Caught(b'.core, b'.reporter, FillsOf(b'.log.events), n);
  }

  lemma WatchBegins(b: State, h: Word)
    requires BeatShown(b.core, h) && 46 <= b.core.pc < 154
    ensures InStep(b.core, h, 0) && Pursued(b.core, b.reporter, FillsOf(b.log.events), 0)
  {
  }
}
