/**
  The host program and the board together.  A fill the program books is reported to
  the fabric, and a refusal for good clears CFG_ENABLE; everything else on the board
  happens in between.
 */
module Joint {
  import opened Isa
  import opened CpuModel
  import opened TradingCore
  import opened Safety
  import opened Strategy
  import opened Board
  import opened Fills
  import opened System
  import opened Results
  import Reports
  import Compose
  import KillSwitch
  import App
  import Exec
  import Risk

  datatype Pair = Pair(desk: App.Desk, board: State)

  datatype JointAct = Program(h: App.Happening) | OnBoard(act: Act)

  datatype Response = Quiet | Does(act: Act)

  /** What the program does to the board when something happens to it. */
  function Reaction(d: App.Desk, cfg: Exec.Settings, h: App.Happening): Response
    requires App.Wellformed(d) && App.Possible(h)
  {
    match h
    case Broker(e) =>
      var report := Exec.Step(d.orders, cfg, e).1;
      if report.None? then Quiet
      else
        App.OneLot(d.orders, cfg, e);
        Does(FillBegin(App.SideOf(report.value), report.value.qty))
    case Decided(side, at) =>
      var verdict := Risk.Check(d.risk, at.feedAgeUs).1;
      if (side == BUY || side == SELL) && (verdict.LossLimit? || verdict.Halted?) then Does(Store(263, 0)) else Quiet
    case Quoted(_, _, _) => Quiet
  }

  /** What one joint act does on the board; only the program reports fills and switches trading. */
  function OnBoardOf(p: Pair, cfg: Exec.Settings, j: JointAct): Response
    requires App.Wellformed(p.desk) && (j.Program? ==> App.Possible(j.h))
  {
    if j.Program? then Reaction(p.desk, cfg, j.h) else Does(j.act)
  }

  function ActsOf(r: Response): seq<Act> {
    if r.Quiet? then [] else [r.act]
  }

  predicate Fits(p: Pair, cfg: Exec.Settings, j: JointAct) {
    && App.Wellformed(p.desk) && Ram(p.board.core)
    && (j.Program? ==> App.Possible(j.h))
    && (j.OnBoard? ==> !j.act.FillBegin? && !(j.act.Store? && j.act.a == 263))
    && var r := OnBoardOf(p, cfg, j); (r.Does? ==> Enabled(p.board, r.act))
  }

  function Next2(p: Pair, cfg: Exec.Settings, j: JointAct): (p': Pair)
    requires Fits(p, cfg, j)
    ensures App.Wellformed(p'.desk) && Ram(p'.board.core)
  {
    var r := OnBoardOf(p, cfg, j);
    Pair(if j.Program? then App.Step(p.desk, cfg, true, j.h) else p.desk,
         if r.Does? then Next(p.board, r.act) else p.board)
  }

  predicate LegalPair(p: Pair, cfg: Exec.Settings, js: seq<JointAct>)
    decreases |js|
  {
    js == [] || (Fits(p, cfg, js[0]) && LegalPair(Next2(p, cfg, js[0]), cfg, js[1..]))
  }

  function RunPair(p: Pair, cfg: Exec.Settings, js: seq<JointAct>): Pair
    requires LegalPair(p, cfg, js)
    decreases |js|
  {
    if js == [] then p else RunPair(Next2(p, cfg, js[0]), cfg, js[1..])
  }

  /** All acts on the board in a joint run. */
  function BoardActs(p: Pair, cfg: Exec.Settings, js: seq<JointAct>): seq<Act>
    requires LegalPair(p, cfg, js)
    decreases |js|
  {
    if js == [] then [] else ActsOf(OnBoardOf(p, cfg, js[0])) + BoardActs(Next2(p, cfg, js[0]), cfg, js[1..])
  }

  lemma StepProjects(p: Pair, cfg: Exec.Settings, j: JointAct)
    requires Fits(p, cfg, j)
    ensures var acts := ActsOf(OnBoardOf(p, cfg, j));
            Legal(p.board, acts) && Run(p.board, acts) == Next2(p, cfg, j).board
  {
    var r := OnBoardOf(p, cfg, j);
    if r.Does? {
      assert [r.act][1..] == [];
    }
  }

  /** The board of a joint run is a run of the board. */
  lemma {:induction false} RunProjects(p: Pair, cfg: Exec.Settings, js: seq<JointAct>)
    requires Ram(p.board.core) && LegalPair(p, cfg, js)
    ensures Legal(p.board, BoardActs(p, cfg, js))
    ensures Run(p.board, BoardActs(p, cfg, js)) == RunPair(p, cfg, js).board
    decreases |js|
  {
    if js != [] {
      var p1 := Next2(p, cfg, js[0]);
      StepProjects(p, cfg, js[0]);
      RunProjects(p1, cfg, js[1..]);
      Compose.RunConcat(p.board, ActsOf(OnBoardOf(p, cfg, js[0])), BoardActs(p1, cfg, js[1..]));
    }
  }

  // ----- the positions

  function LotsOf(side: Word, qty: int): int {
    if side == BOUGHT then qty else -qty
  }

  /** What the fabric has been told, or is being told. */
  function Told(r: Reporter): int {
    Net(r.reported) + if r.left > 0 then LotsOf(r.side, r.qty) else 0
  }

  /** The program's books and what it told the fabric differ by where the fabric started. */
  predicate Linked(p: Pair, start: int) {
    p.desk.risk.position == start + Told(p.board.reporter)
  }

  lemma {:induction false} NetSnoc(fills: seq<Event>, side: Word, qty: Word)
    ensures Net(fills + [Fill(side, qty)]) == Net(fills) + LotsOf(side, qty)
  {
    assert (fills + [Fill(side, qty)])[..|fills|] == fills;
  }

  /** The board alone moves a report along but never changes what is told. */
  lemma BoardLinked(b: State, act: Act)
    requires Ram(b.core) && Enabled(b, act) && !act.FillBegin? && 46 <= b.core.pc
    ensures Told(Next(b, act).reporter) == Told(b.reporter)
  {
    if act.FillNext? {
      NetSnoc(b.reporter.reported, b.reporter.side, b.reporter.qty);
    }
  }

  /** A booked fill moves both by one lot. */
  lemma FillLinked(p: Pair, cfg: Exec.Settings, h: App.Happening)
    requires Fits(p, cfg, Program(h)) && h.Broker?
    ensures var p' := Next2(p, cfg, Program(h));
            p'.desk.risk.position - Told(p'.board.reporter) == p.desk.risk.position - Told(p.board.reporter)
  {
    var (orders, report) := Exec.Step(p.desk.orders, cfg, h.event);
    if report.Some? {
      App.OneLot(p.desk.orders, cfg, h.event);
    }
  }

  lemma OtherLinked(p: Pair, cfg: Exec.Settings, h: App.Happening)
    requires Fits(p, cfg, Program(h)) && !h.Broker?
    ensures var p' := Next2(p, cfg, Program(h));
            p'.desk.risk.position == p.desk.risk.position && p'.board.reporter == p.board.reporter
  {
  }

  /** The CPU is in its loop throughout. */
  predicate StaysUp(p: Pair, cfg: Exec.Settings, js: seq<JointAct>)
    requires LegalPair(p, cfg, js)
    decreases |js|
  {
    46 <= p.board.core.pc < 154 && (js != [] ==> StaysUp(Next2(p, cfg, js[0]), cfg, js[1..]))
  }

  lemma {:induction false} RunLinked(p: Pair, cfg: Exec.Settings, js: seq<JointAct>, start: int)
    requires LegalPair(p, cfg, js) && StaysUp(p, cfg, js) && Linked(p, start)
    ensures Linked(RunPair(p, cfg, js), start)
    decreases |js|
  {
    if js != [] {
      match js[0] {
        case OnBoard(act) => BoardLinked(p.board, act);
        case Program(h) => if h.Broker? { FillLinked(p, cfg, h); } else { OtherLinked(p, cfg, h); }
      }
      RunLinked(Next2(p, cfg, js[0]), cfg, js[1..], start);
    }
  }

  /**
    Three position keepers agree.  From a board that started from the program's position
    and patient reports: whenever every report is applied, POSITION is the risk
    position, which is the software strategy's, modulo 2^32.
   */
  lemma {:induction false} PositionsMeet(p: Pair, cfg: Exec.Settings, js: seq<JointAct>, start: int, acts: seq<Act>, p': Pair)
    requires Inv(p.board) && Tracked(p.board.core, p.board.log, p.board.reporter)
    requires LegalPair(p, cfg, js) && StaysUp(p, cfg, js) && Linked(p, start) && App.Agreed(p.desk)
    requires acts == BoardActs(p, cfg, js) && Legal(p.board, acts) && PatientRun(p.board, acts)
    requires p' == RunPair(p, cfg, js) && U32(start) == p'.board.log.start
    requires p'.board.reporter.left == 0 && Reports.Gap(p'.board) == 0 && !(64 <= p'.board.core.pc <= 67)
    ensures Ram(p'.board.core) && p'.board.core.mem[324] == U32(p'.desk.risk.position)
    ensures p'.desk.risk.position == p'.desk.soft.position
  {
    RunProjects(p, cfg, js);
    RunInv(p.board, acts);
    RunTracked(p.board, acts);
    RunLinked(p, cfg, js, start);
    RunAgreed(p, cfg, js);
    UpAtEnd(p, cfg, js);
    AllApplied(p', start);
  }

  lemma {:induction false} UpAtEnd(p: Pair, cfg: Exec.Settings, js: seq<JointAct>)
    requires LegalPair(p, cfg, js) && StaysUp(p, cfg, js)
    ensures 46 <= RunPair(p, cfg, js).board.core.pc < 154
    decreases |js|
  {
    if js != [] {
      UpAtEnd(Next2(p, cfg, js[0]), cfg, js[1..]);
    }
  }

  lemma {:induction false} RunAgreed(p: Pair, cfg: Exec.Settings, js: seq<JointAct>)
    requires LegalPair(p, cfg, js) && App.Agreed(p.desk)
    ensures App.Agreed(RunPair(p, cfg, js).desk)
    decreases |js|
  {
    if js != [] {
      if js[0].Program? {
        App.StepAgreed(p.desk, cfg, true, js[0].h);
      }
      RunAgreed(Next2(p, cfg, js[0]), cfg, js[1..]);
    }
  }

  lemma AllApplied(p: Pair, start: int)
    requires Inv(p.board) && Tracked(p.board.core, p.board.log, p.board.reporter) && 46 <= p.board.core.pc < 154
    requires Linked(p, start) && U32(start) == p.board.log.start
    requires p.board.reporter.left == 0 && Reports.Gap(p.board) == 0 && !(64 <= p.board.core.pc <= 67)
    ensures p.board.core.mem[324] == U32(p.desk.risk.position)
  {
    var b := p.board;
    var f := FillsOf(b.log.events);
    SameFills(b.core, b.reporter, f);
    PositionIsNet(b.log.start, b.log.events);
    WrapAdd(start, Net(f));
  }

  lemma SameFills(s: Core, r: Reporter, f: seq<Event>)
    requires Ram(s) && 46 <= s.pc && Tracks(s, r, f) && |r.reported| == |f|
    ensures f == r.reported
  {
    assert r.reported[..|f|] == r.reported;
  }

  // ----- the loss limit

  /** Trading is halted on both sides. */
  ghost predicate Stopped(p: Pair) {
    Inv(p.board) && p.desk.risk.halted && p.board.core.mem[263] == 0
  }

  /** A decision refused for good stops both sides. */
  lemma RefusalStops(p: Pair, cfg: Exec.Settings, side: Word, at: App.Moment)
    requires Inv(p.board) && Fits(p, cfg, Program(App.Decided(side, at))) && (side == BUY || side == SELL)
    requires Risk.Check(p.desk.risk, at.feedAgeUs).1.LossLimit?
    ensures Stopped(Next2(p, cfg, Program(App.Decided(side, at))))
  {
    HostInv(p.board, Store(263, 0));
  }

  lemma StillOff(p: Pair, cfg: Exec.Settings, j: JointAct)
    requires Fits(p, cfg, j)
    ensures KillSwitch.StaysOff(ActsOf(OnBoardOf(p, cfg, j)))
  {
  }

  lemma {:induction false} AllOff(p: Pair, cfg: Exec.Settings, js: seq<JointAct>)
    requires LegalPair(p, cfg, js)
    ensures KillSwitch.StaysOff(BoardActs(p, cfg, js))
    decreases |js|
  {
    if js != [] {
      StillOff(p, cfg, js[0]);
      AllOff(Next2(p, cfg, js[0]), cfg, js[1..]);
    }
  }

  /** From then on nothing is sent and at most one more decision comes out. */
  lemma {:induction false} StoppedRun(p: Pair, cfg: Exec.Settings, js: seq<JointAct>)
    requires Stopped(p) && LegalPair(p, cfg, js) && Legal(p.board, BoardActs(p, cfg, js))
    ensures KillSwitch.Publications(p.board, BoardActs(p, cfg, js)) <= 1
    ensures RunPair(p, cfg, js).desk.orders.sent == p.desk.orders.sent
  {
    AllOff(p, cfg, js);
    KillSwitch.AtMostOneMore(p.board, BoardActs(p, cfg, js));
    NoOrders(p, cfg, js);
  }

  /**
    A run that begins with a decision the loss limit forbids.  Whatever follows: the
    program sends no order, that decision's included, and the fabric publishes at most
    one more decision.
   */
  lemma {:induction false} LossLimitStops(p: Pair, cfg: Exec.Settings, side: Word, at: App.Moment, js: seq<JointAct>)
    requires Inv(p.board) && LegalPair(p, cfg, js)
    requires js != [] && js[0] == Program(App.Decided(side, at)) && (side == BUY || side == SELL)
    requires Risk.Check(p.desk.risk, at.feedAgeUs).1.LossLimit?
    ensures Legal(p.board, BoardActs(p, cfg, js)) && KillSwitch.Publications(p.board, BoardActs(p, cfg, js)) <= 1
    ensures RunPair(p, cfg, js).desk.orders.sent == p.desk.orders.sent
  {
    var p1 := Next2(p, cfg, js[0]);
    RefusalStops(p, cfg, side, at);
    RunProjects(p1, cfg, js[1..]);
    StoppedRun(p1, cfg, js[1..]);
    RunProjects(p, cfg, js);
    FirstStore(p.board, Store(263, 0), BoardActs(p1, cfg, js[1..]));
    assert BoardActs(p, cfg, js) == [Store(263, 0)] + BoardActs(p1, cfg, js[1..]);
  }

  lemma {:induction false} FirstStore(b: State, act: Act, acts: seq<Act>)
    requires Ram(b.core) && Enabled(b, act) && !act.Cpu? && Legal(Next(b, act), acts)
    ensures Legal(b, [act] + acts)
    ensures KillSwitch.Publications(b, [act] + acts) == KillSwitch.Publications(Next(b, act), acts)
  {
    assert ([act] + acts)[1..] == acts;
  }

  lemma {:induction false} NoOrders(p: Pair, cfg: Exec.Settings, js: seq<JointAct>)
    requires p.desk.risk.halted && LegalPair(p, cfg, js)
    ensures RunPair(p, cfg, js).desk.orders.sent == p.desk.orders.sent
    decreases |js|
  {
    if js != [] {
      if js[0].Program? {
        App.StepHalted(p.desk, cfg, true, js[0].h);
      }
      NoOrders(Next2(p, cfg, js[0]), cfg, js[1..]);
    }
  }
}
