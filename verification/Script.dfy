/**
  What one pass of the loop does when the CPU is left alone: it applies the fill that
  is waiting, if there is one, and then works through the quote that is new, if there
  is one.  Runs with a known outcome are put together from such passes.
 */
module Script {
  import opened Isa
  import opened Program
  import opened TradingCore
  import opened Flow
  import opened Safety
  import opened Strategy
  import opened Board

  /** Where a pass starts: the events so far and the last fill and quote consumed. */
  datatype Plan = Plan(events: seq<Event>, seen: Word, tick: Word)

  function Settings(s: Core): Config
    requires Ram(s)
  {
    Config(s.mem[261], s.mem[263], s.mem[262])
  }

  /** The events once the waiting fill is applied. */
  function AfterFill(s: Core, p: Plan): seq<Event>
    requires Ram(s)
  {
    p.events + if s.mem[267] != p.seen then [Fill(s.mem[268], s.mem[269])] else []
  }

  /** The events at the end of the pass, when `n` quotes have been published. */
  function AfterPass(s: Core, p: Plan, n: nat): seq<Event>
    requires Ram(s)
  {
    AfterFill(s, p) +
    if s.mem[256] != p.tick then [Quote(s.mem[256], s.mem[257], s.mem[258], Settings(s), n, n)] else []
  }

  /** Words 46..55. */
  predicate InHead(s: Core, g: Log, p: Plan)
    requires Ram(s)
  {
    && g.events == p.events && s.seen == p.seen && s.tick == p.tick
    && (s.pc == 50 ==> s.y == 0)
    && (s.pc == 51 ==> !s.taken)
    && (54 <= s.pc <= 55 ==> s.y == s.mem[267])
    && (s.pc == 55 ==> s.taken == (s.y == s.seen))
  }

  /** Words 56..67. */
  predicate InFill(s: Core, g: Log, p: Plan)
    requires Ram(s)
  {
    && s.mem[267] != p.seen && s.tick == p.tick
    && (if s.pc == 56 then s.y == s.mem[267] && s.seen == p.seen else s.seen == s.mem[267])
    && (59 <= s.pc <= 63 || s.pc == 65 ==> s.y == s.mem[268])
    && (61 <= s.pc <= 63 || s.pc == 65 ==> s.qty == s.mem[269])
    && g.events == (if s.pc <= 63 || s.pc == 65 then p.events else AfterFill(s, p))
  }

  /** Words 68..83. */
  predicate InRead(s: Core, g: Log, p: Plan, n: nat)
    requires Ram(s)
  {
    && g.events == AfterFill(s, p) && s.seen == s.mem[267] && s.tick == p.tick
    && (s.pc >= 69 ==> s.x == s.mem[256] && g.read == n)
    && (s.pc == 70 ==> s.taken == (s.x == s.tick))
    && (s.pc >= 71 ==> s.mem[256] != p.tick)
    && (s.pc == 72 ==> s.y == s.x)
    && (s.pc == 73 ==> s.y == 0)
    && (s.pc == 74 ==> !s.taken)
    && (s.pc >= 78 ==> s.bid == s.mem[257])
    && (s.pc >= 80 ==> s.ask == s.mem[258])
    && (s.pc >= 81 ==> g.recheck == n)
    && (81 <= s.pc <= 82 ==> s.y == s.x)
    && (s.pc == 82 ==> !s.taken)
  }

  predicate Committed(pc: int) {
    pc == 104 || pc == 142 || pc == 153
  }

  /** Words 84..153. */
  predicate InTest(s: Core, g: Log, p: Plan, n: nat)
    requires Ram(s)
  {
    && s.mem[256] != p.tick && s.tick == s.mem[256] && s.seen == s.mem[267]
    && (if Committed(s.pc) then g.events == AfterPass(s, p, n)
        else
          && g.events == AfterFill(s, p) && g.cfg == Settings(s) && g.read == n && g.recheck == n
          && s.bid == s.mem[257] && s.ask == s.mem[258])
  }

  /** No restart is asked for and the quote in memory is whole. */
  predicate Plain(s: Core) {
    Ram(s) && s.mem[266] == 0 && s.mem[256] % 2 == 0
  }

  predicate Underway(s: Core, g: Log, p: Plan, n: nat) {
    && Plain(s) && 46 <= s.pc < 154
    && (if s.pc < 56 then InHead(s, g, p)
        else if s.pc < 68 then InFill(s, g, p)
        else if s.pc < 84 then InRead(s, g, p, n)
        else InTest(s, g, p, n))
  }

  /** At the loop head again, everything consumed. */
  predicate Finished(s: Core, g: Log, p: Plan, n: nat) {
    && Plain(s) && s.pc == LOOP && g.events == AfterPass(s, p, n)
    && s.seen == s.mem[267] && s.tick == s.mem[256]
  }

  predicate Onward(s: Core, g: Log, p: Plan, n: nat) {
    if s.pc == LOOP then Finished(s, g, p, n) else Underway(s, g, p, n)
  }

  /** The words a pass depends on are not among those the CPU stores to. */
  predicate SameInputs(s: Core, s': Core)
    requires Ram(s) && Ram(s')
  {
    s'.mem[256..271] == s.mem[256..271]
  }

  lemma KeepsInputs(s: Core, s': Core)
    requires Framed(s, s') && 46 <= s.pc < 154
    ensures SameInputs(s, s')
  {
    StoresOutputs(s.pc);
    assert forall a :: 256 <= a < 271 ==> s'.mem[a] == s.mem[a];
  }

  lemma HeadPass(s: Core, g: Log, p: Plan, n: nat)
    requires Underway(s, g, p, n) && s.pc < 56
    ensures Onward(HeadStep(s), LogStep(s, g, n), p, n)
  {
    match s.pc
    case 46 => case 47 => case 48 => case 49 => case 50 => case 51 => case 52 => case 53 =>
    case 54 => case 55 =>
  }

  lemma FillPass(s: Core, g: Log, p: Plan, n: nat)
    requires Underway(s, g, p, n) && 56 <= s.pc < 68
    ensures Onward(FillStep(s), LogStep(s, g, n), p, n)
  {
    match s.pc
    case 56 => case 57 => case 58 => case 59 => case 60 => case 61 => case 62 => case 63 =>
    case 64 => case 65 => case 66 => case 67 =>
  }

  lemma ReadPass(s: Core, g: Log, p: Plan, n: nat)
    requires Underway(s, g, p, n) && 68 <= s.pc < 84
    ensures Onward(ReadStep(s), LogStep(s, g, n), p, n)
  {
    match s.pc
    case 68 => case 69 => case 70 => case 71 => case 72 => case 73 => case 74 => case 75 =>
    case 76 => case 77 => case 78 => case 79 => case 80 => case 81 => case 82 => case 83 =>
  }

  /** Words 84..153 read the settings again, or record the quote. */
  lemma TestLog(s: Core, g: Log, n: nat)
    requires Ram(s) && 84 <= s.pc < 154 && (!Committed(s.pc) ==> g.cfg == Settings(s))
    ensures var g' := LogStep(s, g, n);
            && g'.read == g.read && g'.recheck == g.recheck && (!Committed(s.pc) ==> g'.cfg == g.cfg)
            && g'.events ==
               if Commits(s)
               then g.events + [QuoteOf(s, g)] else g.events
  {
  }

  lemma TestPass(s: Core, s': Core, g: Log, g': Log, p: Plan, n: nat)
    requires Framed(s, s') && SameInputs(s, s') && Underway(s, g, p, n) && 84 <= s.pc
    requires g'.read == g.read && g'.recheck == g.recheck && (!Committed(s.pc) ==> g'.cfg == g.cfg)
    requires g'.events ==
             if Commits(s)
             then g.events + [QuoteOf(s, g)] else g.events
    ensures Onward(s', g', p, n)
  {
    forall a | 256 <= a < 271
      ensures s'.mem[a] == s.mem[a]
    {
      assert s'.mem[256..271][a - 256] == s.mem[256..271][a - 256];
    }
  }

  /** One instruction of a pass. */
  lemma PassStep(s: Core, g: Log, p: Plan, n: nat)
    requires Underway(s, g, p, n)
    ensures Onward(CoreStep(s), LogStep(s, g, n), p, n)
  {
    if s.pc < 56 { HeadPass(s, g, p, n); }
    else if s.pc < 68 { FillPass(s, g, p, n); }
    else if s.pc < 84 { ReadPass(s, g, p, n); }
    else {
      Frame(s);
      KeepsInputs(s, CoreStep(s));
      TestLog(s, g, n);
      TestPass(s, CoreStep(s), g, LogStep(s, g, n), p, n);
    }
  }
}
