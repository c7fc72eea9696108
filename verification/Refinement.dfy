/**
  The machine's outputs are the strategy's: after every instruction and every host
  store, SIGNAL_SEQ, SIGNAL, SIGNAL_TICK, REJECTS and POSITION are what folding the
  32-bit strategy over the quotes and fills the CPU has read would give, but for
  the words of the decision being written out at that moment.
 */
module Refinement {
  import opened Isa
  import opened TradingCore
  import opened Strategy
  import opened Board

  function LastSide(d: Desk): Word {
    if d.decisions == [] then 0 else d.decisions[|d.decisions| - 1].side
  }

  function LastTick(d: Desk): Word {
    if d.decisions == [] then 0 else d.decisions[|d.decisions| - 1].tick
  }

  /** Words 8..45. */
  predicate Starting(s: Core, g: Log)
    requires Ram(s)
  {
    && (8 < s.pc <= 16 ==> g == NewLog(0))
    && (s.pc > 12 ==> s.anchor == 0)
    && (s.pc > 16 ==> g == NewLog(s.pos))
    && (20 <= s.pc <= 33 ==> s.x == 0)
    && (s.pc > 21 ==> s.mem[321] == 0)
    && (s.pc > 23 ==> s.mem[322] == 0)
    && (s.pc > 25 ==> s.mem[323] == 0)
    && (s.pc > 27 ==> s.mem[324] == s.pos)
    && (s.pc > 29 ==> s.mem[326] == 0)
  }

  /** The output words agree with the desk. */
  predicate Outputs(s: Core, d: Desk)
    requires Ram(s)
  {
    && s.pos == d.pos
    && s.mem[323] == U32(|d.decisions|)
    && s.mem[326] == U32(d.rejects)
    && (!(64 <= s.pc <= 67) ==> s.mem[324] == s.pos)
    && (!(133 <= s.pc <= 141) ==> s.mem[321] == LastSide(d))
    && (!(135 <= s.pc <= 141) ==> s.mem[322] == LastTick(d))
  }

  /** Words 84..103: the quote is read, the band test is under way. */
  predicate Testing(s: Core, g: Log, d: Desk) {
    var lo, hi := Low(s.anchor, g.cfg.threshold), High(s.anchor, g.cfg.threshold);
    && s.anchor == d.anchor
    && (s.pc == 85 ==> s.taken == (s.bid == 0))
    && (s.pc > 85 ==> s.bid != 0)
    && (s.pc == 87 ==> s.taken == (s.ask == 0))
    && (s.pc > 87 ==> s.ask != 0)
    && (s.pc == 89 ==> s.x == s.bid)
    && (s.pc >= 90 ==> s.x == Sum(s.bid, s.ask))
    && (s.pc == 91 ==> s.taken == (s.anchor == 0))
    && (92 <= s.pc <= 102 ==> s.anchor != 0)
    && (s.pc == 94 ==> s.y == g.cfg.threshold)
    && (95 <= s.pc <= 102 ==> s.y == U32(g.cfg.threshold + g.cfg.threshold))
    && (s.pc == 96 || s.pc == 100 ==> s.lim == s.anchor)
    && (97 <= s.pc <= 98 ==> s.lim == lo)
    && (101 <= s.pc <= 102 ==> s.lim == hi)
    && (s.pc == 98 ==> s.taken == (S32(s.x) < S32(lo)))
    && (99 <= s.pc <= 102 ==> !(S32(s.x) < S32(lo)))
    && (s.pc == 102 ==> s.taken == (S32(hi) < S32(s.x)))
    && (s.pc == 103 ==> s.anchor == 0 || Want(s.anchor, s.x, g.cfg.threshold) == NONE)
  }

  /** The side the quote in flight asks for. */
  function Wanted(s: Core, g: Log, d: Desk): Word {
    Want(d.anchor, Sum(s.bid, s.ask), g.cfg.threshold)
  }

  /** Words 105..152: the quote has moved out of the band. */
  predicate Triggered(s: Core, g: Log, d: Desk) {
    && s.bid != 0 && s.ask != 0 && d.anchor != 0 && Wanted(s, g, d) != NONE
    && (if s.pc == 105 || s.pc == 117 then s.anchor == d.anchor && s.x == Sum(s.bid, s.ask)
        else s.anchor == Sum(s.bid, s.ask))
  }

  /** Words 105..130: the enable switch and the position limit. */
  predicate Gating(s: Core, g: Log, d: Desk) {
    && Triggered(s, g, d)
    && Wanted(s, g, d) == (if s.pc <= 116 then BUY else SELL)
    && (s.pc == 108 || s.pc == 120 ==> s.y == g.cfg.enable)
    && (s.pc == 109 || s.pc == 121 ==> s.taken == (g.cfg.enable == 0))
    && (110 <= s.pc <= 116 || 122 <= s.pc ==> g.cfg.enable != 0)
    && (s.pc == 112 || 124 <= s.pc <= 125 ==> s.y == g.cfg.maxPos)
    && (s.pc == 125 ==> s.lim == 0)
    && (126 <= s.pc <= 127 ==> s.lim == U32(0 - g.cfg.maxPos))
    && (s.pc == 113 || s.pc == 127 ==> s.taken == Allowed(s.pos, Wanted(s, g, d), g.cfg))
    && (s.pc == 114 || s.pc == 128 ==> !Allowed(s.pos, Wanted(s, g, d), g.cfg))
    && (115 <= s.pc <= 116 || 129 <= s.pc ==> Allowed(s.pos, Wanted(s, g, d), g.cfg))
    && (s.pc == 116 ==> s.x == BUY)
    && (s.pc == 130 ==> s.x == SELL)
  }

  /** Words 131..141: the decision is being published. */
  predicate Emitting(s: Core, g: Log, d: Desk)
    requires Ram(s)
  {
    && Triggered(s, g, d) && Allowed(s.pos, Wanted(s, g, d), g.cfg)
    && (s.pc <= 132 ==> s.x == Wanted(s, g, d))
    && (s.pc >= 133 ==> s.mem[321] == Wanted(s, g, d))
    && (s.pc >= 135 ==> s.mem[322] == s.tick)
    && (s.pc == 140 ==> s.y == s.mem[323])
    && (s.pc == 141 ==> s.y == U32(s.mem[323] as int + 1))
  }

  /** Words 143..152: the decision is being suppressed. */
  predicate Rejecting(s: Core, g: Log, d: Desk)
    requires Ram(s)
  {
    && Triggered(s, g, d) && !Allowed(s.pos, Wanted(s, g, d), g.cfg)
    && (s.pc == 151 ==> s.y == s.mem[326])
    && (s.pc == 152 ==> s.y == U32(s.mem[326] as int + 1))
  }

  predicate Refines(s: Core, g: Log) {
    && Ram(s) && 8 <= s.pc < 158
    && var d := g.desk;
       if s.pc < 46 then Starting(s, g)
       else
         && Outputs(s, d)
         && (s.pc == 62 ==> s.taken == (s.y != BOUGHT))
         && (s.pc == 63 ==> s.y == BOUGHT)
         && (s.pc == 65 ==> s.y != BOUGHT)
         && (if s.pc < 84 || s.pc == 104 || s.pc == 142 || s.pc >= 153 then s.anchor == d.anchor
             else if s.pc <= 103 then Testing(s, g, d)
             else if s.pc <= 130 then Gating(s, g, d)
             else if s.pc <= 141 then Emitting(s, g, d)
             else Rejecting(s, g, d))
  }

  /** A counter kept modulo 2^32 counts on. */
  lemma CountsOn(n: nat)
    ensures U32(U32(n) + 1) == U32(n + 1)
  {
  }

  /** The store of SIGNAL_SEQ is the moment the decision exists. */
  lemma PublishRefines(s: Core, g: Log)
    requires Refines(s, g) && s.pc == 141
    ensures Refines(EmitStep(s), Commit(s, g))
  {
    CountsOn(|g.desk.decisions|);
    var s' := EmitStep(s);
    assert Commit(s, g).desk == g.desk.(anchor := s.anchor, decisions := g.desk.decisions + [Decision(Wanted(s, g, g.desk), s.tick)]);
  }

  /** The store of REJECTS is the moment the suppressed decision is counted. */
  lemma SuppressRefines(s: Core, g: Log)
    requires Refines(s, g) && s.pc == 152
    ensures Refines(RejectStep(s), Commit(s, g))
  {
    CountsOn(g.desk.rejects);
    assert Commit(s, g).desk == g.desk.(anchor := s.anchor, rejects := g.desk.rejects + 1);
  }

  lemma SetupRefines(s: Core, g: Log, published: nat)
    requires Refines(s, g) && 8 <= s.pc < 20
    ensures Refines(SetupStep(s), LogStep(s, g, published))
  {
    match s.pc
    case 8 => case 9 => case 10 => case 11 => case 12 => case 13 => case 14 => case 15 =>
    case 16 => case 17 => case 18 => case 19 =>
  }

  lemma ClearRefines(s: Core, g: Log, published: nat)
    requires Refines(s, g) && 20 <= s.pc < 34
    ensures Refines(ClearStep(s), LogStep(s, g, published))
  {
    match s.pc
    case 20 => case 21 => case 22 => case 23 => case 24 => case 25 => case 26 => case 27 =>
    case 28 => case 29 => case 30 => case 31 => case 32 => case 33 =>
  }

  lemma ProbeRefines(s: Core, g: Log, published: nat)
    requires Refines(s, g) && 34 <= s.pc < 46 && (s.pc == 41 ==> !s.taken)
    ensures Refines(ProbeStep(s), LogStep(s, g, published))
  {
    match s.pc
    case 34 => case 35 => case 36 => case 37 => case 38 => case 39 => case 40 => case 41 =>
    case 42 => case 43 => case 44 => case 45 =>
  }

  lemma HeadRefines(s: Core, g: Log, published: nat)
    requires Refines(s, g) && 46 <= s.pc < 56
    ensures Refines(HeadStep(s), LogStep(s, g, published))
  {
    match s.pc
    case 46 => case 47 => case 48 => case 49 => case 50 => case 51 => case 52 => case 53 =>
    case 54 => case 55 =>
  }

  lemma FillRefines(s: Core, g: Log, published: nat)
    requires Refines(s, g) && 56 <= s.pc < 68
    ensures Refines(FillStep(s), LogStep(s, g, published))
  {
    match s.pc
    case 56 => case 57 => case 58 => case 59 => case 60 => case 61 => case 62 => case 63 =>
    case 64 => case 65 => case 66 => case 67 =>
  }

  lemma ReadRefines(s: Core, g: Log, published: nat)
    requires Refines(s, g) && 68 <= s.pc < 84
    ensures Refines(ReadStep(s), LogStep(s, g, published))
  {
    match s.pc
    case 68 => case 69 => case 70 => case 71 => case 72 => case 73 => case 74 => case 75 =>
    case 76 => case 77 => case 78 => case 79 => case 80 => case 81 => case 82 => case 83 =>
  }

  lemma BandRefines(s: Core, g: Log, published: nat)
    requires Refines(s, g) && 84 <= s.pc < 95
    ensures Refines(BandStep(s), LogStep(s, g, published))
  {
    match s.pc
    case 84 => case 85 => case 86 => case 87 => case 88 => case 89 => case 90 => case 91 =>
    case 92 => case 93 => case 94 =>
  }

  lemma LowTestRefines(s: Core, g: Log, published: nat)
    requires Refines(s, g) && 95 <= s.pc < 100
    ensures Refines(BandStep(s), LogStep(s, g, published))
  {
    match s.pc
    case 95 => case 96 => case 97 => case 98 => case 99 =>
  }

  lemma HighTestRefines(s: Core, g: Log, published: nat)
    requires Refines(s, g) && 100 <= s.pc < 105
    ensures Refines(BandStep(s), LogStep(s, g, published))
  {
    match s.pc
    case 100 => case 101 => case 102 => case 103 => case 104 =>
  }

  lemma BuyRefines(s: Core, g: Log, published: nat)
    requires Refines(s, g) && 105 <= s.pc < 117
    ensures Refines(BuyStep(s), LogStep(s, g, published))
  {
    match s.pc
    case 105 => case 106 => case 107 => case 108 => case 109 => case 110 => case 111 => case 112 =>
    case 113 => case 114 => case 115 => case 116 =>
  }

  lemma SellRefines(s: Core, g: Log, published: nat)
    requires Refines(s, g) && 117 <= s.pc < 124
    ensures Refines(SellStep(s), LogStep(s, g, published))
  {
    match s.pc
    case 117 => case 118 => case 119 => case 120 => case 121 => case 122 => case 123 =>
  }

  lemma SellLimitRefines(s: Core, g: Log, published: nat)
    requires Refines(s, g) && 124 <= s.pc < 131
    ensures Refines(SellStep(s), LogStep(s, g, published))
  {
    match s.pc
    case 124 => case 125 => case 126 => case 127 => case 128 => case 129 => case 130 =>
  }

  lemma EmitRefines(s: Core, g: Log, published: nat)
    requires Refines(s, g) && 131 <= s.pc < 137
    ensures Refines(EmitStep(s), LogStep(s, g, published))
  {
    match s.pc
    case 131 => case 132 => case 133 => case 134 => case 135 => case 136 =>
  }

  lemma EmitCountRefines(s: Core, g: Log, published: nat)
    requires Refines(s, g) && 137 <= s.pc < 143
    ensures Refines(EmitStep(s), LogStep(s, g, published))
  {
    match s.pc
    case 137 => case 138 => case 139 => case 140 => case 141 => PublishRefines(s, g); case 142 =>
  }

  lemma RejectRefines(s: Core, g: Log, published: nat)
    requires Refines(s, g) && 143 <= s.pc < 149
    ensures Refines(RejectStep(s), LogStep(s, g, published))
  {
    match s.pc
    case 143 => case 144 => case 145 => case 146 => case 147 => case 148 =>
  }

  lemma RejectCountRefines(s: Core, g: Log, published: nat)
    requires Refines(s, g) && 149 <= s.pc < 154
    ensures Refines(RejectStep(s), LogStep(s, g, published))
  {
    match s.pc
    case 149 => case 150 => case 151 => case 152 => SuppressRefines(s, g); case 153 =>
  }

  lemma RestartRefines(s: Core, g: Log, published: nat)
    requires Refines(s, g) && 154 <= s.pc < 158
    ensures Refines(RestartStep(s), LogStep(s, g, published))
  {
    match s.pc
    case 154 => case 155 => case 156 => case 157 =>
  }

  /** One instruction. */
  lemma CpuRefines(s: Core, g: Log, published: nat)
    requires Refines(s, g) && (s.pc == 41 ==> !s.taken)
    ensures Refines(CoreStep(s), LogStep(s, g, published))
  {
    if s.pc < 20 { SetupRefines(s, g, published); }
    else if s.pc < 34 { ClearRefines(s, g, published); }
    else if s.pc < 46 { ProbeRefines(s, g, published); }
    else if s.pc < 56 { HeadRefines(s, g, published); }
    else if s.pc < 68 { FillRefines(s, g, published); }
    else if s.pc < 84 { ReadRefines(s, g, published); }
    else if s.pc < 95 { BandRefines(s, g, published); }
    else if s.pc < 100 { LowTestRefines(s, g, published); }
    else if s.pc < 105 { HighTestRefines(s, g, published); }
    else if s.pc < 117 { BuyRefines(s, g, published); }
    else if s.pc < 124 { SellRefines(s, g, published); }
    else if s.pc < 131 { SellLimitRefines(s, g, published); }
    else if s.pc < 137 { EmitRefines(s, g, published); }
    else if s.pc < 143 { EmitCountRefines(s, g, published); }
    else if s.pc < 149 { RejectRefines(s, g, published); }
    else if s.pc < 154 { RejectCountRefines(s, g, published); }
    else { RestartRefines(s, g, published); }
  }

  /** A host store outside the five output words leaves the relation alone. */
  lemma HostRefines(s: Core, g: Log, mem: seq<Word>)
    requires Refines(s, g) && |mem| == MEM_WORDS
    requires forall a :: 321 <= a <= 326 ==> mem[a] == s.mem[a]
    ensures Refines(s.(mem := mem), g)
  {
  }

  /** The desk kept in the record is the fold over the events kept beside it. */
  predicate Folded(g: Log) {
    g.desk == Fold(g.start, g.events)
  }

  lemma LogFolds(s: Core, g: Log, published: nat)
    requires Ram(s) && Folded(g)
    ensures Folded(LogStep(s, g, published))
  {
    LogShape(s, g, published);
    if s.pc == 63 || s.pc == 65 {
      AppendFolds(g, Fill(s.y, s.qty));
    } else if Commits(s) {
      AppendFolds(g, QuoteOf(s, g));
    }
  }

  lemma AppendFolds(g: Log, e: Event)
    requires Folded(g)
    ensures Folded(Append(g, e))
  {
    FoldSnoc(g.start, g.events, e);
  }
}
