/**
  The inventory bound.  The CPU checks the position it knows of, so decisions whose
  fills are still on their way are not counted: with at most K of them the position
  stays within MAX - 1 + K, which is MAX for K = 1.
 */
module Inventory {
  import opened Isa
  import opened TradingCore
  import opened Flow
  import opened Strategy
  import opened Safety
  import opened Board
  import opened System

  /** Decisions published whose fill has neither been applied nor given up. */
  datatype Orders = Orders(buys: int, sells: int)

  function OrdersNext(o: Orders, s: Core, act: Act): Orders
    requires Ram(s)
  {
    match act
    case Cpu =>
      if s.pc == 141 then
        if s.mem[321] == BUY then o.(buys := o.buys + 1) else o.(sells := o.sells + 1)
      else if s.pc == 63 then o.(buys := o.buys - 1)
      else if s.pc == 65 then o.(sells := o.sells - 1)
      else o
    case Drop(side) =>
      if side == BUY then o.(buys := o.buys - 1) else o.(sells := o.sells - 1)
    case _ => o
  }

  /**
    The broker's side of the bargain: fills are of one lot and answer a decision, no
    more than `k` decisions are ever outstanding, the limit is not changed and the
    CPU is not restarted; it starts from a position within the limit.
   */
  predicate Honest(o: Orders, s: Core, act: Act, k: int)
    requires Ram(s)
  {
    match act
    case Cpu =>
      && s.pc != 157
      && (s.pc == 16 ==> -(s.mem[262] as int) <= S32(s.mem[270]) <= s.mem[262])
      && (s.pc == 63 ==> s.qty == 1 && o.buys > 0)
      && (s.pc == 65 ==> s.qty == 1 && o.sells > 0)
      && (s.pc == 141 ==> o.buys + o.sells < k)
    case Drop(side) => if side == BUY then o.buys > 0 else o.sells > 0
    case Store(a, _) => a != 262
    case _ => true
  }

  /** The limit in force. */
  function Limit(s: Core): int
    requires Ram(s)
  {
    s.mem[262]
  }

  /** Position plus what is still to come stays within the bound, on both sides. */
  predicate Covered(s: Core, o: Orders, k: int)
    requires Ram(s)
  {
    && o.buys >= 0 && o.sells >= 0 && o.buys + o.sells <= k
    && S32(s.pos) + o.buys <= Limit(s) - 1 + k
    && S32(s.pos) - o.sells >= -(Limit(s) - 1 + k)
  }

  /** What the position checks have established about the decision under way. */
  predicate Checked(s: Core)
    requires Ram(s)
  {
    var max, p := Limit(s), S32(s.pos);
    && (s.pc == 112 || 124 <= s.pc <= 125 ==> s.y == max)
    && (s.pc == 113 ==> s.taken == (p < max))
    && (115 <= s.pc <= 116 ==> p < max)
    && (s.pc == 116 ==> s.x == BUY)
    && (s.pc == 125 ==> s.lim == 0)
    && (126 <= s.pc <= 127 ==> s.lim == U32(0 - max))
    && (s.pc == 127 ==> s.taken == (-max < p))
    && (129 <= s.pc <= 130 ==> -max < p)
    && (s.pc == 130 ==> s.x == SELL)
    && (131 <= s.pc <= 132 ==> Fits(s.x, p, max))
    && (133 <= s.pc <= 141 ==> Fits(s.mem[321], p, max))
  }

  predicate Fits(side: Word, p: int, max: int) {
    (side == BUY && p < max) || (side == SELL && -max < p)
  }

  predicate Bounded(s: Core, o: Orders, k: int) {
    && Ram(s) && 8 <= s.pc < 158 && k >= 1 && Limit(s) - 1 + k < H31
    && (if s.pc <= 16 then o == Orders(0, 0) else Covered(s, o, k) && Checked(s))
  }

  lemma SetupBounded(s: Core, o: Orders, k: int)
    requires Bounded(s, o, k) && Honest(o, s, Cpu, k) && 8 <= s.pc < 20
    ensures Bounded(SetupStep(s), OrdersNext(o, s, Cpu), k)
  {
    match s.pc
    case 8 => case 9 => case 10 => case 11 => case 12 => case 13 => case 14 => case 15 =>
    case 16 => case 17 => case 18 => case 19 =>
  }

  lemma FillBounded(s: Core, o: Orders, k: int)
    requires Bounded(s, o, k) && Honest(o, s, Cpu, k) && (s.pc == 63 || s.pc == 65)
    ensures Bounded(FillStep(s), OrdersNext(o, s, Cpu), k)
  {
    match s.pc
    case 63 => case 65 =>
  }

  lemma BuyBounded(s: Core, o: Orders, k: int)
    requires Bounded(s, o, k) && Honest(o, s, Cpu, k) && 105 <= s.pc < 117
    ensures Bounded(BuyStep(s), OrdersNext(o, s, Cpu), k)
  {
    match s.pc
    case 105 => case 106 => case 107 => case 108 => case 109 => case 110 => case 111 => case 112 =>
    case 113 => case 114 => case 115 => case 116 =>
  }

  lemma SellBounded(s: Core, o: Orders, k: int)
    requires Bounded(s, o, k) && Honest(o, s, Cpu, k) && 117 <= s.pc < 131
    ensures Bounded(SellStep(s), OrdersNext(o, s, Cpu), k)
  {
    match s.pc
    case 117 => case 118 => case 119 => case 120 => case 121 => case 122 => case 123 => case 124 =>
    case 125 => case 126 => case 127 => case 128 => case 129 => case 130 =>
  }

  lemma EmitBounded(s: Core, o: Orders, k: int)
    requires Bounded(s, o, k) && Honest(o, s, Cpu, k) && 131 <= s.pc < 143
    ensures Bounded(EmitStep(s), OrdersNext(o, s, Cpu), k)
  {
    match s.pc
    case 131 => case 132 => case 133 => case 134 => case 135 => case 136 => case 137 => case 138 =>
    case 139 => case 140 => case 141 => case 142 =>
  }

  /** Elsewhere neither the position nor the orders change and nothing is being checked. */
  lemma FarBounded(s: Core, s': Core, o: Orders, k: int)
    requires Framed(s, s') && Bounded(s, o, k) && 8 <= s'.pc < 158 && s.pc != 157
    requires (20 <= s.pc < 105 && s.pc != 63 && s.pc != 65) || 143 <= s.pc
    ensures Bounded(s', OrdersNext(o, s, Cpu), k)
  {
  }

  lemma CpuBounded(s: Core, o: Orders, k: int)
    requires Bounded(s, o, k) && Honest(o, s, Cpu, k) && 8 <= CoreStep(s).pc < 158
    ensures Bounded(CoreStep(s), OrdersNext(o, s, Cpu), k)
  {
    if s.pc < 20 { SetupBounded(s, o, k); }
    else if s.pc == 63 || s.pc == 65 { FillBounded(s, o, k); }
    else if 105 <= s.pc < 117 { BuyBounded(s, o, k); }
    else if 117 <= s.pc < 131 { SellBounded(s, o, k); }
    else if 131 <= s.pc < 143 { EmitBounded(s, o, k); }
    else {
      Frame(s);
      FarBounded(s, CoreStep(s), o, k);
    }
  }

  lemma HostBounded(b: State, o: Orders, k: int, act: Act)
    requires Bounded(b.core, o, k) && Enabled(b, act) && Honest(o, b.core, act, k) && !act.Cpu?
    requires act.Drop? ==> b.core.pc > 16
    ensures Bounded(Next(b, act).core, OrdersNext(o, b.core, act), k)
  {
    if EffectOf(b, act).Put? {
      HostEffect(b, act);
    }
  }

  lemma NextBounded(b: State, o: Orders, act: Act, k: int)
    requires Probed(b.core) && Bounded(b.core, o, k) && Enabled(b, act) && Honest(o, b.core, act, k)
    ensures var b' := Next(b, act);
            Probed(b'.core) && Bounded(b'.core, OrdersNext(o, b.core, act), k) && Limit(b'.core) == Limit(b.core)
  {
    if act.Cpu? {
      CoreProgress(b.core);
      assert !Writable(262);
      CpuBounded(b.core, o, k);
    } else {
      HostBounded(b, o, k, act);
      if EffectOf(b, act).Put? {
        HostEffect(b, act);
      }
    }
  }

  predicate HonestRun(b: State, o: Orders, acts: seq<Act>, k: int)
    requires Ram(b.core) && Legal(b, acts)
    decreases |acts|
  {
    acts == [] ||
    (Honest(o, b.core, acts[0], k) && HonestRun(Next(b, acts[0]), OrdersNext(o, b.core, acts[0]), acts[1..], k))
  }

  /**
    In every honest run the position the CPU holds stays within MAX - 1 + K lots
    either way; with one decision at a time, within MAX.
   */
  lemma {:induction false} InventoryBound(b: State, o: Orders, acts: seq<Act>, k: int)
    requires Probed(b.core) && Bounded(b.core, o, k) && Legal(b, acts) && HonestRun(b, o, acts, k)
    ensures var s := Run(b, acts).core;
            s.pc > 16 ==> -(Limit(s) - 1 + k) <= S32(s.pos) <= Limit(s) - 1 + k
    ensures Limit(Run(b, acts).core) == Limit(b.core)
    decreases |acts|
  {
    if acts != [] {
      NextBounded(b, o, acts[0], k);
      InventoryBound(Next(b, acts[0]), OrdersNext(o, b.core, acts[0]), acts[1..], k);
    }
  }
}
