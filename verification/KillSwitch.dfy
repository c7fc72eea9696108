/**
  CFG_ENABLE as a kill switch: once the host has stored zero and until it stores
  something else, at most one more decision is published -- the one whose enable
  check had already passed.
 */
module KillSwitch {
  import opened Isa
  import opened TradingCore
  import opened Safety
  import opened Board
  import opened System

  /** The enable check of the quote being worked on has passed. */
  predicate Armed(s: Core) {
    || ((s.pc == 108 || s.pc == 120) && s.y != 0)
    || ((s.pc == 109 || s.pc == 121) && !s.taken)
    || 110 <= s.pc <= 116
    || 122 <= s.pc <= 141
  }

  /** With the switch off, nothing arms; and publishing disarms. */
  lemma StaysDisarmed(s: Core)
    requires Ram(s) && 8 <= s.pc < 158 && s.mem[263] == 0
    ensures !Armed(s) ==> !Armed(CoreStep(s))
    ensures s.pc == 141 ==> !Armed(CoreStep(s))
  {
    if s.pc < 46 {
    } else if s.pc < 84 {
    } else if s.pc < 105 {
    } else if s.pc < 117 {
    } else if s.pc < 131 {
    } else {
    }
  }

  /** The act stores SIGNAL_SEQ, which is what publishes a decision. */
  predicate Publishes(b: State, act: Act) {
    act.Cpu? && b.core.pc == 141
  }

  function Publications(b: State, acts: seq<Act>): nat
    requires Ram(b.core) && Legal(b, acts)
    decreases |acts|
  {
    if acts == [] then 0
    else (if Publishes(b, acts[0]) then 1 else 0) + Publications(Next(b, acts[0]), acts[1..])
  }

  /** The host does not switch trading back on. */
  ghost predicate StaysOff(acts: seq<Act>) {
    forall i :: 0 <= i < |acts| && acts[i].Store? && acts[i].a == 263 ==> acts[i].v == 0
  }

  lemma SwitchStaysOff(b: State, act: Act)
    requires Ram(b.core) && Probed(b.core) && b.core.mem[263] == 0 && Enabled(b, act)
    requires act.Store? && act.a == 263 ==> act.v == 0
    ensures var b' := Next(b, act); Probed(b'.core) && b'.core.mem[263] == 0
    ensures !act.Cpu? ==> Armed(Next(b, act).core) == Armed(b.core)
  {
    if act.Cpu? {
      CoreProgress(b.core);
      assert !Writable(263);
    } else if EffectOf(b, act).Put? {
      HostEffect(b, act);
    }
  }

  /** At most one decision after the switch goes off; none if nothing was armed. */
  lemma {:induction false} AtMostOneMore(b: State, acts: seq<Act>)
    requires Ram(b.core) && Probed(b.core) && b.core.mem[263] == 0
    requires Legal(b, acts) && StaysOff(acts)
    ensures Publications(b, acts) <= if Armed(b.core) then 1 else 0
    decreases |acts|
  {
    if acts != [] {
      SwitchStaysOff(b, acts[0]);
      StaysDisarmed(b.core);
      AtMostOneMore(Next(b, acts[0]), acts[1..]);
    }
  }
}
