/**
  The machine code takes exactly the steps of TradingCore: from any registers at
  word 8 with the image in memory, one `Step` of the CPU is one `CoreStep`,
  whatever the host has stored in the rest of the RAM.
 */
module Simulation {
  import opened Isa
  import opened CpuModel
  import opened Program
  import opened TradingCore

  /** The address held in R4 at word `pc`; -1 where R4 is not used as an address. */
  function Pointer(pc: int): int {
    if pc < 46 then
      match pc
      case 16 => 270 case 18 => 267
      case 21 => 321 case 23 => 322 case 25 => 323 case 27 => 324
      case 29 => 326 case 31 => 328 case 33 => 329
      case 36 => 325 case 44 => 327
      case _ => -1
    else if pc < 84 then
      match pc
      case 49 => 266 case 50 => 266 case 51 => 266 case 52 => 266 case 53 => 267
      case 58 => 268 case 60 => 269 case 67 => 324
      case 76 => 256 case 77 => 257 case 78 => 257 case 79 => 258
      case _ => -1
    else if pc < 131 then
      match pc
      case 93 => 261 case 107 => 263 case 111 => 262 case 119 => 263 case 123 => 262
      case _ => -1
    else
      match pc
      case 132 => 321 case 134 => 322 case 137 => 325
      case 139 => 323 case 140 => 323 case 141 => 323
      case 148 => 325 case 150 => 326 case 151 => 326 case 152 => 326
      case 154 => 266 case 155 => 266 case 157 => 8
      case _ => -1
  }

  /** The constant and address registers hold what the listing relies on. */
  predicate Ready(m: Machine) {
    && Valid(m) && 8 <= m.pc < 158
    && (m.pc > 8 ==> m.regs.r0 == 0)
    && (m.pc > 9 ==> m.regs.r1 == 1)
    && (m.pc > 10 ==> m.regs.r2 == 256)
    && (m.pc > 11 ==> m.regs.r3 == 320)
    && (m.pc > 45 ==> m.regs.r15 == LOOP)
    && (Pointer(m.pc) >= 0 ==> m.regs.r4 == Pointer(m.pc))
  }

  /** The condition of the conditional branch at word `pc`, if there is one. */
  function BranchOn(pc: int): Cond {
    if pc < 84 then
      match pc
      case 41 => NE case 51 => NE case 55 => EQ case 62 => NE
      case 70 => EQ case 74 => NE case 82 => NE
      case _ => Never(0)
    else
      match pc
      case 85 => EQ case 87 => EQ case 91 => EQ case 98 => LT case 102 => LT
      case 109 => EQ case 113 => LT case 121 => EQ case 127 => LT
      case _ => Never(0)
  }

  /** At a conditional branch, whether the flags make it taken; false elsewhere. */
  predicate WillBranch(m: Machine) {
    Taken(BranchOn(m.pc), m.flags.z, m.flags.n)
  }

  function View(m: Machine): Core
    requires Valid(m)
  {
    Core(m.pc, m.mem, WillBranch(m), m.regs.r7, m.regs.r8, m.regs.r10,
         if 61 <= m.pc <= 65 then m.regs.r4 else 0,
         m.regs.r5, m.regs.r6, m.regs.r9, m.regs.r11, m.regs.r12, m.regs.r13, m.regs.r14)
  }


  lemma Setup8(m: Machine)
    requires Ready(m) && 8 <= m.pc < 11
    ensures var m' := Exec(m, SetupCode(m.pc)); Ready(m') && View(m') == SetupStep(View(m))
  {
    match m.pc case 8 => case 9 => case 10 =>
  }

  lemma Setup11(m: Machine)
    requires Ready(m) && 11 <= m.pc < 14
    ensures var m' := Exec(m, SetupCode(m.pc)); Ready(m') && View(m') == SetupStep(View(m))
  {
    match m.pc case 11 => case 12 => case 13 =>
  }

  lemma Setup14(m: Machine)
    requires Ready(m) && 14 <= m.pc < 17
    ensures var m' := Exec(m, SetupCode(m.pc)); Ready(m') && View(m') == SetupStep(View(m))
  {
    match m.pc case 14 => case 15 => case 16 =>
  }

  lemma Setup17(m: Machine)
    requires Ready(m) && 17 <= m.pc < 20
    ensures var m' := Exec(m, SetupCode(m.pc)); Ready(m') && View(m') == SetupStep(View(m))
  {
    match m.pc case 17 => case 18 => case 19 =>
  }

  lemma Clear20(m: Machine)
    requires Ready(m) && 20 <= m.pc < 23
    ensures var m' := Exec(m, ClearCode(m.pc)); Ready(m') && View(m') == ClearStep(View(m))
  {
    match m.pc case 20 => case 21 => case 22 =>
  }

  lemma Clear23(m: Machine)
    requires Ready(m) && 23 <= m.pc < 26
    ensures var m' := Exec(m, ClearCode(m.pc)); Ready(m') && View(m') == ClearStep(View(m))
  {
    match m.pc case 23 => case 24 => case 25 =>
  }

  lemma Clear26(m: Machine)
    requires Ready(m) && 26 <= m.pc < 29
    ensures var m' := Exec(m, ClearCode(m.pc)); Ready(m') && View(m') == ClearStep(View(m))
  {
    match m.pc case 26 => case 27 => case 28 =>
  }

  lemma Clear29(m: Machine)
    requires Ready(m) && 29 <= m.pc < 32
    ensures var m' := Exec(m, ClearCode(m.pc)); Ready(m') && View(m') == ClearStep(View(m))
  {
    match m.pc case 29 => case 30 => case 31 =>
  }

  lemma Clear32(m: Machine)
    requires Ready(m) && 32 <= m.pc < 34
    ensures var m' := Exec(m, ClearCode(m.pc)); Ready(m') && View(m') == ClearStep(View(m))
  {
    match m.pc case 32 => case 33 =>
  }

  lemma Probe34(m: Machine)
    requires Ready(m) && 34 <= m.pc < 37
    ensures var m' := Exec(m, ProbeCode(m.pc)); Ready(m') && View(m') == ProbeStep(View(m))
  {
    match m.pc case 34 => case 35 => case 36 =>
  }

  lemma Probe37(m: Machine)
    requires Ready(m) && 37 <= m.pc < 40
    ensures var m' := Exec(m, ProbeCode(m.pc)); Ready(m') && View(m') == ProbeStep(View(m))
  {
    match m.pc case 37 => case 38 => case 39 =>
  }

  lemma Probe40(m: Machine)
    requires Ready(m) && 40 <= m.pc < 43 && (m.pc == 41 ==> m.flags.z)
    ensures var m' := Exec(m, ProbeCode(m.pc)); Ready(m') && View(m') == ProbeStep(View(m))
  {
    match m.pc case 40 => case 41 => case 42 =>
  }

  lemma Probe43(m: Machine)
    requires Ready(m) && 43 <= m.pc < 46
    ensures var m' := Exec(m, ProbeCode(m.pc)); Ready(m') && View(m') == ProbeStep(View(m))
  {
    match m.pc case 43 => case 44 => case 45 =>
  }

  lemma Head46(m: Machine)
    requires Ready(m) && 46 <= m.pc < 49
    ensures var m' := Exec(m, HeadCode(m.pc)); Ready(m') && View(m') == HeadStep(View(m))
  {
    match m.pc case 46 => case 47 => case 48 =>
  }

  lemma Head49(m: Machine)
    requires Ready(m) && 49 <= m.pc < 52
    ensures var m' := Exec(m, HeadCode(m.pc)); Ready(m') && View(m') == HeadStep(View(m))
  {
    match m.pc case 49 => case 50 => case 51 =>
  }

  lemma Head52(m: Machine)
    requires Ready(m) && 52 <= m.pc < 55
    ensures var m' := Exec(m, HeadCode(m.pc)); Ready(m') && View(m') == HeadStep(View(m))
  {
    match m.pc case 52 => case 53 => case 54 =>
  }

  lemma Head55(m: Machine)
    requires Ready(m) && 55 <= m.pc < 56
    ensures var m' := Exec(m, HeadCode(m.pc)); Ready(m') && View(m') == HeadStep(View(m))
  {
    match m.pc case 55 =>
  }

  lemma Fill56(m: Machine)
    requires Ready(m) && 56 <= m.pc < 59
    ensures var m' := Exec(m, FillCode(m.pc)); Ready(m') && View(m') == FillStep(View(m))
  {
    match m.pc case 56 => case 57 => case 58 =>
  }

  lemma Fill59(m: Machine)
    requires Ready(m) && 59 <= m.pc < 62
    ensures var m' := Exec(m, FillCode(m.pc)); Ready(m') && View(m') == FillStep(View(m))
  {
    match m.pc case 59 => case 60 => case 61 =>
  }

  lemma Fill62(m: Machine)
    requires Ready(m) && 62 <= m.pc < 65
    ensures var m' := Exec(m, FillCode(m.pc)); Ready(m') && View(m') == FillStep(View(m))
  {
    match m.pc case 62 => case 63 => case 64 =>
  }

  lemma Fill65(m: Machine)
    requires Ready(m) && 65 <= m.pc < 67
    ensures var m' := Exec(m, FillCode(m.pc)); Ready(m') && View(m') == FillStep(View(m))
  {
    match m.pc case 65 => case 66 =>
  }

  lemma Fill67(m: Machine)
    requires Ready(m) && m.pc == 67
    ensures var m' := Exec(m, FillCode(m.pc)); Ready(m') && View(m') == FillStep(View(m))
  {
    match m.pc case 67 =>
  }

  lemma Read68(m: Machine)
    requires Ready(m) && 68 <= m.pc < 71
    ensures var m' := Exec(m, ReadCode(m.pc)); Ready(m') && View(m') == ReadStep(View(m))
  {
    match m.pc case 68 => case 69 => case 70 =>
  }

  lemma Read71(m: Machine)
    requires Ready(m) && 71 <= m.pc < 73
    ensures var m' := Exec(m, ReadCode(m.pc)); Ready(m') && View(m') == ReadStep(View(m))
  {
    match m.pc case 71 => case 72 =>
  }

  lemma Read73(m: Machine)
    requires Ready(m) && m.pc == 73
    ensures var m' := Exec(m, ReadCode(m.pc)); Ready(m') && View(m') == ReadStep(View(m))
  {
    match m.pc case 73 =>
  }

  lemma Read74(m: Machine)
    requires Ready(m) && 74 <= m.pc < 76
    ensures var m' := Exec(m, ReadCode(m.pc)); Ready(m') && View(m') == ReadStep(View(m))
  {
    match m.pc case 74 => case 75 =>
  }

  lemma Read76(m: Machine)
    requires Ready(m) && m.pc == 76
    ensures var m' := Exec(m, ReadCode(m.pc)); Ready(m') && View(m') == ReadStep(View(m))
  {
    match m.pc case 76 =>
  }

  lemma Read77(m: Machine)
    requires Ready(m) && 77 <= m.pc < 80
    ensures var m' := Exec(m, ReadCode(m.pc)); Ready(m') && View(m') == ReadStep(View(m))
  {
    match m.pc case 77 => case 78 => case 79 =>
  }

  lemma Read80(m: Machine)
    requires Ready(m) && 80 <= m.pc < 82
    ensures var m' := Exec(m, ReadCode(m.pc)); Ready(m') && View(m') == ReadStep(View(m))
  {
    match m.pc case 80 => case 81 =>
  }

  lemma Read82(m: Machine)
    requires Ready(m) && m.pc == 82
    ensures var m' := Exec(m, ReadCode(m.pc)); Ready(m') && View(m') == ReadStep(View(m))
  {
    match m.pc case 82 =>
  }

  lemma Read83(m: Machine)
    requires Ready(m) && 83 <= m.pc < 84
    ensures var m' := Exec(m, ReadCode(m.pc)); Ready(m') && View(m') == ReadStep(View(m))
  {
    match m.pc case 83 =>
  }

  lemma Band84(m: Machine)
    requires Ready(m) && 84 <= m.pc < 87
    ensures var m' := Exec(m, BandCode(m.pc)); Ready(m') && View(m') == BandStep(View(m))
  {
    match m.pc case 84 => case 85 => case 86 =>
  }

  lemma Band87(m: Machine)
    requires Ready(m) && 87 <= m.pc < 90
    ensures var m' := Exec(m, BandCode(m.pc)); Ready(m') && View(m') == BandStep(View(m))
  {
    match m.pc case 87 => case 88 => case 89 =>
  }

  lemma Band90(m: Machine)
    requires Ready(m) && 90 <= m.pc < 93
    ensures var m' := Exec(m, BandCode(m.pc)); Ready(m') && View(m') == BandStep(View(m))
  {
    match m.pc case 90 => case 91 => case 92 =>
  }

  lemma Band93(m: Machine)
    requires Ready(m) && 93 <= m.pc < 95
    ensures var m' := Exec(m, BandCode(m.pc)); Ready(m') && View(m') == BandStep(View(m))
  {
    match m.pc case 93 => case 94 =>
  }

  lemma Band95(m: Machine)
    requires Ready(m) && m.pc == 95
    ensures var m' := Exec(m, BandCode(m.pc)); Ready(m') && View(m') == BandStep(View(m))
  {
    match m.pc case 95 =>
  }

  lemma Band96(m: Machine)
    requires Ready(m) && m.pc == 96
    ensures var m' := Exec(m, BandCode(m.pc)); Ready(m') && View(m') == BandStep(View(m))
  {
    assert BandCode(96) == RType(SUB, 10, 8);
  }

  lemma Band97(m: Machine)
    requires Ready(m) && m.pc == 97
    ensures var m' := Exec(m, BandCode(m.pc)); Ready(m') && View(m') == BandStep(View(m))
  {
    assert BandCode(97) == RType(CMP, 7, 10);
  }

  lemma Band98(m: Machine)
    requires Ready(m) && m.pc == 98
    ensures var m' := Exec(m, BandCode(m.pc)); Ready(m') && View(m') == BandStep(View(m))
  {
    assert BandCode(98) == Branch(LT, 7);
  }

  lemma Band99(m: Machine)
    requires Ready(m) && m.pc == 99
    ensures var m' := Exec(m, BandCode(m.pc)); Ready(m') && View(m') == BandStep(View(m))
  {
    assert BandCode(99) == RType(MOV, 10, 9);
  }

  lemma Band100(m: Machine)
    requires Ready(m) && m.pc == 100
    ensures var m' := Exec(m, BandCode(m.pc)); Ready(m') && View(m') == BandStep(View(m))
  {
    assert BandCode(100) == RType(ADD, 10, 8);
  }

  lemma Band101(m: Machine)
    requires Ready(m) && m.pc == 101
    ensures var m' := Exec(m, BandCode(m.pc)); Ready(m') && View(m') == BandStep(View(m))
  {
    assert BandCode(101) == RType(CMP, 10, 7);
  }

  lemma Band102(m: Machine)
    requires Ready(m) && 102 <= m.pc < 104
    ensures var m' := Exec(m, BandCode(m.pc)); Ready(m') && View(m') == BandStep(View(m))
  {
    match m.pc case 102 => case 103 =>
  }

  lemma Band104(m: Machine)
    requires Ready(m) && m.pc == 104
    ensures var m' := Exec(m, BandCode(m.pc)); Ready(m') && View(m') == BandStep(View(m))
  {
    match m.pc case 104 =>
  }

  lemma Buy105(m: Machine)
    requires Ready(m) && 105 <= m.pc < 108
    ensures var m' := Exec(m, BuyCode(m.pc)); Ready(m') && View(m') == BuyStep(View(m))
  {
    match m.pc case 105 => case 106 => case 107 =>
  }

  lemma Buy108(m: Machine)
    requires Ready(m) && 108 <= m.pc < 111
    ensures var m' := Exec(m, BuyCode(m.pc)); Ready(m') && View(m') == BuyStep(View(m))
  {
    match m.pc case 108 => case 109 => case 110 =>
  }

  lemma Buy111(m: Machine)
    requires Ready(m) && 111 <= m.pc < 114
    ensures var m' := Exec(m, BuyCode(m.pc)); Ready(m') && View(m') == BuyStep(View(m))
  {
    match m.pc case 111 => case 112 => case 113 =>
  }

  lemma Buy114(m: Machine)
    requires Ready(m) && 114 <= m.pc < 117
    ensures var m' := Exec(m, BuyCode(m.pc)); Ready(m') && View(m') == BuyStep(View(m))
  {
    match m.pc case 114 => case 115 => case 116 =>
  }

  lemma Sell117(m: Machine)
    requires Ready(m) && 117 <= m.pc < 120
    ensures var m' := Exec(m, SellCode(m.pc)); Ready(m') && View(m') == SellStep(View(m))
  {
    match m.pc case 117 => case 118 => case 119 =>
  }

  lemma Sell120(m: Machine)
    requires Ready(m) && 120 <= m.pc < 123
    ensures var m' := Exec(m, SellCode(m.pc)); Ready(m') && View(m') == SellStep(View(m))
  {
    match m.pc case 120 => case 121 => case 122 =>
  }

  lemma Sell123(m: Machine)
    requires Ready(m) && 123 <= m.pc < 126
    ensures var m' := Exec(m, SellCode(m.pc)); Ready(m') && View(m') == SellStep(View(m))
  {
    match m.pc case 123 => case 124 => case 125 =>
  }

  lemma Sell126(m: Machine)
    requires Ready(m) && 126 <= m.pc < 129
    ensures var m' := Exec(m, SellCode(m.pc)); Ready(m') && View(m') == SellStep(View(m))
  {
    match m.pc case 126 => case 127 => case 128 =>
  }

  lemma Sell129(m: Machine)
    requires Ready(m) && m.pc == 129
    ensures var m' := Exec(m, SellCode(m.pc)); Ready(m') && View(m') == SellStep(View(m))
  {
    match m.pc case 129 =>
  }

  lemma Sell130(m: Machine)
    requires Ready(m) && m.pc == 130
    ensures var m' := Exec(m, SellCode(m.pc)); Ready(m') && View(m') == SellStep(View(m))
  {
    match m.pc case 130 =>
  }

  lemma Emit131(m: Machine)
    requires Ready(m) && 131 <= m.pc < 134
    ensures var m' := Exec(m, EmitCode(m.pc)); Ready(m') && View(m') == EmitStep(View(m))
  {
    match m.pc case 131 => case 132 => case 133 =>
  }

  lemma Emit134(m: Machine)
    requires Ready(m) && 134 <= m.pc < 137
    ensures var m' := Exec(m, EmitCode(m.pc)); Ready(m') && View(m') == EmitStep(View(m))
  {
    match m.pc case 134 => case 135 => case 136 =>
  }

  lemma Emit137(m: Machine)
    requires Ready(m) && 137 <= m.pc < 140
    ensures var m' := Exec(m, EmitCode(m.pc)); Ready(m') && View(m') == EmitStep(View(m))
  {
    match m.pc case 137 => case 138 => case 139 =>
  }

  lemma Emit140(m: Machine)
    requires Ready(m) && 140 <= m.pc < 142
    ensures var m' := Exec(m, EmitCode(m.pc)); Ready(m') && View(m') == EmitStep(View(m))
  {
    match m.pc case 140 => case 141 =>
  }

  lemma Emit142(m: Machine)
    requires Ready(m) && m.pc == 142
    ensures var m' := Exec(m, EmitCode(m.pc)); Ready(m') && View(m') == EmitStep(View(m))
  {
    match m.pc case 142 =>
  }

  lemma Reject143(m: Machine)
    requires Ready(m) && 143 <= m.pc < 146
    ensures var m' := Exec(m, RejectCode(m.pc)); Ready(m') && View(m') == RejectStep(View(m))
  {
    match m.pc case 143 => case 144 => case 145 =>
  }

  lemma Reject146(m: Machine)
    requires Ready(m) && 146 <= m.pc < 149
    ensures var m' := Exec(m, RejectCode(m.pc)); Ready(m') && View(m') == RejectStep(View(m))
  {
    match m.pc case 146 => case 147 => case 148 =>
  }

  lemma Reject149(m: Machine)
    requires Ready(m) && 149 <= m.pc < 152
    ensures var m' := Exec(m, RejectCode(m.pc)); Ready(m') && View(m') == RejectStep(View(m))
  {
    match m.pc case 149 => case 150 => case 151 =>
  }

  lemma Reject152(m: Machine)
    requires Ready(m) && 152 <= m.pc < 154
    ensures var m' := Exec(m, RejectCode(m.pc)); Ready(m') && View(m') == RejectStep(View(m))
  {
    match m.pc case 152 => case 153 =>
  }

  lemma Restart154(m: Machine)
    requires Ready(m) && 154 <= m.pc < 156
    ensures var m' := Exec(m, RestartCode(m.pc)); Ready(m') && View(m') == RestartStep(View(m))
  {
    match m.pc case 154 => case 155 =>
  }

  lemma Restart156(m: Machine)
    requires Ready(m) && 156 <= m.pc < 158
    ensures var m' := Exec(m, RestartCode(m.pc)); Ready(m') && View(m') == RestartStep(View(m))
  {
    match m.pc case 156 => case 157 =>
  }

  lemma SetupBlock(m: Machine)
    requires Ready(m) && 8 <= m.pc < 20
    ensures var m' := Exec(m, SetupCode(m.pc)); Ready(m') && View(m') == SetupStep(View(m))
  {
    if m.pc < 11 { Setup8(m); }
    else if m.pc < 14 { Setup11(m); }
    else if m.pc < 17 { Setup14(m); }
    else { Setup17(m); }
  }

  lemma ClearBlock(m: Machine)
    requires Ready(m) && 20 <= m.pc < 34
    ensures var m' := Exec(m, ClearCode(m.pc)); Ready(m') && View(m') == ClearStep(View(m))
  {
    if m.pc < 23 { Clear20(m); }
    else if m.pc < 26 { Clear23(m); }
    else if m.pc < 29 { Clear26(m); }
    else if m.pc < 32 { Clear29(m); }
    else { Clear32(m); }
  }

  lemma ProbeBlock(m: Machine)
    requires Ready(m) && 34 <= m.pc < 46 && (m.pc == 41 ==> m.flags.z)
    ensures var m' := Exec(m, ProbeCode(m.pc)); Ready(m') && View(m') == ProbeStep(View(m))
  {
    if m.pc < 37 { Probe34(m); }
    else if m.pc < 40 { Probe37(m); }
    else if m.pc < 43 { Probe40(m); }
    else { Probe43(m); }
  }

  lemma HeadBlock(m: Machine)
    requires Ready(m) && 46 <= m.pc < 56
    ensures var m' := Exec(m, HeadCode(m.pc)); Ready(m') && View(m') == HeadStep(View(m))
  {
    if m.pc < 49 { Head46(m); }
    else if m.pc < 52 { Head49(m); }
    else if m.pc < 55 { Head52(m); }
    else { Head55(m); }
  }

  lemma FillBlock(m: Machine)
    requires Ready(m) && 56 <= m.pc < 68
    ensures var m' := Exec(m, FillCode(m.pc)); Ready(m') && View(m') == FillStep(View(m))
  {
    if m.pc < 59 { Fill56(m); }
    else if m.pc < 62 { Fill59(m); }
    else if m.pc < 65 { Fill62(m); }
    else if m.pc < 67 { Fill65(m); }
    else { Fill67(m); }
  }

  lemma ReadBlock(m: Machine)
    requires Ready(m) && 68 <= m.pc < 84
    ensures var m' := Exec(m, ReadCode(m.pc)); Ready(m') && View(m') == ReadStep(View(m))
  {
    if m.pc < 71 { Read68(m); }
    else if m.pc < 73 { Read71(m); }
    else if m.pc < 74 { Read73(m); }
    else if m.pc < 76 { Read74(m); }
    else if m.pc < 77 { Read76(m); }
    else if m.pc < 80 { Read77(m); }
    else if m.pc < 82 { Read80(m); }
    else if m.pc < 83 { Read82(m); }
    else { Read83(m); }
  }

  lemma BandBlock(m: Machine)
    requires Ready(m) && 84 <= m.pc < 105
    ensures var m' := Exec(m, BandCode(m.pc)); Ready(m') && View(m') == BandStep(View(m))
  {
    if m.pc < 87 { Band84(m); }
    else if m.pc < 90 { Band87(m); }
    else if m.pc < 93 { Band90(m); }
    else if m.pc < 95 { Band93(m); }
    else if m.pc < 96 { Band95(m); }
    else if m.pc < 97 { Band96(m); }
    else if m.pc < 98 { Band97(m); }
    else if m.pc < 99 { Band98(m); }
    else if m.pc < 100 { Band99(m); }
    else if m.pc < 101 { Band100(m); }
    else if m.pc < 102 { Band101(m); }
    else if m.pc < 104 { Band102(m); }
    else { Band104(m); }
  }

  lemma BuyBlock(m: Machine)
    requires Ready(m) && 105 <= m.pc < 117
    ensures var m' := Exec(m, BuyCode(m.pc)); Ready(m') && View(m') == BuyStep(View(m))
  {
    if m.pc < 108 { Buy105(m); }
    else if m.pc < 111 { Buy108(m); }
    else if m.pc < 114 { Buy111(m); }
    else { Buy114(m); }
  }

  lemma SellBlock(m: Machine)
    requires Ready(m) && 117 <= m.pc < 131
    ensures var m' := Exec(m, SellCode(m.pc)); Ready(m') && View(m') == SellStep(View(m))
  {
    if m.pc < 120 { Sell117(m); }
    else if m.pc < 123 { Sell120(m); }
    else if m.pc < 126 { Sell123(m); }
    else if m.pc < 129 { Sell126(m); }
    else if m.pc < 130 { Sell129(m); }
    else { Sell130(m); }
  }

  lemma EmitBlock(m: Machine)
    requires Ready(m) && 131 <= m.pc < 143
    ensures var m' := Exec(m, EmitCode(m.pc)); Ready(m') && View(m') == EmitStep(View(m))
  {
    if m.pc < 134 { Emit131(m); }
    else if m.pc < 137 { Emit134(m); }
    else if m.pc < 140 { Emit137(m); }
    else if m.pc < 142 { Emit140(m); }
    else { Emit142(m); }
  }

  lemma RejectBlock(m: Machine)
    requires Ready(m) && 143 <= m.pc < 154
    ensures var m' := Exec(m, RejectCode(m.pc)); Ready(m') && View(m') == RejectStep(View(m))
  {
    if m.pc < 146 { Reject143(m); }
    else if m.pc < 149 { Reject146(m); }
    else if m.pc < 152 { Reject149(m); }
    else { Reject152(m); }
  }

  lemma RestartBlock(m: Machine)
    requires Ready(m) && 154 <= m.pc < 158
    ensures var m' := Exec(m, RestartCode(m.pc)); Ready(m') && View(m') == RestartStep(View(m))
  {
    if m.pc < 156 { Restart154(m); }
    else { Restart156(m); }
  }

  /** One listed instruction is one step of the core. */
  lemma InstructionSim(m: Machine)
    requires Ready(m) && (m.pc == 41 ==> m.flags.z)
    ensures var m' := Exec(m, Code(m.pc)); Ready(m') && View(m') == CoreStep(View(m))
  {
    if m.pc < 20 { SetupBlock(m); }
    else if m.pc < 34 { ClearBlock(m); }
    else if m.pc < 46 { ProbeBlock(m); }
    else if m.pc < 56 { HeadBlock(m); }
    else if m.pc < 68 { FillBlock(m); }
    else if m.pc < 84 { ReadBlock(m); }
    else if m.pc < 105 { BandBlock(m); }
    else if m.pc < 117 { BuyBlock(m); }
    else if m.pc < 131 { SellBlock(m); }
    else if m.pc < 143 { EmitBlock(m); }
    else if m.pc < 154 { RejectBlock(m); }
    else { RestartBlock(m); }
  }

}
