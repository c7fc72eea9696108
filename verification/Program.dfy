/**
  The 154-word image of trading.asm, loaded at word 8, and what each word decodes
  to.  Everything proved about the program is proved about these words.
 */
module Program {
  import opened Isa

  const BASE := 8
  const LEN := 154
  const LOOP := 46

  // ----- the image, block by block

  function SetupWord(pc: int): Word {
    match pc
    case 8 => 0x00000030
    case 9 => 0x0000F101
    case 10 => 0x0001F200
    case 11 => 0x0001F340
    case 12 => 0x00000939
    case 13 => 0x00000B3B
    case 14 => 0x00000C3C
    case 15 => 0x0001F40E
    case 16 => 0x00004D04
    case 17 => 0x0001F40B
    case 18 => 0x00004E04
    case 19 => 0x00000737
    case _ => 0
  }

  function ClearWord(pc: int): Word {
    match pc
    case 20 => 0x0001F441
    case 21 => 0x00004744
    case 22 => 0x0001F442
    case 23 => 0x00004744
    case 24 => 0x0001F443
    case 25 => 0x00004744
    case 26 => 0x0001F444
    case 27 => 0x00004D44
    case 28 => 0x0001F446
    case 29 => 0x00004744
    case 30 => 0x0001F448
    case 31 => 0x00004744
    case 32 => 0x0001F449
    case 33 => 0x00004744
    case _ => 0
  }

  function ProbeWord(pc: int): Word {
    match pc
    case 34 => 0x0000F701
    case 35 => 0x0001F445
    case 36 => 0x00004744
    case 37 => 0x0000F80A
    case 38 => 0x00009803
    case 39 => 0x0000F707
    case 40 => 0x000008B7
    case 41 => 0x0000C175
    case 42 => 0x0000F702
    case 43 => 0x0001F447
    case 44 => 0x00004744
    case 45 => 0x0000FF2E
    case _ => 0
  }

  function HeadWord(pc: int): Word {
    match pc
    case 46 => 0x00000C51
    case 47 => 0x00004C43
    case 48 => 0x0001F40A
    case 49 => 0x00004804
    case 50 => 0x000008B0
    case 51 => 0x0000C167
    case 52 => 0x00000451
    case 53 => 0x00004804
    case 54 => 0x000008BE
    case 55 => 0x0000C00D
    case _ => 0
  }

  function FillWord(pc: int): Word {
    match pc
    case 56 => 0x00000EF8
    case 57 => 0x0001F40C
    case 58 => 0x00004804
    case 59 => 0x0001F40D
    case 60 => 0x00004404
    case 61 => 0x000008B1
    case 62 => 0x0000C103
    case 63 => 0x00000D54
    case 64 => 0x0000CE02
    case 65 => 0x00000D94
    case 66 => 0x0001F444
    case 67 => 0x00004D44
    case _ => 0
  }

  function ReadWord(pc: int): Word {
    match pc
    case 68 => 0x00004702
    case 69 => 0x000007BB
    case 70 => 0x0000C0E8
    case 71 => 0x000008F7
    case 72 => 0x00000811
    case 73 => 0x000008B0
    case 74 => 0x0000C1E4
    case 75 => 0x000004F2
    case 76 => 0x00000451
    case 77 => 0x00004504
    case 78 => 0x00000451
    case 79 => 0x00004604
    case 80 => 0x00004802
    case 81 => 0x000008B7
    case 82 => 0x0000C1DC
    case 83 => 0x00000BF7
    case _ => 0
  }

  function BandWord(pc: int): Word {
    match pc
    case 84 => 0x000005B0
    case 85 => 0x0000C0D9
    case 86 => 0x000006B0
    case 87 => 0x0000C0D7
    case 88 => 0x000007F5
    case 89 => 0x00000756
    case 90 => 0x000009B0
    case 91 => 0x0000C00C
    case 92 => 0x0001F405
    case 93 => 0x00004804
    case 94 => 0x00000858
    case 95 => 0x00000AF9
    case 96 => 0x00000A98
    case 97 => 0x000007BA
    case 98 => 0x0000C607
    case 99 => 0x00000AF9
    case 100 => 0x00000A58
    case 101 => 0x00000AB7
    case 102 => 0x0000C60F
    case 103 => 0x000009F7
    case 104 => 0x00004ECF
    case _ => 0
  }

  function BuyWord(pc: int): Word {
    match pc
    case 105 => 0x000009F7
    case 106 => 0x0001F407
    case 107 => 0x00004804
    case 108 => 0x000008B0
    case 109 => 0x0000C024
    case 110 => 0x0001F406
    case 111 => 0x00004804
    case 112 => 0x00000DB8
    case 113 => 0x0000C602
    case 114 => 0x0000CE1D
    case 115 => 0x0000F701
    case 116 => 0x0000CE0F
    case _ => 0
  }

  function SellWord(pc: int): Word {
    match pc
    case 117 => 0x000009F7
    case 118 => 0x0001F407
    case 119 => 0x00004804
    case 120 => 0x000008B0
    case 121 => 0x0000C018
    case 122 => 0x0001F406
    case 123 => 0x00004804
    case 124 => 0x00000A3A
    case 125 => 0x00000A98
    case 126 => 0x00000ABD
    case 127 => 0x0000C602
    case 128 => 0x0000CE0F
    case 129 => 0x0000F702
    case 130 => 0x0000CE01
    case _ => 0
  }

  function EmitWord(pc: int): Word {
    match pc
    case 131 => 0x0001F441
    case 132 => 0x00004744
    case 133 => 0x0001F442
    case 134 => 0x00004B44
    case 135 => 0x0000F701
    case 136 => 0x0001F445
    case 137 => 0x00004744
    case 138 => 0x0001F443
    case 139 => 0x00004804
    case 140 => 0x00000851
    case 141 => 0x00004844
    case 142 => 0x00004ECF
    case _ => 0
  }

  function RejectWord(pc: int): Word {
    match pc
    case 143 => 0x0000F704
    case 144 => 0x0000CE02
    case 145 => 0x0000F708
    case 146 => 0x00000751
    case 147 => 0x0001F445
    case 148 => 0x00004744
    case 149 => 0x0001F446
    case 150 => 0x00004804
    case 151 => 0x00000851
    case 152 => 0x00004844
    case 153 => 0x00004ECF
    case _ => 0
  }

  function RestartWord(pc: int): Word {
    match pc
    case 154 => 0x00000838
    case 155 => 0x00004844
    case 156 => 0x0000F408
    case 157 => 0x00004EC4
    case 158 => 0x00000C51
    case 159 => 0x00004C43
    case 160 => 0x0000F49E
    case 161 => 0x00004EC4
    case _ => 0
  }

  /** Word `pc` of the image. */
  function ImageWord(pc: int): Word {
    if pc < 20 then SetupWord(pc)
    else if pc < 34 then ClearWord(pc)
    else if pc < 46 then ProbeWord(pc)
    else if pc < 56 then HeadWord(pc)
    else if pc < 68 then FillWord(pc)
    else if pc < 84 then ReadWord(pc)
    else if pc < 105 then BandWord(pc)
    else if pc < 117 then BuyWord(pc)
    else if pc < 131 then SellWord(pc)
    else if pc < 143 then EmitWord(pc)
    else if pc < 154 then RejectWord(pc)
    else RestartWord(pc)
  }

  /** The whole image is in memory. */
  ghost predicate Loaded(mem: seq<Word>) {
    |mem| == MEM_WORDS && forall k :: BASE <= k < BASE + LEN ==> mem[k] == ImageWord(k)
  }

  // ----- the listing

  function SetupCode(pc: int): (d: Instr)
    ensures InRange(d)
  {
    match pc
    case 8 => RType(XOR, 0, 0)
    case 9 => IType(MOV, 1, 1)
    case 10 => IType(MOV, 2, 256)
    case 11 => IType(MOV, 3, 320)
    case 12 => RType(XOR, 9, 9)
    case 13 => RType(XOR, 11, 11)
    case 14 => RType(XOR, 12, 12)
    case 15 => IType(MOV, 4, 270)
    case 16 => Load(13, 4)
    case 17 => IType(MOV, 4, 267)
    case 18 => Load(14, 4)
    case 19 => RType(XOR, 7, 7)
    case _ => Halt
  }

  function ClearCode(pc: int): (d: Instr)
    ensures InRange(d)
  {
    match pc
    case 20 => IType(MOV, 4, 321)
    case 21 => Stor(7, 4)
    case 22 => IType(MOV, 4, 322)
    case 23 => Stor(7, 4)
    case 24 => IType(MOV, 4, 323)
    case 25 => Stor(7, 4)
    case 26 => IType(MOV, 4, 324)
    case 27 => Stor(13, 4)
    case 28 => IType(MOV, 4, 326)
    case 29 => Stor(7, 4)
    case 30 => IType(MOV, 4, 328)
    case 31 => Stor(7, 4)
    case 32 => IType(MOV, 4, 329)
    case 33 => Stor(7, 4)
    case _ => Halt
  }

  function ProbeCode(pc: int): (d: Instr)
    ensures InRange(d)
  {
    match pc
    case 34 => IType(MOV, 7, 1)
    case 35 => IType(MOV, 4, 325)
    case 36 => Stor(7, 4)
    case 37 => IType(MOV, 8, 10)
    case 38 => IType(SUB, 8, 3)
    case 39 => IType(MOV, 7, 7)
    case 40 => RType(CMP, 8, 7)
    case 41 => Branch(NE, 117)
    case 42 => IType(MOV, 7, 2)
    case 43 => IType(MOV, 4, 327)
    case 44 => Stor(7, 4)
    case 45 => IType(MOV, 15, 46)
    case _ => Halt
  }

  function HeadCode(pc: int): (d: Instr)
    ensures InRange(d)
  {
    match pc
    case 46 => RType(ADD, 12, 1)
    case 47 => Stor(12, 3)
    case 48 => IType(MOV, 4, 266)
    case 49 => Load(8, 4)
    case 50 => RType(CMP, 8, 0)
    case 51 => Branch(NE, 103)
    case 52 => RType(ADD, 4, 1)
    case 53 => Load(8, 4)
    case 54 => RType(CMP, 8, 14)
    case 55 => Branch(EQ, 13)
    case _ => Halt
  }

  function FillCode(pc: int): (d: Instr)
    ensures InRange(d)
  {
    match pc
    case 56 => RType(MOV, 14, 8)
    case 57 => IType(MOV, 4, 268)
    case 58 => Load(8, 4)
    case 59 => IType(MOV, 4, 269)
    case 60 => Load(4, 4)
    case 61 => RType(CMP, 8, 1)
    case 62 => Branch(NE, 3)
    case 63 => RType(ADD, 13, 4)
    case 64 => Branch(UC, 2)
    case 65 => RType(SUB, 13, 4)
    case 66 => IType(MOV, 4, 324)
    case 67 => Stor(13, 4)
    case _ => Halt
  }

  function ReadCode(pc: int): (d: Instr)
    ensures InRange(d)
  {
    match pc
    case 68 => Load(7, 2)
    case 69 => RType(CMP, 7, 11)
    case 70 => Branch(EQ, -24)
    case 71 => RType(MOV, 8, 7)
    case 72 => RType(AND, 8, 1)
    case 73 => RType(CMP, 8, 0)
    case 74 => Branch(NE, -28)
    case 75 => RType(MOV, 4, 2)
    case 76 => RType(ADD, 4, 1)
    case 77 => Load(5, 4)
    case 78 => RType(ADD, 4, 1)
    case 79 => Load(6, 4)
    case 80 => Load(8, 2)
    case 81 => RType(CMP, 8, 7)
    case 82 => Branch(NE, -36)
    case 83 => RType(MOV, 11, 7)
    case _ => Halt
  }

  function BandCode(pc: int): (d: Instr)
    ensures InRange(d)
  {
    match pc
    case 84 => RType(CMP, 5, 0)
    case 85 => Branch(EQ, -39)
    case 86 => RType(CMP, 6, 0)
    case 87 => Branch(EQ, -41)
    case 88 => RType(MOV, 7, 5)
    case 89 => RType(ADD, 7, 6)
    case 90 => RType(CMP, 9, 0)
    case 91 => Branch(EQ, 12)
    case 92 => IType(MOV, 4, 261)
    case 93 => Load(8, 4)
    case 94 => RType(ADD, 8, 8)
    case 95 => RType(MOV, 10, 9)
    case 96 => RType(SUB, 10, 8)
    case 97 => RType(CMP, 7, 10)
    case 98 => Branch(LT, 7)
    case 99 => RType(MOV, 10, 9)
    case 100 => RType(ADD, 10, 8)
    case 101 => RType(CMP, 10, 7)
    case 102 => Branch(LT, 15)
    case 103 => RType(MOV, 9, 7)
    case 104 => Jump(UC, 15)
    case _ => Halt
  }

  function BuyCode(pc: int): (d: Instr)
    ensures InRange(d)
  {
    match pc
    case 105 => RType(MOV, 9, 7)
    case 106 => IType(MOV, 4, 263)
    case 107 => Load(8, 4)
    case 108 => RType(CMP, 8, 0)
    case 109 => Branch(EQ, 36)
    case 110 => IType(MOV, 4, 262)
    case 111 => Load(8, 4)
    case 112 => RType(CMP, 13, 8)
    case 113 => Branch(LT, 2)
    case 114 => Branch(UC, 29)
    case 115 => IType(MOV, 7, 1)
    case 116 => Branch(UC, 15)
    case _ => Halt
  }

  function SellCode(pc: int): (d: Instr)
    ensures InRange(d)
  {
    match pc
    case 117 => RType(MOV, 9, 7)
    case 118 => IType(MOV, 4, 263)
    case 119 => Load(8, 4)
    case 120 => RType(CMP, 8, 0)
    case 121 => Branch(EQ, 24)
    case 122 => IType(MOV, 4, 262)
    case 123 => Load(8, 4)
    case 124 => RType(XOR, 10, 10)
    case 125 => RType(SUB, 10, 8)
    case 126 => RType(CMP, 10, 13)
    case 127 => Branch(LT, 2)
    case 128 => Branch(UC, 15)
    case 129 => IType(MOV, 7, 2)
    case 130 => Branch(UC, 1)
    case _ => Halt
  }

  function EmitCode(pc: int): (d: Instr)
    ensures InRange(d)
  {
    match pc
    case 131 => IType(MOV, 4, 321)
    case 132 => Stor(7, 4)
    case 133 => IType(MOV, 4, 322)
    case 134 => Stor(11, 4)
    case 135 => IType(MOV, 7, 1)
    case 136 => IType(MOV, 4, 325)
    case 137 => Stor(7, 4)
    case 138 => IType(MOV, 4, 323)
    case 139 => Load(8, 4)
    case 140 => RType(ADD, 8, 1)
    case 141 => Stor(8, 4)
    case 142 => Jump(UC, 15)
    case _ => Halt
  }

  function RejectCode(pc: int): (d: Instr)
    ensures InRange(d)
  {
    match pc
    case 143 => IType(MOV, 7, 4)
    case 144 => Branch(UC, 2)
    case 145 => IType(MOV, 7, 8)
    case 146 => RType(ADD, 7, 1)
    case 147 => IType(MOV, 4, 325)
    case 148 => Stor(7, 4)
    case 149 => IType(MOV, 4, 326)
    case 150 => Load(8, 4)
    case 151 => RType(ADD, 8, 1)
    case 152 => Stor(8, 4)
    case 153 => Jump(UC, 15)
    case _ => Halt
  }

  function RestartCode(pc: int): (d: Instr)
    ensures InRange(d)
  {
    match pc
    case 154 => RType(XOR, 8, 8)
    case 155 => Stor(8, 4)
    case 156 => IType(MOV, 4, 8)
    case 157 => Jump(UC, 4)
    case 158 => RType(ADD, 12, 1)
    case 159 => Stor(12, 3)
    case 160 => IType(MOV, 4, 158)
    case 161 => Jump(UC, 4)
    case _ => Halt
  }

  /** The instruction at word `pc`. */
  function Code(pc: int): (d: Instr)
    ensures InRange(d)
  {
    if pc < 20 then SetupCode(pc)
    else if pc < 34 then ClearCode(pc)
    else if pc < 46 then ProbeCode(pc)
    else if pc < 56 then HeadCode(pc)
    else if pc < 68 then FillCode(pc)
    else if pc < 84 then ReadCode(pc)
    else if pc < 105 then BandCode(pc)
    else if pc < 117 then BuyCode(pc)
    else if pc < 131 then SellCode(pc)
    else if pc < 143 then EmitCode(pc)
    else if pc < 154 then RejectCode(pc)
    else RestartCode(pc)
  }

  lemma SetupEncodes(pc: int)
    requires 8 <= pc < 20
    ensures Encode(SetupCode(pc)) == Ok(SetupWord(pc))
  {
    match pc
    case 8 => case 9 => case 10 => case 11 => case 12 => case 13 => case 14 => case 15 =>
    case 16 => case 17 => case 18 => case 19 =>
  }

  lemma ClearEncodes(pc: int)
    requires 20 <= pc < 34
    ensures Encode(ClearCode(pc)) == Ok(ClearWord(pc))
  {
    match pc
    case 20 => case 21 => case 22 => case 23 => case 24 => case 25 => case 26 => case 27 =>
    case 28 => case 29 => case 30 => case 31 => case 32 => case 33 =>
  }

  lemma ProbeEncodes(pc: int)
    requires 34 <= pc < 46
    ensures Encode(ProbeCode(pc)) == Ok(ProbeWord(pc))
  {
    match pc
    case 34 => case 35 => case 36 => case 37 => case 38 => case 39 => case 40 => case 41 =>
    case 42 => case 43 => case 44 => case 45 =>
  }

  lemma HeadEncodes(pc: int)
    requires 46 <= pc < 56
    ensures Encode(HeadCode(pc)) == Ok(HeadWord(pc))
  {
    match pc
    case 46 => case 47 => case 48 => case 49 => case 50 => case 51 => case 52 => case 53 =>
    case 54 => case 55 =>
  }

  lemma FillEncodes(pc: int)
    requires 56 <= pc < 68
    ensures Encode(FillCode(pc)) == Ok(FillWord(pc))
  {
    match pc
    case 56 => case 57 => case 58 => case 59 => case 60 => case 61 => case 62 => case 63 =>
    case 64 => case 65 => case 66 => case 67 =>
  }

  lemma ReadEncodes(pc: int)
    requires 68 <= pc < 84
    ensures Encode(ReadCode(pc)) == Ok(ReadWord(pc))
  {
    match pc
    case 68 => case 69 => case 70 => case 71 => case 72 => case 73 => case 74 => case 75 =>
    case 76 => case 77 => case 78 => case 79 => case 80 => case 81 => case 82 => case 83 =>
  }

  lemma BandEncodes(pc: int)
    requires 84 <= pc < 105
    ensures Encode(BandCode(pc)) == Ok(BandWord(pc))
  {
    match pc
    case 84 => case 85 => case 86 => case 87 => case 88 => case 89 => case 90 => case 91 =>
    case 92 => case 93 => case 94 => case 95 => case 96 => case 97 => case 98 => case 99 =>
    case 100 => case 101 => case 102 => case 103 => case 104 =>
  }

  lemma BuyEncodes(pc: int)
    requires 105 <= pc < 117
    ensures Encode(BuyCode(pc)) == Ok(BuyWord(pc))
  {
    match pc
    case 105 => case 106 => case 107 => case 108 => case 109 => case 110 => case 111 => case 112 =>
    case 113 => case 114 => case 115 => case 116 =>
  }

  lemma SellEncodes(pc: int)
    requires 117 <= pc < 131
    ensures Encode(SellCode(pc)) == Ok(SellWord(pc))
  {
    match pc
    case 117 => case 118 => case 119 => case 120 => case 121 => case 122 => case 123 => case 124 =>
    case 125 => case 126 => case 127 => case 128 => case 129 => case 130 =>
  }

  lemma EmitEncodes(pc: int)
    requires 131 <= pc < 143
    ensures Encode(EmitCode(pc)) == Ok(EmitWord(pc))
  {
    match pc
    case 131 => case 132 => case 133 => case 134 => case 135 => case 136 => case 137 => case 138 =>
    case 139 => case 140 => case 141 => case 142 =>
  }

  lemma RejectEncodes(pc: int)
    requires 143 <= pc < 154
    ensures Encode(RejectCode(pc)) == Ok(RejectWord(pc))
  {
    match pc
    case 143 => case 144 => case 145 => case 146 => case 147 => case 148 => case 149 => case 150 =>
    case 151 => case 152 => case 153 =>
  }

  lemma RestartEncodes(pc: int)
    requires 154 <= pc < 162
    ensures Encode(RestartCode(pc)) == Ok(RestartWord(pc))
  {
    match pc
    case 154 => case 155 => case 156 => case 157 => case 158 => case 159 => case 160 => case 161 =>
  }

  /** Every word of the image decodes to its entry of the listing, a defined instruction. */
  lemma ImageDecodes(pc: int)
    requires BASE <= pc < BASE + LEN
    ensures Decode(ImageWord(pc)) == Code(pc)
    ensures !Code(pc).Halt? && !Code(pc).Undefined?
  {
    if pc < 20 { SetupEncodes(pc); }
    else if pc < 34 { ClearEncodes(pc); }
    else if pc < 46 { ProbeEncodes(pc); }
    else if pc < 56 { HeadEncodes(pc); }
    else if pc < 68 { FillEncodes(pc); }
    else if pc < 84 { ReadEncodes(pc); }
    else if pc < 105 { BandEncodes(pc); }
    else if pc < 117 { BuyEncodes(pc); }
    else if pc < 131 { SellEncodes(pc); }
    else if pc < 143 { EmitEncodes(pc); }
    else if pc < 154 { RejectEncodes(pc); }
    else { RestartEncodes(pc); }
    RoundTrip(Code(pc));
  }
}
