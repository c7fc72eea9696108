/**
  Where each instruction goes and what it leaves alone: the control flow of the
  program as a table, and which words change which quantity.
 */
module Flow {
  import opened Isa
  import opened TradingCore

  /** The word after word `pc`, given whether its branch is taken. */
  function Follows(pc: int, taken: bool): int {
    if pc < 84 then
      if pc == 41 && taken then 158
      else if pc == 51 && taken then 154
      else if pc == 55 && taken then 68
      else if pc == 62 && taken then 65
      else if pc == 64 then 66
      else if (pc == 70 || pc == 74 || pc == 82) && taken then 46
      else pc + 1
    else if pc < 131 then
      if (pc == 85 || pc == 87) && taken then 46
      else if pc == 91 && taken then 103
      else if pc == 98 && taken then 105
      else if pc == 102 && taken then 117
      else if pc == 104 then 46
      else if (pc == 109 || pc == 121) && taken then 145
      else if (pc == 113 || pc == 127) && taken then pc + 2
      else if pc == 114 || pc == 128 then 143
      else if pc == 116 || pc == 130 then 131
      else pc + 1
    else if pc == 142 || pc == 153 then 46
    else if pc == 144 then 146
    else if pc == 157 then 8
    else pc + 1
  }

  /** The word stored to by word `pc`, if it is a store. */
  function Stores(pc: int): int {
    if pc < 46 then
      match pc
      case 21 => 321 case 23 => 322 case 25 => 323 case 27 => 324 case 29 => 326
      case 31 => 328 case 33 => 329 case 36 => 325 case 44 => 327
      case _ => -1
    else
      match pc
      case 47 => 320 case 67 => 324 case 132 => 321 case 134 => 322 case 137 => 325
      case 141 => 323 case 148 => 325 case 152 => 326 case 155 => 266
      case _ => -1
  }

  /** What every instruction leaves alone. */
  ghost predicate Framed(s: Core, s': Core) {
    && Ram(s) && Ram(s')
    && s'.pc == Follows(s.pc, s.taken)
    && (forall a :: 0 <= a < MEM_WORDS && a != Stores(s.pc) ==> s'.mem[a] == s.mem[a])
    && (s.pc != 77 ==> s'.bid == s.bid)
    && (s.pc != 79 ==> s'.ask == s.ask)
    && (s.pc !in {12, 103, 105, 117} ==> s'.anchor == s.anchor)
    && (s.pc !in {13, 83} ==> s'.tick == s.tick)
    && (s.pc !in {14, 46} ==> s'.beat == s.beat)
    && (s.pc !in {16, 63, 65} ==> s'.pos == s.pos)
    && (s.pc !in {18, 56} ==> s'.seen == s.seen)
  }

  lemma StartFrame(s: Core)
    requires Ram(s) && 8 <= s.pc < 34
    ensures Framed(s, CoreStep(s))
  {
    match s.pc
    case 8 => case 9 => case 10 => case 11 => case 12 => case 13 => case 14 => case 15 => case 16 =>
    case 17 => case 18 => case 19 => case 20 => case 21 => case 22 => case 23 => case 24 => case 25 =>
    case 26 => case 27 => case 28 => case 29 => case 30 => case 31 => case 32 => case 33 =>
  }

  lemma HeadFrame(s: Core)
    requires Ram(s) && 34 <= s.pc < 56
    ensures Framed(s, CoreStep(s))
  {
    match s.pc
    case 34 => case 35 => case 36 => case 37 => case 38 => case 39 => case 40 => case 41 => case 42 =>
    case 43 => case 44 => case 45 => case 46 => case 47 => case 48 => case 49 => case 50 => case 51 =>
    case 52 => case 53 => case 54 => case 55 =>
  }

  lemma ReadFrame(s: Core)
    requires Ram(s) && 56 <= s.pc < 84
    ensures Framed(s, CoreStep(s))
  {
    match s.pc
    case 56 => case 57 => case 58 => case 59 => case 60 => case 61 => case 62 => case 63 => case 64 =>
    case 65 => case 66 => case 67 => case 68 => case 69 => case 70 => case 71 => case 72 => case 73 =>
    case 74 => case 75 => case 76 => case 77 => case 78 => case 79 => case 80 => case 81 => case 82 =>
    case 83 =>
  }

  lemma BandFrame(s: Core)
    requires Ram(s) && 84 <= s.pc < 105
    ensures Framed(s, CoreStep(s))
  {
    match s.pc
    case 84 => case 85 => case 86 => case 87 => case 88 => case 89 => case 90 => case 91 => case 92 =>
    case 93 => case 94 => case 95 => case 96 => case 97 => case 98 => case 99 => case 100 =>
    case 101 => case 102 => case 103 => case 104 =>
  }

  lemma GateFrame(s: Core)
    requires Ram(s) && 105 <= s.pc < 131
    ensures Framed(s, CoreStep(s))
  {
    match s.pc
    case 105 => case 106 => case 107 => case 108 => case 109 => case 110 => case 111 => case 112 =>
    case 113 => case 114 => case 115 => case 116 => case 117 => case 118 => case 119 => case 120 =>
    case 121 => case 122 => case 123 => case 124 => case 125 => case 126 => case 127 => case 128 =>
    case 129 => case 130 =>
  }

  lemma EmitFrame(s: Core)
    requires Ram(s) && 131 <= s.pc < 158
    ensures Framed(s, CoreStep(s))
  {
    match s.pc
    case 131 => case 132 => case 133 => case 134 => case 135 => case 136 => case 137 => case 138 =>
    case 139 => case 140 => case 141 => case 142 => case 143 => case 144 => case 145 => case 146 =>
    case 147 => case 148 => case 149 => case 150 => case 151 => case 152 => case 153 => case 154 =>
    case 155 => case 156 => case 157 =>
  }

  lemma Frame(s: Core)
    requires Ram(s) && 8 <= s.pc < 158
    ensures Framed(s, CoreStep(s))
  {
    if s.pc < 34 { StartFrame(s); }
    else if s.pc < 56 { HeadFrame(s); }
    else if s.pc < 84 { ReadFrame(s); }
    else if s.pc < 105 { BandFrame(s); }
    else if s.pc < 131 { GateFrame(s); }
    else { EmitFrame(s); }
  }
}
