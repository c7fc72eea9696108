/**
  The trading program as a transition system over named quantities.

  `Core` keeps the registers the program computes with under the names the program
  gives them, together with the shared RAM; the registers that only ever hold
  constants or addresses are gone.  There is one step per machine instruction, so
  host stores can still fall between any two of them.  Module Simulation proves
  that the machine code takes exactly these steps.
 */
module TradingCore {
  import opened Isa

  datatype Core = Core(
    pc: int,
    mem: seq<Word>,
    taken: bool,      // at a conditional branch: whether it will be taken
    x: Word,          // R7, scratch A
    y: Word,          // R8, scratch B
    lim: Word,        // R10, scratch C
    qty: Word,        // R4 while it holds a fill quantity (words 61..65)
    bid: Word,        // R5
    ask: Word,        // R6
    anchor: Word,     // R9
    tick: Word,       // R11, last TICK_SEQ consumed
    beat: Word,       // R12
    pos: Word,        // R13
    seen: Word)       // R14, last FILL_SEQ consumed

  predicate Ram(s: Core) {
    |s.mem| == MEM_WORDS
  }

  /** Words 8..19: constants, inventory and fill counter adopted from the host. */
  function SetupStep(s: Core): (s': Core)
    requires Ram(s)
    ensures Ram(s')
  {
    match s.pc
    case 8 => s.(pc := 9)
    case 9 => s.(pc := 10)
    case 10 => s.(pc := 11)
    case 11 => s.(pc := 12)
    case 12 => s.(pc := 13, anchor := 0)
    case 13 => s.(pc := 14, tick := 0)
    case 14 => s.(pc := 15, beat := 0)
    case 15 => s.(pc := 16)
    case 16 => s.(pc := 17, pos := s.mem[270])
    case 17 => s.(pc := 18)
    case 18 => s.(pc := 19, seen := s.mem[267])
    case 19 => s.(pc := 20, x := 0)
    case _ => s
  }

  /** Words 20..33: the output block is cleared, POSITION republished. */
  function ClearStep(s: Core): (s': Core)
    requires Ram(s)
    ensures Ram(s')
  {
    match s.pc
    case 20 => s.(pc := 21)
    case 21 => s.(pc := 22, mem := s.mem[321 := s.x])
    case 22 => s.(pc := 23)
    case 23 => s.(pc := 24, mem := s.mem[322 := s.x])
    case 24 => s.(pc := 25)
    case 25 => s.(pc := 26, mem := s.mem[323 := s.x])
    case 26 => s.(pc := 27)
    case 27 => s.(pc := 28, mem := s.mem[324 := s.pos])
    case 28 => s.(pc := 29)
    case 29 => s.(pc := 30, mem := s.mem[326 := s.x])
    case 30 => s.(pc := 31)
    case 31 => s.(pc := 32, mem := s.mem[328 := s.x])
    case 32 => s.(pc := 33)
    case 33 => s.(pc := 34, mem := s.mem[329 := s.x])
    case _ => s
  }

  /** Words 34..45: STATUS, datapath probe, FW_VERSION. */
  function ProbeStep(s: Core): (s': Core)
    requires Ram(s)
    ensures Ram(s')
  {
    match s.pc
    case 34 => s.(pc := 35, x := 1)
    case 35 => s.(pc := 36)
    case 36 => s.(pc := 37, mem := s.mem[325 := s.x])
    case 37 => s.(pc := 38, y := 10)
    case 38 => s.(pc := 39, y := U32(s.y - 3))
    case 39 => s.(pc := 40, x := 7)
    case 40 => s.(pc := 41, taken := s.y != s.x)
    case 41 => s.(pc := if s.taken then 158 else 42, taken := false)
    case 42 => s.(pc := 43, x := 2)
    case 43 => s.(pc := 44)
    case 44 => s.(pc := 45, mem := s.mem[327 := s.x])
    case 45 => s.(pc := 46)
    case _ => s
  }

  /** Words 46..55: heartbeat, restart test, is there a new fill? */
  function HeadStep(s: Core): (s': Core)
    requires Ram(s)
    ensures Ram(s')
  {
    match s.pc
    case 46 => s.(pc := 47, beat := U32(s.beat + 1))
    case 47 => s.(pc := 48, mem := s.mem[320 := s.beat])
    case 48 => s.(pc := 49)
    case 49 => s.(pc := 50, y := s.mem[266])
    case 50 => s.(pc := 51, taken := s.y != 0)
    case 51 => s.(pc := if s.taken then 154 else 52, taken := false)
    case 52 => s.(pc := 53)
    case 53 => s.(pc := 54, y := s.mem[267])
    case 54 => s.(pc := 55, taken := s.y == s.seen)
    case 55 => s.(pc := if s.taken then 68 else 56, taken := false)
    case _ => s
  }

  /** Words 56..67: apply one fill report. */
  function FillStep(s: Core): (s': Core)
    requires Ram(s)
    ensures Ram(s')
  {
    match s.pc
    case 56 => s.(pc := 57, seen := s.y)
    case 57 => s.(pc := 58)
    case 58 => s.(pc := 59, y := s.mem[268])
    case 59 => s.(pc := 60)
    case 60 => s.(pc := 61, qty := s.mem[269])
    case 61 => s.(pc := 62, taken := s.y != 1)
    case 62 => s.(pc := if s.taken then 65 else 63, taken := false)
    case 63 => s.(pc := 64, pos := U32(s.pos + s.qty))
    case 64 => s.(pc := 66, qty := 0)
    case 65 => s.(pc := 66, pos := U32(s.pos - s.qty), qty := 0)
    case 66 => s.(pc := 67)
    case 67 => s.(pc := 68, mem := s.mem[324 := s.pos])
    case _ => s
  }

  /** Words 68..83: seqlock read of BID and ASK. */
  function ReadStep(s: Core): (s': Core)
    requires Ram(s)
    ensures Ram(s')
  {
    match s.pc
    case 68 => s.(pc := 69, x := s.mem[256])
    case 69 => s.(pc := 70, taken := s.x == s.tick)
    case 70 => s.(pc := if s.taken then 46 else 71, taken := false)
    case 71 => s.(pc := 72, y := s.x)
    case 72 => s.(pc := 73, y := s.y % 2)
    case 73 => s.(pc := 74, taken := s.y != 0)
    case 74 => s.(pc := if s.taken then 46 else 75, taken := false)
    case 75 => s.(pc := 76)
    case 76 => s.(pc := 77)
    case 77 => s.(pc := 78, bid := s.mem[257])
    case 78 => s.(pc := 79)
    case 79 => s.(pc := 80, ask := s.mem[258])
    case 80 => s.(pc := 81, y := s.mem[256])
    case 81 => s.(pc := 82, taken := s.y != s.x)
    case 82 => s.(pc := if s.taken then 46 else 83, taken := false)
    case 83 => s.(pc := 84, tick := s.x)
    case _ => s
  }

  /** Words 84..104: band test around the anchor. */
  function BandStep(s: Core): (s': Core)
    requires Ram(s)
    ensures Ram(s')
  {
    match s.pc
    case 84 => s.(pc := 85, taken := s.bid == 0)
    case 85 => s.(pc := if s.taken then 46 else 86, taken := false)
    case 86 => s.(pc := 87, taken := s.ask == 0)
    case 87 => s.(pc := if s.taken then 46 else 88, taken := false)
    case 88 => s.(pc := 89, x := s.bid)
    case 89 => s.(pc := 90, x := U32(s.x + s.ask))
    case 90 => s.(pc := 91, taken := s.anchor == 0)
    case 91 => s.(pc := if s.taken then 103 else 92, taken := false)
    case 92 => s.(pc := 93)
    case 93 => s.(pc := 94, y := s.mem[261])
    case 94 => s.(pc := 95, y := U32(s.y + s.y))
    case 95 => s.(pc := 96, lim := s.anchor)
    case 96 => s.(pc := 97, lim := U32(s.lim - s.y))
    case 97 => s.(pc := 98, taken := S32(s.x) < S32(s.lim))
    case 98 => s.(pc := if s.taken then 105 else 99, taken := false)
    case 99 => s.(pc := 100, lim := s.anchor)
    case 100 => s.(pc := 101, lim := U32(s.lim + s.y))
    case 101 => s.(pc := 102, taken := S32(s.lim) < S32(s.x))
    case 102 => s.(pc := if s.taken then 117 else 103, taken := false)
    case 103 => s.(pc := 104, anchor := s.x)
    case 104 => s.(pc := 46)
    case _ => s
  }

  /** Words 105..116: enable switch and long limit. */
  function BuyStep(s: Core): (s': Core)
    requires Ram(s)
    ensures Ram(s')
  {
    match s.pc
    case 105 => s.(pc := 106, anchor := s.x)
    case 106 => s.(pc := 107)
    case 107 => s.(pc := 108, y := s.mem[263])
    case 108 => s.(pc := 109, taken := s.y == 0)
    case 109 => s.(pc := if s.taken then 145 else 110, taken := false)
    case 110 => s.(pc := 111)
    case 111 => s.(pc := 112, y := s.mem[262])
    case 112 => s.(pc := 113, taken := S32(s.pos) < S32(s.y))
    case 113 => s.(pc := if s.taken then 115 else 114, taken := false)
    case 114 => s.(pc := 143)
    case 115 => s.(pc := 116, x := 1)
    case 116 => s.(pc := 131)
    case _ => s
  }

  /** Words 117..130: enable switch and short limit. */
  function SellStep(s: Core): (s': Core)
    requires Ram(s)
    ensures Ram(s')
  {
    match s.pc
    case 117 => s.(pc := 118, anchor := s.x)
    case 118 => s.(pc := 119)
    case 119 => s.(pc := 120, y := s.mem[263])
    case 120 => s.(pc := 121, taken := s.y == 0)
    case 121 => s.(pc := if s.taken then 145 else 122, taken := false)
    case 122 => s.(pc := 123)
    case 123 => s.(pc := 124, y := s.mem[262])
    case 124 => s.(pc := 125, lim := 0)
    case 125 => s.(pc := 126, lim := U32(s.lim - s.y))
    case 126 => s.(pc := 127, taken := S32(s.lim) < S32(s.pos))
    case 127 => s.(pc := if s.taken then 129 else 128, taken := false)
    case 128 => s.(pc := 143)
    case 129 => s.(pc := 130, x := 2)
    case 130 => s.(pc := 131)
    case _ => s
  }

  /** Words 131..142: publish SIGNAL, SIGNAL_TICK, STATUS, then SIGNAL_SEQ. */
  function EmitStep(s: Core): (s': Core)
    requires Ram(s)
    ensures Ram(s')
  {
    match s.pc
    case 131 => s.(pc := 132)
    case 132 => s.(pc := 133, mem := s.mem[321 := s.x])
    case 133 => s.(pc := 134)
    case 134 => s.(pc := 135, mem := s.mem[322 := s.tick])
    case 135 => s.(pc := 136, x := 1)
    case 136 => s.(pc := 137)
    case 137 => s.(pc := 138, mem := s.mem[325 := s.x])
    case 138 => s.(pc := 139)
    case 139 => s.(pc := 140, y := s.mem[323])
    case 140 => s.(pc := 141, y := U32(s.y + 1))
    case 141 => s.(pc := 142, mem := s.mem[323 := s.y])
    case 142 => s.(pc := 46)
    case _ => s
  }

  /** Words 143..153: STATUS and REJECTS. */
  function RejectStep(s: Core): (s': Core)
    requires Ram(s)
    ensures Ram(s')
  {
    match s.pc
    case 143 => s.(pc := 144, x := 4)
    case 144 => s.(pc := 146)
    case 145 => s.(pc := 146, x := 8)
    case 146 => s.(pc := 147, x := U32(s.x + 1))
    case 147 => s.(pc := 148)
    case 148 => s.(pc := 149, mem := s.mem[325 := s.x])
    case 149 => s.(pc := 150)
    case 150 => s.(pc := 151, y := s.mem[326])
    case 151 => s.(pc := 152, y := U32(s.y + 1))
    case 152 => s.(pc := 153, mem := s.mem[326 := s.y])
    case 153 => s.(pc := 46)
    case _ => s
  }

  /** Words 154..157: clear CFG_RESTART, back to word 8. */
  function RestartStep(s: Core): (s': Core)
    requires Ram(s)
    ensures Ram(s')
  {
    match s.pc
    case 154 => s.(pc := 155, y := 0)
    case 155 => s.(pc := 156, mem := s.mem[266 := s.y])
    case 156 => s.(pc := 157)
    case 157 => s.(pc := 8)
    case _ => s
  }

  /** One instruction of the program. */
  function CoreStep(s: Core): (s': Core)
    requires Ram(s)
    ensures Ram(s')
  {
    if s.pc < 20 then SetupStep(s)
    else if s.pc < 34 then ClearStep(s)
    else if s.pc < 46 then ProbeStep(s)
    else if s.pc < 56 then HeadStep(s)
    else if s.pc < 68 then FillStep(s)
    else if s.pc < 84 then ReadStep(s)
    else if s.pc < 105 then BandStep(s)
    else if s.pc < 117 then BuyStep(s)
    else if s.pc < 131 then SellStep(s)
    else if s.pc < 143 then EmitStep(s)
    else if s.pc < 154 then RejectStep(s)
    else RestartStep(s)
  }
}
