/**
  The FMMA instruction set: 32-bit words, the six formats the decoder knows, and
  the encoders the assembler is built from.

  Registers and memory words are integers in [0, 2^32); every operation that can
  leave that range says so with U32.
 */
module Isa {

  const W32: int := 0x1_0000_0000
  const H31: int := 0x8000_0000
  const MEM_WORDS: int := 1024

  type Word = x: int | 0 <= x < 0x1_0000_0000

  /** Truncation to 32 bits. */
  function U32(v: int): Word {
    v % W32
  }

  /** The signed reading of a 32-bit word. */
  function S32(v: Word): int {
    if v < H31 then v else v - W32
  }

  datatype Result<+T> = Ok(value: T) | Err(error: string) {
    predicate IsFailure() {
      Err?
    }
    function PropagateFailure<U>(): Result<U>
      requires Err?
    {
      Err(error)
    }
    function Extract(): T
      requires Ok?
    {
      value
    }
  }

  // ----- operations and conditions

  datatype Op =
    | AND | OR | XOR | ADD | ADDU | ADDC | LSH | SUB | SUBC | CMP | ASH | MUL | MOV
    | NoOp(code: int)

  function OpCode(op: Op): int {
    match op
    case AND => 0x1
    case OR => 0x2
    case XOR => 0x3
    case ADD => 0x5
    case ADDU => 0x6
    case ADDC => 0x7
    case LSH => 0x8
    case SUB => 0x9
    case SUBC => 0xA
    case CMP => 0xB
    case ASH => 0xD
    case MUL => 0xE
    case MOV => 0xF
    case NoOp(c) => c
  }

  function OpOf(code: int): Op {
    match code
    case 0x1 => AND
    case 0x2 => OR
    case 0x3 => XOR
    case 0x5 => ADD
    case 0x6 => ADDU
    case 0x7 => ADDC
    case 0x8 => LSH
    case 0x9 => SUB
    case 0xA => SUBC
    case 0xB => CMP
    case 0xD => ASH
    case 0xE => MUL
    case 0xF => MOV
    case c => NoOp(c)
  }

  datatype Cond = EQ | NE | LT | GE | LE | UC | Never(code: int)

  function CondCode(c: Cond): int {
    match c
    case EQ => 0
    case NE => 1
    case LT => 6
    case GE => 7
    case LE => 13
    case UC => 14
    case Never(k) => k
  }

  function CondOf(code: int): Cond {
    match code
    case 0 => EQ
    case 1 => NE
    case 6 => LT
    case 7 => GE
    case 13 => LE
    case 14 => UC
    case k => Never(k)
  }

  /** Whether a branch on `c` is taken, given the Z and N flags. */
  predicate Taken(c: Cond, z: bool, n: bool) {
    match c
    case EQ => z
    case NE => !z
    case LT => n
    case GE => z || !n
    case LE => z || n
    case UC => true
    case Never(_) => false
  }

  // ----- decoded instructions

  datatype Instr =
    | Halt
    | RType(op: Op, rd: int, rs: int)
    | IType(op: Op, rd: int, imm: int)
    | Load(rd: int, ra: int)
    | Stor(rs: int, ra: int)
    | Branch(cond: Cond, disp: int)
    | Jump(cond: Cond, rt: int)
    | Undefined

  /** The register fields an instruction names are register numbers. */
  predicate InRange(d: Instr) {
    match d
    case Halt => true
    case RType(_, rd, rs) => 0 <= rd < 16 && 0 <= rs < 16
    case IType(_, rd, imm) => 0 <= rd < 16 && 0 <= imm < 0x100_0000
    case Load(rd, ra) => 0 <= rd < 16 && 0 <= ra < 16
    case Stor(rs, ra) => 0 <= rs < 16 && 0 <= ra < 16
    case Branch(_, disp) => -128 <= disp <= 127
    case Jump(_, rt) => 0 <= rt < 16
    case Undefined => true
  }

  /** Decode one machine word the way the control FSM does. */
  function Decode(w: Word): (d: Instr)
    ensures InRange(d)
    ensures d.Halt? <==> w == 0
  {
    if w == 0 then Halt else
    var cls := w / 0x1000 % 16;
    var rd := w / 0x100 % 16;
    var mid := w / 0x10 % 16;
    var low := w % 16;
    if cls == 4 then
      if mid == 4 then Stor(rd, low)
      else if mid == 0 then Load(rd, low)
      else if mid == 12 then Jump(CondOf(rd), low)
      else Undefined
    else if cls == 12 then
      var raw := w % 0x100;
      Branch(CondOf(rd), if raw >= 128 then raw - 256 else raw)
    else if cls == 0 then
      RType(OpOf(mid), rd, low)
    else
      ImmediateFits(w);
      IType(OpOf(cls), rd, w / 0x1_0000 * 0x100 + w % 0x100)
  }

  /** The immediate's three bytes. */
  lemma ImmediateFits(w: Word)
    ensures 0 <= w / 0x1_0000 * 0x100 + w % 0x100 < 0x100_0000
  {
    var hi := w / 0x1_0000;
    assert hi < 0x1_0000;
  }

  /**
    Decoding told from the six fields a word is put together from: the halfword above,
    the class, the register, the two low digits.
   */
  lemma DecodeFields(hi: int, cls: int, rd: int, mid: int, low: int)
    requires 0 <= hi < 0x1_0000 && 0 <= cls < 16 && 0 <= rd < 16 && 0 <= mid < 16 && 0 <= low < 16
    ensures var w: Word := hi * 0x1_0000 + cls * 0x1000 + rd * 0x100 + mid * 0x10 + low;
            Decode(w) ==
            if w == 0 then Halt
            else match cls
              case 4 =>
                (match mid
                 case 0 => Load(rd, low) case 4 => Stor(rd, low) case 12 => Jump(CondOf(rd), low)
                 case _ => Undefined)
              case 12 => Branch(CondOf(rd), if mid >= 8 then mid * 16 + low - 256 else mid * 16 + low)
              case 0 => RType(OpOf(mid), rd, low)
              case _ => IType(OpOf(cls), rd, hi * 0x100 + mid * 16 + low)
  {
    FieldsOf(hi, cls, rd, mid, low);
  }

  // ----- encoders

  predicate Reg(n: int) {
    0 <= n <= 15
  }

  function EncodeRType(op: Op, rd: int, rs: int): Result<Word> {
    if op.NoOp? then Err("not an ALU opcode")
    else if !Reg(rd) || !Reg(rs) then Err("register out of range")
    else Ok(rd * 0x100 + OpCode(op) * 0x10 + rs)
  }

  function EncodeIType(op: Op, rd: int, imm: int): Result<Word> {
    if op.NoOp? then Err("not an ALU opcode")
    else if !(0 <= imm <= 0xFF_FFFF) then Err("immediate out of range")
    else if !Reg(rd) then Err("register out of range")
    else Ok(imm / 0x100 * 0x1_0000 + OpCode(op) * 0x1000 + rd * 0x100 + imm % 0x100)
  }

  function EncodeLoad(rd: int, ra: int): Result<Word> {
    if !Reg(rd) || !Reg(ra) then Err("register out of range")
    else Ok(0x4000 + rd * 0x100 + ra)
  }

  function EncodeStor(rs: int, ra: int): Result<Word> {
    if !Reg(rs) || !Reg(ra) then Err("register out of range")
    else Ok(0x4000 + rs * 0x100 + 0x40 + ra)
  }

  function EncodeBranch(c: Cond, disp: int): Result<Word> {
    if c.Never? then Err("condition is not implemented")
    else if !(-128 <= disp <= 127) then Err("branch displacement out of range")
    else Ok(0xC000 + CondCode(c) * 0x100 + disp % 0x100)
  }

  function EncodeJump(c: Cond, rt: int): Result<Word> {
    if c.Never? then Err("condition is not implemented")
    else if !Reg(rt) then Err("register out of range")
    else Ok(0x4000 + CondCode(c) * 0x100 + 0xC0 + rt)
  }

  // ----- decoding undoes encoding, for every operand the encoder accepts

  lemma OpRoundTrip(op: Op)
    requires !op.NoOp?
    ensures OpOf(OpCode(op)) == op
    ensures 0 < OpCode(op) < 16 && OpCode(op) != 4 && OpCode(op) != 12
  {
  }

  lemma FieldsOf(hi: int, cls: int, rd: int, mid: int, low: int)
    requires 0 <= hi < 0x1_0000 && 0 <= cls < 16 && 0 <= rd < 16 && 0 <= mid < 16 && 0 <= low < 16
    ensures var w := hi * 0x1_0000 + cls * 0x1000 + rd * 0x100 + mid * 0x10 + low;
            && 0 <= w < W32
            && w / 0x1_0000 == hi && w / 0x1000 % 16 == cls && w / 0x100 % 16 == rd
            && w / 0x10 % 16 == mid && w % 16 == low && w % 0x100 == mid * 0x10 + low
  {
    var w := hi * 0x1_0000 + cls * 0x1000 + rd * 0x100 + mid * 0x10 + low;
    assert w / 0x10 == hi * 0x1000 + cls * 0x100 + rd * 0x10 + mid;
    assert w / 0x100 == hi * 0x100 + cls * 0x10 + rd;
    assert w / 0x1000 == hi * 0x10 + cls;
  }

  lemma RTypeRoundTrip(op: Op, rd: int, rs: int)
    requires EncodeRType(op, rd, rs).Ok?
    ensures Decode(EncodeRType(op, rd, rs).value) == RType(op, rd, rs)
  {
    OpRoundTrip(op);
    FieldsOf(0, 0, rd, OpCode(op), rs);
  }

  lemma ITypeRoundTrip(op: Op, rd: int, imm: int)
    requires EncodeIType(op, rd, imm).Ok?
    ensures Decode(EncodeIType(op, rd, imm).value) == IType(op, rd, imm)
  {
    OpRoundTrip(op);
    var hi, lo := imm / 0x100, imm % 0x100;
    var mid, low := lo / 0x10, lo % 0x10;
    FieldsOf(hi, OpCode(op), rd, mid, low);
    assert lo == mid * 0x10 + low;
    assert imm == hi * 0x100 + lo;
  }

  lemma LoadRoundTrip(rd: int, ra: int)
    requires EncodeLoad(rd, ra).Ok?
    ensures Decode(EncodeLoad(rd, ra).value) == Load(rd, ra)
  {
    FieldsOf(0, 4, rd, 0, ra);
  }

  lemma StorRoundTrip(rs: int, ra: int)
    requires EncodeStor(rs, ra).Ok?
    ensures Decode(EncodeStor(rs, ra).value) == Stor(rs, ra)
  {
    FieldsOf(0, 4, rs, 4, ra);
  }

  lemma BranchRoundTrip(c: Cond, disp: int)
    requires EncodeBranch(c, disp).Ok?
    ensures Decode(EncodeBranch(c, disp).value) == Branch(c, disp)
  {
    var raw := disp % 0x100;
    var mid, low := raw / 0x10, raw % 0x10;
    FieldsOf(0, 12, CondCode(c), mid, low);
    assert raw == mid * 0x10 + low;
  }

  lemma JumpRoundTrip(c: Cond, rt: int)
    requires EncodeJump(c, rt).Ok?
    ensures Decode(EncodeJump(c, rt).value) == Jump(c, rt)
  {
    FieldsOf(0, 4, CondCode(c), 12, rt);
  }

  /** The encoder for a decoded instruction; HALT and undefined words have none. */
  function Encode(d: Instr): Result<Word> {
    match d
    case RType(op, rd, rs) => EncodeRType(op, rd, rs)
    case IType(op, rd, imm) => EncodeIType(op, rd, imm)
    case Load(rd, ra) => EncodeLoad(rd, ra)
    case Stor(rs, ra) => EncodeStor(rs, ra)
    case Branch(c, disp) => EncodeBranch(c, disp)
    case Jump(c, rt) => EncodeJump(c, rt)
    case Halt => Err("no encoding")
    case Undefined => Err("no encoding")
  }

  /** Whatever an encoder accepts, the decoder reads back as the same instruction. */
  lemma RoundTrip(d: Instr)
    requires Encode(d).Ok?
    ensures Decode(Encode(d).value) == d
    ensures Encode(d).value != 0
  {
    match d
    case RType(op, rd, rs) => RTypeRoundTrip(op, rd, rs);
    case IType(op, rd, imm) => ITypeRoundTrip(op, rd, imm);
    case Load(rd, ra) => LoadRoundTrip(rd, ra);
    case Stor(rs, ra) => StorRoundTrip(rs, ra);
    case Branch(c, disp) => BranchRoundTrip(c, disp);
    case Jump(c, rt) => JumpRoundTrip(c, rt);
  }
}
