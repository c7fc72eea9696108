/**
  What the ALU's results and flags mean: bits for the bitwise operations, signed and
  unsigned overflow for the arithmetic ones, and the comparisons the six branch
  conditions make after CMP.
 */
module AluLaws {
  import opened Isa
  import opened CpuModel
  import opened Arith

  /** A register holds what was last written to it, and a write changes no other. */
  lemma RegisterFile(r: Regs, i: int, j: int, v: Word)
    requires 0 <= i < 16 && 0 <= j < 16
    ensures r.Set(i, v).Get(j) == if j == i then v else r.Get(j)
  {
  }

  /** A zero word is polled, one cycle at a time; an undefined word holds the CPU where it is. */
  lemma HeldMeaning(m: Machine)
    requires Valid(m) && (m.mem[m.pc] == 0 || Fetch(m).Undefined?)
    ensures var m' := Step(m); m' == m.(cycles := m'.cycles, instructions := m'.instructions, polls := m'.polls)
    ensures m.mem[m.pc] == 0 ==> Step(m) == m.(cycles := m.cycles + 1, polls := m.polls + 1)
  {
  }

  // ----- bits

  predicate Bit(a: nat, i: nat) {
    a / Pow2(i) % 2 == 1
  }

  lemma BitNext(a: nat, i: nat)
    ensures Bit(a, i + 1) == Bit(a / 2, i)
  {
    DivTwice(a, Pow2(i));
  }

  /** Dividing by 2 and then by p is dividing by 2p. */
  lemma DivTwice(a: nat, p: nat)
    requires p > 0
    ensures a / (2 * p) == a / 2 / p
  {
    var h, q := a / 2, a / 2 / p;
    var r := h % p;
    assert h == q * p + r;
    assert a == q * (2 * p) + (2 * r + a % 2);
    QuotientIs(a, 2 * p, q, 2 * r + a % 2);
  }

  lemma ZeroBits(i: nat)
    ensures !Bit(0, i)
  {
    QuotientIs(0, Pow2(i), 0, 0);
  }

  lemma LowBit(a: nat)
    ensures Bit(a, 0) <==> a % 2 == 1
  {
    QuotientIs(a, 1, a, 0);
  }

  /** The low bit and the rest of each bitwise operation. */
  lemma {:induction false} Halves(a: nat, b: nat)
    requires a != 0 && b != 0
    ensures (And(a, b) % 2 == 1 <==> a % 2 == 1 && b % 2 == 1) && And(a, b) / 2 == And(a / 2, b / 2)
    ensures (Or(a, b) % 2 == 1 <==> a % 2 == 1 || b % 2 == 1) && Or(a, b) / 2 == Or(a / 2, b / 2)
    ensures (Xor(a, b) % 2 == 1 <==> a % 2 != b % 2) && Xor(a, b) / 2 == Xor(a / 2, b / 2)
  {
    Doubled(And(a / 2, b / 2), And(a, b), a % 2 == 1 && b % 2 == 1);
    Doubled(Or(a / 2, b / 2), Or(a, b), a % 2 == 1 || b % 2 == 1);
    Doubled(Xor(a / 2, b / 2), Xor(a, b), a % 2 != b % 2);
  }

  lemma Doubled(x: nat, y: nat, odd: bool)
    requires y == (if odd then 1 else 0) + 2 * x
    ensures (y % 2 == 1 <==> odd) && y / 2 == x
  {
  }

  lemma {:induction false} AndDigits(a: nat, b: nat, i: nat)
    ensures Bit(And(a, b), i) == (Bit(a, i) && Bit(b, i))
    decreases i
  {
    ZeroBits(i);
    if a != 0 && b != 0 {
      Halves(a, b);
      if i > 0 {
        AndDigits(a / 2, b / 2, i - 1);
        BitNext(a, i - 1);
        BitNext(b, i - 1);
        BitNext(And(a, b), i - 1);
      } else {
        LowBit(a);
        LowBit(b);
        LowBit(And(a, b));
      }
    }
  }

  lemma {:induction false} OrDigits(a: nat, b: nat, i: nat)
    ensures Bit(Or(a, b), i) == (Bit(a, i) || Bit(b, i))
    decreases i
  {
    ZeroBits(i);
    if a != 0 && b != 0 {
      Halves(a, b);
      if i > 0 {
        OrDigits(a / 2, b / 2, i - 1);
        BitNext(a, i - 1);
        BitNext(b, i - 1);
        BitNext(Or(a, b), i - 1);
      } else {
        LowBit(a);
        LowBit(b);
        LowBit(Or(a, b));
      }
    }
  }

  lemma {:induction false} XorDigits(a: nat, b: nat, i: nat)
    ensures Bit(Xor(a, b), i) == (Bit(a, i) != Bit(b, i))
    decreases i
  {
    ZeroBits(i);
    if a != 0 && b != 0 {
      Halves(a, b);
      if i > 0 {
        XorDigits(a / 2, b / 2, i - 1);
        BitNext(a, i - 1);
        BitNext(b, i - 1);
        BitNext(Xor(a, b), i - 1);
      } else {
        LowBit(a);
        LowBit(b);
        LowBit(Xor(a, b));
      }
    }
  }

  /** Bit by bit, the three operations of the ALU. */
  lemma AndBits(a: Word, b: Word, i: nat)
    ensures Bit(AluResult(AND, a, b), i) == (Bit(a, i) && Bit(b, i))
  {
    AndDigits(a, b, i);
  }

  lemma OrBits(a: Word, b: Word, i: nat)
    ensures Bit(AluResult(OR, a, b), i) == (Bit(a, i) || Bit(b, i))
  {
    OrDigits(a, b, i);
  }

  lemma XorBits(a: Word, b: Word, i: nat)
    ensures Bit(AluResult(XOR, a, b), i) == (Bit(a, i) != Bit(b, i))
  {
    XorDigits(a, b, i);
  }

  // ----- arithmetic

  predicate Fits32(v: int) {
    -H31 <= v < H31
  }

  /** ADD is signed addition unless F says it overflowed; ADDU's C is the unsigned carry. */
  lemma AddMeaning(a: Word, b: Word)
    ensures AluFlags(ADD, a, b).f <==> !Fits32(S32(a) + S32(b))
    ensures !AluFlags(ADD, a, b).f ==> S32(AluResult(ADD, a, b)) == S32(a) + S32(b)
    ensures AluResult(ADDU, a, b) + (if AluFlags(ADDU, a, b).c then W32 else 0) == a + b
  {
    Wraps(a, b);
  }

  lemma Wraps(a: Word, b: Word)
    ensures U32(a + b) == if a + b < W32 then a + b else a + b - W32
    ensures U32(a - b) == if a >= b then a - b else a - b + W32
  {
  }

  /** SUB is signed subtraction unless F says it overflowed; C clear is the unsigned borrow. */
  lemma SubMeaning(a: Word, b: Word)
    ensures AluFlags(SUB, a, b).f <==> !Fits32(S32(a) - S32(b))
    ensures !AluFlags(SUB, a, b).f ==> S32(AluResult(SUB, a, b)) == S32(a) - S32(b)
    ensures AluResult(SUB, a, b) == a - b + (if AluFlags(SUB, a, b).c then 0 else W32)
    ensures AluFlags(SUB, a, b).l == !AluFlags(SUB, a, b).c
  {
    Wraps(a, b);
  }

  /** SUB undoes ADD. */
  lemma SubUndoesAdd(a: Word, b: Word)
    ensures AluResult(SUB, AluResult(ADD, a, b), b) == a
    ensures AluResult(ADD, AluResult(SUB, a, b), b) == a
  {
    Wraps(a, b);
    Wraps(U32(a + b), b);
    Wraps(U32(a - b), b);
  }

  /** CMP's N is true signed less-than, also where SUB's sign bit lies because of overflow. */
  lemma CmpMeaning(a: Word, b: Word)
    ensures AluFlags(CMP, a, b).n <==> AluFlags(SUB, a, b).n != AluFlags(SUB, a, b).f
    ensures AluFlags(CMP, a, b).l <==> !AluFlags(SUB, a, b).c
    ensures AluFlags(CMP, a, b).z <==> AluResult(SUB, a, b) == 0
  {
    Wraps(a, b);
  }

  /** After CMP the six conditions compare as their names say, signed. */
  lemma BranchMeaning(a: Word, b: Word)
    ensures var f := AluFlags(CMP, a, b);
            && (Taken(EQ, f.z, f.n) <==> a == b)
            && (Taken(NE, f.z, f.n) <==> a != b)
            && (Taken(LT, f.z, f.n) <==> S32(a) < S32(b))
            && (Taken(GE, f.z, f.n) <==> S32(a) >= S32(b))
            && (Taken(LE, f.z, f.n) <==> S32(a) <= S32(b))
            && Taken(UC, f.z, f.n)
  {
  }

  /** With a carry in, ADDC completes a sum of three. */
  lemma CarryMeaning(a: Word, b: Word, cin: int)
    requires 0 <= cin <= 1
    ensures AluResult(ADDC, a, b, cin) + (if AluFlags(ADDC, a, b, cin).c then W32 else 0) == a + b + cin
  {
    OneTurn(a + b + cin);
  }

  /** SUBC takes off one more unless the carry is set; a clear C is the borrow, but for one operand. */
  lemma BorrowMeaning(a: Word, b: Word, cin: int)
    requires 0 <= cin <= 1
    ensures AluResult(SUBC, a, b, cin) == U32(a - b - (1 - cin))
    ensures b < W32 - 1 || cin == 1 ==> (AluFlags(SUBC, a, b, cin).c <==> a >= b + (1 - cin))
    ensures b == W32 - 1 && cin == 0 ==> AluFlags(SUBC, a, b, cin).c
  {
    var c: int := 1 - cin;
    OneTurn(b + c);
    LessTurned(a, b + c);
  }

  lemma OneTurn(v: int)
    ensures 0 <= v < W32 ==> U32(v) == v
    ensures W32 <= v < 2 * W32 ==> U32(v) == v - W32
  {
  }

  lemma LessTurned(a: int, v: int)
    ensures U32(a - U32(v)) == U32(a - v)
  {
    var q := v / W32;
    assert v == q * W32 + U32(v);
    TurnedBack(a - v, q);
  }

  lemma {:induction false} TurnedBack(v: int, q: int)
    ensures U32(v + q * W32) == U32(v)
    decreases if q < 0 then -q else q
  {
    if q > 0 {
      TurnedBack(v, q - 1);
      assert v + q * W32 == v + (q - 1) * W32 + W32;
    } else if q < 0 {
      TurnedBack(v, q + 1);
      assert v + q * W32 == v + (q + 1) * W32 - W32;
    }
  }

  /** MUL by repeated addition. */
  lemma MulMeaning(a: Word, b: Word)
    ensures AluResult(MUL, a, 0) == 0
    ensures b + 1 < W32 ==> AluResult(MUL, a, b + 1) == AluResult(ADD, AluResult(MUL, a, b), a)
  {
    var v: int := a * b;
    assert v + a == a * (b + 1);
    SumTurned(v, a);
  }

  lemma SumTurned(v: int, a: int)
    ensures U32(U32(v) + a) == U32(v + a)
  {
    var q := v / W32;
    assert v == q * W32 + U32(v);
    TurnedBack(U32(v) + a, q);
  }

  /**
    The flags of the result: where an operation has a Z it says the result is zero (for
    CMP the difference), where it has an N it is the sign, and everything but the five
    sums and differences and CMP leaves all of them clear.
   */
  lemma FlagsMeaning(op: Op, a: Word, b: Word)
    ensures var f, r := AluFlags(op, a, b), AluResult(op, a, b);
            if op in {ADD, ADDC, SUB, SUBC} then (f.z <==> r == 0) && (f.n <==> S32(r) < 0)
            else if op == ADDU then (f.z <==> r == 0) && !f.n && !f.f && !f.l
            else if op == CMP then !f.c && !f.f
            else f == CLEAR
  {
  }

  // ----- shifts

  /** The count is the low five bits of the operand: from 0 to 15 a left shift, by a power of two. */
  lemma {:induction false} LeftShiftMeaning(a: Word, b: Word, n: nat)
    requires n == b % 32 && n < 16
    ensures AluResult(LSH, a, b) == AluResult(ASH, a, b) == a * Pow2(n) % W32
  {
  }

  /** From 16 on a right shift by 32 less the count: division rounding down, unsigned or signed. */
  lemma {:induction false} RightShiftMeaning(a: Word, b: Word, n: nat)
    requires n == b % 32 && n >= 16
    ensures AluResult(LSH, a, b) == a / Pow2(32 - n)
    ensures S32(AluResult(ASH, a, b)) == S32(a) / Pow2(32 - n)
  {
    var k := 32 - n;
    Smaller(a, Pow2(k));
    Truncates(a / Pow2(k));
    SmallerSigned(S32(a), Pow2(k));
    Truncates(S32(a) / Pow2(k));
  }

  /** Truncation to 32 bits keeps what fits. */
  lemma Truncates(v: int)
    ensures 0 <= v < W32 ==> U32(v) == v
    ensures Fits32(v) ==> S32(U32(v)) == v
  {
  }

  lemma Smaller(a: nat, p: nat)
    requires p > 0
    ensures 0 <= a / p <= a
  {
    var q := a / p;
    assert a == q * p + a % p;
    if q > a {
      Widen(1, p, q);
    }
  }

  lemma SmallerSigned(a: int, p: nat)
    requires p > 0 && Fits32(a)
    ensures Fits32(a / p)
  {
    var q := a / p;
    assert a == q * p + a % p;
    if q < 0 {
      FurtherDown(q, p);
    } else {
      Widen(1, p, q);
    }
  }

  lemma FurtherDown(q: int, p: nat)
    requires q < 0 && p > 0
    ensures q * p + p - 1 <= q
  {
    assert q * p == q + q * (p - 1);
    Widen(1, -q, p - 1);
    assert -q * (p - 1) == -(q * (p - 1));
  }
}
