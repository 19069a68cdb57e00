/** What the remaining HC08 instructions mean: bit operations bit by bit, exact products and
    quotients, the order that a comparison decides, and instructions that equal sequences of others. */
module Hc08Meaning {
  import opened Bits
  import opened Hc08Model

  // ----- bits -----

  /** The instructions on A: the result bit by bit, and the flags of a load of it. */
  lemma LogicBits(m: Cpu, code: Byte, prefix: bool, k: nat)
    requires code % 16 in {4, 8, 10} && k < 8
    ensures var y, r := Operand(m, code, prefix).v, Logic(m, code, prefix);
      var op := if code % 16 == 4 then BitAnd else if code % 16 == 8 then BitXor else BitOr;
      TestBit(r.a, k) == OnBits(op, TestBit(m.a, k), TestBit(y, k)) && r.p == Moved(m.p, r.a)
  {
    hide Operand, Bitwise, TestBit, Moved, OnBits;
    var y := Operand(m, code, prefix).v;
    BitwiseBits(if code % 16 == 4 then BitAnd else if code % 16 == 8 then BitXor else BitOr, m.a, y, 8, k);
  }

  lemma MaskIs(k: nat)
    requires k < 8
    ensures Pow2(k) == TwoTo(k)
  {
    EightBits();
    assert TwoTo(1) == 2 && TwoTo(2) == 4 && TwoTo(3) == 8 && TwoTo(4) == 16;
    assert TwoTo(5) == 32 && TwoTo(6) == 64;
  }

  /** BSET sets, and BCLR clears, one bit of one cell. */
  lemma OneBitChanges(m: Cpu, code: Byte, j: nat)
    requires code / 16 == 1 && j < 8
    ensures var ea, k := Peek(m), code / 2 % 8;
      var v, r := Load(m.mem, ea), BitSetClear(m, code);
      && TestBit(Load(r.mem, ea), j) == (if j == k then code % 2 == 0 else TestBit(v, j))
      && r == Skip(m).(mem := r.mem)
      && forall x :: x != ea ==> Load(r.mem, x) == Load(m.mem, x)
  {
    hide Bitwise, TestBit;
    var k := code / 2 % 8;
    var v := Load(m.mem, Peek(m));
    EightBits();
    MaskIs(k);
    OneBit(k, j);
    ComplementBits(Pow2(k), 8, j);
    BitwiseBits(BitAnd, v, 255 - Pow2(k), 8, j);
    BitwiseBits(BitOr, v, Pow2(k), 8, j);
  }

  /** Opcodes 0x00 to 0x0f put the tested bit into C and branch exactly when their mnemonics say not
      to: BRSET (even) on a clear bit, BRCLR (odd) on a set one. */
  lemma BitBranchIsInverted(m: Cpu, code: Byte)
    requires code / 16 == 0
    ensures var bit, r := TestBit(Load(m.mem, Peek(m)), code / 2 % 8), BitTest(m, code);
      var mnemonic := if code % 2 == 0 then bit else !bit;
      r.p == m.p.(c := bit) && r == Jump(Skip(m), !mnemonic).(p := r.p)
  {
    hide Bitwise, TestBit;
    var k := code / 2 % 8;
    MaskIs(k);
    MaskedBit(Load(m.mem, Peek(m)), k, 8);
  }

  // ----- products and quotients -----

  /** MUL leaves the exact product in X:A. */
  lemma MulIsExact(m: Cpu)
    ensures var r := Mul(m);
      r.x * 256 + r.a == m.a * m.x && r == m.(a := r.a, x := r.x, p := m.p.(c := false, h := false))
  {
    ProductIsSmall(m.a, m.x);
  }

  lemma ProductIsSmall(a: Byte, x: Byte)
    ensures 0 <= a * x < 0x10000
  {
    assert a * x <= a * 255;
  }

  /** DIV divides H:A by X exactly when the quotient fits into a byte, that is, when H < X; otherwise,
      division by 0 included, it changes nothing but sets C. */
  lemma DivIsExact(m: Cpu)
    ensures var r, n := Div(m), m.h * 256 + m.a;
      && (r.p.c <==> m.h >= m.x)
      && (m.h < m.x ==>
            && n == r.a * m.x + r.h && r.h < m.x && r.p.z == (r.a == 0)
            && r == m.(a := r.a, h := r.h, p := m.p.(c := false, z := r.p.z)))
      && (m.h >= m.x ==> r == m.(p := m.p.(c := true)))
  {
    if m.x != 0 {
      QuotientFits(m.h, m.a, m.x);
    }
  }

  lemma QuotientFits(h: Byte, a: Byte, x: Byte)
    requires x > 0
    ensures var n := h * 256 + a;
      n == n / x * x + n % x && (n / x <= 255 <==> h < x)
  {
    var n := h * 256 + a;
    var q := n / x;
    assert n == q * x + n % x;
    if h < x {
      assert n < 256 * x;
      assert q >= 256 ==> q * x >= 256 * x;
    } else {
      assert n >= 256 * x;
      assert q <= 255 ==> q * x <= 255 * x;
    }
  }

  // ----- comparisons -----

  function Signed8(x: Byte): int { if x >= 128 then x - 256 else x }
  function Signed16(x: Word): int { if x >= 0x8000 then x - 0x10000 else x }

  /** What the flags say after a comparison of `x` with `y`. */
  predicate Compared(p: Flags, less: bool, equal: bool, signedLess: bool) {
    p.c == less && p.z == equal && (p.n != p.v) == signedLess
  }

  /** CMP and CPX change nothing but the flags, and these hold both orders. */
  lemma CompareDecides(m: Cpu, left: Byte, code: Byte, prefix: bool)
    ensures var y, r := Operand(m, code, prefix).v, Compare(m, left, code, prefix);
      && Compared(r.p, left < y, left == y, Signed8(left) < Signed8(y))
      && r == Operand(m, code, prefix).m.(p := r.p)
  {
    hide Operand;
    ByteOrder(left, Operand(m, code, prefix).v, m.p);
  }

  lemma ByteOrder(x: Byte, y: Byte, p: Flags)
    ensures Compared(Arith(p, x, y, x - y), x < y, x == y, Signed8(x) < Signed8(y))
  {
    var r := x - y;
    assert Bit8(r) == (x < y);
    assert r % 256 == if r < 0 then r + 256 else r;
  }

  /** CPHX does the same for 16 bits. */
  lemma CphxDecides(m: Cpu, code: Byte)
    ensures var y := if code == 0x65 then Fetch2(m).v else Load2(m.mem, Peek(m));
      var x, r := Hx(m), Cphx(m, code);
      && 0 <= y < 0x10000 && Compared(r.p, x < y, x == y, Signed16(x) < Signed16(y))
      && r == m.(pc := r.pc, p := r.p)
  {
    hide Load;
    var y := if code == 0x65 then Fetch2(m).v else Load2(m.mem, Peek(m));
    WordOrder(Hx(m), y);
  }

  lemma WordOrder(x: Word, y: Word)
    ensures var r := x - y;
      && Bit16(r) == (x < y) && (r % 0x10000 == 0 <==> x == y)
      && (Bit15(r) != (((Bit15(x) != Bit15(y)) != Bit15(r)) != Bit16(r))) == (Signed16(x) < Signed16(y))
  {
    var r := x - y;
    assert r % 0x10000 == if r < 0 then r + 0x10000 else r;
  }

  /** What the mnemonic of a branch promises after a comparison of two bytes. */
  predicate Mnemonic(code: Byte, x: Byte, y: Byte) {
    match code
    case 0x22 => x > y
    case 0x23 => x <= y
    case 0x24 => x >= y
    case 0x25 => x < y
    case 0x26 => x != y
    case 0x27 => x == y
    case 0x90 => Signed8(x) >= Signed8(y)
    case 0x91 => Signed8(x) < Signed8(y)
    case 0x92 => Signed8(x) > Signed8(y)
    case _ => Signed8(x) <= Signed8(y)
  }

  predicate IsOrderBranch(code: Byte) { 0x22 <= code <= 0x27 || 0x90 <= code <= 0x93 }

  /** After a comparison, a branch does what its mnemonic says if and only if: BHI and BLS, the first
      operand is not less; BGT and BLE, the operands differ; the others always. */
  lemma BranchMeansMnemonic(x: Byte, y: Byte, p: Flags, code: Byte)
    requires IsOrderBranch(code) && Compared(p, x < y, x == y, Signed8(x) < Signed8(y))
    ensures var taken := EvenBranch(code, p) != (code % 2 == 1);
      taken == Mnemonic(code, x, y) <==>
        match code
        case 0x22 => x >= y
        case 0x23 => x >= y
        case 0x92 => x != y
        case 0x93 => x != y
        case _ => true
  {
    assert Signed8(x) == Signed8(y) <==> x == y;
  }

  /** The same at the machine: a comparison of A and then a branch. */
  lemma CompareThenBranch(m: Cpu, code: Byte, prefix: bool, branch: Byte)
    requires IsOrderBranch(branch)
    ensures var y, m1 := Operand(m, code, prefix).v, Compare(m, m.a, code, prefix);
      var right := match branch
        case 0x22 => m.a >= y
        case 0x23 => m.a >= y
        case 0x92 => m.a != y
        case 0x93 => m.a != y
        case _ => true;
      CondBranch(m1, branch) == Jump(m1, Mnemonic(branch, m.a, y) == right)
  {
    hide Operand, Jump, EvenBranch, Mnemonic;
    CompareDecides(m, m.a, code, prefix);
    BranchMeansMnemonic(m.a, Operand(m, code, prefix).v, Compare(m, m.a, code, prefix).p, branch);
  }

  // ----- instructions that equal sequences of others -----

  /** The opcode, in rows B to F, that addresses memory like an opcode of rows 3, 6 and 7. */
  function LikeRow(code: Byte): Byte
    requires code / 16 in {3, 6, 7}
  {
    match code / 16
    case 3 => 0xb0
    case 6 => 0xe0
    case _ => 0xf0
  }

  lemma SameAddress(m: Cpu, code: Byte, other: Byte, prefix: bool)
    requires code / 16 in {3, 6, 7} && other / 16 == LikeRow(code) / 16
    ensures FetchEa(m, other, prefix) == FetchEa(m, code, prefix)
  {
    hide Load;
  }

  /** MOV is a load and a store that leave A alone. */
  lemma MovIsLoadStore(m: Cpu)
    ensures Mov(m, 0x4e) == Sta(Lda(m, 0xb6, false), 0xb7, false).(a := m.a)
    ensures Mov(m, 0x6e) == Sta(Lda(m, 0xa6, false), 0xb7, false).(a := m.a)
  {
    hide Load, Store, Bit7;
  }

  /** The two forms with X+ also count H:X up. */
  lemma MovIndexedIsLoadStore(m: Cpu)
    ensures var r := Sta(Lda(m, 0xb6, false), 0xf7, false).(a := m.a); Mov(m, 0x5e) == SetHx(r, Hx(r) + 1)
    ensures var r := Sta(Lda(m, 0xf6, false), 0xb7, false).(a := m.a); Mov(m, 0x7e) == SetHx(r, Hx(r) + 1)
  {
    hide Load, Store, Bit7;
  }

  /** TST is a load that leaves A alone; CLR is a store of 0. */
  lemma TstIsLoad(m: Cpu, code: Byte, prefix: bool)
    requires code / 16 in {3, 6, 7} && code % 16 == 13
    ensures Tst(m, code, prefix) == Lda(m, LikeRow(code) + 6, prefix).(a := m.a)
  {
    hide FetchEa, Load, Moved;
    SameAddress(m, code, LikeRow(code) + 6, prefix);
  }

  lemma ClrIsStore(m: Cpu, code: Byte, prefix: bool)
    requires code / 16 in {3, 6, 7} && code % 16 == 15
    ensures Clr(m, code, prefix) == Sta(m.(a := 0), LikeRow(code) + 7, prefix).(a := m.a)
  {
    hide Load, Store;
    SameAddress(m, code, LikeRow(code) + 7, prefix);
  }

  /** LDX is LDA and TAX; an LDX from where STX has stored gives X back. */
  lemma LdxIsLoadTransfer(m: Cpu, code: Byte, prefix: bool)
    ensures Ldx(m, code, prefix) == Transfer(Lda(m, code, prefix), 0x97).(a := m.a)
  {
    hide Operand, Moved;
  }

  lemma StxThenLdx(m: Cpu, code: Byte, prefix: bool, m1: Cpu, other: Byte)
    requires code / 16 != 10 && other / 16 != 10
    requires m1.mem == Stx(m, code, prefix).mem && Inside(FetchEa(m, code, prefix).v)
    requires FetchEa(m1, other, prefix).v == FetchEa(m, code, prefix).v
    ensures Ldx(m1, other, prefix).x == m.x
  {
    hide FetchEa;
  }

  /** STHX changes two cells and sets the flags of H:X. */
  lemma SthxKeeps(m: Cpu)
    ensures var r, ea := Sthx(m), Peek(m);
      && r == Skip(m).(mem := r.mem, p := m.p.(v := false, n := Signed16(Hx(m)) < 0, z := Hx(m) == 0))
      && forall a :: a != ea && a != ea + 1 ==> Load(r.mem, a) == Load(m.mem, a)
  {
  }

  /** STHX stores H:X as a word, and LDHX from there gives H and X back, with the flags of the word:
      Z for 0 and N for a negative number. */
  lemma SthxThenLdhx(m: Cpu, m1: Cpu)
    requires m1.mem == Sthx(m).mem && Peek(m1) == Peek(m)
    ensures Load2(Sthx(m).mem, Peek(m)) == Hx(m)
    ensures var r := Ldhx(m1, 0x55);
      Hx(r) == Hx(m) && r.p.z == (Hx(m) == 0) && r.p.n == (Signed16(Hx(m)) < 0) && !r.p.v
  {
    hide Peek;
  }

  /** CBEQ is a comparison and BEQ that leave the flags alone; in the form with X+ H:X counts up. */
  lemma CbeqIsCompareBranch(m: Cpu, code: Byte, prefix: bool)
    requires code / 16 in {3, 6, 7} && code % 16 == 1
    ensures var r := CondBranch(Compare(m, m.a, LikeRow(code) + 1, prefix), 0x27).(p := m.p);
      Cbeq(m, code, prefix) == if code == 0x71 then SetHx(r, Hx(r) + 1) else r
  {
    hide FetchEa, Load, Jump, Disp;
    var m1 := Compare(m, m.a, LikeRow(code) + 1, prefix);
    SameAddress(m, code, LikeRow(code) + 1, prefix);
    CompareDecides(m, m.a, LikeRow(code) + 1, prefix);
    JumpKeepsFlags(m1, m.p, EvenBranch(0x27, m1.p) != (0x27 % 2 == 1));
  }

  lemma CbeqImmediate(m: Cpu)
    ensures Cbeq(m, 0x41, false) == CondBranch(Compare(m, m.a, 0xa1, false), 0x27).(p := m.p)
    ensures Cbeq(m, 0x51, false) == CondBranch(Compare(m, m.x, 0xa3, false), 0x27).(p := m.p)
  {
    hide Load, Jump, Disp;
    var a, x := Compare(m, m.a, 0xa1, false), Compare(m, m.x, 0xa3, false);
    CompareDecides(m, m.a, 0xa1, false);
    CompareDecides(m, m.x, 0xa3, false);
    JumpKeepsFlags(a, m.p, EvenBranch(0x27, a.p) != (0x27 % 2 == 1));
    JumpKeepsFlags(x, m.p, EvenBranch(0x27, x.p) != (0x27 % 2 == 1));
  }

  lemma JumpKeepsFlags(m: Cpu, p: Flags, taken: bool)
    ensures Jump(m, taken).(p := p) == Jump(m.(p := p), taken)
  {
  }

  /** DBNZ is DEC and BNE. */
  lemma DbnzIsDecBranch(m: Cpu, code: Byte, prefix: bool)
    requires code % 16 == 11
    ensures Dbnz(m, code, prefix) == CondBranch(ReadModifyWrite(m, code - 1, prefix), 0x26)
  {
    hide Jump, Store, RmwOperand, Modify;
    SameOperand(m, code, prefix);
    DecZero(RmwOperand(m, code, prefix).v, m.p);
    assert (code - 1) / 16 == code / 16;
  }

  lemma DecZero(v: Byte, p: Flags)
    ensures Modify(11, v, p) == Modify(10, v, p)
    ensures Modify(10, v, p).p.z <==> Modify(10, v, p).v == 0
  {
  }

  lemma SameOperand(m: Cpu, code: Byte, prefix: bool)
    requires code % 16 == 11
    ensures RmwOperand(m, code - 1, prefix) == RmwOperand(m, code, prefix)
  {
    hide Load;
  }

  /** NEG is COM and INC; INC and DEC undo each other. */
  lemma NegIsComInc(v: Byte, p: Flags)
    ensures Modify(0, v, p).v == Modify(12, Modify(3, v, p).v, p).v
    ensures Modify(0, v, p).p.c == (v != 0) && (Modify(0, v, p).p.v <==> Signed8(v) == -128)
    ensures Modify(10, Modify(12, v, p).v, p).v == v && Modify(12, Modify(10, v, p).v, p).v == v
  {
    hide Nz;
    assert (v + 1) % 256 == if v == 255 then 0 else v + 1;
    assert (v - 1) % 256 == if v == 0 then 255 else v - 1;
  }

  /** CLC before ADC and SBC makes them ADD and SUB. */
  lemma CarryCleared(m: Cpu, code: Byte, prefix: bool)
    ensures Add(SetClearFlags(m, 0x98), code, prefix, true) == Add(m, code, prefix, false)
    ensures Sub(SetClearFlags(m, 0x98), code, prefix, true) == Sub(m, code, prefix, false)
  {
    hide Operand, Bit4, Bit7, Bit8;
    OperandIgnoresFlags(m, m.p.(c := false), code, prefix);
  }

  /** SEC makes them count one more. */
  lemma CarrySet(m: Cpu, code: Byte, prefix: bool)
    ensures var y := Operand(m, code, prefix).v;
      && Add(SetClearFlags(m, 0x99), code, prefix, true).a == (m.a + y + 1) % 256
      && Sub(SetClearFlags(m, 0x99), code, prefix, true).a == (m.a - y - 1) % 256
  {
    hide Operand, Arith, HalfCarry;
    OperandIgnoresFlags(m, m.p.(c := true), code, prefix);
  }

  /** The branches on the interrupt mask see what CLI and SEI did. */
  lemma MaskIsSeen(m: Cpu)
    ensures CondBranch(SetClearFlags(m, 0x9a), 0x2c) == Jump(SetClearFlags(m, 0x9a), true)
    ensures CondBranch(SetClearFlags(m, 0x9b), 0x2c) == Jump(SetClearFlags(m, 0x9b), false)
    ensures CondBranch(SetClearFlags(m, 0x9a), 0x2d) == Jump(SetClearFlags(m, 0x9a), false)
    ensures CondBranch(SetClearFlags(m, 0x9b), 0x2d) == Jump(SetClearFlags(m, 0x9b), true)
  {
    hide Jump;
  }

  lemma OperandIgnoresFlags(m: Cpu, p: Flags, code: Byte, prefix: bool)
    ensures var r := Operand(m, code, prefix); Operand(m.(p := p), code, prefix) == Taken(r.m.(p := p), r.v)
  {
    hide Load;
  }

  // ----- decimal arithmetic -----

  /** Two decimal digits in a byte. */
  predicate IsBcd(x: Byte) { x / 16 <= 9 && x % 16 <= 9 }

  function FromBcd(x: Byte): int { x / 16 * 10 + x % 16 }

  /** The digits that DAA takes apart are those of the sum before any carry. */
  lemma DigitsAdd(x: Byte, y: Byte, c: bool, p: Flags)
    requires IsBcd(x) && IsBcd(y)
    ensures var r := x + y + Bit(c);
      var q := HalfCarry(Arith(p, x, y, r), x, y, r);
      var low, high := x % 16 + y % 16 + Bit(c), x / 16 + y / 16;
      && LowDigit(r % 256, q.h) == low
      && (HighDigit(r % 256, q.h, q.c) == high || (high == 15 && HighDigit(r % 256, q.h, q.c) == 31))
  {
    var low, high := x % 16 + y % 16 + Bit(c), x / 16 + y / 16;
    var r := x + y + Bit(c);
    hide Bit4, Bit7, Bit8, LowDigit, HighDigit;
    assert r == 16 * high + low;
    HalfCarryIs(x, y, low, high);
    CarryIs(r);
    TakenApart(low, high);
  }

  lemma TakenApart(low: int, high: int)
    requires 0 <= low <= 19 && 0 <= high <= 18
    ensures var r := 16 * high + low;
      var h := HighDigit(r % 256, low >= 16, r >= 256);
      LowDigit(r % 256, low >= 16) == low && (h == high || (high == 15 && h == 31))
  {
    var b := (16 * high + low) % 256;
    SumByte(low, high);
    HighDigitIs(low, high, b / 16);
    assert LowDigit(b, low >= 16) == b % 16 + if low >= 16 then 16 else 0;
  }

  lemma CarryIs(r: int)
    requires 0 <= r < 512
    ensures Bit8(r) == (r >= 256)
  {
  }

  lemma HighDigitIs(low: int, high: int, d: int)
    requires 0 <= low <= 19 && 0 <= high <= 18 && d == (high + if low >= 16 then 1 else 0) % 16
    ensures var h := (if low >= 16 then (d - 1) % 16 else d) + if 16 * high + low >= 256 then 16 else 0;
      h == high || (high == 15 && h == 31)
  {
  }

  lemma Bit4Is(v: int, q: int, u: int)
    requires v == 16 * q + u && 0 <= u < 16
    ensures Bit4(v) == Odd(q)
  {
    Halves(q);
    assert v == 32 * (q / 2) + (16 * Bit(Odd(q)) + u);
  }

  lemma OddSum(a: int, b: int)
    ensures Odd(a + b) == (Odd(a) != Odd(b)) && Odd(a + b + 1) == !Odd(a + b)
  {
  }

  /** The half carry says that the low digits went over 15. */
  lemma HalfCarryIs(x: Byte, y: Byte, low: int, high: int)
    requires low in {x % 16 + y % 16, x % 16 + y % 16 + 1} && high == x / 16 + y / 16
    ensures ((Bit4(x) != Bit4(y)) != Bit4(16 * high + low)) == (low >= 16)
  {
    hide Bit4, Odd;
    Bit4Is(x, x / 16, x % 16);
    Bit4Is(y, y / 16, y % 16);
    OddSum(x / 16, y / 16);
    if low >= 16 {
      Bit4Is(16 * high + low, high + 1, low - 16);
    } else {
      Bit4Is(16 * high + low, high, low);
    }
  }

  lemma SumByte(low: int, high: int)
    requires 0 <= low <= 19 && 0 <= high <= 18
    ensures var r := (16 * high + low) % 256;
      r % 16 == low % 16 && r / 16 == (high + if low >= 16 then 1 else 0) % 16
  {
    if low >= 16 {
      ByteParts(high + 1, low - 16);
    } else {
      ByteParts(high, low);
    }
  }

  lemma ByteParts(k: int, u: int)
    requires 0 <= k < 32 && 0 <= u < 16
    ensures var r := (16 * k + u) % 256; r % 16 == u && r / 16 == k % 16
  {
    var d := if k >= 16 then k - 16 else k;
    assert (16 * k + u) % 256 == 16 * d + u;
  }

  /** After ADD or ADC of packed decimals DAA leaves the true decimal carry in C.  It does not adjust A:
      that is the decimal sum if and only if neither the low digits, with the carry, nor the high
      digits sum to more than 9. */
  lemma DaaAfterAdd(m: Cpu, code: Byte, prefix: bool, carry: bool)
    requires IsBcd(m.a) && IsBcd(Operand(m, code, prefix).v)
    ensures var y, c := Operand(m, code, prefix).v, carry && m.p.c;
      var r, sum := Daa(Add(m, code, prefix, carry)), FromBcd(m.a) + FromBcd(y) + Bit(c);
      && (r.p.c <==> sum >= 100)
      && (IsBcd(r.a) && FromBcd(r.a) == sum % 100
          <==> m.a % 16 + y % 16 + Bit(c) <= 9 && m.a / 16 + y / 16 <= 9)
  {
    hide Operand, LowDigit, HighDigit, Arith, HalfCarry;
    var y, c := Operand(m, code, prefix).v, carry && m.p.c;
    var low, high := m.a % 16 + y % 16 + Bit(c), m.a / 16 + y / 16;
    DigitsAdd(m.a, y, c, m.p);
    assert FromBcd(m.a) + FromBcd(y) + Bit(c) == 10 * high + low;
    assert m.a + y + Bit(c) == 16 * high + low;
    SumByte(low, high);
    DecimalSum(low, high);
  }

  lemma DecimalSum(low: int, high: int)
    requires 0 <= low <= 19 && 0 <= high <= 18
    ensures high + low / 10 > 9 <==> 10 * high + low >= 100
    ensures var d, u := (high + if low >= 16 then 1 else 0) % 16, low % 16;
      d <= 9 && u <= 9 && 10 * d + u == (10 * high + low) % 100 <==> low <= 9 && high <= 9
  {
  }

  // ----- programs -----

  /** The first instruction after reset loads PC from the reset vector; P is 0x60 and SP 0xff. */
  lemma ResetStarts(m: Cpu, noise: Byte)
    ensures var r := Step(Reset(m), noise).m;
      r.pc == Load2(m.mem, 0xfffe) && !r.vector && r.sp == 0xff && ToByte(r.p) == 0x60
  {
    var b: Byte := 0x60;
    assert b / 2 == 48 && b / 2 / 2 == 24 && b / 2 / 2 / 2 == 12 && b / 2 / 2 / 2 / 2 == 6;
    assert FromByte(b) == Flags(false, true, true, false, false, false, false, false);
  }

  /** Turns of a counting loop that starts at `a`. */
  function Turns(a: Byte): nat { if a == 0 then 256 else a }

  /** DBNZA to itself, at `pc`. */
  predicate Loop(m: Cpu) {
    !m.vector && 0 <= m.pc < 0xfffd && Load(m.mem, m.pc) == 0x4b && Load(m.mem, m.pc + 1) == 0xfe
  }

  lemma LoopTurn(m: Cpu, noise: Byte)
    requires Loop(m)
    ensures var r := Step(m, noise).m;
      && r.a == (m.a - 1) % 256 && r.pc == (if r.a == 0 then m.pc + 2 else m.pc)
      && (r.a != 0 ==> Loop(r)) && r == m.(a := r.a, p := r.p, pc := r.pc, mem := r.mem)
  {
    hide Nz;
  }

  /** The loop stays where it is for exactly `Turns` instructions and then goes on behind itself,
      with A at 0. */
  lemma {:induction false} LoopRuns(m: Cpu, noise: seq<Byte>)
    requires Loop(m) && |noise| <= Turns(m.a)
    ensures var r, n := Exec(m, noise), |noise|;
      && r.a == (m.a - n) % 256
      && (n < Turns(m.a) ==> r.pc == m.pc && Loop(r))
      && (n == Turns(m.a) ==> r.pc == m.pc + 2 && r.a == 0)
  {
    hide Step, Loop;
    if noise != [] {
      var n := |noise| - 1;
      LoopRuns(m, noise[..n]);
      LoopTurn(Exec(m, noise[..n]), noise[n]);
      Countdown(m.a, n);
    }
  }

  lemma Countdown(a: Byte, n: nat)
    requires n < Turns(a)
    ensures ((a - n) % 256 - 1) % 256 == (a - (n + 1)) % 256
    ensures (a - (n + 1)) % 256 == 0 <==> n + 1 == Turns(a)
  {
  }
}
