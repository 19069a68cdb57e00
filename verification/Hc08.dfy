/** The HC08 core (hc08.src/inst.cc, hc08.src/hc08mac.h and the dispatch in hc08.src/hc08.cc): the
    registers, a flat memory of 65536 bytes and one function for each instruction handler. */
module Hc08Model {
  import opened Bits

  type Byte = b: int | 0 <= b < 256
  type Word = w: int | 0 <= w < 0x10000

  // ----- the condition code register -----

  /** P, bit by bit.  Bits 5 and 6 have no name in the source. */
  datatype Flags =
    Flags(v: bool, b6: bool, b5: bool, h: bool, i: bool, n: bool, z: bool, c: bool)

  function ToByte(f: Flags): Byte {
    var high := Append(Append(Append(Bit(f.v), f.b6), f.b5), f.h);
    Append(Append(Append(Append(high, f.i), f.n), f.z), f.c)
  }

  function FromByte(b: Byte): Flags {
    var b1 := b / 2;
    var b2 := b1 / 2;
    var b3 := b2 / 2;
    var b4 := b3 / 2;
    var b5 := b4 / 2;
    var b6 := b5 / 2;
    var b7 := b6 / 2;
    Flags(Odd(b7), Odd(b6), Odd(b5), Odd(b4), Odd(b3), Odd(b2), Odd(b1), Odd(b))
  }

  lemma FlagsRoundTrip(f: Flags)
    ensures FromByte(ToByte(f)) == f
  {
    var b1 := Append(Bit(f.v), f.b6);
    var b2 := Append(b1, f.b5);
    var b3 := Append(b2, f.h);
    var b4 := Append(b3, f.i);
    var b5 := Append(b4, f.n);
    var b6 := Append(b5, f.z);
    var b7 := Append(b6, f.c);
    assert ToByte(f) == b7;
    LastBit(b6, f.c); LastBit(b5, f.z); LastBit(b4, f.n); LastBit(b3, f.i); LastBit(b2, f.h);
    LastBit(b1, f.b5); LastBit(Bit(f.v), f.b6); LastBit(0, f.v);
    hide Append, Odd, Bit;
  }

  /** `P | 0x60`. */
  function Or60(f: Flags): Flags { f.(b6 := true, b5 := true) }

  predicate Has60(f: Flags) { f.b6 && f.b5 }

  // Single bits of an arithmetic result; a negative one is in two's complement.
  predicate Bit4(r: int) { r % 32 >= 16 }
  predicate Bit7(r: int) { r % 256 >= 128 }
  predicate Bit8(r: int) { r % 512 >= 256 }
  predicate Bit15(r: int) { r % 0x10000 >= 0x8000 }
  predicate Bit16(r: int) { r % 0x20000 >= 0x10000 }

  function Nz(f: Flags, r: int): Flags { f.(n := Bit7(r), z := r % 256 == 0) }

  /** The flags of an addition or subtraction of bytes with the unreduced result `r`. */
  function Arith(f: Flags, x: Byte, y: Byte, r: int): Flags {
    Nz(f, r).(v := ((Bit7(x) != Bit7(y)) != Bit7(r)) != Bit8(r), c := Bit8(r))
  }

  function HalfCarry(f: Flags, x: Byte, y: Byte, r: int): Flags {
    f.(h := (Bit4(x) != Bit4(y)) != Bit4(r))
  }

  /** Flags of a load or store of `r`. */
  function Moved(f: Flags, r: int): Flags { Nz(f.(v := false), r) }

  // ----- memory -----

  /** A cell that was never set holds 0.  All addresses outside the 65536 cells share one cell, which
      takes a random value, `noise`, whenever it is set. */
  datatype Memory = Memory(cells: map<int, Byte>, outside: Byte, noise: Byte)

  predicate Inside(a: int) { 0 <= a < 0x10000 }

  function Load(m: Memory, a: int): Byte {
    if !Inside(a) then m.outside else if a in m.cells then m.cells[a] else 0
  }

  function Store(m: Memory, a: int, v: Byte): Memory {
    if Inside(a) then m.(cells := m.cells[a := v]) else m.(outside := m.noise)
  }

  function Load2(m: Memory, a: int): Word { Load(m, a) * 256 + Load(m, a + 1) }

  function Store2(m: Memory, a: int, v: int): Memory {
    Store(Store(m, a, v / 256 % 256), a + 1, v % 256)
  }

  // ----- the processor -----

  datatype Cpu = Cpu(
    a: Byte, x: Byte, h: Byte, p: Flags, sp: Word, pc: int, vector: bool, mem: Memory,
    out: seq<Byte>)

  /** What reset leaves; the program counter is loaded by the first instruction. */
  function Reset(m: Cpu): Cpu {
    m.(a := 0, x := 0, h := 0, p := FromByte(0x60), sp := 0xff, vector := true)
  }

  /** No instruction other than RTI and TAP moves bits 5 and 6 of P. */
  predicate KeepsSpAnd60(m: Cpu, r: Cpu) { r.sp == m.sp && r.p.b5 == m.p.b5 && r.p.b6 == m.p.b6 }

  function Hx(m: Cpu): Word { m.h * 256 + m.x }

  function SetHx(m: Cpu, hx: int): (r: Cpu)
    ensures KeepsSpAnd60(m, r)
  {
    m.(h := hx / 256 % 256, x := hx % 256)
  }

  /** The remainder keeps the sign of the address. */
  function Inc(pc: int): int {
    if pc + 1 >= 0 then (pc + 1) % 0x10000 else -(-(pc + 1) % 0x10000)
  }

  function Skip(m: Cpu): Cpu { m.(pc := Inc(m.pc)) }

  function Peek(m: Cpu): Byte { Load(m.mem, m.pc) }

  /** A fetched byte as a signed displacement. */
  function Disp(b: Byte): int { if b < 128 then b else b - 256 }

  datatype Fetched = Fetched(m: Cpu, v: int)

  function Fetch(m: Cpu): Fetched { Fetched(Skip(m), Peek(m)) }

  function Fetch2(m: Cpu): Fetched {
    Fetched(Skip(Skip(m)), Peek(m) * 256 + Peek(Skip(m)))
  }

  /** hc08.src/inst.cc:51-78; 101 is the number that an impossible mode returns. */
  function FetchEa(m: Cpu, code: Byte, prefix: bool): (r: Fetched)
    ensures r.m == m.(pc := r.m.pc)
  {
    match code / 16
    case 0 | 1 | 3 | 11 => Fetch(m)
    case 7 | 15 => Fetched(m, Hx(m))
    case 6 | 14 => Fetched(Skip(m), Peek(m) + if prefix then m.sp else Hx(m))
    case 13 => Fetched(Fetch2(m).m, Fetch2(m).v + if prefix then m.sp else Hx(m))
    case 12 => Fetch2(m)
    case _ => Fetched(m, 101)
  }

  datatype Taken = Taken(m: Cpu, v: Byte)

  function Operand(m: Cpu, code: Byte, prefix: bool): (r: Taken)
    ensures r.m == m.(pc := r.m.pc)
  {
    if code / 16 == 10 then Taken(Skip(m), Peek(m))
    else
      var ea := FetchEa(m, code, prefix);
      Taken(ea.m, Load(ea.m.mem, ea.v))
  }

  // ----- the stack (hc08.src/hc08mac.h:27-30) -----

  function Push1(m: Cpu, v: Byte): Cpu {
    m.(mem := Store(m.mem, m.sp, v), sp := (m.sp - 1) % 0x10000)
  }

  function Push2(m: Cpu, v: int): Cpu {
    m.(mem := Store2(m.mem, m.sp - 1, v), sp := (m.sp - 2) % 0x10000)
  }

  function Top1(m: Cpu): Byte { Load(m.mem, m.sp + 1) }
  function Top2(m: Cpu): Word { Load2(m.mem, m.sp + 1) }
  function Drop(m: Cpu, n: nat): Cpu { m.(sp := (m.sp + n) % 0x10000) }

  // ----- handlers that use the stack or write P as a whole -----

  function PushPull(m: Cpu, code: Byte): Cpu {
    match code
    case 0x86 => Drop(m, 1).(a := Top1(m))
    case 0x87 => Push1(m, m.a)
    case 0x88 => Drop(m, 1).(x := Top1(m))
    case 0x89 => Push1(m, m.x)
    case 0x8a => Drop(m, 1).(h := Top1(m))
    case 0x8b => Push1(m, m.h)
    case _ => m
  }

  function Jsr(m: Cpu, code: Byte): Cpu {
    var ea := FetchEa(m, code, false);
    Push2(ea.m, ea.m.pc).(pc := ea.v)
  }

  function Bsr(m: Cpu): Cpu {
    var m1 := Skip(m);
    Push2(m1, m1.pc).(pc := m1.pc + Disp(Peek(m)))
  }

  function Rts(m: Cpu): Cpu { Drop(m, 2).(pc := Top2(m)) }

  function Swi(m: Cpu): Cpu {
    var m1 := Push1(Push1(Push1(Push2(m, m.pc), m.x), m.a), ToByte(m.p));
    m1.(p := m1.p.(i := false), pc := Load2(m1.mem, 0xfffc))
  }

  function Rti(m: Cpu): Cpu {
    var m1 := Drop(m, 1).(p := Or60(FromByte(Top1(m))));
    var m2 := Drop(m1, 1).(a := Top1(m1));
    var m3 := Drop(m2, 1).(x := Top1(m2));
    Rts(m3)
  }

  function Transfer(m: Cpu, code: Byte): Cpu {
    match code
    case 0x84 => m.(p := Or60(FromByte(m.a)))
    case 0x85 => m.(a := ToByte(Or60(m.p)))
    case 0x97 => m.(x := m.a)
    case 0x9f => m.(a := m.x)
    case 0x94 => m.(sp := (Hx(m) - 1) % 0x10000)
    case 0x95 => SetHx(m, m.sp + 1)
    case _ => m
  }

  function SetClearFlags(m: Cpu, code: Byte): (r: Cpu)
    ensures KeepsSpAnd60(m, r) && r.mem == m.mem
  {
    match code
    case 0x98 => m.(p := m.p.(c := false))
    case 0x99 => m.(p := m.p.(c := true))
    case 0x9a => m.(p := m.p.(i := false))
    case 0x9b => m.(p := m.p.(i := true))
    case _ => m
  }

  // ----- loads, stores and arithmetic on A and X (hc08.src/inst.cc:162-300, 349-382) -----

  function Lda(m: Cpu, code: Byte, prefix: bool): (r: Cpu)
    ensures KeepsSpAnd60(m, r)
  {
    var op := Operand(m, code, prefix);
    op.m.(a := op.v, p := Moved(m.p, op.v))
  }

  function Sta(m: Cpu, code: Byte, prefix: bool): (r: Cpu)
    ensures KeepsSpAnd60(m, r)
  {
    var ea := FetchEa(m, code, prefix);
    ea.m.(p := Moved(m.p, m.a), mem := Store(m.mem, ea.v, m.a))
  }

  /** ADD without a carry, ADC with it. */
  function Add(m: Cpu, code: Byte, prefix: bool, carry: bool): (r: Cpu)
    ensures KeepsSpAnd60(m, r)
  {
    var op := Operand(m, code, prefix);
    var sum := m.a + op.v + Bit(carry && m.p.c);
    op.m.(a := sum % 256, p := HalfCarry(Arith(m.p, m.a, op.v, sum), m.a, op.v, sum))
  }

  /** SUB without a borrow, SBC with it. */
  function Sub(m: Cpu, code: Byte, prefix: bool, carry: bool): (r: Cpu)
    ensures KeepsSpAnd60(m, r)
  {
    var op := Operand(m, code, prefix);
    var diff := m.a - op.v - Bit(carry && m.p.c);
    op.m.(a := diff % 256, p := Arith(m.p, m.a, op.v, diff))
  }

  /** CMP and CPX. */
  function Compare(m: Cpu, left: Byte, code: Byte, prefix: bool): (r: Cpu)
    ensures KeepsSpAnd60(m, r)
  {
    var op := Operand(m, code, prefix);
    op.m.(p := Arith(m.p, left, op.v, left - op.v))
  }

  function Ldx(m: Cpu, code: Byte, prefix: bool): (r: Cpu)
    ensures KeepsSpAnd60(m, r)
  {
    var op := Operand(m, code, prefix);
    op.m.(x := op.v, p := Moved(m.p, op.v))
  }

  function Stx(m: Cpu, code: Byte, prefix: bool): (r: Cpu)
    ensures KeepsSpAnd60(m, r)
  {
    var ea := FetchEa(m, code, prefix);
    ea.m.(p := Moved(m.p, m.x), mem := Store(m.mem, ea.v, m.x))
  }

  function Bitwise8(op: BitOp, x: Byte, y: Byte): Byte {
    EightBits();
    Bitwise(op, x, y, 8)
  }

  function And8(x: Byte, y: Byte): Byte { Bitwise8(BitAnd, x, y) }
  function Or8(x: Byte, y: Byte): Byte { Bitwise8(BitOr, x, y) }
  function Xor8(x: Byte, y: Byte): Byte { Bitwise8(BitXor, x, y) }

  /** AND, EOR, ORA and, without the new A, BIT. */
  function Logic(m: Cpu, code: Byte, prefix: bool): (r: Cpu)
    ensures KeepsSpAnd60(m, r)
  {
    var op := Operand(m, code, prefix);
    match code % 16
    case 4 => var v := And8(m.a, op.v); op.m.(a := v, p := Moved(m.p, v))
    case 5 => op.m.(p := Moved(m.p, And8(m.a, op.v)))
    case 8 => var v := Xor8(m.a, op.v); op.m.(a := v, p := Moved(m.p, v))
    case _ => var v := Or8(m.a, op.v); op.m.(a := v, p := Moved(m.p, v))
  }

  // ----- read-modify-write (hc08.src/inst.cc:385-754) -----

  /** The operand of a read-modify-write instruction and where it came from. */
  datatype Rmw = Rmw(m: Cpu, ea: int, v: Byte)

  function RmwOperand(m: Cpu, code: Byte, prefix: bool): (r: Rmw)
    ensures r.m == m.(pc := r.m.pc)
  {
    match code / 16
    case 4 => Rmw(m, 0xffff, m.a)
    case 5 => Rmw(m, 0xffff, m.x)
    case _ =>
      var ea := FetchEa(m, code, prefix);
      Rmw(ea.m, ea.v, Load(m.mem, ea.v))
  }

  function WriteBack(m: Cpu, code: Byte, ea: int, v: Byte): (r: Cpu)
    ensures KeepsSpAnd60(m, r)
  {
    match code / 16
    case 4 => m.(a := v)
    case 5 => m.(x := v)
    case _ => m.(mem := Store(m.mem, ea, v))
  }

  datatype Alu = Alu(v: Byte, p: Flags)

  function ShiftFlags(p: Flags, v: Byte, carry: bool): Flags {
    Nz(p, v).(c := carry, v := carry != Bit7(v))
  }

  /** LSR, ROR, ASR, LSL and ROL, by the low half of the opcode. */
  function Shifted(op: int, v: Byte, c: bool): Byte {
    match op
    case 4 => v / 2
    case 6 => v / 2 + Bit(c) * 128
    case 7 => v / 2 + Bit(Bit7(v)) * 128
    case 8 => v * 2 % 256
    case _ => v * 2 % 256 + Bit(c)
  }

  function ShiftedOut(op: int, v: Byte): bool { if op <= 7 then v % 2 == 1 else Bit7(v) }

  /** NEG, COM, INC and DEC (also of DBNZ). */
  function Counted(op: int, v: Byte): Byte {
    match op
    case 0 => (256 - v) % 256
    case 3 => 255 - v
    case 12 => (v + 1) % 256
    case _ => (v - 1) % 256
  }

  function Modify(op: int, v: Byte, p: Flags): (r: Alu)
    ensures r.p.b5 == p.b5 && r.p.b6 == p.b6
  {
    if 4 <= op <= 9 then
      var r := Shifted(op, v, p.c);
      Alu(r, ShiftFlags(p, r, ShiftedOut(op, v)))
    else
      var r := Counted(op, v);
      var p1 := Nz(p, r);
      Alu(r, match op
             case 0 => p1.(v := v == 0x80, c := v != 0)
             case 3 => p1.(v := false, c := true)
             case 12 => p1.(v := r == 0x80)
             case _ => p1.(v := r == 0x7f))
  }

  function ReadModifyWrite(m: Cpu, code: Byte, prefix: bool): (r: Cpu)
    ensures KeepsSpAnd60(m, r)
  {
    var op := RmwOperand(m, code, prefix);
    var alu := Modify(code % 16, op.v, m.p);
    WriteBack(op.m.(p := alu.p), code, op.ea, alu.v)
  }

  function Tst(m: Cpu, code: Byte, prefix: bool): (r: Cpu)
    ensures KeepsSpAnd60(m, r)
  {
    var op := RmwOperand(m, code, prefix);
    op.m.(p := Moved(m.p, op.v))
  }

  function Clr(m: Cpu, code: Byte, prefix: bool): (r: Cpu)
    ensures KeepsSpAnd60(m, r)
  {
    var op := RmwOperand(m, code, prefix);
    WriteBack(op.m.(p := m.p.(v := false, n := false, z := true)), code, op.ea, 0)
  }

  function Jump(m: Cpu, taken: bool): (r: Cpu)
    ensures KeepsSpAnd60(m, r)
  {
    Skip(m).(pc := Inc(m.pc) + if taken then Disp(Peek(m)) else 0)
  }

  function Dbnz(m: Cpu, code: Byte, prefix: bool): (r: Cpu)
    ensures KeepsSpAnd60(m, r)
  {
    Jump(ReadModifyWrite(m, code, prefix),
         Modify(11, RmwOperand(m, code, prefix).v, m.p).v != 0)
  }

  function Cbeq(m: Cpu, code: Byte, prefix: bool): (r: Cpu)
    ensures KeepsSpAnd60(m, r)
  {
    var op := RmwOperand(m, code, prefix);
    var m1 := if code / 16 == 4 || code / 16 == 5 then Skip(m) else op.m;
    var other := if code / 16 == 4 || code / 16 == 5 then Peek(m) else m.a;
    var m2 := Jump(m1, op.v == other);
    if code == 0x71 then SetHx(m2, Hx(m2) + 1) else m2
  }

  // ----- branches and bits (hc08.src/inst.cc:865-960) -----

  /** Whether the branch with an even opcode is taken; the odd one is its opposite. */
  function EvenBranch(code: Byte, p: Flags): bool {
    match code
    case 0x20 | 0x21 => true
    case 0x22 | 0x23 => p.c || !p.z
    case 0x24 | 0x25 => !p.c
    case 0x26 | 0x27 => !p.z
    case 0x28 | 0x29 => !p.h
    case 0x2a | 0x2b => !p.n
    case 0x2c | 0x2d => !p.i
    case 0x90 | 0x91 => !(p.n != p.v)
    case _ => !(p.n != p.v) || p.z
  }

  function CondBranch(m: Cpu, code: Byte): (r: Cpu)
    ensures KeepsSpAnd60(m, r)
  {
    Jump(m, EvenBranch(code, m.p) != (code % 2 == 1))
  }

  function Pow2(k: int): (r: Byte)
    ensures r > 0
  {
    match k
    case 0 => 1
    case 1 => 2
    case 2 => 4
    case 3 => 8
    case 4 => 16
    case 5 => 32
    case 6 => 64
    case _ => 128
  }

  function BitSetClear(m: Cpu, code: Byte): (r: Cpu)
    ensures KeepsSpAnd60(m, r)
  {
    var ea := FetchEa(m, code, false);
    var mask := Pow2(code / 2 % 8);
    var v := Load(m.mem, ea.v);
    ea.m.(mem := Store(m.mem, ea.v, if code % 2 == 1 then And8(v, 255 - mask) else Or8(v, mask)))
  }

  function BitTest(m: Cpu, code: Byte): (r: Cpu)
    ensures KeepsSpAnd60(m, r)
  {
    var ea := FetchEa(m, code, false);
    var bit := And8(Load(m.mem, ea.v), Pow2(code / 2 % 8)) != 0;
    var m1 := Jump(ea.m, if code % 2 == 1 then bit else !bit);
    m1.(p := m1.p.(c := bit))
  }

  // ----- the rest -----

  function Mul(m: Cpu): (r: Cpu)
    ensures KeepsSpAnd60(m, r)
  {
    var r := m.a * m.x;
    m.(a := r % 256, x := r / 256 % 256, p := m.p.(c := false, h := false))
  }

  function Div(m: Cpu): (r: Cpu)
    ensures KeepsSpAnd60(m, r)
  {
    var dividend := m.h * 256 + m.a;
    if m.x == 0 || dividend / m.x > 255 then m.(p := m.p.(c := true))
    else
      m.(a := dividend / m.x, h := dividend % m.x, p := m.p.(c := false, z := dividend / m.x == 0))
  }

  /** DAA moves the carry only. */
  function Daa(m: Cpu): (r: Cpu)
    ensures KeepsSpAnd60(m, r)
  {
    m.(p := m.p.(c := HighDigit(m.a, m.p.h, m.p.c) + LowDigit(m.a, m.p.h) / 10 > 9))
  }

  function LowDigit(a: Byte, half: bool): (r: int)
    ensures r >= 0
  {
    a % 16 + if half then 16 else 0
  }

  function HighDigit(a: Byte, half: bool, carry: bool): int {
    (if half then (a / 16 - 1) % 16 else a / 16) + if carry then 16 else 0
  }

  function HxFlags(p: Flags, h: Byte, x: Byte): Flags {
    p.(v := false, n := Bit7(h), z := h == 0 && x == 0)
  }

  function Sthx(m: Cpu): (r: Cpu)
    ensures KeepsSpAnd60(m, r)
  {
    var ea := Peek(m);
    Skip(m).(mem := Store(Store(m.mem, ea, m.h), ea + 1, m.x), p := HxFlags(m.p, m.h, m.x))
  }

  function Ldhx(m: Cpu, code: Byte): (r: Cpu)
    ensures KeepsSpAnd60(m, r)
  {
    var m1, ea := Skip(m), Peek(m);
    var h := if code == 0x45 then ea else Load(m.mem, ea);
    var x := if code == 0x45 then Peek(m1) else Load(m.mem, ea + 1);
    (if code == 0x45 then Skip(m1) else m1).(h := h, x := x, p := HxFlags(m.p, h, x))
  }

  function Cphx(m: Cpu, code: Byte): (r: Cpu)
    ensures KeepsSpAnd60(m, r)
  {
    var operand := if code == 0x65 then Fetch2(m) else Fetched(Skip(m), Load2(m.mem, Peek(m)));
    var hx, y := Hx(m), operand.v;
    var r := hx - y;
    operand.m.(p := m.p.(v := ((Bit15(hx) != Bit15(y)) != Bit15(r)) != Bit16(r), c := Bit16(r),
                         n := Bit15(r), z := r % 0x10000 == 0))
  }

  function Mov(m: Cpu, code: Byte): (r: Cpu)
    ensures KeepsSpAnd60(m, r)
  {
    var m1 := Skip(m);
    var v: Byte := match code
      case 0x4e | 0x5e => Load(m.mem, Peek(m))
      case 0x6e => Peek(m)
      case _ => Load(m.mem, Hx(m));
    var m2 := if code == 0x4e || code == 0x6e then Skip(m1) else m1;
    var ea := match code
      case 0x4e | 0x6e => Peek(m1)
      case 0x5e => Hx(m)
      case _ => Peek(m);
    var m3 := m2.(mem := Store(m.mem, ea, v), p := Moved(m.p, v));
    if code == 0x5e || code == 0x7e then SetHx(m3, Hx(m3) + 1) else m3
  }

  // ----- the dispatch (hc08.src/hc08.cc:406-591) -----

  datatype Status = Go | Halt
  datatype Ran = Ran(m: Cpu, status: Status)

  /** Rows 3 to 7 of the opcode map, and row 6 of the prefixed one. */
  function Row3(m: Cpu, code: Byte, prefix: bool): (r: Ran)
    ensures KeepsSpAnd60(m, r.m)
  {
    match code % 16
    case 1 => Ran(Cbeq(m, code, prefix), Go)
    case 2 =>
      if prefix then Ran(m, Halt)
      else (match code
            case 0x42 => Ran(Mul(m), Go)
            case 0x52 => Ran(Div(m), Go)
            case 0x62 => Ran(m.(a := m.a / 16 + m.a % 16 * 16), Go)
            case 0x72 => Ran(Daa(m), Go)
            case _ => Ran(m, Halt))
    case 5 =>
      if prefix then Ran(m, Halt)
      else (match code
            case 0x35 => Ran(Sthx(m), Go)
            case 0x45 | 0x55 => Ran(Ldhx(m, code), Go)
            case _ => Ran(Cphx(m, code), Go))
    case 11 => Ran(Dbnz(m, code, prefix), Go)
    case 13 => Ran(Tst(m, code, prefix), Go)
    case 14 => if prefix || code == 0x3e then Ran(m, Halt) else Ran(Mov(m, code), Go)
    case 15 => Ran(Clr(m, code, prefix), Go)
    case _ => Ran(ReadModifyWrite(m, code, prefix), Go)
  }

  /** The instructions on A, X and an operand that rows A to F share with the prefixed rows. */
  function RowA(m: Cpu, code: Byte, prefix: bool): (r: Cpu)
    ensures KeepsSpAnd60(m, r)
  {
    match code % 16
    case 0 => Sub(m, code, prefix, false)
    case 1 => Compare(m, m.a, code, prefix)
    case 2 => Sub(m, code, prefix, true)
    case 3 => Compare(m, m.x, code, prefix)
    case 6 => Lda(m, code, prefix)
    case 7 => Sta(m, code, prefix)
    case 9 => Add(m, code, prefix, true)
    case 11 => Add(m, code, prefix, false)
    case 14 => Ldx(m, code, prefix)
    case 15 => Stx(m, code, prefix)
    case _ => Logic(m, code, prefix)
  }

  /** The page behind the prefix byte 0x9e. */
  function Prefixed(m: Cpu): (r: Ran)
    ensures KeepsSpAnd60(m, r.m)
  {
    var code, m1 := Peek(m), Skip(m);
    match code / 16
    case 6 => Row3(m1, code, true)
    case 13 | 14 =>
      if code % 16 == 12 then Ran(m1, Halt)
      else if code % 16 == 13 then Ran(m1.(out := m1.out + [m1.a]), Go)
      else Ran(RowA(m1, code, true), Go)
    case _ => Ran(m1, Halt)
  }

  function Row8(m: Cpu, code: Byte): Ran {
    match code
    case 0x80 => Ran(Rti(m), Go)
    case 0x81 => Ran(Rts(m), Go)
    case 0x83 => Ran(Swi(m), Go)
    case 0x84 | 0x85 => Ran(Transfer(m, code), Go)
    case 0x86 | 0x87 | 0x88 | 0x89 | 0x8a | 0x8b => Ran(PushPull(m, code), Go)
    case 0x8c => Ran(m.(h := 0, p := m.p.(v := false, n := false, z := true)), Go)
    case 0x8e | 0x8f => Ran(m.(p := m.p.(i := false)), Go)
    case _ => Ran(m, Halt)
  }

  /** 0x96 has no case of its own and falls through to LDA. */
  function Row9(m: Cpu, code: Byte): Ran {
    match code
    case 0x90 | 0x91 | 0x92 | 0x93 => Ran(CondBranch(m, code), Go)
    case 0x94 | 0x95 | 0x97 | 0x9f => Ran(Transfer(m, code), Go)
    case 0x96 => Ran(Lda(m, code, false), Go)
    case 0x98 | 0x99 | 0x9a | 0x9b => Ran(SetClearFlags(m, code), Go)
    case 0x9c => Ran(m.(sp := 0xff), Go)
    case 0x9e => Prefixed(m)
    case _ => Ran(m, Go)
  }

  function Upper(m: Cpu, code: Byte): Ran {
    match code
    case 0xa7 => Ran(Skip(m).(sp := (m.sp + Disp(Peek(m))) % 0x10000), Go)
    case 0xac => Ran(m, Halt)
    case 0xad => Ran(Bsr(m), Go)
    case 0xaf => Ran(SetHx(Skip(m), Hx(m) + Disp(Peek(m))), Go)
    case 0xbc | 0xcc | 0xdc | 0xec | 0xfc =>
      var ea := FetchEa(m, code, false);
      Ran(ea.m.(pc := ea.v), Go)
    case 0xbd | 0xcd | 0xdd | 0xed | 0xfd => Ran(Jsr(m, code), Go)
    case _ => Ran(RowA(m, code, false), Go)
  }

  /** The instruction whose opcode was just fetched. */
  function Dispatch(m: Cpu, code: Byte): Ran {
    match code / 16
    case 0 => Ran(BitTest(m, code), Go)
    case 1 => Ran(BitSetClear(m, code), Go)
    case 2 => if code >= 0x2e then Ran(m, Halt) else Ran(CondBranch(m, code), Go)
    case 3 | 4 | 5 | 6 | 7 => Row3(m, code, false)
    case 8 => Row8(m, code)
    case 9 => Row9(m, code)
    case _ => Upper(m, code)
  }

  /** One call of exec_inst.  `noise` is what the random source would give. */
  function Step(m: Cpu, noise: Byte): Ran {
    var m1 := m.(mem := m.mem.(noise := noise));
    if m.vector then Ran(m1.(pc := Load2(m.mem, 0xfffe), vector := false), Go)
    else Dispatch(Skip(m1), Peek(m))
  }

  /** As many instructions as there are random bytes, whether or not one of them asks to halt. */
  function Exec(m: Cpu, noise: seq<Byte>): Cpu {
    if noise == [] then m
    else Step(Exec(m, noise[..|noise| - 1]), noise[|noise| - 1]).m
  }
}
