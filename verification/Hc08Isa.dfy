/** The instructions of the HC08 with an operand, as the disassembler prints them
    (hc08.src/glob.cc:46-380): which operation and which addressing mode an opcode stands for, and what
    these mean in signed and unsigned numbers, defined without the handlers.  The lemmas say that the
    processor executes what the disassembler prints. */
module Hc08Isa {
  import opened Bits
  import opened Hc08Model
  import opened Hc08Meaning
  import opened Hc08Stack

  predicate FitsByte(x: int) { -128 <= x <= 127 }

  // ----- addressing modes -----

  datatype Mode = Imm | Dir | Ext | Ix2 | Ix1 | Ix | Sp2 | Sp1

  /** Bytes of the operand. */
  function Size(mode: Mode): int {
    match mode
    case Ext => 2
    case Ix2 => 2
    case Sp2 => 2
    case Ix => 0
    case _ => 1
  }

  /** The address `n` bytes further on. */
  function Behind(pc: int, n: int): int {
    match n
    case 0 => pc
    case 1 => Inc(pc)
    case _ => Inc(Inc(pc))
  }

  /** Behind the last address comes 0. */
  lemma BehindIs(pc: int, n: int)
    requires 0 <= pc < 0x10000 && 0 <= n <= 2
    ensures Behind(pc, n) == (pc + n) % 0x10000
  {
  }

  /** PC goes on modulo 2^16; one that a branch took below 0 counts up to 0, keeping its sign. */
  lemma IncKeepsSign(pc: int)
    ensures var r := Inc(pc);
      && (r - (pc + 1)) % 0x10000 == 0 && -0x10000 < r < 0x10000
      && (pc + 1 >= 0 ==> r >= 0) && (pc + 1 <= 0 ==> r <= 0)
  {
    if pc + 1 < 0 {
      assert -(pc + 1) == -(pc + 1) / 0x10000 * 0x10000 + -(pc + 1) % 0x10000;
    }
  }

  function WordAt(mem: Memory, at: int): int { Load(mem, at) * 256 + Load(mem, Inc(at)) }

  /** Where the operand is, if PC is at its bytes. */
  function Place(m: Cpu, mode: Mode): int {
    match mode
    case Imm => m.pc
    case Dir => Load(m.mem, m.pc)
    case Ext => WordAt(m.mem, m.pc)
    case Ix2 => m.h * 256 + m.x + WordAt(m.mem, m.pc)
    case Ix1 => m.h * 256 + m.x + Load(m.mem, m.pc)
    case Ix => m.h * 256 + m.x
    case Sp2 => m.sp + WordAt(m.mem, m.pc)
    case Sp1 => m.sp + Load(m.mem, m.pc)
  }

  function Past(m: Cpu, mode: Mode): Cpu { m.(pc := Behind(m.pc, Size(mode))) }

  /** The mode of an opcode of rows 3, 6, 7 and A to F; the prefix makes indexed ones relative to SP. */
  function ModeOf(code: Byte, prefix: bool): Mode {
    match code / 16
    case 3 => Dir
    case 6 => if prefix then Sp1 else Ix1
    case 7 => Ix
    case 10 => Imm
    case 11 => Dir
    case 12 => Ext
    case 13 => if prefix then Sp2 else Ix2
    case 14 => if prefix then Sp1 else Ix1
    case _ => Ix
  }

  predicate HasMode(code: Byte) { code / 16 in {3, 6, 7} || code >= 0xa0 }

  /** The handler finds its operand where the mode says, and PC behind it. */
  lemma FetchedPlace(m: Cpu, code: Byte, prefix: bool)
    requires HasMode(code) && code / 16 != 10
    ensures FetchEa(m, code, prefix) == Fetched(Past(m, ModeOf(code, prefix)), Place(m, ModeOf(code, prefix)))
  {
    hide Load, Inc;
  }

  lemma OperandIs(m: Cpu, code: Byte, prefix: bool)
    requires code >= 0xa0
    ensures var mode := ModeOf(code, prefix);
      Operand(m, code, prefix) == Taken(Past(m, mode), Load(m.mem, Place(m, mode)))
  {
    hide Load, FetchEa, Inc;
    if code / 16 != 10 {
      FetchedPlace(m, code, prefix);
    }
  }

  // ----- loads, stores, arithmetic and logic -----

  datatype Op = SUB | CMP | SBC | CPX | AND | BIT | LDA | STA | EOR | ADC | ORA | ADD | LDX | STX

  /** The operation of an opcode of rows A to F with an operand. */
  function RowOp(code: Byte): Op {
    match code % 16
    case 0 => SUB
    case 1 => CMP
    case 2 => SBC
    case 3 => CPX
    case 4 => AND
    case 5 => BIT
    case 6 => LDA
    case 7 => STA
    case 8 => EOR
    case 9 => ADC
    case 10 => ORA
    case 11 => ADD
    case 14 => LDX
    case _ => STX
  }

  predicate HasOperand(code: Byte) {
    code >= 0xa0 && code % 16 != 12 && code % 16 != 13 && code != 0xa7 && code != 0xaf
  }

  function Signs(p: Flags, r: Byte): Flags { p.(n := Signed8(r) < 0, z := r == 0) }

  /** Of a sum: the signed and the unsigned overflow, and the one of the low digits. */
  function SumFlags(p: Flags, a: Byte, y: Byte, c: int): Flags {
    Signs(p, (a + y + c) % 256).(
      v := !FitsByte(Signed8(a) + Signed8(y) + c), c := a + y + c > 255, h := a % 16 + y % 16 + c > 15)
  }

  function DifferenceFlags(p: Flags, a: Byte, y: Byte, c: int): Flags {
    Signs(p, (a - y - c) % 256).(v := !FitsByte(Signed8(a) - Signed8(y) - c), c := a < y + c)
  }

  function LoadFlags(p: Flags, r: Byte): Flags { Signs(p, r).(v := false) }

  /** What an operation does with the operand `y`, which lies at `ea`. */
  function Done(op: Op, m: Cpu, y: Byte, ea: int): Cpu {
    var c := Bit(m.p.c);
    match op
    case SUB => m.(a := (m.a - y) % 256, p := DifferenceFlags(m.p, m.a, y, 0))
    case CMP => m.(p := DifferenceFlags(m.p, m.a, y, 0))
    case SBC => m.(a := (m.a - y - c) % 256, p := DifferenceFlags(m.p, m.a, y, c))
    case CPX => m.(p := DifferenceFlags(m.p, m.x, y, 0))
    case AND => m.(a := And8(m.a, y), p := LoadFlags(m.p, And8(m.a, y)))
    case BIT => m.(p := LoadFlags(m.p, And8(m.a, y)))
    case LDA => m.(a := y, p := LoadFlags(m.p, y))
    case STA => m.(p := LoadFlags(m.p, m.a), mem := Store(m.mem, ea, m.a))
    case EOR => m.(a := Xor8(m.a, y), p := LoadFlags(m.p, Xor8(m.a, y)))
    case ADC => m.(a := (m.a + y + c) % 256, p := SumFlags(m.p, m.a, y, c))
    case ORA => m.(a := Or8(m.a, y), p := LoadFlags(m.p, Or8(m.a, y)))
    case ADD => m.(a := (m.a + y) % 256, p := SumFlags(m.p, m.a, y, 0))
    case LDX => m.(x := y, p := LoadFlags(m.p, y))
    case STX => m.(p := LoadFlags(m.p, m.x), mem := Store(m.mem, ea, m.x))
  }

  lemma SignsAgree(p: Flags, r: int)
    ensures Nz(p, r) == Signs(p, r % 256)
  {
  }

  lemma SumFlagsAgree(p: Flags, a: Byte, y: Byte, c: int)
    requires 0 <= c <= 1
    ensures var r := a + y + c; HalfCarry(Arith(p, a, y, r), a, y, r) == SumFlags(p, a, y, c)
  {
    hide Bit4, Bit7, Bit8, Nz, Signs;
    var low, high := a % 16 + y % 16 + c, a / 16 + y / 16;
    assert a + y + c == 16 * high + low;
    HalfCarryIs(a, y, low, high);
    SignsAgree(p, a + y + c);
    SumOverflow(a, y, c);
  }

  lemma SumOverflow(a: Byte, y: Byte, c: int)
    requires 0 <= c <= 1
    ensures var r := a + y + c;
      && Bit8(r) == (r > 255)
      && (((Bit7(a) != Bit7(y)) != Bit7(r)) != Bit8(r)) == !FitsByte(Signed8(a) + Signed8(y) + c)
  {
    var r := a + y + c;
    assert r % 256 == if r > 255 then r - 256 else r;
    assert r % 512 == r;
  }

  lemma DifferenceOverflow(a: Byte, y: Byte, c: int)
    requires 0 <= c <= 1
    ensures var r := a - y - c;
      && Bit8(r) == (r < 0)
      && (((Bit7(a) != Bit7(y)) != Bit7(r)) != Bit8(r)) == !FitsByte(Signed8(a) - Signed8(y) - c)
  {
    var r := a - y - c;
    assert r % 256 == if r < 0 then r + 256 else r;
    assert r % 512 == if r < 0 then r + 512 else r;
  }

  lemma DifferenceFlagsAgree(p: Flags, a: Byte, y: Byte, c: int)
    requires 0 <= c <= 1
    ensures Arith(p, a, y, a - y - c) == DifferenceFlags(p, a, y, c)
  {
    SignsAgree(p, a - y - c);
    DifferenceOverflow(a, y, c);
    hide Bit7, Bit8;
  }

  lemma LoadFlagsAgree(p: Flags, r: Byte)
    ensures Moved(p, r) == LoadFlags(p, r)
  {
  }

  lemma AddDoes(m: Cpu, code: Byte, prefix: bool, carry: bool)
    ensures var op := Operand(m, code, prefix);
      Add(m, code, prefix, carry) == Done(if carry then ADC else ADD, op.m, op.v, 0)
  {
    hide Operand, Arith, HalfCarry, SumFlags;
    SumFlagsAgree(m.p, m.a, Operand(m, code, prefix).v, Bit(carry && m.p.c));
  }

  lemma SubDoes(m: Cpu, code: Byte, prefix: bool, carry: bool)
    ensures var op := Operand(m, code, prefix);
      Sub(m, code, prefix, carry) == Done(if carry then SBC else SUB, op.m, op.v, 0)
  {
    hide Operand, Arith, DifferenceFlags;
    DifferenceFlagsAgree(m.p, m.a, Operand(m, code, prefix).v, Bit(carry && m.p.c));
  }

  lemma CompareDoes(m: Cpu, code: Byte, prefix: bool)
    ensures var op := Operand(m, code, prefix);
      Compare(m, m.a, code, prefix) == Done(CMP, op.m, op.v, 0)
      && Compare(m, m.x, code, prefix) == Done(CPX, op.m, op.v, 0)
  {
    hide Operand, Arith, DifferenceFlags;
    DifferenceFlagsAgree(m.p, m.a, Operand(m, code, prefix).v, 0);
    DifferenceFlagsAgree(m.p, m.x, Operand(m, code, prefix).v, 0);
  }

  lemma LogicDoes(m: Cpu, code: Byte, prefix: bool)
    requires code % 16 in {4, 5, 8, 10}
    ensures var op := Operand(m, code, prefix); Logic(m, code, prefix) == Done(RowOp(code), op.m, op.v, 0)
  {
    hide Operand, Moved, LoadFlags, And8, Or8, Xor8;
    var y := Operand(m, code, prefix).v;
    LoadFlagsAgree(m.p, And8(m.a, y));
    LoadFlagsAgree(m.p, Or8(m.a, y));
    LoadFlagsAgree(m.p, Xor8(m.a, y));
  }

  lemma MoveDoes(m: Cpu, code: Byte, prefix: bool)
    ensures var op := Operand(m, code, prefix);
      Lda(m, code, prefix) == Done(LDA, op.m, op.v, 0) && Ldx(m, code, prefix) == Done(LDX, op.m, op.v, 0)
    ensures var ea := FetchEa(m, code, prefix);
      Sta(m, code, prefix) == Done(STA, ea.m, 0, ea.v) && Stx(m, code, prefix) == Done(STX, ea.m, 0, ea.v)
  {
    hide Operand, FetchEa, Moved, LoadFlags, Store;
    LoadFlagsAgree(m.p, Operand(m, code, prefix).v);
    LoadFlagsAgree(m.p, m.a);
    LoadFlagsAgree(m.p, m.x);
  }

  predicate Stores(op: Op) { op == STA || op == STX }

  /** Only the operand counts to an operation that does not store, only its place to one that does. */
  lemma DoneDepends(op: Op, m: Cpu, y: Byte, ea: int)
    ensures Done(op, m, y, ea) == if Stores(op) then Done(op, m, 0, ea) else Done(op, m, y, 0)
  {
    hide SumFlags, DifferenceFlags, LoadFlags, And8, Or8, Xor8, Store;
  }

  lemma RowADoes(m: Cpu, code: Byte, prefix: bool)
    requires HasOperand(code)
    ensures var mode := ModeOf(code, prefix);
      var ea := Place(m, mode);
      RowA(m, code, prefix) == Done(RowOp(code), Past(m, mode), Load(m.mem, ea), ea)
  {
    hide Load, Place, Past, Done, Add, Sub, Compare, Logic, Lda, Ldx, Sta, Stx, ModeOf;
    var mode := ModeOf(code, prefix);
    DoneDepends(RowOp(code), Past(m, mode), Load(m.mem, Place(m, mode)), Place(m, mode));
    OperandIs(m, code, prefix);
    MoveDoes(m, code, prefix);
    match code % 16 {
      case 0 => SubDoes(m, code, prefix, false);
      case 1 => CompareDoes(m, code, prefix);
      case 2 => SubDoes(m, code, prefix, true);
      case 3 => CompareDoes(m, code, prefix);
      case 9 => AddDoes(m, code, prefix, true);
      case 11 => AddDoes(m, code, prefix, false);
      case 6 =>
      case 14 =>
      case 7 => FetchedPlace(m, code, prefix);
      case 15 => FetchedPlace(m, code, prefix);
      case _ => LogicDoes(m, code, prefix);
    }
  }

  /** The instruction at PC: rows A to F do what the disassembler prints, on the operand that the bytes
      in memory name, and PC goes behind these bytes. */
  lemma DataStep(m: Cpu, noise: Byte)
    requires !m.vector && HasOperand(Peek(m))
    ensures var code, b := Peek(m), Begun(m, noise);
      var mode := ModeOf(code, false);
      var ea := Place(b, mode);
      Step(m, noise) == Ran(Done(RowOp(code), Past(b, mode), Load(m.mem, ea), ea), Go)
  {
    var code, b := Peek(m), Begun(m, noise);
    RowADoes(b, code, false);
    NoiseIsUnseen(m, noise, Place(b, ModeOf(code, false)));
    hide Peek, Load, Place, Past, Done, RowA, RowOp, ModeOf, Inc;
  }

  /** Rows D and E behind the prefix are relative to SP. */
  lemma PrefixedDataStep(m: Cpu, noise: Byte)
    requires !m.vector && Peek(m) == 0x9e
    requires var code := Peek(Begun(m, noise)); code / 16 in {13, 14} && HasOperand(code)
    ensures var code, b := Peek(Begun(m, noise)), Skip(Begun(m, noise));
      var mode := ModeOf(code, true);
      var ea := Place(b, mode);
      Step(m, noise) == Ran(Done(RowOp(code), Past(b, mode), Load(m.mem, ea), ea), Go)
  {
    var code, b := Peek(Begun(m, noise)), Skip(Begun(m, noise));
    RowADoes(b, code, true);
    NoiseIsUnseen(m, noise, Place(b, ModeOf(code, true)));
    hide Peek, Load, Place, Past, Done, RowA, RowOp, ModeOf, Inc;
  }

  lemma NoiseIsUnseen(m: Cpu, noise: Byte, a: int)
    ensures Load(Begun(m, noise).mem, a) == Load(m.mem, a)
  {
  }

  // ----- read-modify-write -----

  datatype Change = NEG | COM | LSR | ROR | ASR | LSL | ROL | DEC | INC | CLR

  /** The change that an opcode of rows 3 to 7 makes. */
  function ChangeOf(code: Byte): Change {
    match code % 16
    case 0 => NEG
    case 3 => COM
    case 4 => LSR
    case 6 => ROR
    case 7 => ASR
    case 8 => LSL
    case 9 => ROL
    case 10 => DEC
    case 12 => INC
    case _ => CLR
  }

  predicate Changes(code: Byte) {
    0x30 <= code < 0x80 && code % 16 in {0, 3, 4, 6, 7, 8, 9, 10, 12, 15}
  }

  predicate IsShift(op: Change) { op in {LSR, ROR, ASR, LSL, ROL} }

  /** From `v` and the flags `p` to `r` and `q`, as equations between numbers: a shift moves one bit
      between its end and C, the others count in signed numbers and V is their overflow. */
  predicate Changed(op: Change, v: Byte, p: Flags, r: Byte, q: Flags) {
    var c, d := Bit(p.c), Bit(q.c);
    && q == Signs(p, r).(v := q.v, c := q.c)
    && (IsShift(op) ==> q.v == (q.n != q.c))
    && match op
       case LSR => 2 * r + d == v
       case ROR => 2 * r + d == v + 256 * c
       case ASR => 2 * Signed8(r) + d == Signed8(v)
       case LSL => r + 256 * d == 2 * v
       case ROL => r + 256 * d == 2 * v + c
       case NEG => Reaches(r, -Signed8(v), q.v) && q.c == (v != 0)
       case COM => Signed8(r) == -Signed8(v) - 1 && !q.v && q.c
       case INC => Reaches(r, Signed8(v) + 1, q.v) && q.c == p.c
       case DEC => Reaches(r, Signed8(v) - 1, q.v) && q.c == p.c
       case CLR => r == 0 && !q.v && q.c == p.c
  }

  /** `r` is the signed number `n`, or differs by 256 from it on an overflow. */
  predicate Reaches(r: Byte, n: int, overflow: bool) {
    overflow == !FitsByte(n)
    && Signed8(r) == (if n > 127 then n - 256 else if n < -128 then n + 256 else n)
  }

  /** The equations leave no choice. */
  lemma ChangedIsUnique(op: Change, v: Byte, p: Flags, r: Byte, q: Flags, r1: Byte, q1: Flags)
    requires Changed(op, v, p, r, q) && Changed(op, v, p, r1, q1)
    ensures r == r1 && q == q1
  {
  }

  lemma ShiftChanges(op: int, v: Byte, p: Flags)
    requires op in {4, 6, 7, 8, 9}
    ensures var alu := Modify(op, v, p); Changed(ChangeOf(op), v, p, alu.v, alu.p)
  {
    hide Bit7, Nz, Signs, Shifted, ShiftedOut, Signed8;
    var r := Shifted(op, v, p.c);
    assert r % 256 == r;
    SignsAgree(p, r);
    ShiftMoves(op, v, p.c);
    SignBit(r);
    SignsKeep(p, r);
  }

  lemma SignBit(v: Byte)
    ensures Bit7(v) == (Signed8(v) < 0) == (v >= 128)
  {
  }

  lemma SignsKeep(p: Flags, r: Byte)
    ensures var q := Signs(p, r); q.n == (Signed8(r) < 0) && q == p.(n := q.n, z := q.z)
  {
  }

  lemma ShiftMoves(op: int, v: Byte, c: bool)
    requires op in {4, 6, 7, 8, 9}
    ensures var r, d := Shifted(op, v, c), Bit(ShiftedOut(op, v));
      match op
      case 4 => 2 * r + d == v
      case 6 => 2 * r + d == v + 256 * Bit(c)
      case 7 => 2 * Signed8(r) + d == Signed8(v)
      case 8 => r + 256 * d == 2 * v
      case _ => r + 256 * d == 2 * v + Bit(c)
  {
    SignBit(v);
    assert v == 2 * (v / 2) + v % 2;
    assert 2 * v % 256 == if v >= 128 then 2 * v - 256 else 2 * v;
    hide Bit7;
  }

  lemma CountChanges(op: int, v: Byte, p: Flags)
    requires op in {0, 3, 10, 12}
    ensures var alu := Modify(op, v, p); Changed(ChangeOf(op), v, p, alu.v, alu.p)
  {
    hide Bit7, Nz, Signs, Reaches, Counted, Signed8;
    var r := Counted(op, v);
    assert r % 256 == r;
    SignsAgree(p, r);
    SignsKeep(p, r);
    Counts(op, v);
    match op {
      case 0 => assert Changed(NEG, v, p, r, Signs(p, r).(v := v == 0x80, c := v != 0));
      case 3 => assert Changed(COM, v, p, r, Signs(p, r).(v := false, c := true));
      case 10 => assert Changed(DEC, v, p, r, Signs(p, r).(v := r == 0x7f));
      case _ => assert Changed(INC, v, p, r, Signs(p, r).(v := r == 0x80));
    }
  }

  lemma Counts(op: int, v: Byte)
    requires op in {0, 3, 10, 12}
    ensures var r := Counted(op, v);
      match op
      case 0 => Reaches(r, -Signed8(v), v == 0x80)
      case 3 => Signed8(r) == -Signed8(v) - 1
      case 12 => Reaches(r, Signed8(v) + 1, r == 0x80)
      case _ => Reaches(r, Signed8(v) - 1, r == 0x7f)
  {
    assert (v + 1) % 256 == if v == 255 then 0 else v + 1;
    assert (v - 1) % 256 == if v == 0 then 255 else v - 1;
    assert (256 - v) % 256 == if v == 0 then 0 else 256 - v;
  }

  /** What a change works on: A, X, or a cell. */
  datatype Target = InA | InX | Cell(ea: int)

  function TargetOf(m: Cpu, code: Byte, prefix: bool): Target {
    match code / 16
    case 4 => InA
    case 5 => InX
    case _ => Cell(Place(m, ModeOf(code, prefix)))
  }

  function OperandPast(m: Cpu, code: Byte, prefix: bool): Cpu {
    if code / 16 == 4 || code / 16 == 5 then m else Past(m, ModeOf(code, prefix))
  }

  function Read(m: Cpu, t: Target): Byte {
    match t
    case InA => m.a
    case InX => m.x
    case Cell(ea) => Load(m.mem, ea)
  }

  function Write(m: Cpu, t: Target, v: Byte): Cpu {
    match t
    case InA => m.(a := v)
    case InX => m.(x := v)
    case Cell(ea) => m.(mem := Store(m.mem, ea, v))
  }

  lemma RmwTarget(m: Cpu, code: Byte, prefix: bool)
    requires 0x30 <= code < 0x80
    ensures var op, t := RmwOperand(m, code, prefix), TargetOf(m, code, prefix);
      && op.m == OperandPast(m, code, prefix) && op.v == Read(m, t)
      && forall m1: Cpu, v: Byte :: WriteBack(m1, code, op.ea, v) == Write(m1, t, v)
  {
    hide Load, Store, FetchEa, Past, Place, ModeOf;
    if code / 16 != 4 && code / 16 != 5 {
      FetchedPlace(m, code, prefix);
    }
  }

  /** `r` is `m` after the change that `code` names, at its target and nowhere else. */
  ghost predicate ChangedInPlace(m: Cpu, code: Byte, prefix: bool, r: Cpu) {
    var t := TargetOf(m, code, prefix);
    exists v: Byte, q: Flags ::
      && Changed(ChangeOf(code), Read(m, t), m.p, v, q)
      && r == Write(OperandPast(m, code, prefix).(p := q), t, v)
  }

  lemma RowChanges(m: Cpu, code: Byte, prefix: bool)
    requires Changes(code)
    ensures var r := Row3(m, code, prefix); r.status == Go && ChangedInPlace(m, code, prefix, r.m)
  {
    hide Load, Store, FetchEa, Past, Place, ModeOf, RmwOperand, WriteBack, Modify, Changed, TargetOf, OperandPast,
         Read, Write;
    var t := TargetOf(m, code, prefix);
    RmwTarget(m, code, prefix);
    var was, b := RmwOperand(m, code, prefix), OperandPast(m, code, prefix);
    if code % 16 == 15 {
      var q := m.p.(v := false, n := false, z := true);
      ClearChanges(was.v, m.p);
      assert Row3(m, code, prefix) == Ran(Write(b.(p := q), t, 0), Go);
    } else {
      var alu := Modify(code % 16, was.v, m.p);
      if code % 16 in {0, 3, 10, 12} {
        CountChanges(code % 16, was.v, m.p);
      } else {
        ShiftChanges(code % 16, was.v, m.p);
      }
      assert Row3(m, code, prefix) == Ran(Write(b.(p := alu.p), t, alu.v), Go);
    }
  }

  lemma ClearChanges(v: Byte, p: Flags)
    ensures Changed(CLR, v, p, 0, p.(v := false, n := false, z := true))
  {
  }

  /** The instruction at PC: rows 3 to 7 make their change in A, X or the cell that the bytes in memory
      name. */
  lemma ChangeStep(m: Cpu, noise: Byte)
    requires !m.vector && Changes(Peek(m))
    ensures Step(m, noise).status == Go && ChangedInPlace(Begun(m, noise), Peek(m), false, Step(m, noise).m)
  {
    hide Row3, ChangedInPlace;
    RowChanges(Begun(m, noise), Peek(m), false);
    hide Peek, Load, Inc;
  }

  /** Row 6 behind the prefix is relative to SP. */
  lemma PrefixedChangeStep(m: Cpu, noise: Byte)
    requires !m.vector && Peek(m) == 0x9e
    requires var code := Peek(Begun(m, noise)); code / 16 == 6 && Changes(code)
    ensures var code, b := Peek(Begun(m, noise)), Skip(Begun(m, noise));
      Step(m, noise).status == Go && ChangedInPlace(b, code, true, Step(m, noise).m)
  {
    hide Row3, ChangedInPlace;
    RowChanges(Skip(Begun(m, noise)), Peek(Begun(m, noise)), true);
    hide Peek, Load, Inc;
  }

  /** TST only sets the flags of a load. */
  lemma TestStep(m: Cpu, noise: Byte)
    requires !m.vector && 0x30 <= Peek(m) < 0x80 && Peek(m) % 16 == 13
    ensures var code, b := Peek(m), Begun(m, noise);
      var v := Read(b, TargetOf(b, code, false));
      Step(m, noise) == Ran(OperandPast(b, code, false).(p := LoadFlags(m.p, v)), Go)
  {
    var code, b := Peek(m), Begun(m, noise);
    RmwTarget(b, code, false);
    LoadFlagsAgree(m.p, Read(b, TargetOf(b, code, false)));
    hide Peek, Load, Inc, RmwOperand, Read, TargetOf, OperandPast, LoadFlags, Moved, Write, WriteBack;
  }
}
