/** Where HC08 instructions go next, what the ones without an operand do, and which opcodes stop the
    processor, from the bytes in memory and the disassembler's table (hc08.src/glob.cc:46-380). */
module Hc08Flow {
  import opened Bits
  import opened Hc08Model
  import opened Hc08Meaning
  import opened Hc08Stack
  import opened Hc08Isa

  // ----- jumps and calls -----

  predicate IsJump(code: Byte) { code in {0xbc, 0xcc, 0xdc, 0xec, 0xfc} }

  predicate IsCall(code: Byte) { code in {0xad, 0xbd, 0xcd, 0xdd, 0xed, 0xfd} }

  function Displaced(m: Cpu): int { Inc(m.pc) + Signed8(Load(m.mem, m.pc)) }

  /** Where a call goes and where it comes back to; `m` is at the bytes behind the opcode. */
  function CallTarget(m: Cpu, code: Byte): int {
    if code == 0xad then Displaced(m) else Place(m, ModeOf(code, false))
  }

  function ReturnTo(m: Cpu, code: Byte): int {
    if code == 0xad then Inc(m.pc) else Past(m, ModeOf(code, false)).pc
  }

  /** JMP goes to its operand's address and changes nothing else. */
  lemma JumpGoes(m: Cpu, noise: Byte)
    requires !m.vector && IsJump(Peek(m))
    ensures var b := Begun(m, noise);
      Step(m, noise) == Ran(b.(pc := Place(b, ModeOf(Peek(m), false))), Go)
  {
    FetchedPlace(Begun(m, noise), Peek(m), false);
    hide Peek, Load, Inc, FetchEa, Place, ModeOf;
  }

  /** JSR and BSR push the address behind themselves and go to their target. */
  lemma CallGoes(m: Cpu, noise: Byte)
    requires !m.vector && IsCall(Peek(m))
    ensures var b, code := Begun(m, noise), Peek(m);
      Step(m, noise) == Ran(Push2(b, ReturnTo(b, code)).(pc := CallTarget(b, code)), Go)
  {
    var b := Begun(m, noise);
    if Peek(m) == 0xad {
      DispIs(Peek(b));
    } else {
      FetchedPlace(b, Peek(m), false);
    }
    hide Load, Inc, FetchEa, Place, ModeOf, Disp, Signed8, Store, Store2;
  }

  lemma DispIs(b: Byte)
    ensures Disp(b) == Signed8(b)
  {
  }

  /** A call whose target holds RTS: one instruction later the processor is at the target, two later
      behind the call, and nothing but the two cells below SP has changed. */
  lemma CallReturns(m: Cpu, n1: Byte, n2: Byte)
    requires !m.vector && IsCall(Peek(m)) && m.sp >= 2 && m.pc >= 0
    requires var target := CallTarget(Skip(m), Peek(m));
      Load(m.mem, target) == 0x81 && target != m.sp && target != m.sp - 1
    ensures Exec(m, [n1]).pc == CallTarget(Skip(m), Peek(m))
    ensures var r := Exec(m, [n1, n2]);
      && r == m.(pc := ReturnTo(Skip(m), Peek(m)), mem := r.mem)
      && forall a :: a != m.sp && a != m.sp - 1 ==> Load(r.mem, a) == Load(m.mem, a)
  {
    hide Step, CallTarget, ReturnTo, Load, Store, Store2, Inc, Begun, Peek;
    TwoSteps(m, n1, n2);
    CallRuns(m, n1);
    ReturnRuns(m, Step(m, n1).m, n2);
  }

  lemma TwoSteps(m: Cpu, n1: Byte, n2: Byte)
    ensures Exec(m, [n1]) == Step(m, n1).m && Exec(m, [n1, n2]) == Step(Step(m, n1).m, n2).m
  {
    hide Step;
    assert [n1, n2][..1] == [n1] && [n1][..0] == [];
    assert Exec(m, []) == m;
    assert Exec(m, [n1]) == Step(m, n1).m;
  }

  /** The state right after a call: it differs from the one before as Push2 and the jump say. */
  ghost predicate Called(m: Cpu, r: Cpu)
    requires m.sp >= 2
  {
    && r == m.(pc := CallTarget(Skip(m), Peek(m)), sp := m.sp - 2, mem := r.mem)
    && Load2(r.mem, m.sp - 1) == ReturnTo(Skip(m), Peek(m))
    && forall a :: a != m.sp && a != m.sp - 1 ==> Load(r.mem, a) == Load(m.mem, a)
  }

  lemma CallRuns(m: Cpu, noise: Byte)
    requires !m.vector && IsCall(Peek(m)) && m.sp >= 2 && m.pc >= 0
    ensures Called(m, Step(m, noise).m)
  {
    var b, code := Begun(m, noise), Peek(m);
    SameTarget(m, noise);
    CallGoes(m, noise);
    PushedCells(b, ReturnTo(b, code));
    ReturnInside(b, code);
    WordComesBack(b, ReturnTo(b, code));
    hide Step, CallTarget, ReturnTo, Load, Store2, Inc;
  }

  lemma ReturnRuns(m: Cpu, m1: Cpu, noise: Byte)
    requires !m.vector && m.sp >= 2 && Called(m, m1)
    requires var target := CallTarget(Skip(m), Peek(m));
      Load(m.mem, target) == 0x81 && target != m.sp && target != m.sp - 1
    ensures var r := Step(m1, noise).m;
      && r == m.(pc := ReturnTo(Skip(m), Peek(m)), mem := r.mem)
      && forall a :: a != m.sp && a != m.sp - 1 ==> Load(r.mem, a) == Load(m.mem, a)
  {
    hide Step, CallTarget, ReturnTo, Inc, Load;
    PeekIs(m1);
    ReturnStep(m1, noise);
    forall a ensures Load(Begun(m1, noise).mem, a) == Load(m1.mem, a) {
      NoiseIsUnseen(m1, noise, a);
    }
  }

  lemma SameTarget(m: Cpu, noise: Byte)
    ensures CallTarget(Begun(m, noise), Peek(m)) == CallTarget(Skip(m), Peek(m))
    ensures ReturnTo(Begun(m, noise), Peek(m)) == ReturnTo(Skip(m), Peek(m))
  {
    hide Inc;
  }

  lemma PushedCells(m: Cpu, v: int)
    requires m.sp >= 2
    ensures Push2(m, v).sp == m.sp - 2
    ensures forall a :: a != m.sp && a != m.sp - 1 ==> Load(Push2(m, v).mem, a) == Load(m.mem, a)
  {
  }

  lemma ReturnInside(m: Cpu, code: Byte)
    requires Inside(m.pc)
    ensures Inside(ReturnTo(m, code))
  {
    hide Load;
  }

  lemma ReturnStep(m: Cpu, noise: Byte)
    requires !m.vector && Peek(m) == 0x81
    ensures Step(m, noise) == Ran(Rts(Begun(m, noise)), Go)
  {
    hide Load;
  }

  /** For a call with an extended operand, in numbers. */
  lemma ExtendedCall(m: Cpu, n1: Byte, n2: Byte)
    requires !m.vector && Load(m.mem, m.pc) == 0xcd && m.sp >= 2 && 0 <= m.pc < 0xfffd
    requires var target := Load2(m.mem, m.pc + 1);
      Load(m.mem, target) == 0x81 && target != m.sp && target != m.sp - 1
    ensures Exec(m, [n1]).pc == Load2(m.mem, m.pc + 1)
    ensures Exec(m, [n1, n2]).pc == m.pc + 3 && Exec(m, [n1, n2]).sp == m.sp
  {
    hide Exec, Load;
    CallReturns(m, n1, n2);
  }

  // ----- pulls, returns and interrupts -----

  /** A pull loads its register from the cell above SP, and nothing else changes. */
  lemma PullStep(m: Cpu, noise: Byte)
    requires !m.vector && Peek(m) in {0x86, 0x88, 0x8a}
    ensures var b := Begun(m, noise);
      var v, up := Load(m.mem, m.sp + 1), b.(sp := (m.sp + 1) % 0x10000);
      Step(m, noise) == Ran(
        match Peek(m) {
          case 0x86 => up.(a := v)
          case 0x88 => up.(x := v)
          case _ => up.(h := v)
        }, Go)
  {
    NoiseIsUnseen(m, noise, m.sp + 1);
    hide Load, Inc;
  }

  /** RTS, RTI and SWI leave alone what they do not restore or save; SWI clears I. */
  lemma ReturnsKeep(m: Cpu)
    ensures var r := Rts(m); r == m.(pc := r.pc, sp := r.sp)
    ensures var r := Rti(m); r == m.(pc := r.pc, sp := r.sp, a := r.a, x := r.x, p := r.p)
    ensures var r := Swi(m); r == m.(pc := r.pc, sp := r.sp, p := m.p.(i := false), mem := r.mem)
  {
    hide Load, Store, Store2, Load2, FromByte, ToByte, Top1, Top2;
  }

  // ----- branches -----

  predicate IsBranch(code: Byte) { 0x20 <= code < 0x2e || 0x90 <= code <= 0x93 }

  /** When a branch is taken: BRA, BRN, BHI, BLS, BCC, BCS, BNE, BEQ, BHCC, BHCS, BPL, BMI, BMC, BMS, BGE,
      BLT, BGT and BLE, the four between unequal numbers as the code has them. */
  predicate IsTaken(code: Byte, p: Flags) {
    match code
    case 0x20 => true
    case 0x21 => false
    case 0x22 => p.c || !p.z
    case 0x23 => !p.c && p.z
    case 0x24 => !p.c
    case 0x25 => p.c
    case 0x26 => !p.z
    case 0x27 => p.z
    case 0x28 => !p.h
    case 0x29 => p.h
    case 0x2a => !p.n
    case 0x2b => p.n
    case 0x2c => !p.i
    case 0x2d => p.i
    case 0x90 => p.n == p.v
    case 0x91 => p.n != p.v
    case 0x92 => p.n == p.v || p.z
    case _ => p.n != p.v && !p.z
  }

  /** A branch goes to PC + 2 plus its signed byte exactly if it is taken, and changes PC only. */
  lemma BranchGoes(m: Cpu, noise: Byte)
    requires !m.vector && IsBranch(Peek(m))
    ensures var b := Begun(m, noise);
      Step(m, noise) == Ran(b.(pc := if IsTaken(Peek(m), m.p) then Displaced(b) else Inc(b.pc)), Go)
  {
    var b := Begun(m, noise);
    DispIs(Peek(b));
    hide Load, Inc, Disp, Signed8;
    assert Dispatch(b, Peek(m)) == Ran(CondBranch(b, Peek(m)), Go);
    assert (EvenBranch(Peek(m), m.p) != (Peek(m) % 2 == 1)) == IsTaken(Peek(m), m.p);
  }

  // ----- the condition code register as a byte -----

  /** C, Z, N, I and H are bits 0 to 4 and V is bit 7, in both directions. */
  lemma FlagsLayout(b: Byte)
    ensures var p := FromByte(b);
      && p.c == TestBit(b, 0) && p.z == TestBit(b, 1) && p.n == TestBit(b, 2) && p.i == TestBit(b, 3)
      && p.h == TestBit(b, 4) && p.b5 == TestBit(b, 5) && p.b6 == TestBit(b, 6) && p.v == TestBit(b, 7)
  {
    assert TestBit(b, 1) == Odd(b / 2) && TestBit(b, 2) == Odd(b / 2 / 2);
    assert TestBit(b, 3) == Odd(b / 2 / 2 / 2) && TestBit(b, 4) == Odd(b / 2 / 2 / 2 / 2);
    hide Odd;
  }

  /** The byte in A and the flags: TPA and TAP are inverse up to bits 5 and 6, which both set. */
  lemma TransferFlags(m: Cpu)
    ensures Transfer(Transfer(m, 0x85), 0x84).p == Or60(m.p)
    ensures Has60(FromByte(m.a)) ==> Transfer(Transfer(m, 0x84), 0x85).a == m.a
  {
    hide ToByte, FromByte;
    FlagsRoundTrip(Or60(m.p));
    BytesRoundTrip(m.a);
  }

  lemma BytesRoundTrip(b: Byte)
    ensures ToByte(FromByte(b)) == b
  {
    hide Append, Odd, Bit;
    var b1 := b / 2;
    var b2 := b1 / 2;
    var b3 := b2 / 2;
    var b4 := b3 / 2;
    var b5 := b4 / 2;
    var b6 := b5 / 2;
    Rejoined(b); Rejoined(b1); Rejoined(b2); Rejoined(b3); Rejoined(b4); Rejoined(b5); Rejoined(b6);
    OneDigit(b6 / 2);
  }

  lemma Rejoined(b: int)
    ensures Append(b / 2, Odd(b)) == b
  {
  }

  lemma OneDigit(b: int)
    requires 0 <= b <= 1
    ensures Bit(Odd(b)) == b
  {
  }

  // ----- registers -----

  /** Transfers between A, X, H:X and SP, the exchange of digits, and additions to H:X and SP, modulo
      2^16.  `r` is the machine afterwards, `b` the one behind the opcode. */
  predicate RegisterStep(code: Byte, b: Cpu, r: Cpu) {
    match code
    case 0x62 => r == b.(a := r.a) && r.a / 16 == b.a % 16 && r.a % 16 == b.a / 16
    case 0x8c => r == b.(h := 0, p := LoadFlags(b.p, 0))
    case 0x94 => r == b.(sp := r.sp) && (r.sp + 1) % 0x10000 == b.h * 256 + b.x
    case 0x95 => r == b.(h := r.h, x := r.x) && r.h * 256 + r.x == (b.sp + 1) % 0x10000
    case 0x97 => r == b.(x := b.a)
    case 0x9f => r == b.(a := b.x)
    case 0x9c => r == b.(sp := 0xff)
    case 0xa7 =>
      r == b.(sp := r.sp, pc := Inc(b.pc)) && r.sp == (b.sp + Signed8(Peek(b))) % 0x10000
    case 0xaf =>
      && r == b.(h := r.h, x := r.x, pc := Inc(b.pc))
      && r.h * 256 + r.x == (b.h * 256 + b.x + Signed8(Peek(b))) % 0x10000
    case _ => r == b
  }

  /** NSA, CLRH, TXS, TSX, TAX, TXA, RSP, AIS, AIX and NOP. */
  lemma RegistersMove(m: Cpu, noise: Byte)
    requires !m.vector && Peek(m) in {0x62, 0x8c, 0x94, 0x95, 0x97, 0x9c, 0x9d, 0x9f, 0xa7, 0xaf}
    ensures Step(m, noise).status == Go && RegisterStep(Peek(m), Begun(m, noise), Step(m, noise).m)
  {
    hide Step, RegisterStep, Load, Inc;
    if Peek(m) in {0x62, 0x8c} {
      DigitsMove(m, noise);
    } else if Peek(m) >= 0xa0 {
      AdditionsMove(m, noise);
    } else {
      TransfersMove(m, noise);
    }
  }

  lemma DigitsMove(m: Cpu, noise: Byte)
    requires !m.vector && Peek(m) in {0x62, 0x8c}
    ensures Step(m, noise).status == Go && RegisterStep(Peek(m), Begun(m, noise), Step(m, noise).m)
  {
    hide Load, Inc;
  }

  lemma TransfersMove(m: Cpu, noise: Byte)
    requires !m.vector && Peek(m) in {0x94, 0x95, 0x97, 0x9c, 0x9d, 0x9f}
    ensures Step(m, noise).status == Go && RegisterStep(Peek(m), Begun(m, noise), Step(m, noise).m)
  {
    hide Load, Inc, SetHx, Signed8, Row3, Prefixed, Peek, LoadFlags;
    var b := Begun(m, noise);
    SetHxIs(b, b.sp + 1);
    DownAndUp(Hx(b));
  }

  lemma DownAndUp(w: Word)
    ensures ((w - 1) % 0x10000 + 1) % 0x10000 == w
  {
  }

  lemma AdditionsMove(m: Cpu, noise: Byte)
    requires !m.vector && Peek(m) in {0xa7, 0xaf}
    ensures Step(m, noise).status == Go && RegisterStep(Peek(m), Begun(m, noise), Step(m, noise).m)
  {
    hide Load, Inc, SetHx, Disp, Signed8;
    var b := Begun(m, noise);
    DispIs(Peek(b));
    SetHxIs(Skip(b), Hx(b) + Disp(Peek(b)));
  }

  lemma TwoBytes(w: int)
    ensures w / 256 % 256 * 256 + w % 256 == w % 0x10000
  {
  }

  lemma SetHxIs(m: Cpu, w: int)
    ensures var r := SetHx(m, w); r == m.(h := r.h, x := r.x) && r.h * 256 + r.x == w % 0x10000
  {
    TwoBytes(w);
  }

  /** LDHX loads H:X from the word that follows, or from the one at a direct address. */
  lemma LdhxStep(m: Cpu, noise: Byte)
    requires !m.vector && Peek(m) in {0x45, 0x55}
    ensures var b, r := Begun(m, noise), Step(m, noise).m;
      && r == b.(h := r.h, x := r.x, p := r.p, pc := Behind(b.pc, if Peek(m) == 0x45 then 2 else 1))
      && r.h * 256 + r.x == (if Peek(m) == 0x45 then WordAt(b.mem, b.pc) else Load2(b.mem, Peek(b)))
      && r.p == m.p.(v := false, n := Signed8(r.h) < 0, z := r.h * 256 + r.x == 0)
  {
    hide Load, Inc;
  }

  // ----- which opcodes there are -----

  /** The opcodes of the disassembler's first table, and those that the processor executes without one:
      0x96 and the prefix 0x9e. */
  predicate Listed(code: Byte) { code !in {0x32, 0x3e, 0x82, 0x8d, 0xac, 0x96, 0x9e} }

  /** The opcodes of the table for prefixed instructions. */
  predicate PrefixListed(code: Byte) {
    || (code / 16 == 6 && code % 16 !in {2, 5, 14})
    || (code / 16 in {13, 14} && code % 16 !in {12, 13})
  }

  /** The processor stops exactly at opcodes that the disassembler does not list, with these
      exceptions: it lists BIL and BIH, 0x2e and 0x2f, which stop; it does not list 0x96 and the prefixed
      0xdd and 0xed, which go on. */
  lemma HaltsIff(m: Cpu, noise: Byte)
    requires !m.vector
    ensures var code, next := Peek(m), Peek(Begun(m, noise));
      Step(m, noise).status == Halt <==>
        if code == 0x9e then !PrefixListed(next) && next !in {0xdd, 0xed}
        else code in {0x2e, 0x2f} || (!Listed(code) && code != 0x96)
  {
    hide Load, Inc, BitTest, BitSetClear, CondBranch, RowA, Cbeq, Dbnz, Tst, Clr, Mov, ReadModifyWrite, Mul, Div, Daa,
         Sthx, Ldhx, Cphx, Rti, Rts, Swi, Transfer, PushPull, Lda, SetClearFlags, Bsr, Jsr, SetHx, FetchEa, Peek;
  }

  /** What the processor makes of the unlisted opcodes: 0x96 loads A from cell 101, and the prefixed 0xdd
      and 0xed print A. */
  lemma UnlistedStep(m: Cpu, noise: Byte)
    requires !m.vector
    ensures var b := Begun(m, noise);
      && (Peek(m) == 0x96 ==>
            Step(m, noise).m == b.(a := Load(m.mem, 101), p := LoadFlags(m.p, Load(m.mem, 101))))
      && (Peek(m) == 0x9e && Peek(b) in {0xdd, 0xed} ==> Step(m, noise).m == Skip(b).(out := m.out + [m.a]))
  {
    hide Load, Inc, Row3, RowA, Transfer, SetClearFlags, CondBranch, Moved, LoadFlags;
    LoadFlagsAgree(m.p, Load(m.mem, 101));
    NoiseIsUnseen(m, noise, 101);
  }

  /** The instructions whose meaning is stated of their handlers are the ones the disassembler prints. */
  lemma HandledStep(m: Cpu, noise: Byte)
    requires !m.vector
    ensures var code, b := Peek(m), Begun(m, noise);
      var r := Step(m, noise).m;
      && (code < 0x10 ==> r == BitTest(b, code))
      && (0x10 <= code < 0x20 ==> r == BitSetClear(b, code))
      && (code in {0x31, 0x41, 0x51, 0x61, 0x71} ==> r == Cbeq(b, code, false))
      && (code in {0x3b, 0x4b, 0x5b, 0x6b, 0x7b} ==> r == Dbnz(b, code, false))
      && (code in {0x4e, 0x5e, 0x6e, 0x7e} ==> r == Mov(b, code))
      && (code == 0x42 ==> r == Mul(b)) && (code == 0x52 ==> r == Div(b)) && (code == 0x72 ==> r == Daa(b))
      && (code == 0x35 ==> r == Sthx(b)) && (code in {0x65, 0x75} ==> r == Cphx(b, code))
      && (code in {0x84, 0x85} ==> r == Transfer(b, code))
      && (code in {0x98, 0x99, 0x9a, 0x9b} ==> r == SetClearFlags(b, code))
      && (code in {0x8e, 0x8f} ==> r == SetClearFlags(b, 0x9a))
      && (code == 0x9e ==>
            var next := Peek(b);
            && (next == 0x61 ==> r == Cbeq(Skip(b), next, true))
            && (next == 0x6b ==> r == Dbnz(Skip(b), next, true))
            && (next == 0x6d ==> r == Tst(Skip(b), next, true)))
  {
    hide Load, Inc, BitTest, BitSetClear, CondBranch, RowA, Cbeq, Dbnz, Tst, Clr, Mov, ReadModifyWrite, Mul, Div, Daa,
         Sthx, Ldhx, Cphx, Rti, Rts, Swi, Transfer, PushPull, Lda, Bsr, Jsr, SetHx, FetchEa, Peek;
  }
}
