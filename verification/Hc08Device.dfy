/** The HC08 as the source keeps it: registers and memory that the handlers update in place.  Every
    method is proved against the function of the same instruction in Hc08Model. */
module Hc08Device {
  import opened Bits
  import opened Hc08Model
  import Hc08Stack

  class Hc08 {
    var a: Byte
    var x: Byte
    var h: Byte
    var p: Flags
    var sp: Word
    var pc: int
    var vector: bool
    var ram: Memory
    var out: seq<Byte>

    function State(): Cpu
      reads this
    {
      Cpu(a, x, h, p, sp, pc, vector, ram, out)
    }

    constructor (cells: map<int, Byte>, outside: Byte)
      ensures State() == Cpu(0, 0, 0, FromByte(0x60), 0xff, 0, true, Memory(cells, outside, 0), [])
    {
      pc, out, ram := 0, [], Memory(cells, outside, 0);
      new;
      Restart();
    }

    method Restart()
      modifies this
      ensures State() == Reset(old(State()))
    {
      sp, a, x, h, p, vector := 0xff, 0, 0, 0, FromByte(0x60), true;
    }

    // ----- fetching -----

    method FetchByte() returns (b: Byte)
      modifies this`pc
      ensures b == Peek(old(State())) && State() == Skip(old(State()))
    {
      b := Load(ram, pc);
      pc := Inc(pc);
    }

    method FetchWord() returns (w: Word)
      modifies this`pc
      ensures Fetched(State(), w) == Fetch2(old(State()))
    {
      var high := FetchByte();
      var low := FetchByte();
      w := Hc08Stack.Word2(high, low);
    }

    method EffectiveAddress(code: Byte, prefix: bool) returns (ea: int)
      modifies this`pc
      ensures Fetched(State(), ea) == FetchEa(old(State()), code, prefix)
    {
      match code / 16 {
        case 0 | 1 | 3 | 11 => ea := FetchByte();
        case 7 | 15 => ea := h * 256 + x;
        case 6 | 14 =>
          var b := FetchByte();
          ea := if prefix then b + sp else b + (h * 256 + x);
        case 13 =>
          var w := FetchWord();
          ea := if prefix then w + sp else w + (h * 256 + x);
        case 12 => ea := FetchWord();
        case _ => ea := 101;
      }
    }

    method TakeOperand(code: Byte, prefix: bool) returns (v: Byte)
      modifies this`pc
      ensures Taken(State(), v) == Operand(old(State()), code, prefix)
    {
      if code / 16 == 10 {
        v := FetchByte();
      } else {
        var ea := EffectiveAddress(code, prefix);
        v := Load(ram, ea);
      }
    }

    // ----- the stack -----

    method PushByte(v: Byte)
      modifies this`sp, this`ram
      ensures State() == Push1(old(State()), v)
      ensures forall base: Word :: 1 <= old(sp) <= base ==>
        Hc08Stack.Live(State(), base) == [v] + old(Hc08Stack.Live(State(), base))
    {
      ghost var was := State();
      ram := Store(ram, sp, v);
      sp := (sp - 1) % 0x10000;
      forall base: Word | 1 <= was.sp <= base
        ensures Hc08Stack.Live(State(), base) == [v] + Hc08Stack.Live(was, base)
      {
        Hc08Stack.PushIsCons(was, v, base);
      }
    }

    method PushWord(v: int)
      modifies this`sp, this`ram
      ensures State() == Push2(old(State()), v)
      ensures forall base: Word :: 2 <= old(sp) <= base ==>
        Hc08Stack.Live(State(), base)
          == [Hc08Stack.High(v), Hc08Stack.Low(v)] + old(Hc08Stack.Live(State(), base))
    {
      ghost var was := State();
      ram := Store(ram, sp - 1, v / 256 % 256);
      ram := Store(ram, sp, v % 256);
      sp := (sp - 2) % 0x10000;
      forall base: Word | 2 <= was.sp <= base
        ensures Hc08Stack.Live(State(), base)
          == [Hc08Stack.High(v), Hc08Stack.Low(v)] + Hc08Stack.Live(was, base)
      {
        Hc08Stack.Push2IsCons(was, v, base);
      }
    }

    method PopByte() returns (v: Byte)
      modifies this`sp
      ensures v == Top1(old(State())) && State() == Drop(old(State()), 1)
      ensures forall base: Word :: old(sp) < base ==>
        old(Hc08Stack.Live(State(), base)) == [v] + Hc08Stack.Live(State(), base)
    {
      ghost var was := State();
      v := Load(ram, sp + 1);
      sp := (sp + 1) % 0x10000;
      forall base: Word | was.sp < base
        ensures Hc08Stack.Live(was, base) == [v] + Hc08Stack.Live(State(), base)
      {
        Hc08Stack.DropIsTail(was, 1, base);
        Hc08Stack.TopIsHead(was, base);
      }
    }

    method PopWord() returns (v: Word)
      modifies this`sp
      ensures v == Top2(old(State())) && State() == Drop(old(State()), 2)
      ensures forall base: Word :: old(sp) + 2 <= base ==>
        old(Hc08Stack.Live(State(), base))
          == [Hc08Stack.High(v), Hc08Stack.Low(v)] + Hc08Stack.Live(State(), base)
    {
      hide Load, Hc08Stack.Live, Hc08Stack.High, Hc08Stack.Low;
      ghost var was := State();
      var high, low := Load(ram, sp + 1), Load(ram, sp + 2);
      v := Hc08Stack.Word2(high, low);
      sp := (sp + 2) % 0x10000;
      forall base: Word | was.sp + 2 <= base
        ensures Hc08Stack.Live(was, base)
          == [Hc08Stack.High(v), Hc08Stack.Low(v)] + Hc08Stack.Live(State(), base)
      {
        Hc08Stack.PopIsSplit(was, base);
      }
    }

    method InstPushPull(code: Byte)
      modifies this
      ensures State() == PushPull(old(State()), code)
    {
      match code {
        case 0x86 => a := PopByte();
        case 0x87 => PushByte(a);
        case 0x88 => x := PopByte();
        case 0x89 => PushByte(x);
        case 0x8a => h := PopByte();
        case 0x8b => PushByte(h);
        case _ =>
      }
    }

    method InstJsr(code: Byte)
      modifies this
      ensures State() == Jsr(old(State()), code)
    {
      var newPc := EffectiveAddress(code, false);
      PushWord(pc);
      pc := newPc;
    }

    method InstBsr()
      modifies this
      ensures State() == Bsr(old(State()))
    {
      var ofs := FetchByte();
      PushWord(pc);
      pc := pc + Disp(ofs);
    }

    method InstRts()
      modifies this
      ensures State() == Rts(old(State()))
    {
      pc := PopWord();
    }

    method InstSwi()
      modifies this
      ensures State() == Swi(old(State()))
    {
      PushWord(pc);
      PushByte(x);
      PushByte(a);
      PushByte(ToByte(p));
      p := p.(i := false);
      pc := Load2(ram, 0xfffc);
    }

    method InstRti()
      modifies this
      ensures State() == Rti(old(State()))
    {
      var flags := PopByte();
      p := Or60(FromByte(flags));
      a := PopByte();
      x := PopByte();
      pc := PopWord();
    }

    // ----- transfers and flags -----

    method InstTransfer(code: Byte)
      modifies this
      ensures State() == Transfer(old(State()), code)
    {
      match code {
        case 0x84 => p := Or60(FromByte(a));
        case 0x85 => a := ToByte(Or60(p));
        case 0x97 => x := a;
        case 0x9f => a := x;
        case 0x94 => sp := (h * 256 + x - 1) % 0x10000;
        case 0x95 =>
          var hx := sp + 1;
          h, x := hx / 256 % 256, hx % 256;
        case _ =>
      }
    }

    method InstSetClearFlags(code: Byte)
      modifies this`p
      ensures State() == SetClearFlags(old(State()), code)
    {
      match code {
        case 0x98 => p := p.(c := false);
        case 0x99 => p := p.(c := true);
        case 0x9a => p := p.(i := false);
        case 0x9b => p := p.(i := true);
        case _ =>
      }
    }

    method FlagNz(r: int)
      modifies this`p
      ensures State() == old(State()).(p := Nz(old(p), r))
    {
      p := p.(n := Bit7(r), z := r % 256 == 0);
    }

    // ----- loads, stores and arithmetic -----

    method InstLda(code: Byte, prefix: bool)
      modifies this
      ensures State() == Lda(old(State()), code, prefix)
    {
      a := TakeOperand(code, prefix);
      p := p.(v := false);
      FlagNz(a);
    }

    method InstSta(code: Byte, prefix: bool)
      modifies this
      ensures State() == Sta(old(State()), code, prefix)
    {
      var ea := EffectiveAddress(code, prefix);
      p := p.(v := false);
      FlagNz(a);
      ram := Store(ram, ea, a);
    }

    /** N, Z, V and C of a result. */
    method FlagArith(x1: Byte, x2: Byte, r: int)
      modifies this`p
      ensures State() == old(State()).(p := Arith(old(p), x1, x2, r))
    {
      FlagNz(r);
      p := p.(v := ((Bit7(x1) != Bit7(x2)) != Bit7(r)) != Bit8(r));
      p := p.(c := Bit8(r));
    }

    method InstAdd(code: Byte, prefix: bool, withCarry: bool)
      modifies this
      ensures State() == Add(old(State()), code, prefix, withCarry)
    {
      var carryIn: int := Bit(withCarry && p.c);
      var x1: int := a;
      var x2 := TakeOperand(code, prefix);
      var r: int := x1 + x2 + carryIn;
      FlagArith(x1, x2, r);
      p := p.(h := (Bit4(x1) != Bit4(x2)) != Bit4(r));
      a := r % 256;
    }

    method InstSub(code: Byte, prefix: bool, withCarry: bool)
      modifies this
      ensures State() == Sub(old(State()), code, prefix, withCarry)
    {
      var carryIn: int := Bit(withCarry && p.c);
      var x1: int := a;
      var x2 := TakeOperand(code, prefix);
      var r: int := x1 - x2 - carryIn;
      FlagArith(x1, x2, r);
      a := r % 256;
    }

    method InstCmp(left: Byte, code: Byte, prefix: bool)
      modifies this
      ensures State() == Compare(old(State()), left, code, prefix)
    {
      var x2 := TakeOperand(code, prefix);
      FlagArith(left, x2, left - x2);
    }

    method InstLdx(code: Byte, prefix: bool)
      modifies this
      ensures State() == Ldx(old(State()), code, prefix)
    {
      x := TakeOperand(code, prefix);
      p := p.(v := false);
      FlagNz(x);
    }

    method InstStx(code: Byte, prefix: bool)
      modifies this
      ensures State() == Stx(old(State()), code, prefix)
    {
      var ea := EffectiveAddress(code, prefix);
      p := p.(v := false);
      FlagNz(x);
      ram := Store(ram, ea, x);
    }

    method InstLogic(code: Byte, prefix: bool)
      modifies this
      ensures State() == Logic(old(State()), code, prefix)
    {
      hide And8, Or8, Xor8;
      var operand := TakeOperand(code, prefix);
      p := p.(v := false);
      match code % 16 {
        case 4 =>
          a := And8(a, operand);
          FlagNz(a);
        case 5 => FlagNz(And8(a, operand));
        case 8 =>
          a := Xor8(a, operand);
          FlagNz(a);
        case _ =>
          a := Or8(a, operand);
          FlagNz(a);
      }
    }

    // ----- read-modify-write -----

    method ReadRmw(code: Byte, prefix: bool) returns (ea: int, v: Byte)
      modifies this`pc
      ensures Rmw(State(), ea, v) == RmwOperand(old(State()), code, prefix)
    {
      ea := 0xffff;
      if code / 16 == 4 {
        v := a;
      } else if code / 16 == 5 {
        v := x;
      } else {
        ea := EffectiveAddress(code, prefix);
        v := Load(ram, ea);
      }
    }

    method WriteRmw(code: Byte, ea: int, v: Byte)
      modifies this`a, this`x, this`ram
      ensures State() == WriteBack(old(State()), code, ea, v)
    {
      if code / 16 == 4 {
        a := v;
      } else if code / 16 == 5 {
        x := v;
      } else {
        ram := Store(ram, ea, v);
      }
    }

    /** NEG, COM, the shifts and rotates, INC and DEC. */
    method InstReadModifyWrite(code: Byte, prefix: bool)
      modifies this
      ensures State() == ReadModifyWrite(old(State()), code, prefix)
    {
      var ea, v := ReadRmw(code, prefix);
      var r := Modify(code % 16, v, p);
      p := r.p;
      WriteRmw(code, ea, r.v);
    }

    method InstTst(code: Byte, prefix: bool)
      modifies this
      ensures State() == Tst(old(State()), code, prefix)
    {
      var _, v := ReadRmw(code, prefix);
      FlagNz(v);
      p := p.(v := false);
    }

    method InstClr(code: Byte, prefix: bool)
      modifies this
      ensures State() == Clr(old(State()), code, prefix)
    {
      var ea, _ := ReadRmw(code, prefix);
      p := p.(v := false, n := false, z := true);
      WriteRmw(code, ea, 0);
    }

    // ----- branches and bits -----

    method BranchIf(taken: bool)
      modifies this`pc
      ensures State() == Jump(old(State()), taken)
    {
      var ofs := FetchByte();
      if taken {
        pc := pc + Disp(ofs);
      }
    }

    method InstCondBranch(code: Byte)
      modifies this`pc
      ensures State() == CondBranch(old(State()), code)
    {
      var taken := EvenBranch(code, p);
      if code % 2 == 1 {
        taken := !taken;
      }
      BranchIf(taken);
    }

    method InstDbnz(code: Byte, prefix: bool)
      requires code % 16 == 11
      modifies this
      ensures State() == Dbnz(old(State()), code, prefix)
    {
      hide Jump, FetchEa;
      var ea, v := ReadRmw(code, prefix);
      var r := Modify(11, v, p);
      p := r.p;
      WriteRmw(code, ea, r.v);
      BranchIf(r.v != 0);
    }

    method InstCbeq(code: Byte, prefix: bool)
      modifies this
      ensures State() == Cbeq(old(State()), code, prefix)
    {
      hide Jump, FetchEa;
      var _, left := ReadRmw(code, prefix);
      var right := a;
      if code / 16 == 4 || code / 16 == 5 {
        right := FetchByte();
      }
      BranchIf(left == right);
      if code == 0x71 {
        AddHx(1);
      }
    }

    method AddHx(n: int)
      modifies this`h, this`x
      ensures State() == SetHx(old(State()), Hx(old(State())) + n)
    {
      var hx: int := h * 256 + x + n;
      h, x := hx / 256 % 256, hx % 256;
    }

    method InstBitSetClear(code: Byte)
      modifies this
      ensures State() == BitSetClear(old(State()), code)
    {
      hide And8, Or8;
      var mask := Pow2(code / 2 % 8);
      var ea := EffectiveAddress(code, false);
      var operand := Load(ram, ea);
      if code % 2 == 1 {
        operand := And8(operand, 255 - mask);
      } else {
        operand := Or8(operand, mask);
      }
      ram := Store(ram, ea, operand);
    }

    method InstBitTest(code: Byte)
      modifies this
      ensures State() == BitTest(old(State()), code)
    {
      hide And8;
      var ea := EffectiveAddress(code, false);
      var bit := And8(Load(ram, ea), Pow2(code / 2 % 8)) != 0;
      BranchIf(if code % 2 == 1 then bit else !bit);
      p := p.(c := bit);
    }

    // ----- the rest -----

    method InstMul()
      modifies this
      ensures State() == Mul(old(State()))
    {
      var r: int := a * x;
      a, x := r % 256, r / 256 % 256;
      p := p.(c := false);
      p := p.(h := false);
    }

    method InstDiv()
      modifies this
      ensures State() == Div(old(State()))
    {
      var dividend: int := h * 256 + a;
      if x != 0 {
        var quotient := dividend / x;
        if quotient <= 0xff {
          a := quotient;
          h := dividend % x;
          p := p.(c := false, z := quotient == 0);
        } else {
          p := p.(c := true);
        }
      } else {
        p := p.(c := true);
      }
    }

    method CarryTens(low: int, high: int) returns (msn: int)
      requires low >= 0
      ensures msn == high + low / 10
    {
      var lsn := low;
      msn := high;
      while lsn > 9
        invariant lsn >= 0 && msn + lsn / 10 == high + low / 10
      {
        lsn, msn := lsn - 10, msn + 1;
      }
    }

    method TakeDigits() returns (lsn: int, msn: int)
      ensures lsn == LowDigit(a, p.h) && msn == HighDigit(a, p.h, p.c)
    {
      lsn, msn := a % 16, a / 16;
      if p.h {
        lsn, msn := lsn + 16, (msn - 1) % 16;
      }
      if p.c {
        msn := msn + 16;
      }
    }

    method InstDaa()
      modifies this`p
      ensures State() == Daa(old(State()))
    {
      hide LowDigit, HighDigit;
      var lsn, msn := TakeDigits();
      p := p.(c := false);
      msn := CarryTens(lsn, msn);
      if msn > 9 {
        p := p.(c := true);
      }
    }

    method InstSthx()
      modifies this
      ensures State() == Sthx(old(State()))
    {
      var b := FetchByte();
      var ea: int := b;
      ram := Store(ram, ea, h);
      ram := Store(ram, (ea + 1) % 0x10000, x);
      p := HxFlags(p, h, x);
    }

    method InstLdhx(code: Byte)
      modifies this
      ensures State() == Ldhx(old(State()), code)
    {
      if code == 0x45 {
        h := FetchByte();
        x := FetchByte();
      } else {
        var b := FetchByte();
        var ea: int := b;
        h := Load(ram, ea);
        x := Load(ram, ea + 1);
      }
      p := HxFlags(p, h, x);
    }

    method InstCphx(code: Byte)
      modifies this
      ensures State() == Cphx(old(State()), code)
    {
      var operand: int;
      if code == 0x65 {
        operand := FetchWord();
      } else {
        var ea := FetchByte();
        operand := Load2(ram, ea);
      }
      var hx: int := h * 256 + x;
      var r := hx - operand;
      p := p.(v := ((Bit15(hx) != Bit15(operand)) != Bit15(r)) != Bit16(r));
      p := p.(c := Bit16(r), n := Bit15(r), z := r % 0x10000 == 0);
    }

    method InstMov(code: Byte)
      modifies this
      ensures State() == Mov(old(State()), code)
    {
      var hx: int := h * 256 + x;
      var operand: Byte, ea: int, aix := 0, hx, code == 0x5e || code == 0x7e;
      if code == 0x4e || code == 0x5e {
        var from := FetchByte();
        operand := Load(ram, from);
      } else if code == 0x6e {
        operand := FetchByte();
      } else {
        operand := Load(ram, hx);
      }
      if code != 0x5e {
        ea := FetchByte();
      }
      ram := Store(ram, ea, operand);
      if aix {
        AddHx(1);
      }
      FlagNz(operand);
      p := p.(v := false);
    }

    // ----- the dispatch -----

    method ExecRow3(code: Byte, prefix: bool) returns (status: Status)
      modifies this
      ensures Ran(State(), status) == Row3(old(State()), code, prefix)
    {
      hide Cbeq, Mul, Div, Daa, Sthx, Ldhx, Cphx, Dbnz, Tst, Mov, Clr, ReadModifyWrite;
      status := Go;
      match code % 16 {
        case 1 => InstCbeq(code, prefix);
        case 2 =>
          if prefix { return Halt; }
          match code {
            case 0x42 => InstMul();
            case 0x52 => InstDiv();
            case 0x62 => a := a / 16 + a % 16 * 16;
            case 0x72 => InstDaa();
            case _ => return Halt;
          }
        case 5 =>
          if prefix { return Halt; }
          match code {
            case 0x35 => InstSthx();
            case 0x45 | 0x55 => InstLdhx(code);
            case _ => InstCphx(code);
          }
        case 11 => InstDbnz(code, prefix);
        case 13 => InstTst(code, prefix);
        case 14 =>
          if prefix || code == 0x3e { return Halt; }
          InstMov(code);
        case 15 => InstClr(code, prefix);
        case _ => InstReadModifyWrite(code, prefix);
      }
    }

    method ExecRowA(code: Byte, prefix: bool)
      modifies this
      ensures State() == RowA(old(State()), code, prefix)
    {
      hide Sub, Compare, Lda, Sta, Add, Ldx, Stx, Logic;
      match code % 16 {
        case 0 => InstSub(code, prefix, false);
        case 1 => InstCmp(a, code, prefix);
        case 2 => InstSub(code, prefix, true);
        case 3 => InstCmp(x, code, prefix);
        case 6 => InstLda(code, prefix);
        case 7 => InstSta(code, prefix);
        case 9 => InstAdd(code, prefix, true);
        case 11 => InstAdd(code, prefix, false);
        case 14 => InstLdx(code, prefix);
        case 15 => InstStx(code, prefix);
        case _ => InstLogic(code, prefix);
      }
    }

    method ExecPrefixed() returns (status: Status)
      modifies this
      ensures Ran(State(), status) == Prefixed(old(State()))
    {
      hide Row3, RowA;
      var code := FetchByte();
      status := Go;
      match code / 16 {
        case 6 => status := ExecRow3(code, true);
        case 13 | 14 =>
          if code % 16 == 12 {
            return Halt;
          } else if code % 16 == 13 {
            out := out + [a];
          } else {
            ExecRowA(code, true);
          }
        case _ => return Halt;
      }
    }

    method ExecRow8(code: Byte) returns (status: Status)
      modifies this
      ensures Ran(State(), status) == Row8(old(State()), code)
    {
      hide Rti, Rts, Swi, Transfer, PushPull;
      status := Go;
      match code {
        case 0x80 => InstRti();
        case 0x81 => InstRts();
        case 0x83 => InstSwi();
        case 0x84 | 0x85 => InstTransfer(code);
        case 0x86 | 0x87 | 0x88 | 0x89 | 0x8a | 0x8b => InstPushPull(code);
        case 0x8c => h, p := 0, p.(v := false, n := false, z := true);
        case 0x8e | 0x8f => p := p.(i := false);
        case _ => status := Halt;
      }
    }

    method ExecRow9(code: Byte) returns (status: Status)
      modifies this
      ensures Ran(State(), status) == Row9(old(State()), code)
    {
      hide CondBranch, Transfer, Lda, SetClearFlags, Prefixed;
      status := Go;
      match code {
        case 0x90 | 0x91 | 0x92 | 0x93 => InstCondBranch(code);
        case 0x94 | 0x95 | 0x97 | 0x9f => InstTransfer(code);
        case 0x96 => InstLda(code, false);
        case 0x98 | 0x99 | 0x9a | 0x9b => InstSetClearFlags(code);
        case 0x9c => sp := 0xff;
        case 0x9e => status := ExecPrefixed();
        case _ =>
      }
    }

    method ExecUpper(code: Byte) returns (status: Status)
      modifies this
      ensures Ran(State(), status) == Upper(old(State()), code)
    {
      hide Bsr, Jsr, RowA, FetchEa;
      status := Go;
      match code {
        case 0xa7 =>
          var b := FetchByte();
          sp := (sp + Disp(b)) % 0x10000;
        case 0xac => status := Halt;
        case 0xad => InstBsr();
        case 0xaf =>
          var b := FetchByte();
          AddHx(Disp(b));
        case 0xbc | 0xcc | 0xdc | 0xec | 0xfc => pc := EffectiveAddress(code, false);
        case 0xbd | 0xcd | 0xdd | 0xed | 0xfd => InstJsr(code);
        case _ => ExecRowA(code, false);
      }
    }

    /** exec_inst.  `noise` is what the random source would give. */
    method ExecInst(noise: Byte) returns (status: Status)
      modifies this
      ensures Ran(State(), status) == Step(old(State()), noise)
    {
      hide BitTest, BitSetClear, CondBranch, Row3, Row8, Row9, Upper;
      ram := ram.(noise := noise);
      if vector {
        pc, vector := Load2(ram, 0xfffe), false;
        return Go;
      }
      var code := FetchByte();
      status := Go;
      match code / 16 {
        case 0 => InstBitTest(code);
        case 1 => InstBitSetClear(code);
        case 2 =>
          if code >= 0x2e { return Halt; }
          InstCondBranch(code);
        case 3 | 4 | 5 | 6 | 7 => status := ExecRow3(code, false);
        case 8 => status := ExecRow8(code);
        case 9 => status := ExecRow9(code);
        case _ => status := ExecUpper(code);
      }
    }
  }
}
