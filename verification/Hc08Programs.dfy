/** Multi-precision programs for the HC08, executed instruction by instruction. */
module Hc08Programs {
  import opened Bits
  import opened Hc08Model
  import opened Hc08Arithmetic

  // ----- one instruction with an extended (16-bit) address -----

  predicate Instr(mem: Memory, pc: int, op: Byte, ea: Word) {
    Load(mem, pc) == op && Load2(mem, pc + 1) == ea
  }

  predicate Fits(pc: int, n: int) { 0 <= pc && pc + n < 0x10000 }

  /** The machine behind a three-byte instruction that did nothing. */
  function After(m: Cpu, noise: Byte): Cpu {
    m.(mem := m.mem.(noise := noise), pc := m.pc + 3)
  }

  lemma Extended(m: Cpu, noise: Byte, op: Byte, ea: Word)
    requires !m.vector && Fits(m.pc, 3) && Instr(m.mem, m.pc, op, ea) && op / 16 == 12
    ensures var m1 := Skip(m.(mem := m.mem.(noise := noise)));
      Step(m, noise) == Upper(m1, op)
      && FetchEa(m1, op, false) == Fetched(After(m, noise), ea)
      && Operand(m1, op, false) == Taken(After(m, noise), Load(m.mem, ea))
  {
    hide Upper;
  }

  lemma LdaStep(m: Cpu, noise: Byte, ea: Word)
    requires !m.vector && Fits(m.pc, 3) && Instr(m.mem, m.pc, 0xc6, ea)
    ensures var v := Load(m.mem, ea);
      Step(m, noise).m == After(m, noise).(a := v, p := Moved(m.p, v))
  {
    hide Step, FetchEa, Operand, Load, Moved;
    Extended(m, noise, 0xc6, ea);
  }

  lemma StaStep(m: Cpu, noise: Byte, ea: Word)
    requires !m.vector && Fits(m.pc, 3) && Instr(m.mem, m.pc, 0xc7, ea)
    ensures var m1 := After(m, noise);
      Step(m, noise).m == m1.(mem := Store(m1.mem, ea, m.a), p := Moved(m.p, m.a))
  {
    hide Step, FetchEa, Operand, Load, Moved, Store;
    Extended(m, noise, 0xc7, ea);
  }

  /** The first column ignores the carry, the others take it in. */
  function AluOp(sub: bool, first: bool): Byte {
    if sub then (if first then 0xc0 else 0xc2) else if first then 0xcb else 0xc9
  }

  /** C, N and V as the unreduced result `r` leaves them. */
  predicate ArithFlags(p: Flags, x: Byte, y: Byte, r: int) {
    p.c == Bit8(r) && p.n == Bit7(r)
    && p.v == (((Bit7(x) != Bit7(y)) != Bit7(r)) != Bit8(r))
  }

  lemma AluRuns(m: Cpu, sub: bool, first: bool)
    ensures var op := AluOp(sub, first);
      Upper(m, op).m == if sub then Sub(m, op, false, !first) else Add(m, op, false, !first)
  {
    hide Sub, Add, Compare, Lda, Sta, Ldx, Stx, Logic, FetchEa, SetHx, Bsr, Jsr, Peek, Disp;
    assert AluOp(sub, first) % 16 == if sub then (if first then 0 else 2) else if first then 11 else 9;
  }

  lemma AluStep(m: Cpu, noise: Byte, sub: bool, first: bool, ea: Word)
    requires !m.vector && Fits(m.pc, 3) && Instr(m.mem, m.pc, AluOp(sub, first), ea)
    ensures var m1, y := Step(m, noise).m, Load(m.mem, ea);
      var r := Raw(sub, m.a, y, !first && m.p.c);
      m1 == After(m, noise).(a := r % 256, p := m1.p) && ArithFlags(m1.p, m.a, y, r)
  {
    hide Step, Upper, FetchEa, Operand, Load, Bit4, Bit7, Bit8;
    Extended(m, noise, AluOp(sub, first), ea);
    AluRuns(Skip(m.(mem := m.mem.(noise := noise))), sub, first);
  }

  // ----- one column: load, add or subtract, store -----

  datatype Limb = Limb(x: Word, y: Word, z: Word)

  /** The part of a column that leaves the result in A. */
  predicate HalfLimbAt(mem: Memory, pc: int, sub: bool, first: bool, l: Limb) {
    Instr(mem, pc, 0xc6, l.x) && Instr(mem, pc + 3, AluOp(sub, first), l.y)
  }

  predicate LimbAt(mem: Memory, pc: int, sub: bool, first: bool, l: Limb) {
    HalfLimbAt(mem, pc, sub, first, l) && Instr(mem, pc + 6, 0xc7, l.z)
  }

  predicate SameRegs(m: Cpu, m1: Cpu) {
    !m.vector && !m1.vector && m1.sp == m.sp && m1.h == m.h && m1.x == m.x
  }

  lemma HalfLimbRuns(m: Cpu, n1: Byte, n2: Byte, sub: bool, first: bool, l: Limb)
    requires !m.vector && Fits(m.pc, 6) && HalfLimbAt(m.mem, m.pc, sub, first, l)
    ensures var m1 := Step(Step(m, n1).m, n2).m;
      var x, y := Load(m.mem, l.x), Load(m.mem, l.y);
      var r := Raw(sub, x, y, !first && m.p.c);
      SameRegs(m, m1) && m1.pc == m.pc + 6 && m1.mem == m.mem.(noise := n2)
      && m1.a == r % 256 && ArithFlags(m1.p, x, y, r)
  {
    hide Step, Raw, ArithFlags;
    LdaStep(m, n1, l.x);
    AluStep(Step(m, n1).m, n2, sub, first, l.y);
  }

  lemma SameLoads(mem: Memory, noise: Byte)
    ensures forall a :: Load(mem.(noise := noise), a) == Load(mem, a)
  {
  }

  lemma StoreLoads(mem: Memory, noise: Byte, z: Word, v: Byte)
    ensures var mem1 := Store(mem.(noise := noise), z, v);
      Load(mem1, z) == v && forall a :: a != z ==> Load(mem1, a) == Load(mem, a)
  {
  }

  lemma LimbRuns(m: Cpu, n1: Byte, n2: Byte, n3: Byte, sub: bool, first: bool, l: Limb)
    requires !m.vector && Fits(m.pc, 9) && LimbAt(m.mem, m.pc, sub, first, l)
    ensures var m1 := Step(Step(Step(m, n1).m, n2).m, n3).m;
      var r := Raw(sub, Load(m.mem, l.x), Load(m.mem, l.y), !first && m.p.c);
      SameRegs(m, m1) && m1.pc == m.pc + 9 && m1.p.c == Bit8(r)
      && Load(m1.mem, l.z) == r % 256
      && forall a :: a != l.z ==> Load(m1.mem, a) == Load(m.mem, a)
  {
    hide Step, Raw, Bit7, Bit8, HalfLimbAt, Load, Store;
    var m2 := Step(Step(m, n1).m, n2).m;
    HalfLimbRuns(m, n1, n2, sub, first, l);
    SameLoads(m.mem, n2);
    assert Instr(m2.mem, m2.pc, 0xc7, l.z);
    StaStep(m2, n3, l.z);
    StoreLoads(m.mem, n3, l.z, m2.a);
  }

  // ----- whole programs -----

  predicate Program(mem: Memory, pc: int, sub: bool, ls: seq<Limb>) {
    forall i :: 0 <= i < |ls| ==> LimbAt(mem, pc + 9 * i, sub, i == 0, ls[i])
  }

  /** No result lands in the program, in an operand that is still to be read, or on an earlier
      result.  A result may replace its own operands. */
  predicate Separate(pc: int, size: int, ls: seq<Limb>) {
    && (forall i :: 0 <= i < |ls| ==> !(pc <= ls[i].z < pc + size))
    && (forall i, j :: 0 <= i < j < |ls| ==> ls[i].z != ls[j].x && ls[i].z != ls[j].y && ls[i].z != ls[j].z)
  }

  function Xs(mem: Memory, ls: seq<Limb>): (r: seq<Byte>)
    ensures |r| == |ls|
  {
    seq<Byte>(|ls|, i requires 0 <= i < |ls| => Load(mem, ls[i].x))
  }
  function Ys(mem: Memory, ls: seq<Limb>): (r: seq<Byte>)
    ensures |r| == |ls|
  {
    seq<Byte>(|ls|, i requires 0 <= i < |ls| => Load(mem, ls[i].y))
  }
  function Zs(mem: Memory, ls: seq<Limb>): (r: seq<Byte>)
    ensures |r| == |ls|
  {
    seq<Byte>(|ls|, i requires 0 <= i < |ls| => Load(mem, ls[i].z))
  }

  predicate Unhit(a: int, ls: seq<Limb>) { forall i :: 0 <= i < |ls| ==> a != ls[i].z }

  /** `m1` is `m` after the columns in `ls`. */
  ghost predicate Done(m: Cpu, m1: Cpu, sub: bool, ls: seq<Limb>) {
    var xs, ys := Xs(m.mem, ls), Ys(m.mem, ls);
    SameRegs(m, m1) && m1.pc == m.pc + 9 * |ls|
    && (ls != [] ==> m1.p.c == Carry(sub, xs, ys, |ls|))
    && (forall i :: 0 <= i < |ls| ==> Load(m1.mem, ls[i].z) == Column(sub, xs, ys, i))
    && (forall a :: Unhit(a, ls) ==> Load(m1.mem, a) == Load(m.mem, a))
  }

  /** The program does column arithmetic and nothing else. */
  lemma {:induction false} ProgramRuns(m: Cpu, noise: seq<Byte>, sub: bool, ls: seq<Limb>, size: int)
    requires !m.vector && |noise| == 3 * |ls| && 9 * |ls| <= size && Fits(m.pc, size)
    requires Program(m.mem, m.pc, sub, ls) && Separate(m.pc, size, ls)
    ensures Done(m, Exec(m, noise), sub, ls)
  {
    if ls != [] {
      var n, k := |ls| - 1, |noise| - 3;
      var m1 := Exec(m, noise[..k]);
      ProgramRuns(m, noise[..k], sub, ls[..n], size);
      LimbIntact(m, m1, sub, ls, size);
      LimbRuns(m1, noise[k], noise[k + 1], noise[k + 2], sub, n == 0, ls[n]);
      ThreeMore(m, noise);
      AddColumn(m, m1, Exec(m, noise), sub, ls, size);
    }
  }

  lemma ThreeMore(m: Cpu, noise: seq<Byte>)
    requires |noise| >= 3
    ensures var k := |noise| - 3;
      Exec(m, noise) == Step(Step(Step(Exec(m, noise[..k]), noise[k]).m, noise[k + 1]).m, noise[k + 2]).m
  {
    hide Step;
    var k := |noise| - 3;
    var a, b := noise[..k + 2], noise[..k + 1];
    assert a[..k + 1] == b && b[..k] == noise[..k];
    assert Exec(m, b) == Step(Exec(m, noise[..k]), noise[k]).m;
    assert Exec(m, a) == Step(Exec(m, b), noise[k + 1]).m;
  }

  /** The first columns leave the next one as it was. */
  lemma LimbIntact(m: Cpu, m1: Cpu, sub: bool, ls: seq<Limb>, size: int)
    requires ls != [] && 9 * |ls| <= size
    requires Program(m.mem, m.pc, sub, ls) && Separate(m.pc, size, ls)
    requires Done(m, m1, sub, ls[..|ls| - 1])
    ensures var n := |ls| - 1;
      LimbAt(m1.mem, m1.pc, sub, n == 0, ls[n])
      && Load(m1.mem, ls[n].x) == Load(m.mem, ls[n].x)
      && Load(m1.mem, ls[n].y) == Load(m.mem, ls[n].y)
  {
    hide Load, Column, Carry, LimbAt;
    var n := |ls| - 1;
    assert LimbAt(m.mem, m.pc + 9 * n, sub, n == 0, ls[n]);
    CodeIntact(m, m1, sub, ls[..n], size);
    assert HalfLimbAt(m.mem, m1.pc, sub, n == 0, ls[n]) by { LimbStarts(m.mem, m1.pc, sub, n == 0, ls[n]); }
    SameCode(m.mem, m1.mem, m1.pc, sub, n == 0, ls[n]);
    assert Unhit(ls[n].x, ls[..n]) && Unhit(ls[n].y, ls[..n]);
  }

  lemma LimbStarts(mem: Memory, pc: int, sub: bool, first: bool, l: Limb)
    ensures LimbAt(mem, pc, sub, first, l) ==> HalfLimbAt(mem, pc, sub, first, l)
  {
  }

  lemma SameCode(mem: Memory, mem1: Memory, pc: int, sub: bool, first: bool, l: Limb)
    requires HalfLimbAt(mem, pc, sub, first, l)
    requires forall a :: pc <= a < pc + 6 ==> Load(mem1, a) == Load(mem, a)
    ensures HalfLimbAt(mem1, pc, sub, first, l)
    ensures LimbAt(mem, pc, sub, first, l)
            && (forall a :: pc <= a < pc + 9 ==> Load(mem1, a) == Load(mem, a))
            ==> LimbAt(mem1, pc, sub, first, l)
  {
    hide Load;
  }

  lemma CodeIntact(m: Cpu, m1: Cpu, sub: bool, ls: seq<Limb>, size: int)
    requires Separate(m.pc, size, ls) && Done(m, m1, sub, ls)
    ensures forall a :: m.pc <= a < m.pc + size ==> Load(m1.mem, a) == Load(m.mem, a)
  {
    hide Load;
    forall a | m.pc <= a < m.pc + size
      ensures Load(m1.mem, a) == Load(m.mem, a)
    {
      assert Unhit(a, ls);
    }
  }

  /** The last column of a program, and the columns before it. */
  lemma LastColumn(mem: Memory, sub: bool, ls: seq<Limb>)
    requires ls != []
    ensures var n, xs, ys := |ls| - 1, Xs(mem, ls), Ys(mem, ls);
      var xs1, ys1 := Xs(mem, ls[..n]), Ys(mem, ls[..n]);
      var r := Raw(sub, Load(mem, ls[n].x), Load(mem, ls[n].y), Carry(sub, xs1, ys1, n));
      && Carry(sub, xs, ys, n) == Carry(sub, xs1, ys1, n)
      && Carry(sub, xs, ys, n + 1) == Bit8(r) && Column(sub, xs, ys, n) == r % 256
      && forall i :: 0 <= i < n ==> Column(sub, xs, ys, i) == Column(sub, xs1, ys1, i)
  {
    hide Load, Raw, Bit8;
    var n, xs, ys := |ls| - 1, Xs(mem, ls), Ys(mem, ls);
    PrefixCarries(sub, xs, ys, n);
    assert xs[..n] == Xs(mem, ls[..n]) && ys[..n] == Ys(mem, ls[..n]);
  }

  lemma AddColumn(m: Cpu, m1: Cpu, m2: Cpu, sub: bool, ls: seq<Limb>, size: int)
    requires ls != [] && Separate(m.pc, size, ls)
    requires Done(m, m1, sub, ls[..|ls| - 1])
    requires var n := |ls| - 1;
      var r := Raw(sub, Load(m.mem, ls[n].x), Load(m.mem, ls[n].y), n > 0 && m1.p.c);
      SameRegs(m1, m2) && m2.pc == m1.pc + 9 && m2.p.c == Bit8(r)
      && Load(m2.mem, ls[n].z) == r % 256
      && forall a :: a != ls[n].z ==> Load(m2.mem, a) == Load(m1.mem, a)
    ensures Done(m, m2, sub, ls)
  {
    hide Load, Raw, Bit8, Separate, Column, Xs, Ys;
    var n := |ls| - 1;
    var xs, ys := Xs(m.mem, ls), Ys(m.mem, ls);
    LastColumn(m.mem, sub, ls);
    forall i | 0 <= i < n
      ensures Load(m2.mem, ls[i].z) == Column(sub, xs, ys, i)
    {
      ResultsApart(m.pc, size, ls, i);
      assert ls[..n][i] == ls[i];
    }
    forall a | Unhit(a, ls)
      ensures Load(m2.mem, a) == Load(m.mem, a)
    {
      assert Unhit(a, ls[..n]) && a != ls[n].z;
    }
    hide Carry, Unhit;
  }

  lemma ResultsApart(pc: int, size: int, ls: seq<Limb>, i: nat)
    requires Separate(pc, size, ls) && i < |ls|
    ensures i < |ls| - 1 ==> ls[i].z != ls[|ls| - 1].z
  {
  }

  /** The chain of LDA, ADD or ADC, STA adds two numbers of any length: what it stores, with C as one
      more digit, is the exact sum, and nothing else in memory changes. */
  lemma SumProgram(m: Cpu, noise: seq<Byte>, ls: seq<Limb>)
    requires ls != [] && !m.vector && |noise| == 3 * |ls| && Fits(m.pc, 9 * |ls|)
    requires Program(m.mem, m.pc, false, ls) && Separate(m.pc, 9 * |ls|, ls)
    ensures var m1 := Exec(m, noise);
      Value(Zs(m1.mem, ls)) + Over(m1.p.c, Pow256(|ls|))
        == Value(Xs(m.mem, ls)) + Value(Ys(m.mem, ls))
      && m1.pc == m.pc + 9 * |ls| && SameRegs(m, m1)
      && forall a :: Unhit(a, ls) ==> Load(m1.mem, a) == Load(m.mem, a)
  {
    hide Exec, Load, Column, Carry, Value;
    ProgramRuns(m, noise, false, ls, 9 * |ls|);
    ColumnsExact(false, Xs(m.mem, ls), Ys(m.mem, ls), Zs(Exec(m, noise).mem, ls));
  }

  /** The chain of LDA, SUB or SBC, STA subtracts: it stores the difference modulo 256^n, and C says
      whether the difference was negative. */
  lemma DifferenceProgram(m: Cpu, noise: seq<Byte>, ls: seq<Limb>)
    requires ls != [] && !m.vector && |noise| == 3 * |ls| && Fits(m.pc, 9 * |ls|)
    requires Program(m.mem, m.pc, true, ls) && Separate(m.pc, 9 * |ls|, ls)
    ensures var m1, x, y := Exec(m, noise), Value(Xs(m.mem, ls)), Value(Ys(m.mem, ls));
      Value(Zs(m1.mem, ls)) == x - y + Over(x < y, Pow256(|ls|))
      && (m1.p.c <==> x < y)
      && m1.pc == m.pc + 9 * |ls| && SameRegs(m, m1)
      && forall a :: Unhit(a, ls) ==> Load(m1.mem, a) == Load(m.mem, a)
  {
    hide Exec, Load, Column, Carry, Value;
    ProgramRuns(m, noise, true, ls, 9 * |ls|);
    ColumnsExact(true, Xs(m.mem, ls), Ys(m.mem, ls), Zs(Exec(m, noise).mem, ls));
    BorrowIsLess(Xs(m.mem, ls), Ys(m.mem, ls));
  }

  // ----- a subtraction as a comparison -----

  /** A subtraction whose last column, `last`, is not stored but followed by a branch. */
  predicate Comparison(mem: Memory, pc: int, ls: seq<Limb>, last: Limb, branch: Byte) {
    && Program(mem, pc, true, ls)
    && HalfLimbAt(mem, pc + 9 * |ls|, true, ls == [], last)
    && Load(mem, pc + 9 * |ls| + 6) == branch
  }

  /** What the four branches ask of two numbers of the same length. */
  predicate Asked(branch: Byte, xs: seq<Byte>, ys: seq<Byte>)
    requires xs != [] && ys != []
  {
    match branch
    case 0x24 => Value(xs) >= Value(ys)
    case 0x25 => Value(xs) < Value(ys)
    case 0x90 => Signed(xs) >= Signed(ys)
    case _ => Signed(xs) < Signed(ys)
  }

  lemma BranchStep(m: Cpu, noise: Byte, branch: Byte)
    requires !m.vector && Fits(m.pc, 2) && Load(m.mem, m.pc) == branch
    requires branch in {0x24, 0x25, 0x90, 0x91}
    ensures var taken := EvenBranch(branch, m.p) != (branch % 2 == 1);
      Step(m, noise).m.pc == m.pc + 2 + if taken then Disp(Load(m.mem, m.pc + 1)) else 0
  {
    hide EvenBranch, Disp;
  }

  lemma FlagsDecide(p: Flags, xs: seq<Byte>, ys: seq<Byte>, branch: Byte)
    requires |xs| == |ys| > 0 && branch in {0x24, 0x25, 0x90, 0x91}
    requires var n := |xs| - 1;
      ArithFlags(p, xs[n], ys[n], Raw(true, xs[n], ys[n], Carry(true, xs, ys, n)))
    ensures EvenBranch(branch, p) != (branch % 2 == 1) <==> Asked(branch, xs, ys)
  {
    BorrowIsLess(xs, ys);
    SignedLess(xs, ys);
    hide Raw, Bit7, Bit8, Value, Signed;
  }

  /** After a subtraction of any length, BCC and BCS decide the unsigned order of the operands and
      0x90 and 0x91 the signed one. */
  lemma ComparisonDecides(
      m: Cpu, noise: seq<Byte>, ls: seq<Limb>, last: Limb, branch: Byte, size: int)
    requires !m.vector && |noise| == 3 * |ls| + 3 && size == 9 * |ls| + 8 && Fits(m.pc, size)
    requires Comparison(m.mem, m.pc, ls, last, branch) && branch in {0x24, 0x25, 0x90, 0x91}
    requires Separate(m.pc, size, ls) && Unhit(last.x, ls) && Unhit(last.y, ls)
    ensures var asked := Asked(branch, Xs(m.mem, ls + [last]), Ys(m.mem, ls + [last]));
      Exec(m, noise).pc
        == m.pc + size + if asked then Disp(Load(m.mem, m.pc + size - 1)) else 0
  {
    hide Exec, Load, Step, Program, Separate, HalfLimbAt, Asked, Disp, Done, Unhit;
    var k := |noise| - 3;
    var m1 := Exec(m, noise[..k]);
    ProgramRuns(m, noise[..k], true, ls, size);
    ThreeMore(m, noise);
    LastHalf(m, m1, noise[k..], ls, last, branch, size);
  }

  lemma LastHalf(
      m: Cpu, m1: Cpu, noise: seq<Byte>, ls: seq<Limb>, last: Limb, branch: Byte, size: int)
    requires |noise| == 3 && size == 9 * |ls| + 8 && Fits(m.pc, size)
    requires Comparison(m.mem, m.pc, ls, last, branch) && branch in {0x24, 0x25, 0x90, 0x91}
    requires Separate(m.pc, size, ls) && Unhit(last.x, ls) && Unhit(last.y, ls)
    requires Done(m, m1, true, ls)
    ensures var asked := Asked(branch, Xs(m.mem, ls + [last]), Ys(m.mem, ls + [last]));
      Step(Step(Step(m1, noise[0]).m, noise[1]).m, noise[2]).m.pc
        == m.pc + size + if asked then Disp(Load(m.mem, m.pc + size - 1)) else 0
  {
    hide Load, Step, Program, Separate, HalfLimbAt, Asked, EvenBranch, Disp, Raw, Carry, ArithFlags,
         Column, Unhit, Xs, Ys;
    var m2 := Step(Step(m1, noise[0]).m, noise[1]).m;
    CodeIntact(m, m1, true, ls, size);
    SameCode(m.mem, m1.mem, m1.pc, true, ls == [], last);
    HalfLimbRuns(m1, noise[0], noise[1], true, ls == [], last);
    SameLoads(m1.mem, noise[1]);
    BranchStep(m2, noise[2], branch);
    LastFlags(m, m1, ls, last, m2.p);
    FlagsDecide(m2.p, Xs(m.mem, ls + [last]), Ys(m.mem, ls + [last]), branch);
  }

  lemma LastFlags(m: Cpu, m1: Cpu, ls: seq<Limb>, last: Limb, p: Flags)
    requires Done(m, m1, true, ls) && Unhit(last.x, ls) && Unhit(last.y, ls)
    requires var x, y := Load(m1.mem, last.x), Load(m1.mem, last.y);
      ArithFlags(p, x, y, Raw(true, x, y, ls != [] && m1.p.c))
    ensures var n, xs, ys := |ls|, Xs(m.mem, ls + [last]), Ys(m.mem, ls + [last]);
      ArithFlags(p, xs[n], ys[n], Raw(true, xs[n], ys[n], Carry(true, xs, ys, n)))
  {
    hide Load, Raw, ArithFlags, Unhit;
    LastColumn(m.mem, true, ls + [last]);
    assert (ls + [last])[..|ls|] == ls;
  }

  // ----- shifts and rotates -----

  lemma DoubledByte(v: Byte, c: bool)
    ensures var r := Raw(false, v, v, c);
      Shifted(9, v, c) == r % 256 && Bit8(r) == Bit7(v) && Bit7(r % 256) == Bit7(r)
  {
    var w := if v >= 128 then v - 128 else v;
    assert Shifted(8, v, false) == 2 * w;
    EvenByte(w, v >= 128, c);
  }

  lemma EvenByte(w: int, high: bool, c: bool)
    requires 0 <= w < 128
    ensures var r := 2 * w + 256 * Bit(high) + Bit(c);
      r % 256 == 2 * w + Bit(c) && Bit8(r) == high && Bit7(r % 256) == Bit7(r)
  {
  }

  /** LSL and ROL are the addition of the operand to itself, without and with the carry: the columns
      of a doubling chain are those of a sum, flags included. */
  lemma LeftShiftIsAddition(v: Byte, p: Flags, rotate: bool)
    ensures var alu, r := Modify(if rotate then 9 else 8, v, p), Raw(false, v, v, rotate && p.c);
      alu.v == r % 256 && ArithFlags(alu.p, v, v, r) && alu.p.z == (alu.v == 0)
  {
    hide Raw, Bit7, Bit8;
    DoubledByte(v, rotate && p.c);
  }

  lemma LeftThenRight(v: Byte, c: bool)
    ensures var l := Shifted(9, v, c); Shifted(6, l, ShiftedOut(9, v)) == v && ShiftedOut(6, l) == c
  {
    var w := if v >= 128 then v - 128 else v;
    assert Shifted(8, v, false) == 2 * w;
    LastBit(w, c);
  }

  lemma RightThenLeft(v: Byte, c: bool)
    ensures var r := Shifted(6, v, c); Shifted(9, r, ShiftedOut(6, v)) == v && ShiftedOut(9, r) == c
  {
    var r := Shifted(6, v, c);
    assert r == v / 2 + (if c then 128 else 0);
    assert Shifted(8, r, false) == v / 2 * 2;
  }

  /** ROL and ROR undo each other, the carry included. */
  lemma RotatesAreInverse(v: Byte, p: Flags)
    ensures var l := Modify(9, v, p); var r := Modify(6, l.v, l.p); r.v == v && r.p.c == p.c
    ensures var r := Modify(6, v, p); var l := Modify(9, r.v, r.p); l.v == v && l.p.c == p.c
  {
    hide Shifted, ShiftedOut, Bit7;
    LeftThenRight(v, p.c);
    RightThenLeft(v, p.c);
  }
}
