/** What the operations of the console language do to memory and what they answer, said of whole
    expressions and of whole lines, in terms of bits, remainders and cells. */
module ConsoleEffects {
  import opened Bits
  import opened Quotients
  import opened ParserSemantics
  import opened ParserEngine
  import opened ConsoleGrammar
  import opened ConsoleReading
  import opened ConsoleParser

  // ----- memory -----

  /** Nothing but the cell (mem, addr) differs. */
  ghost predicate OnlyCell(st: Store, st1: Store, mem: int, addr: int) {
    && st1.shown == st.shown && st1.bitAddress == st.bitAddress
    && forall m, a :: (m, a) != (mem, addr) ==> Read(st1, m, a) == Read(st, m, a)
  }

  /** The store in which an assignment happens: place and source have been evaluated, in this order. */
  function BeforeAssign(p: Place, e: Expr, st: Store): Store { Eval(e, EvalPlace(p, st).1).1 }

  function Assigned(p: Place, e: Expr, st: Store): int { Eval(e, EvalPlace(p, st).1).0 }

  /** Bit by bit: in the mask, what was assigned; outside, what was there. */
  ghost predicate BitsSet(was: int, now: int, mask: int, on: bool) {
    forall k: nat :: k < 16 ==> TestBit(now, k) == if TestBit(mask, k) then on else TestBit(was, k)
  }

  lemma BitStored(st: Store, mem: int, addr: int, mask: int, n: int)
    ensures var (v, after) := StoreBit(st, mem, addr, mask, n);
      && v == (if n != 0 then 1 else 0) && OnlyCell(st, after, mem, addr)
      && 0 <= Read(after, mem, addr) < 0x1_0000
      && BitsSet(Read(st, mem, addr), Read(after, mem, addr), mask, n != 0)
  {
    hide Bitwise, TestBit;
    var was := Read(st, mem, addr);
    SixteenBits();
    forall k: nat | k < 16
      ensures TestBit(OnWords(BitOr, was, mask), k) == (TestBit(was, k) || TestBit(mask, k))
      ensures TestBit(OnWords(BitAndNot, was, mask), k) == (TestBit(was, k) && !TestBit(mask, k))
    {
      BitwiseBits(BitOr, was, mask, 16, k);
      BitwiseBits(BitAndNot, was, mask, 16, k);
    }
  }

  /** Assigning to a bit sets it, or clears it, and touches no other bit and no other cell. */
  lemma AssignBit(p: Place, e: Expr, st: Store)
    requires !p.OfMem?
    ensures var b, n := EvalPlace(p, st).0, Assigned(p, e, st);
      var before, (v, after) := BeforeAssign(p, e, st), Eval(Assign(p, e), st);
      && v == (if n != 0 then 1 else 0) && OnlyCell(before, after, b.mem, b.addr)
      && BitsSet(Read(before, b.mem, b.addr), Read(after, b.mem, b.addr), b.mask, n != 0)
  {
    hide StoreBit, OnlyCell, EvalPlace, Read, BitsSet;
    var b := EvalPlace(p, st).0;
    BitStored(BeforeAssign(p, e, st), b.mem, b.addr, b.mask, Assigned(p, e, st));
  }

  /** Assigning to a cell stores the number modulo 2^16, touches no other cell, and answers the number
      itself. */
  lemma AssignCell(p: Place, e: Expr, st: Store)
    requires p.OfMem?
    ensures var c, n := EvalPlace(p, st).0, Assigned(p, e, st);
      var before, (v, after) := BeforeAssign(p, e, st), Eval(Assign(p, e), st);
      && v == n && OnlyCell(before, after, c.mem, c.addr)
      && 0 <= Read(after, c.mem, c.addr) < 0x1_0000
      && exists q: int {:trigger Times(q)} :: n == Times(q) + Read(after, c.mem, c.addr)
  {
    hide EvalPlace;
    var n := Assigned(p, e, st);
    assert n == Times(n / 0x1_0000) + n % 0x1_0000;
  }

  function Times(q: int): int { q * 0x1_0000 }

  ghost predicate Shared(x: int, y: int, k: nat) { k < 16 && TestBit(x, k) && TestBit(y, k) }

  lemma BitLoaded(st: Store, mem: int, addr: int, mask: int)
    ensures var v := LoadBit(st, mem, addr, mask);
      (v == 0 || v == 1) && (v == 1 <==> exists k: nat :: Shared(mask, Read(st, mem, addr), k))
  {
    hide Bitwise, TestBit;
    var w := Read(st, mem, addr);
    var both := OnWords(BitAnd, w, mask);
    forall k: nat | k < 16 ensures TestBit(both, k) == (TestBit(w, k) && TestBit(mask, k)) {
      BitwiseBits(BitAnd, w, mask, 16, k);
    }
    if both != 0 {
      var k := SomeBit(both, 16);
      assert Shared(mask, w, k);
    } else if k: nat :| Shared(mask, w, k) {
      ZeroBits(k);
    }
  }

  /** Reading a bit gives 1 exactly if one of its mask bits is set in the cell, and changes nothing. */
  lemma LoadTheBit(p: Place, st: Store)
    requires !p.OfMem?
    ensures var (b, st1) := EvalPlace(p, st); var (v, st2) := Eval(Load(p), st);
      && st2 == st1 && (v == 0 || v == 1)
      && (v == 1 <==> exists k: nat :: Shared(b.mask, Read(st1, b.mem, b.addr), k))
  {
    hide LoadBit, EvalPlace, Read, Shared;
    var (b, st1) := EvalPlace(p, st);
    BitLoaded(st1, b.mem, b.addr, b.mask);
  }

  /** `m.e` selects bit e of the cell, and nothing if there is none; its address is the table's. */
  lemma SelectedBit(m: Mem, e: Expr, st: Store)
    ensures var (c, st1) := EvalMem(m, st);
      var (n, st2) := Eval(e, st1);
      var (b, st3) := EvalPlace(Selected(m, e), st);
      && st3 == st2 && b.BitRef? && b.mem == c.mem && b.addr == c.addr
      && (forall k: nat :: k < 16 ==> (TestBit(b.mask, k) <==> k == n))
      && b.bitAddr == if (c.mem, c.addr, n) in st2.bitAddress then st2.bitAddress[(c.mem, c.addr, n)] else -1
  {
    hide EvalMem, Mask, TestBit;
    OneMaskBit(Eval(e, EvalMem(m, st).1).0);
  }

  lemma OneMaskBit(n: int)
    ensures forall k: nat :: k < 16 ==> (TestBit(Mask(n), k) <==> k == n)
  {
    hide TestBit, TwoTo;
    forall k: nat | k < 16 ensures TestBit(Mask(n), k) <==> k == n {
      if 0 <= n < 16 { OneBit(n, k); } else { ZeroBits(k); }
    }
  }

  /** `&` gives the address of a cell, or that of a bit; a bit without one is reported and gives 0. */
  lemma AddressAnswers(p: Place, st: Store)
    ensures var (b, st1) := EvalPlace(p, st); var (v, st2) := Eval(AddressOf(p), st);
      && (b.Cell? ==> v == b.addr && st2 == st1)
      && (b.BitRef? && b.bitAddr >= 0 ==> v == b.bitAddr && st2 == st1)
      && (b.BitRef? && b.bitAddr < 0 ==> v == 0 && st2 == st1.(shown := st1.shown + [NoBitAddress]))
  {
    hide EvalPlace;
  }

  // ----- arithmetic -----

  /** Division cuts off towards zero: the remainder has the sign of the dividend.  Division by zero is
      reported and answers the dividend. */
  lemma DivisionAnswers(l: Expr, r: Expr, st: Store)
    ensures var (a, st1) := Eval(l, st);
      var (b, st2) := Eval(r, st1);
      var (q, st3) := Eval(Bin(Div, l, r), st);
      && (b == 0 ==> q == a && st3 == st2.(shown := st2.shown + [DivideByZero]))
      && (b != 0 ==> st3 == st2 && CutOff(a, b, q, a - Product(q, b)))
  {
    hide Quotient;
    var (a, st1) := Eval(l, st);
    var b := Eval(r, st1).0;
    if b != 0 {
      QuotientCutsOff(a, b);
    }
  }

  function Product(x: int, y: int): int { x * y }

  /** `a` is `q` times `b` and a remainder `r` that is smaller than `b` and has the sign of `a`. */
  predicate CutOff(a: int, b: int, q: int, r: int) {
    && a == Product(q, b) + r
    && (if b > 0 then -b < r < b else b < r < -b)
    && (a >= 0 ==> r >= 0) && (a <= 0 ==> r <= 0)
  }

  lemma QuotientCutsOff(a: int, b: int)
    requires b != 0
    ensures CutOff(a, b, Quotient(a, b), a - Product(Quotient(a, b), b))
  {
    var x, y := if a < 0 then -a else a, if b < 0 then -b else b;
    hide Quo, Product;
    Division(x, y);
    Signs(Quo(x, y), b);
  }

  lemma Division(x: nat, y: nat)
    requires y > 0
    ensures 0 <= x - Product(Quo(x, y), y) < y && 0 <= Product(Quo(x, y), y)
  {
    assert x == x / y * y + x % y;
  }

  lemma Signs(q: int, b: int)
    ensures Product(-q, b) == -Product(q, b) && Product(q, -b) == -Product(q, b)
  {
  }

  // ----- whole lines -----

  /** A short line with a canonical expression is accepted, answered once and stored. */
  lemma LineAnswers(e: Expr, st: Store)
    requires Canonical(e) && Short(Yield(e))
    ensures Parse(Yield(e), st) == Outcome(0, Answered(e, st))
  {
    ReadBackIffCanonical(e);
    EngineReadsGrammar(Yield(e), st);
  }

  /** `bit = n`: the line answers 1 or 0 and sets or clears the bit. */
  lemma BitLine(mem: int, addr: int, bitAddr: int, mask: int, n: int, st: Store)
    ensures var o := Parse([BitTok(mem, addr, bitAddr, mask), Equal, NumberTok(n)], st);
      && o.code == 0 && o.store.shown == st.shown + [Printed(if n != 0 then 1 else 0)]
      && BitsSet(Read(st, mem, addr), Read(o.store, mem, addr), mask, n != 0)
      && (forall m, a :: (m, a) != (mem, addr) ==> Read(o.store, m, a) == Read(st, m, a))
  {
    hide Run, StoreBit, BitsSet;
    var p, e := NamedBit(mem, addr, bitAddr, mask), Num(n);
    assert Yield(Assign(p, e)) == [BitTok(mem, addr, bitAddr, mask), Equal, NumberTok(n)];
    LineAnswers(Assign(p, e), st);
    AssignBit(p, e, st);
  }

  /** `memory = n` and then `memory`: the number modulo 2^16 comes back. */
  lemma CellLines(mem: int, addr: int, n: int, st: Store)
    ensures var o := Parse([MemoryTok(mem, addr), Equal, NumberTok(n)], st);
      var o2 := Parse([MemoryTok(mem, addr)], o.store);
      && o.code == 0 && o.store.shown == st.shown + [Printed(n)]
      && o2.code == 0 && o2.store == o.store.(shown := o.store.shown + [Printed(n % 0x1_0000)])
  {
    hide Run;
    var p, e := OfMem(Named(mem, addr)), Num(n);
    assert YieldPlace(p) == YieldMem(Named(mem, addr)) == [MemoryTok(mem, addr)] && Yield(e) == [NumberTok(n)];
    assert CanonicalPlace(p) && EvalPlace(p, st) == (Cell(mem, addr), st);
    assert Yield(Assign(p, e)) == [MemoryTok(mem, addr), Equal, NumberTok(n)];
    assert Canonical(Assign(p, e)) && Eval(Assign(p, e), st) == (n, Write(st, mem, addr, n % 0x1_0000));
    LineAnswers(Assign(p, e), st);
    assert Yield(Load(p)) == [MemoryTok(mem, addr)];
    var st1 := Answered(Assign(p, e), st);
    assert EvalPlace(p, st1) == EvalMem(Named(mem, addr), st1) == (Cell(mem, addr), st1);
    assert Canonical(Load(p)) && Eval(Load(p), st1) == (n % 0x1_0000, st1);
    LineAnswers(Load(p), st1);
  }

  /** Two numbers and an operator. */
  lemma OperatorLine(a: int, b: int, c: int, st: Store)
    ensures Parse([NumberTok(a), Plus, NumberTok(b), Star, NumberTok(c)], st)
      == Outcome(0, Show(st, Printed(a + Product(b, c))))
    ensures Parse([NumberTok(a), Minus, NumberTok(b), Minus, NumberTok(c)], st)
      == Outcome(0, Show(st, Printed(a - b - c)))
    ensures Parse([Minus, NumberTok(a), Plus, NumberTok(b)], st) == Outcome(0, Show(st, Printed(b - a)))
  {
    hide Run;
    ThreeNumbers(a, b, c, st);
    var x, y, z := Num(a), Num(b), Num(c);
    var e := Bin(Sub, x, y);
    assert Yield(e) == [NumberTok(a), Minus, NumberTok(b)] && Canonical(e) && Eval(e, st) == (a - b, st);
    var e2 := Bin(Sub, e, z);
    assert Yield(e2) == [NumberTok(a), Minus, NumberTok(b), Minus, NumberTok(c)];
    LineAnswers(e2, st);
    assert Yield(Neg(x)) == [Minus, NumberTok(a)] && Canonical(Neg(x)) && Eval(Neg(x), st) == (-a, st);
    var e3 := Bin(Add, Neg(x), y);
    assert Yield(e3) == [Minus, NumberTok(a), Plus, NumberTok(b)];
    LineAnswers(e3, st);
    var m := Bin(Mul, y, z);
    assert Yield(m) == [NumberTok(b), Star, NumberTok(c)] && Canonical(m) && Eval(m, st) == (Product(b, c), st);
    var e1 := Bin(Add, x, m);
    assert Yield(e1) == [NumberTok(a), Plus, NumberTok(b), Star, NumberTok(c)];
    LineAnswers(e1, st);
  }

  lemma ThreeNumbers(a: int, b: int, c: int, st: Store)
    ensures Yield(Num(a)) == [NumberTok(a)] && Yield(Num(b)) == [NumberTok(b)] && Yield(Num(c)) == [NumberTok(c)]
    ensures Eval(Num(a), st) == (a, st) && Eval(Num(b), st) == (b, st) && Eval(Num(c), st) == (c, st)
    ensures Canonical(Num(a)) && Canonical(Num(b)) && Canonical(Num(c))
  {
  }
}
