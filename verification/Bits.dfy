/** Numbers bit by bit. */
module Bits {

  function Bit(b: bool): (r: int)
    ensures 0 <= r <= 1
  {
    if b then 1 else 0
  }

  predicate Odd(b: int) { b % 2 == 1 }

  /** A number with one more bit at its low end. */
  function Append(b: int, d: bool): int { 2 * b + Bit(d) }

  lemma LastBit(b: int, d: bool)
    ensures Append(b, d) / 2 == b && Odd(Append(b, d)) == d
  {
  }

  datatype BitOp = BitAnd | BitOr | BitXor | BitAndNot

  predicate OnBits(op: BitOp, x: bool, y: bool) {
    match op
    case BitAnd => x && y
    case BitOr => x || y
    case BitXor => x != y
    case BitAndNot => x && !y
  }

  function TwoTo(n: nat): (r: int)
    ensures r >= 1
  {
    if n == 0 then 1 else 2 * TwoTo(n - 1)
  }

  /** An operation on the low `n` bits, one by one. */
  function Bitwise(op: BitOp, x: int, y: int, n: nat): (r: int)
    ensures 0 <= r < TwoTo(n)
    decreases n
  {
    if n == 0 then 0 else Append(Bitwise(op, x / 2, y / 2, n - 1), OnBits(op, Odd(x), Odd(y)))
  }

  lemma EightBits()
    ensures TwoTo(7) == 128 && TwoTo(8) == 256
  {
    assert TwoTo(1) == 2 && TwoTo(2) == 4 && TwoTo(3) == 8 && TwoTo(4) == 16;
    assert TwoTo(5) == 32 && TwoTo(6) == 64;
  }

  lemma SixteenBits()
    ensures TwoTo(15) == 0x8000 && TwoTo(16) == 0x1_0000
  {
    EightBits();
    assert TwoTo(9) == 512 && TwoTo(10) == 1024 && TwoTo(11) == 2048 && TwoTo(12) == 4096;
    assert TwoTo(13) == 8192 && TwoTo(14) == 16384;
  }

  predicate TestBit(v: int, k: nat)
    decreases k
  {
    if k == 0 then Odd(v) else TestBit(v / 2, k - 1)
  }

  /** AND, ORA and EOR act on every bit by itself. */
  lemma {:induction false} BitwiseBits(op: BitOp, x: int, y: int, n: nat, k: nat)
    requires k < n
    ensures TestBit(Bitwise(op, x, y, n), k) == OnBits(op, TestBit(x, k), TestBit(y, k))
    decreases n
  {
    LastBit(Bitwise(op, x / 2, y / 2, n - 1), OnBits(op, Odd(x), Odd(y)));
    if k > 0 {
      BitwiseBits(op, x / 2, y / 2, n - 1, k - 1);
    }
  }

  lemma Halves(x: int)
    ensures x == 2 * (x / 2) + Bit(Odd(x))
  {
  }

  /** Together they are an addition, and EOR undoes itself. */
  lemma {:induction false} BitwiseSums(x: int, y: int, n: nat)
    requires 0 <= x < TwoTo(n) && 0 <= y < TwoTo(n)
    ensures Bitwise(BitAnd, x, y, n) + Bitwise(BitOr, x, y, n) == x + y
    ensures Bitwise(BitXor, x, y, n) + 2 * Bitwise(BitAnd, x, y, n) == x + y
    ensures Bitwise(BitXor, Bitwise(BitXor, x, y, n), y, n) == x
  {
    if n > 0 {
      BitwiseSums(x / 2, y / 2, n - 1);
      Halves(x);
      Halves(y);
      LastBit(Bitwise(BitXor, x / 2, y / 2, n - 1), Odd(x) != Odd(y));
    }
  }

  lemma {:induction false} OneBit(k: nat, j: nat)
    ensures TestBit(TwoTo(k), j) <==> j == k
  {
    if k == 0 {
      ZeroBits(j);
    } else if j > 0 {
      OneBit(k - 1, j - 1);
    }
  }

  lemma {:induction false} ZeroBits(j: nat)
    ensures !TestBit(0, j) && (j > 0 ==> !TestBit(1, j))
  {
    if j > 0 {
      ZeroBits(j - 1);
    }
  }

  lemma {:induction false} ComplementBits(v: int, n: nat, j: nat)
    requires 0 <= v < TwoTo(n) && j < n
    ensures TestBit(TwoTo(n) - 1 - v, j) == !TestBit(v, j)
  {
    var w := TwoTo(n) - 1 - v;
    assert w / 2 == TwoTo(n - 1) - 1 - v / 2;
    if j > 0 {
      ComplementBits(v / 2, n - 1, j - 1);
    }
  }

  lemma {:induction false} MaskedBit(v: int, k: nat, n: nat)
    requires k < n
    ensures Bitwise(BitAnd, v, TwoTo(k), n) == if TestBit(v, k) then TwoTo(k) else 0
    decreases n
  {
    if k == 0 {
      NoBits(v / 2, n - 1);
    } else {
      MaskedBit(v / 2, k - 1, n - 1);
      assert TwoTo(k) / 2 == TwoTo(k - 1) && !Odd(TwoTo(k));
    }
  }

  lemma {:induction false} NoBits(v: int, n: nat)
    ensures Bitwise(BitAnd, v, 0, n) == 0
    decreases n
  {
    if n > 0 {
      NoBits(v / 2, n - 1);
    }
  }

  lemma {:induction false} PowersGrow(k: nat, n: nat)
    requires k < n
    ensures 2 * TwoTo(k) <= TwoTo(n)
  {
    if k < n - 1 {
      PowersGrow(k, n - 1);
    }
  }

  /** A positive number below 2^n has a bit. */
  lemma {:induction false} SomeBit(v: int, n: nat) returns (k: nat)
    requires 0 < v < TwoTo(n)
    ensures k < n && TestBit(v, k)
  {
    if Odd(v) {
      k := 0;
    } else {
      k := SomeBit(v / 2, n - 1);
      k := k + 1;
    }
  }
}
