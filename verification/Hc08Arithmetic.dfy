/** Arithmetic on numbers of any length on the HC08: straight-line programs that add or subtract byte
    by byte through the carry flag, and the branches that may follow a subtraction. */
module Hc08Arithmetic {
  import opened Bits
  import opened Hc08Model

  // ----- numbers as sequences of bytes, the least significant first -----

  function Pow256(n: nat): (r: int)
    ensures r >= 1
  {
    if n == 0 then 1 else 256 * Pow256(n - 1)
  }

  function Value(bs: seq<Byte>): int {
    if bs == [] then 0 else Value(bs[..|bs| - 1]) + Times(bs[|bs| - 1], Pow256(|bs| - 1))
  }

  function Times(d: int, w: int): int { d * w }

  /** The same bytes in two's complement. */
  function Signed(bs: seq<Byte>): int
    requires bs != []
  {
    if bs[|bs| - 1] >= 128 then Value(bs) - Pow256(|bs|) else Value(bs)
  }

  lemma {:induction false} ValueBound(bs: seq<Byte>)
    ensures 0 <= Value(bs) < Pow256(|bs|)
  {
    if bs != [] {
      var n := |bs| - 1;
      ValueBound(bs[..n]);
      DigitBound(bs[n], Pow256(n));
      hide Times;
    }
  }

  lemma DigitBound(d: Byte, w: int)
    requires w >= 1
    ensures 0 <= Times(d, w) <= 255 * w
    ensures d >= 128 ==> Times(d, w) >= 128 * w
    ensures d < 128 ==> Times(d, w) <= 127 * w
  {
    assert Times(d - 128, w) == Times(d, w) - 128 * w;
    assert Times(255 - d, w) == 255 * w - Times(d, w);
    assert Times(127 - d, w) == 127 * w - Times(d, w);
  }

  // ----- one column -----

  function Raw(sub: bool, x: Byte, y: Byte, c: bool): int {
    if sub then x - y - Bit(c) else x + y + Bit(c)
  }

  /** `x` plus or minus `y`. */
  function Combine(sub: bool, x: int, y: int): int { if sub then x - y else x + y }

  /** A carry of weight `w`. */
  function Over(c: bool, w: int): int { if c then w else 0 }

  /** The carry, or borrow, into column k. */
  predicate Carry(sub: bool, xs: seq<Byte>, ys: seq<Byte>, k: nat)
    requires k <= |xs| && k <= |ys|
  {
    k > 0 && Bit8(Raw(sub, xs[k - 1], ys[k - 1], Carry(sub, xs, ys, k - 1)))
  }

  function Column(sub: bool, xs: seq<Byte>, ys: seq<Byte>, k: nat): Byte
    requires k < |xs| && k < |ys|
  {
    Raw(sub, xs[k], ys[k], Carry(sub, xs, ys, k)) % 256
  }

  lemma ColumnExact(sub: bool, x: Byte, y: Byte, c: bool)
    ensures var r := Raw(sub, x, y, c);
      Combine(sub, r % 256, Over(Bit8(r), 256)) == Combine(sub, x, y + Bit(c))
  {
    var r := Raw(sub, x, y, c);
    if sub {
      assert Bit8(r) == (r < 0);
    } else {
      assert Bit8(r) == (r >= 256);
    }
  }

  /** The same column, `w` times as heavy. */
  lemma ColumnScaled(sub: bool, z: int, out: bool, x: int, y: int, c: bool, w: int)
    requires Combine(sub, z, Over(out, 256)) == Combine(sub, x, y + Bit(c))
    ensures Combine(sub, Times(z, w), Over(out, 256 * w))
            == Combine(sub, Times(x, w), Times(y, w) + Over(c, w))
  {
    if sub {
      assert Times(z - Over(out, 256), w) == Times(x - y - Bit(c), w);
    } else {
      assert Times(z + Over(out, 256), w) == Times(x + y + Bit(c), w);
    }
  }

  /** The columns make up the exact sum or difference, the last carry included. */
  lemma {:induction false} ColumnsExact(sub: bool, xs: seq<Byte>, ys: seq<Byte>, zs: seq<Byte>)
    requires |xs| == |ys| == |zs|
    requires forall i :: 0 <= i < |zs| ==> zs[i] == Column(sub, xs, ys, i)
    ensures Combine(sub, Value(zs), Over(Carry(sub, xs, ys, |xs|), Pow256(|zs|)))
            == Combine(sub, Value(xs), Value(ys))
  {
    if |zs| > 0 {
      var n := |zs| - 1;
      var w, c, out := Pow256(n), Carry(sub, xs, ys, n), Carry(sub, xs, ys, n + 1);
      PrefixCarries(sub, xs, ys, n);
      ColumnsExact(sub, xs[..n], ys[..n], zs[..n]);
      ColumnExact(sub, xs[n], ys[n], c);
      ColumnScaled(sub, zs[n], out, xs[n], ys[n], c, w);
      hide Carry, Column, Times;
    }
  }

  lemma {:induction false} PrefixCarries(sub: bool, xs: seq<Byte>, ys: seq<Byte>, n: nat)
    requires n <= |xs| && n <= |ys|
    ensures forall k :: 0 <= k <= n ==> Carry(sub, xs, ys, k) == Carry(sub, xs[..n], ys[..n], k)
    ensures forall k :: 0 <= k < n ==> Column(sub, xs, ys, k) == Column(sub, xs[..n], ys[..n], k)
  {
    var k := 0;
    while k < n
      invariant 0 <= k <= n
      invariant forall j :: 0 <= j <= k ==> Carry(sub, xs, ys, j) == Carry(sub, xs[..n], ys[..n], j)
    {
      k := k + 1;
    }
  }

  /** A borrow out of the last column is an unsigned "less than". */
  lemma BorrowIsLess(xs: seq<Byte>, ys: seq<Byte>)
    requires |xs| == |ys|
    ensures Carry(true, xs, ys, |xs|) <==> Value(xs) < Value(ys)
  {
    var zs := seq<Byte>(|xs|, i requires 0 <= i < |xs| => Column(true, xs, ys, i));
    ColumnsExact(true, xs, ys, zs);
    ValueBound(zs);
    ValueBound(xs);
    ValueBound(ys);
  }

  /** N xor V after the last column of a subtraction is a signed "less than". */
  lemma SignedLess(xs: seq<Byte>, ys: seq<Byte>)
    requires |xs| == |ys| > 0
    ensures var n := |xs| - 1;
      var r := Raw(true, xs[n], ys[n], Carry(true, xs, ys, n));
      var v := ((Bit7(xs[n]) != Bit7(ys[n])) != Bit7(r)) != Bit8(r);
      (Bit7(r) != v) <==> Signed(xs) < Signed(ys)
  {
    hide Value, Signed, Raw, Bit7, Bit8, Pow256;
    var n := |xs| - 1;
    BorrowIsLess(xs, ys);
    SignBits(xs);
    SignBits(ys);
    SameSize(xs, ys);
    assert Carry(true, xs, ys, n + 1) == Bit8(Raw(true, xs[n], ys[n], Carry(true, xs, ys, n)));
    hide Carry;
  }

  /** A number with its top bit set is in the upper half, and negative in two's complement. */
  lemma SignBits(bs: seq<Byte>)
    requires bs != []
    ensures var w, high := Pow256(|bs|), Bit7(bs[|bs| - 1]);
      && 0 <= Value(bs) < w && (high <==> 2 * Value(bs) >= w)
      && Signed(bs) == if high then Value(bs) - w else Value(bs)
  {
    hide Times;
    var n := |bs| - 1;
    ValueBound(bs);
    ValueBound(bs[..n]);
    DigitBound(bs[n], Pow256(n));
  }

  lemma SameSize(xs: seq<Byte>, ys: seq<Byte>)
    requires |xs| == |ys|
    ensures Pow256(|xs|) == Pow256(|ys|)
  {
  }
}
