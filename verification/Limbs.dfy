/** Little-endian 64-bit limbs and the number they stand for. Fixed-size limb arrays are copied
    values in the source, so they are sequences here; wrap-around of a limb is written out. */
module Limbs {
  const B: int := 0x1_0000_0000_0000_0000

  type Limb = x: int | 0 <= x < 0x1_0000_0000_0000_0000

  ghost function Pow(k: nat): (p: nat)
    ensures p >= 1
  {
    if k == 0 then 1 else B * Pow(k - 1)
  }

  ghost function Val(s: seq<Limb>): nat {
    if s == [] then 0 else s[0] + B * Val(s[1..])
  }

  lemma {:induction false} ValBound(s: seq<Limb>)
    ensures Val(s) < Pow(|s|)
  {
    if s != [] {
      ValBound(s[1..]);
    }
  }

  lemma {:induction false} PowAdd(i: nat, j: nat)
    ensures Pow(i + j) == Pow(i) * Pow(j)
  {
    if i > 0 {
      PowAdd(i - 1, j);
      assert Pow(i + j) == B * Pow(i - 1 + j);
      assert B * (Pow(i - 1) * Pow(j)) == (B * Pow(i - 1)) * Pow(j);
    }
  }

  lemma {:induction false} ValConcat(s: seq<Limb>, t: seq<Limb>)
    ensures Val(s + t) == Val(s) + Pow(|s|) * Val(t)
  {
    if s == [] {
      assert s + t == t;
    } else {
      ValConcat(s[1..], t);
      assert (s + t)[1..] == s[1..] + t;
      assert B * (Pow(|s| - 1) * Val(t)) == (B * Pow(|s| - 1)) * Val(t);
    }
  }

  lemma ValPush(s: seq<Limb>, i: nat)
    requires i < |s|
    ensures Val(s[..i + 1]) == Val(s[..i]) + s[i] * Pow(i)
  {
    assert s[..i + 1] == s[..i] + [s[i]];
    ValConcat(s[..i], [s[i]]);
    assert Val([s[i]]) == s[i] + B * Val([]);
  }

  lemma ValDrop(s: seq<Limb>, i: nat)
    requires i < |s|
    ensures Val(s[i..]) == s[i] + B * Val(s[i + 1..])
  {
    assert s[i..][0] == s[i] && s[i..][1..] == s[i + 1..];
  }

  lemma ValSplit(s: seq<Limb>, i: nat)
    requires i < |s|
    ensures Val(s) == Val(s[..i]) + Pow(i) * Val(s[i..])
  {
    hide Val; hide Pow;
    var lo, hi := s[..i], s[i..];
    ValConcat(lo, hi);
    assert lo + hi == s && |lo| == i;
  }

  lemma ValUpdate(s: seq<Limb>, i: nat, x: Limb)
    requires i < |s|
    ensures Val(s[i := x]) == Val(s) + (x - s[i]) * Pow(i)
  {
    hide Val; hide Pow;
    var t := s[i := x];
    ValSplit(s, i);
    ValSplit(t, i);
    ValDrop(s, i);
    ValDrop(t, i);
    assert t[..i] == s[..i] && t[i + 1..] == s[i + 1..];
    Spread(Pow(i), Val(t[i..]), Val(s[i..]));
    assert Val(t[i..]) - Val(s[i..]) == x - s[i];
  }

  lemma Spread(p: int, u: int, v: int)
    ensures p * u == p * v + (u - v) * p
  {
  }

  /** One digit step of a carry or borrow chain, moved to position i. */
  lemma CarryStep(digit: int, carry: int, sum: int, i: nat)
    requires digit + carry * B == sum
    ensures digit * Pow(i) + carry * Pow(i + 1) == sum * Pow(i)
  {
    assert carry * (B * Pow(i)) == (carry * B) * Pow(i);
    assert (digit + carry * B) * Pow(i) == digit * Pow(i) + (carry * B) * Pow(i);
  }

  lemma {:induction false} ValInjective(s: seq<Limb>, t: seq<Limb>)
    requires |s| == |t| && Val(s) == Val(t)
    ensures s == t
  {
    if s != [] {
      HeadUnique(s[0], Val(s[1..]), t[0], Val(t[1..]));
      ValInjective(s[1..], t[1..]);
      assert s == [s[0]] + s[1..] && t == [t[0]] + t[1..];
    }
  }

  lemma HeadUnique(x: Limb, w: int, y: Limb, v: int)
    requires x + B * w == y + B * v
    ensures x == y && w == v
  {
    if w < v { Apart(B, w, v); }
    if v < w { Apart(B, v, w); }
  }

  lemma {:induction false} ZerosVal(s: seq<Limb>)
    ensures Val(s) == 0 <==> forall i :: 0 <= i < |s| ==> s[i] == 0
  {
    if s != [] {
      ZerosVal(s[1..]);
      assert forall i :: 0 < i < |s| ==> s[i] == s[1..][i - 1];
    }
  }

  type Word = s: seq<Limb> | |s| == 4 witness [0, 0, 0, 0]

  const ZERO: Word := [0, 0, 0, 0]

  lemma ZeroVal()
    ensures Val(ZERO) == 0
  {
    ZerosVal(ZERO);
  }

  /** a + b limb by limb, with the carry out of the top limb. */
  method AddCarry(a: Word, b: Word) returns (out: Word, overflow: bool)
    ensures Val(out) + (if overflow then Pow(4) else 0) == Val(a) + Val(b)
  {
    out := ZERO;
    var carry: int := 0;
    for i := 0 to 4
      invariant 0 <= carry <= 1
      invariant Val(out[..i]) + carry * Pow(i) == Val(a[..i]) + Val(b[..i])
    {
      var s := a[i] + b[i] + carry;
      ValPush(a, i);
      ValPush(b, i);
      ghost var before := out;
      out := out[i := s % B];
      ValPush(out, i);
      assert out[..i] == before[..i];
      CarryStep(s % B, s / B, s, i);
      assert (a[i] + b[i] + carry) * Pow(i) == a[i] * Pow(i) + b[i] * Pow(i) + carry * Pow(i);
      carry := s / B;
    }
    assert out[..4] == out && a[..4] == a && b[..4] == b;
    overflow := carry != 0;
  }

  /** a - b limb by limb, with the borrow out of the top limb. */
  method SubBorrow(a: Word, b: Word) returns (out: Word, underflow: bool)
    ensures Val(out) + Val(b) == Val(a) + (if underflow then Pow(4) else 0)
  {
    out := ZERO;
    var borrow: int := 0;
    for i := 0 to 4
      invariant 0 <= borrow <= 1
      invariant Val(out[..i]) + Val(b[..i]) == Val(a[..i]) + borrow * Pow(i)
    {
      var d := a[i] - b[i] - borrow;
      var digit, next := if d < 0 then d + B else d, if d < 0 then 1 else 0;
      ValPush(a, i);
      ValPush(b, i);
      ghost var before := out;
      out := out[i := digit];
      ValPush(out, i);
      assert out[..i] == before[..i];
      CarryStep(digit, -next, d, i);
      assert (a[i] - b[i] - borrow) * Pow(i) == a[i] * Pow(i) - b[i] * Pow(i) - borrow * Pow(i);
      borrow := next;
    }
    assert out[..4] == out && a[..4] == a && b[..4] == b;
    underflow := borrow != 0;
  }

  datatype Ordering = Less | Equal | Greater

  function Compare(x: int, y: int): Ordering {
    if x < y then Less else if x == y then Equal else Greater
  }

  /** Comparison from the most significant limb down. */
  method Cmp(a: Word, b: Word) returns (r: Ordering)
    ensures r == Compare(Val(a), Val(b))
  {
    var i := 4;
    while i > 0
      invariant 0 <= i <= 4
      invariant a[i..] == b[i..]
    {
      i := i - 1;
      if a[i] != b[i] {
        ValSplit(a, i);
        ValSplit(b, i);
        ValDrop(a, i);
        ValDrop(b, i);
        ValBound(a[..i]);
        ValBound(b[..i]);
        assert a[i + 1..] == b[i + 1..];
        TopDecides(Pow(i), Val(a[i..]), Val(b[i..]), Val(a[..i]), Val(b[..i]));
        return if a[i] < b[i] then Less else Greater;
      }
    }
    assert a == a[0..] && b == b[0..];
    return Equal;
  }

  lemma TopDecides(p: int, u: int, v: int, lo: int, lo': int)
    requires p >= 1 && 0 <= lo < p && 0 <= lo' < p && u != v
    ensures lo + p * u < lo' + p * v <==> u < v
    ensures lo + p * u != lo' + p * v
  {
    if u < v { Apart(p, u, v); } else { Apart(p, v, u); }
  }

  lemma Apart(p: int, u: int, v: int)
    requires p >= 1 && u < v
    ensures p * u + p <= p * v
  {
    assert p * v == p * u + p * (v - u);
    AtLeast(p, v - u);
  }

  lemma AtLeast(p: int, d: int)
    requires p >= 1 && d >= 1
    ensures p * d >= p
  {
  }

  // --- schoolbook product ---

  type Wide = s: seq<Limb> | |s| == 8 witness [0, 0, 0, 0, 0, 0, 0, 0]

  const WIDE_ZERO: Wide := [0, 0, 0, 0, 0, 0, 0, 0]

  lemma ProductFits(x: Limb, y: Limb, z: Limb, c: int)
    requires 0 <= c < B
    ensures 0 <= x + y * z + c < B * B
  {
    Monotone(y, z, B - 1);
  }

  lemma Monotone(y: int, z: int, m: int)
    requires 0 <= y <= m && 0 <= z <= m
    ensures 0 <= y * z <= m * m
  {
    MulMono(y, z, m);
    MulMono(m, y, m);
    MulMono(y, 0, z);
  }

  lemma MulMono(p: int, u: int, v: int)
    requires 0 <= p && u <= v
    ensures p * u <= p * v
  {
  }

  lemma CellStep(out: seq<Limb>, b: seq<Limb>, x: Limb, i: nat, j: nat, carry: int, start: nat)
    requires i + j < |out| && j < |b| && 0 <= carry < B
    requires Val(out) + carry * Pow(i + j) == start + x * Val(b[..j]) * Pow(i)
    ensures var cur := out[i + j] + x * b[j] + carry;
      && 0 <= cur < B * B && 0 <= cur / B < B
      && Val(out[i + j := cur % B]) + (cur / B) * Pow(i + j + 1) == start + x * Val(b[..j + 1]) * Pow(i)
  {
    var cur := out[i + j] + x * b[j] + carry;
    ProductFits(out[i + j], x, b[j], carry);
    ValUpdate(out, i + j, cur % B);
    ValPush(b, j);
    PowAdd(i, j);
    CarryStep(cur % B, cur / B, cur, i + j);
    var p, v, w := Pow(i + j), Val(b[..j]), x * b[j];
    CellAlgebra(cur % B, out[i + j], w, carry, cur, p);
    RowAlgebra(x, v, b[j], Pow(i), Pow(j));
  }

  lemma CellAlgebra(digit: int, old_: int, w: int, carry: int, cur: int, p: int)
    requires cur == old_ + w + carry
    ensures (digit - old_) * p == digit * p - cur * p + w * p + carry * p
  {
  }

  lemma RowAlgebra(x: int, v: int, y: int, pi: int, pj: int)
    ensures x * (v + y * pj) * pi == x * v * pi + (x * y) * (pi * pj)
  {
    assert x * (v + y * pj) == x * v + x * (y * pj);
    assert x * (y * pj) * pi == (x * y) * (pj * pi);
  }

  /** One row of the product: x times b, added at position i. */
  method MulRow(acc: Wide, b: Word, x: Limb, i: nat) returns (out: Wide, carry: int)
    requires i < 4
    ensures 0 <= carry < B
    ensures Val(out) + carry * Pow(i + 4) == Val(acc) + x * Val(b) * Pow(i)
    ensures forall k :: i + 4 <= k < 8 ==> out[k] == acc[k]
  {
    out := acc;
    carry := 0;
    assert Val(b[..0]) == 0;
    for j := 0 to 4
      invariant 0 <= carry < B
      invariant Val(out) + carry * Pow(i + j) == Val(acc) + x * Val(b[..j]) * Pow(i)
      invariant forall k :: i + 4 <= k < 8 ==> out[k] == acc[k]
    {
      CellStep(out, b, x, i, j, carry, Val(acc));
      var cur := out[i + j] + x * b[j] + carry;
      out := out[i + j := cur % B];
      carry := cur / B;
    }
    assert b[..4] == b;
  }

  /** The full 512-bit product. */
  method WideMul(a: Word, b: Word) returns (out: Wide)
    ensures Val(out) == Val(a) * Val(b)
  {
    out := WIDE_ZERO;
    PartialStart(a, b);
    hide Val; hide Pow; hide Partial;
    for i := 0 to 4
      invariant Partial(Val(out), a, i, b)
      invariant forall k :: i + 4 <= k < 8 ==> out[k] == 0
    {
      ghost var acc := Val(out);
      var carry: int;
      out, carry := MulRow(out, b, a[i], i);
      RowDone(acc, Val(out), carry, a, b, i);
      ValUpdate(out, i + 4, carry);
      out := out[i + 4 := out[i + 4] + carry];
    }
    PartialEnd(Val(out), a, b);
  }

  /** v is the product with the lowest i limbs of a. */
  ghost predicate Partial(v: nat, a: Word, i: nat, b: Word) {
    i <= 4 && v == Val(a[..i]) * Val(b)
  }

  lemma NoLimbs(a: seq<Limb>)
    ensures Val(a[..0]) == 0
  {
  }

  lemma ZeroTimes(x: int)
    ensures 0 * x == 0
  {
  }

  lemma PartialStart(a: Word, b: Word)
    ensures Val(WIDE_ZERO) == 0 && Partial(0, a, 0, b)
  {
    hide Val; hide Pow;
    ZerosVal(WIDE_ZERO);
    NoLimbs(a);
    ZeroTimes(Val(b));
  }

  lemma PartialEnd(v: nat, a: Word, b: Word)
    requires Partial(v, a, 4, b)
    ensures v == Val(a) * Val(b)
  {
    assert a[..4] == a;
    hide Val;
  }

  /** The rows up to i, with row i's carry put in its limb, are the product with i + 1 limbs. */
  lemma RowDone(acc: nat, row: nat, carry: nat, a: Word, b: Word, i: nat)
    requires i < 4 && Partial(acc, a, i, b)
    requires row + carry * Pow(i + 4) == acc + a[i] * Val(b) * Pow(i)
    ensures Partial(row + carry * Pow(i + 4), a, i + 1, b)
  {
    ValPush(a, i);
    Distribute(Val(a[..i]), a[i], Pow(i), Val(b));
  }

  lemma Distribute(u: int, x: int, p: int, w: int)
    ensures (u + x * p) * w == u * w + x * w * p
  {
    assert (x * p) * w == x * w * p;
  }

  lemma HighHalf(p: Wide)
    ensures Val(p) == Val(p[..4]) + Pow(4) * Val(p[4..])
    ensures Val(p) < Pow(4) <==> Val(p[4..]) == 0
    ensures Val(p) < Pow(4) ==> Val(p[..4]) == Val(p)
    ensures Val(p[4..]) == 0 <==> p[4] == 0 && p[5] == 0 && p[6] == 0 && p[7] == 0
  {
    assert p == p[..4] + p[4..];
    ValConcat(p[..4], p[4..]);
    ValBound(p[..4]);
    ZerosVal(p[4..]);
    if Val(p[4..]) > 0 {
      AtLeast(Pow(4), Val(p[4..]));
    }
  }
}
