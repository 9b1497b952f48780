/** Signed 256-bit integers as sign and magnitude: exact on [-2^255, 2^255 - 1], None outside. */
module I256 {
  import opened Wrappers
  import opened Limbs
  import opened Decimal
  import U256

  const MAX: int := 0x80000000_00000000_00000000_00000000_00000000_00000000_00000000_00000000 - 1
  const MIN: int := -0x80000000_00000000_00000000_00000000_00000000_00000000_00000000_00000000

  predicate InRange(n: int) {
    MIN <= n <= MAX
  }

  /** The checked result of an operation on mathematical integers. */
  function Checked(n: int): Option<int> {
    if InRange(n) then Some(n) else None
  }

  function WithSign(neg: bool, m: int): int {
    if neg then -m else m
  }

  datatype Signed = Signed(neg: bool, mag: Word)

  ghost function Value(x: Signed): int {
    WithSign(x.neg, Val(x.mag))
  }

  /** In range, and zero carries no sign. */
  ghost predicate Valid(x: Signed) {
    InRange(Value(x)) && (x.neg ==> Val(x.mag) != 0)
  }

  ghost predicate Exactly(r: Option<Signed>, n: int) {
    && (r.Some? <==> InRange(n))
    && (r.Some? ==> Valid(r.value) && Value(r.value) == n)
  }

  const POW255: Word := [0, 0, 0, 0x8000_0000_0000_0000]

  lemma Pow255Val()
    ensures Val(POW255) == MAX + 1
  {
    assert POW255[1..] == [0, 0, 0x8000_0000_0000_0000];
    assert POW255[1..][1..] == [0, 0x8000_0000_0000_0000];
    assert POW255[1..][1..][1..] == [0x8000_0000_0000_0000];
    assert Val([0x8000_0000_0000_0000]) == 0x8000_0000_0000_0000 + B * Val([]);
  }

  method IsZero(a: Word) returns (z: bool)
    ensures z <==> Val(a) == 0
  {
    ZeroVal();
    if Val(a) == 0 { ValInjective(a, ZERO); }
    return a == ZERO;
  }

  method Make(neg: bool, mag: Word) returns (r: Option<Signed>)
    ensures Exactly(r, WithSign(neg, Val(mag)))
  {
    Pow255Val();
    var c := Cmp(mag, POW255);
    if c == Greater || (c == Equal && !neg) {
      return None;
    }
    var zero := IsZero(mag);
    return Some(Signed(neg && !zero, mag));
  }

  method AddRaw(negA: bool, magA: Word, negB: bool, magB: Word) returns (r: Option<Signed>)
    ensures Exactly(r, WithSign(negA, Val(magA)) + WithSign(negB, Val(magB)))
  {
    if negA == negB {
      var sum, carry := AddCarry(magA, magB);
      U256.FourLimbs();
      if carry {
        return None;
      }
      r := Make(negA, sum);
    } else {
      var c := Cmp(magA, magB);
      ValBound(magA);
      ValBound(magB);
      if c == Equal {
        ZeroVal();
        return Some(Signed(false, ZERO));
      } else if c == Greater {
        var d, _ := SubBorrow(magA, magB);
        ValBound(d);
        r := Make(negA, d);
      } else {
        var d, _ := SubBorrow(magB, magA);
        ValBound(d);
        r := Make(negB, d);
      }
    }
  }

  method Add(x: Signed, y: Signed) returns (r: Option<Signed>)
    requires Valid(x) && Valid(y)
    ensures Exactly(r, Value(x) + Value(y))
  {
    r := AddRaw(x.neg, x.mag, y.neg, y.mag);
  }

  method Sub(x: Signed, y: Signed) returns (r: Option<Signed>)
    requires Valid(x) && Valid(y)
    ensures Exactly(r, Value(x) - Value(y))
  {
    var zero := IsZero(y.mag);
    r := AddRaw(x.neg, x.mag, if zero then false else !y.neg, y.mag);
  }

  lemma SignedProduct(neg: bool, neg': bool, m: nat, m': nat)
    ensures WithSign(neg, m) * WithSign(neg', m') == WithSign(neg != neg', m * m')
  {
  }

  method Mul(x: Signed, y: Signed) returns (r: Option<Signed>)
    requires Valid(x) && Valid(y)
    ensures Exactly(r, Value(x) * Value(y))
  {
    var prod := WideMul(x.mag, y.mag);
    HighHalf(prod);
    U256.FourLimbs();
    SignedProduct(x.neg, y.neg, Val(x.mag), Val(y.mag));
    if prod[4] != 0 || prod[5] != 0 || prod[6] != 0 || prod[7] != 0 {
      return None;
    }
    r := Make(x.neg != y.neg, prod[..4]);
  }

  // --- binary long division ---

  ghost function Two(k: nat): (p: nat)
    ensures p >= 1
  {
    if k == 0 then 1 else 2 * Two(k - 1)
  }

  function Shift(k: nat): (p: nat)
    ensures p == Two(k)
  {
    if k == 0 then 1 else 2 * Shift(k - 1)
  }

  lemma {:induction false} TwoAdd(i: nat, j: nat)
    ensures Two(i + j) == Two(i) * Two(j)
  {
    if i > 0 {
      TwoAdd(i - 1, j);
      assert 2 * (Two(i - 1) * Two(j)) == (2 * Two(i - 1)) * Two(j);
    }
  }

  lemma {:induction false} TwoPow(k: nat)
    ensures Two(64 * k) == Pow(k)
  {
    if k > 0 {
      TwoPow(k - 1);
      TwoAdd(64, 64 * (k - 1));
      TwoLimb();
    }
  }

  lemma TwoLimb()
    ensures Two(64) == B && Two(63) * 2 == B
  {
    TwoEight();
    hide Two;
    TwoAdd(8, 8);
    TwoAdd(16, 16);
    TwoAdd(32, 32);
    TwoNext(63);
  }

  lemma TwoEight()
    ensures Two(8) == 256
  {
  }

  lemma TwoNext(k: nat)
    ensures Two(k + 1) == 2 * Two(k)
  {
  }

  lemma DivUnique(n: int, d: int, q: int, rem: int)
    requires d > 0 && n == d * q + rem && 0 <= rem < d
    ensures n / d == q && n % d == rem
  {
    var q', rem' := n / d, n % d;
    assert n == d * q' + rem' && 0 <= rem' < d;
    if q < q' { Apart(d, q, q'); }
    if q' < q { Apart(d, q', q); }
  }

  lemma DivNested(lo: int, p: int, x: int, t: int)
    requires 0 <= lo < p && t > 0 && x >= 0
    ensures p * t > 0 && (lo + p * x) / (p * t) == x / t
  {
    var q, s := x / t, x % t;
    assert x == t * q + s;
    assert p * x == (p * t) * q + p * s by { Regroup(p, t, q, s); }
    Apart(p, s, t);
    MulMono(p, 0, s);
    AtLeast(p, t);
    DivUnique(lo + p * x, p * t, q, lo + p * s);
  }

  lemma Regroup(p: int, t: int, q: int, s: int)
    ensures p * (t * q + s) == (p * t) * q + p * s
  {
    assert p * (t * q) == (p * t) * q;
  }

  lemma ShiftAlgebra(t: int, u: int, hi: int, q: int, s: int)
    ensures t * q + s + (t * (2 * u)) * hi == t * (q + 2 * (u * hi)) + s
  {
    assert (t * (2 * u)) * hi == t * ((2 * u) * hi);
    assert (2 * u) * hi == 2 * (u * hi);
    assert t * (q + 2 * (u * hi)) == t * q + t * (2 * (u * hi));
  }

  lemma ShiftedLimb(x: nat, b: nat, t: nat, u: nat, hi: nat)
    requires t > 0 && b == t * (2 * u)
    ensures ((x + b * hi) / t) % 2 == (x / t) % 2
  {
    ShiftAlgebra(t, u, hi, x / t, x % t);
    DivUnique(x + b * hi, t, x / t + 2 * (u * hi), x % t);
    Even(x / t, u * hi);
  }

  lemma Even(q: int, k: int)
    ensures (q + 2 * k) % 2 == q % 2
  {
  }

  lemma LimbAsPower(r: nat)
    requires r < 64
    ensures B == Two(r) * (2 * Two(63 - r))
  {
    TwoLimb();
    TwoAdd(r, 64 - r);
  }

  /** Bit i of the number is bit i mod 64 of limb i div 64. */
  lemma BitAt(a: Word, i: nat)
    requires i < 256
    ensures (Val(a) / Two(i)) % 2 == (a[i / 64] / Two(i % 64)) % 2
  {
    var k, r := i / 64, i % 64;
    ValSplit(a, k);
    ValDrop(a, k);
    ValBound(a[..k]);
    TwoPow(k);
    TwoAdd(64 * k, r);
    DivNested(Val(a[..k]), Pow(k), Val(a[k..]), Two(r));
    LimbAsPower(r);
    ShiftedLimb(a[k], B, Two(r), Two(63 - r), Val(a[k + 1..]));
  }

  method GetBit(a: Word, i: nat) returns (bit: nat)
    requires i < 256
    ensures bit == (Val(a) / Two(i)) % 2 && bit < 2
  {
    BitAt(a, i);
    bit := (a[i / 64] / Shift(i % 64)) % 2;
  }

  lemma RoomForBit(x: nat, b: nat, t: nat, u: nat)
    requires t > 0 && b == t * (2 * u) && x < b && (x / t) % 2 == 0
    ensures x + t < b
  {
    var q := x / t;
    assert x == t * q + x % t;
    if q >= 2 * u {
      MulMono(t, 2 * u, q);
    }
    NextEven(q, u);
    Apart(t, q + 1, 2 * u);
    OneMore(t, q);
  }

  lemma NextEven(q: int, u: int)
    requires q % 2 == 0 && q < 2 * u
    ensures q + 1 < 2 * u
  {
  }

  lemma OneMore(t: int, q: int)
    ensures t * (q + 1) == t * q + t
  {
  }

  lemma BitWeight(i: nat)
    ensures Two(i % 64) * Pow(i / 64) == Two(i)
  {
    TwoPow(i / 64);
    TwoAdd(64 * (i / 64), i % 64);
  }

  lemma LimbBit(a: Word, k: nat, bit: Limb)
    requires k < 4 && a[k] + bit < B
    ensures Val(a[k := a[k] + bit]) == Val(a) + bit * Pow(k)
  {
    ValUpdate(a, k, a[k] + bit);
  }

  /** Bitwise or with one bit of the 256. */
  method SetBit(a: Word, i: nat) returns (out: Word)
    requires i < 256
    ensures Val(out) == Val(a) + if (Val(a) / Two(i)) % 2 == 1 then 0 else Two(i)
  {
    BitAt(a, i);
    BitWeight(i);
    LimbAsPower(i % 64);
    hide Val; hide Pow; hide Two;
    var k := i / 64;
    var bit := Shift(i % 64);
    if (a[k] / bit) % 2 == 1 {
      return a;
    }
    RoomForBit(a[k], B, bit, Two(63 - i % 64));
    LimbBit(a, k, bit);
    return a[k := a[k] + bit];
  }

  /** Shift left by one; the top bit falls off. */
  method ShiftLeft(a: Word) returns (out: Word)
    ensures 2 * Val(a) < U256.LIMIT ==> Val(out) == 2 * Val(a)
  {
    out := ZERO;
    var carry: int := 0;
    for i := 0 to 4
      invariant 0 <= carry < 2
      invariant Val(out[..i]) + carry * Pow(i) == 2 * Val(a[..i])
    {
      var cur := 2 * a[i] + carry;
      ValPush(a, i);
      ghost var before := out;
      out := out[i := (2 * a[i]) % B + carry];
      ValPush(out, i);
      assert out[..i] == before[..i];
      ShiftLimb(a[i], carry);
      CarryStep(cur % B, cur / B, cur, i);
      DoubleStep(a[i], carry, Pow(i));
      carry := a[i] / 0x8000_0000_0000_0000;
    }
    assert out[..4] == out && a[..4] == a;
    U256.FourLimbs();
    ValBound(out);
    if carry != 0 { AtLeast(Pow(4), carry); }
  }

  lemma ShiftLimb(x: Limb, carry: int)
    requires 0 <= carry < 2
    ensures (2 * x) % B + carry == (2 * x + carry) % B
    ensures x / 0x8000_0000_0000_0000 == (2 * x + carry) / B
  {
    var q, s := x / 0x8000_0000_0000_0000, x % 0x8000_0000_0000_0000;
    DivUnique(2 * x, B, q, 2 * s);
    DivUnique(2 * x + carry, B, q, 2 * s + carry);
  }

  lemma DoubleStep(x: int, carry: int, p: int)
    ensures (2 * x + carry) * p == 2 * (x * p) + carry * p
  {
  }

  lemma HalfStep(n: nat, j: nat)
    ensures n / Two(j) == 2 * (n / Two(j + 1)) + (n / Two(j)) % 2
  {
    DivNested(n % Two(j), Two(j), n / Two(j), 2);
  }

  lemma HighBits(n: nat, j: nat)
    requires n < Two(256) && j <= 256
    ensures n / Two(j) < Two(256 - j)
  {
    hide Two;
    TwoAdd(j, 256 - j);
    QuotientBelow(n, Two(j), Two(256 - j));
  }

  lemma QuotientBelow(n: nat, t: nat, u: nat)
    requires t > 0 && n < t * u
    ensures n / t < u
  {
    var q := n / t;
    assert n == t * q + n % t;
    if q >= u {
      MulMono(t, u, q);
    }
  }

  lemma TwoMono()
    ensures Two(256) == U256.LIMIT
    ensures forall k: nat :: k <= 255 ==> 2 * Two(k) <= U256.LIMIT
  {
    TwoPow(4);
    U256.FourLimbs();
    forall k: nat | k <= 255 ensures 2 * Two(k) <= U256.LIMIT {
      TwoAdd(k + 1, 255 - k);
      AtLeast(Two(k + 1), Two(255 - k));
    }
  }

  /** One step of the long division, on numbers. */
  ghost predicate DivState(n: nat, d: nat, i: nat, q: nat, r: nat) {
    && r < d
    && q % Two(i) == 0
    && n / Two(i) == (q / Two(i)) * d + r
  }

  lemma DivStep(n: nat, d: nat, i: nat, q: nat, r: nat, bit: nat)
    requires d > 0 && i > 0 && DivState(n, d, i, q, r) && bit == (n / Two(i - 1)) % 2
    ensures (q / Two(i - 1)) % 2 == 0
    ensures 2 * r + bit < d ==> DivState(n, d, i - 1, q, 2 * r + bit)
    ensures 2 * r + bit >= d ==> DivState(n, d, i - 1, q + Two(i - 1), 2 * r + bit - d)
  {
    hide Two;
    TwoNext(i - 1);
    HalfStep(n, i - 1);
    DivStepPlain(n / Two(i - 1), n / Two(i), d, Two(i - 1), q, r, bit);
  }

  /** The same step with the power and the two quotients of n as plain numbers. */
  lemma DivStepPlain(now: nat, before: nat, d: nat, t: nat, q: nat, r: nat, bit: nat)
    requires t > 0 && q % (2 * t) == 0 && before == q / (2 * t) * d + r && now == 2 * before + bit
    ensures q % t == 0 && (q / t) % 2 == 0 && now == q / t * d + (2 * r + bit)
    ensures (q + t) % t == 0 && now == (q + t) / t * d + (2 * r + bit - d)
  {
    var h := q / (2 * t);
    assert q == (2 * t) * h + q % (2 * t);
    QuotientStep(q, t, h);
    RemainderAlgebra(h, d, r, bit);
  }

  lemma QuotientStep(q: nat, t: nat, h: nat)
    requires t > 0 && q == (2 * t) * h
    ensures q / t == 2 * h && q % t == 0
    ensures (q + t) / t == 2 * h + 1 && (q + t) % t == 0
  {
    DoubleAlgebra(t, h);
    DivUnique(q, t, 2 * h, 0);
    DivUnique(q + t, t, 2 * h + 1, 0);
  }

  lemma DoubleAlgebra(t: int, h: int)
    ensures (2 * t) * h == t * (2 * h) && t * (2 * h + 1) == (2 * t) * h + t
  {
    assert (2 * t) * h == t * (2 * h);
  }

  lemma RemainderAlgebra(h: int, d: int, r: int, bit: int)
    ensures 2 * (h * d + r) + bit == (2 * h) * d + (2 * r + bit)
    ensures (2 * h + 1) * d == (2 * h) * d + d
  {
    assert 2 * (h * d) == (2 * h) * d;
  }

  lemma DivStart(n: nat, d: nat)
    requires n < U256.LIMIT && d > 0
    ensures DivState(n, d, 256, 0, 0)
  {
    TwoMono();
    HighBits(n, 256);
  }

  lemma DivDone(n: nat, d: nat, q: nat, r: nat)
    requires DivState(n, d, 0, q, r)
    ensures n == q * d + r && r < d
  {
    assert n / 1 == n && q / 1 == q;
  }

  /** One turn of the long division: shift in the next bit, subtract when it fits. */
  method DivTurn(a: Word, b: Word, i: nat, q: Word, r: Word) returns (q': Word, r': Word)
    requires i < 256 && Val(b) != 0 && DivState(Val(a), Val(b), i + 1, Val(q), Val(r))
    ensures DivState(Val(a), Val(b), i, Val(q'), Val(r'))
  {
    hide Val; hide Pow; hide Two; hide DivState; hide ZERO;
    U256.FourLimbs();
    ValBound(a);
    RemainderSmall(Val(a), Val(b), i + 1, Val(q), Val(r));
    q' := q;
    r' := ShiftLeft(r);
    var bit := GetBit(a, i);
    r' := OrLowBit(r', bit);
    DivStep(Val(a), Val(b), i + 1, Val(q), Val(r), bit);
    var c := Cmp(r', b);
    if c != Less {
      var borrow: bool;
      r', borrow := SubBorrow(r', b);
      ValBound(r');
      q' := SetBit(q, i);
    }
  }

  /** Unsigned truncated division. The remainder never exceeds the part of the dividend read so
      far, so the shift cannot lose a bit, whatever the divisor. */
  method DivMod(a: Word, b: Word) returns (q: Word, r: Word)
    requires Val(b) != 0
    ensures Val(a) == Val(q) * Val(b) + Val(r) && Val(r) < Val(b)
  {
    q, r := ZERO, ZERO;
    ZeroVal();
    U256.FourLimbs();
    ValBound(a);
    DivStart(Val(a), Val(b));
    hide Val; hide Pow; hide Two; hide DivState;
    var i := 256;
    while i > 0
      invariant 0 <= i <= 256
      invariant DivState(Val(a), Val(b), i, Val(q), Val(r))
    {
      i := i - 1;
      q, r := DivTurn(a, b, i, q, r);
    }
    DivDone(Val(a), Val(b), Val(q), Val(r));
  }

  lemma RemainderSmall(n: nat, d: nat, i: nat, q: nat, r: nat)
    requires n < U256.LIMIT && 0 < i <= 256 && DivState(n, d, i, q, r)
    ensures 2 * r + 1 < U256.LIMIT
  {
    TwoMono();
    HighBits(n, i);
    MulMono(d, 0, q / Two(i));
    assert r <= n / Two(i) < Two(256 - i);
  }

  /** Or with a single low bit, of an even number. */
  method OrLowBit(a: Word, bit: nat) returns (out: Word)
    requires bit < 2 && Val(a) % 2 == 0
    ensures Val(out) == Val(a) + bit
  {
    assert Val(a) == a[0] + B * Val(a[1..]);
    assert a[0] % 2 == 0;
    ValUpdate(a, 0, a[0] + bit);
    out := a[0 := a[0] + bit];
  }

  function Abs(n: int): nat {
    if n < 0 then -n else n
  }

  /** Division rounded toward zero. */
  function TruncDiv(x: int, y: int): int
    requires y != 0
  {
    WithSign((x < 0) != (y < 0), Abs(x) / Abs(y))
  }

  /** It is the quotient whose remainder is smaller than the divisor and takes the dividend's sign. */
  lemma TruncDivMeaning(x: int, y: int)
    requires y != 0
    ensures var rem := x - y * TruncDiv(x, y); Abs(rem) < Abs(y) && (rem == 0 || (rem < 0 <==> x < 0))
  {
    var q, r := Abs(x) / Abs(y), Abs(x) % Abs(y);
    assert Abs(x) == Abs(y) * q + r;
    Signs(y, q);
  }

  lemma Signs(y: int, q: int)
    ensures y * -q == -(y * q) && (-y) * q == -(y * q)
  {
  }

  method Div(x: Signed, y: Signed) returns (r: Option<Signed>)
    requires Valid(x) && Valid(y) && Value(y) != 0
    ensures Exactly(r, TruncDiv(Value(x), Value(y)))
  {
    var q, rem := DivMod(x.mag, y.mag);
    assert Val(x.mag) == Val(y.mag) * Val(q) + Val(rem);
    DivUnique(Val(x.mag), Val(y.mag), Val(q), Val(rem));
    r := Make(x.neg != y.neg, q);
  }

  lemma EuclidNegative(x: int, y: int)
    requires x >= 0 && y > 0
    ensures (-x) % y == if x % y == 0 then 0 else y - x % y
  {
    var q, r := x / y, x % y;
    assert x == y * q + r;
    NegatedProduct(y, q);
    if r == 0 {
      DivUnique(-x, y, -q, 0);
    } else {
      DivUnique(-x, y, -q - 1, y - r);
    }
  }

  lemma NegatedProduct(y: int, q: int)
    ensures y * -q == -(y * q) && y * (-q - 1) == -(y * q) - y
  {
  }

  lemma EuclidDivisorSign(x: int, y: int)
    requires y != 0
    ensures x % y == x % Abs(y)
  {
    if y < 0 {
      var q, r := x / y, x % y;
      assert x == y * q + r && 0 <= r < -y;
      assert y * q == (-y) * (-q);
      DivUnique(x, -y, -q, r);
    }
  }

  /** The remainder in [0, |y|). The sum below always fits, so the source's `expect` cannot fire. */
  method EuclidMod(x: Signed, y: Signed) returns (r: Signed)
    requires Valid(x) && Valid(y) && Value(y) != 0
    ensures Valid(r) && Value(r) == Value(x) % Value(y) && 0 <= Value(r) < Abs(Value(y))
  {
    var q, rem := DivMod(x.mag, y.mag);
    assert Val(x.mag) == Val(y.mag) * Val(q) + Val(rem);
    DivUnique(Val(x.mag), Val(y.mag), Val(q), Val(rem));
    EuclidDivisorSign(Value(x), Value(y));
    var zero := IsZero(rem);
    if x.neg && !zero {
      EuclidNegative(Val(x.mag), Val(y.mag));
      var sum := AddRaw(true, rem, false, y.mag);
      return sum.value;
    }
    if x.neg { EuclidNegative(Val(x.mag), Val(y.mag)); }
    return Signed(false, rem);
  }

  /** What a decimal text denotes: an optional minus sign and digits. */
  predicate IsDecimal(s: string) {
    var digits := if s != "" && s[0] == '-' then s[1..] else s;
    digits != "" && AllDigits(digits)
  }

  function Denoted(s: string): int
    requires IsDecimal(s)
  {
    WithSign(s[0] == '-', if s[0] == '-' then Number(s[1..]) else Number(s))
  }

  method FromDecStr(s: string) returns (r: Option<Signed>)
    ensures r.Some? ==> IsDecimal(s)
    ensures IsDecimal(s) ==> Exactly(r, Denoted(s))
  {
    var neg := s != "" && s[0] == '-';
    var digits := if neg then s[1..] else s;
    if digits == "" || !AllDigits(digits) {
      return None;
    }
    var mag := ZERO;
    ZeroVal();
    U256.FourLimbs();
    TenVal();
    for i := 0 to |digits|
      invariant Val(mag) == Number(digits[..i])
    {
      assert digits[..i + 1][..i] == digits[..i];
      NumberGrows(digits, i + 1);
      var prod := WideMul(mag, [10, 0, 0, 0]);
      HighHalf(prod);
      if prod[4] != 0 || prod[5] != 0 || prod[6] != 0 || prod[7] != 0 {
        return None;
      }
      DigitVal(DigitOf(digits[i]));
      var sum, carry := AddCarry(prod[..4], [DigitOf(digits[i]), 0, 0, 0]);
      if carry {
        return None;
      }
      mag := sum;
    }
    assert digits[..|digits|] == digits;
    r := Make(neg, mag);
  }

  lemma DigitVal(d: Limb)
    ensures Val([d, 0, 0, 0]) == d
  {
    ZerosVal([0, 0, 0]);
    assert [d, 0, 0, 0][1..] == [0, 0, 0];
  }

  lemma TenVal()
    ensures Val([10, 0, 0, 0]) == 10
  {
    DigitVal(10);
  }
}
