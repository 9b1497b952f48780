/** Unsigned 256-bit integers: checked arithmetic and canonical decimal text. */
module U256 {
  import opened Wrappers
  import opened Limbs
  import opened Decimal

  const LIMIT: int := 0x1_00000000_00000000_00000000_00000000_00000000_00000000_00000000_00000000

  lemma FourLimbs()
    ensures Pow(4) == LIMIT
  {
    assert Pow(1) == B * Pow(0);
    assert Pow(2) == B * Pow(1);
    assert Pow(3) == B * Pow(2);
    assert Pow(4) == B * Pow(3);
  }

  method CheckedAdd(a: Word, b: Word) returns (r: Option<Word>)
    ensures r.Some? <==> Val(a) + Val(b) < LIMIT
    ensures r.Some? ==> Val(r.value) == Val(a) + Val(b)
  {
    var out, carry := AddCarry(a, b);
    FourLimbs();
    ValBound(out);
    return if carry then None else Some(out);
  }

  method CheckedSub(a: Word, b: Word) returns (r: Option<Word>)
    ensures r.Some? <==> Val(a) >= Val(b)
    ensures r.Some? ==> Val(r.value) == Val(a) - Val(b)
  {
    var out, borrow := SubBorrow(a, b);
    ValBound(out);
    return if borrow then None else Some(out);
  }

  method SaturatingSub(a: Word, b: Word) returns (r: Word)
    ensures Val(r) == if Val(a) >= Val(b) then Val(a) - Val(b) else 0
  {
    var out, borrow := SubBorrow(a, b);
    ValBound(out);
    ZeroVal();
    return if borrow then ZERO else out;
  }

  /** Adds a carry at one limb and passes it on. The limbs from there on are still zero, so the
      loop stops after one step and its exit past the eighth limb is never taken. */
  method PassCarry(acc: Wide, at: nat, c: Limb) returns (res: Wide)
    requires 4 <= at < 8 && forall k :: at <= k < 8 ==> acc[k] == 0
    ensures Val(res) == Val(acc) + c * Pow(at)
    ensures forall k :: at < k < 8 ==> res[k] == 0
  {
    res := acc;
    var carry: int, idx := c, at;
    while carry != 0
      invariant at <= idx <= at + 1 && 0 <= carry < B
      invariant idx == at ==> carry == c && res == acc
      invariant idx == at + 1 ==> carry == 0 && Val(res) == Val(acc) + c * Pow(at)
      invariant forall k :: at < k < 8 ==> res[k] == 0
      decreases carry
    {
      if idx >= 8 {
        assert false;
      }
      var cur := res[idx] + carry;
      ValUpdate(res, idx, c);
      res := res[idx := cur % B];
      carry := cur / B;
      idx := idx + 1;
    }
  }

  /** The product when it fits. */
  method CheckedMul(a: Word, b: Word) returns (r: Option<Word>)
    ensures r.Some? <==> Val(a) * Val(b) < LIMIT
    ensures r.Some? ==> Val(r.value) == Val(a) * Val(b)
  {
    var res := WIDE_ZERO;
    PartialStart(a, b);
    FourLimbs();
    hide Val; hide Pow; hide Partial;
    for i := 0 to 4
      invariant Partial(Val(res), a, i, b)
      invariant forall k :: i + 4 <= k < 8 ==> res[k] == 0
    {
      ghost var acc := Val(res);
      var carry: int;
      res, carry := MulRow(res, b, a[i], i);
      RowDone(acc, Val(res), carry, a, b, i);
      res := PassCarry(res, i + 4, carry);
    }
    PartialEnd(Val(res), a, b);
    HighHalf(res);
    if res[4] != 0 || res[5] != 0 || res[6] != 0 || res[7] != 0 {
      return None;
    }
    return Some(res[..4]);
  }

  /** Times ten plus a digit, with the carry out of the top limb. */
  method TimesTen(a: Word, digit: nat) returns (out: Word, overflow: bool)
    requires digit < 10
    ensures overflow <==> 10 * Val(a) + digit >= LIMIT
    ensures !overflow ==> Val(out) == 10 * Val(a) + digit
  {
    out := a;
    var carry: int := 0;
    for i := 0 to 4
      invariant 0 <= carry < 10
      invariant Val(out[..i]) + carry * Pow(i) == 10 * Val(a[..i])
      invariant out[i..] == a[i..]
    {
      assert out[i] == out[i..][0] == a[i..][0] == a[i];
      var cur := a[i] * 10 + carry;
      ValPush(a, i);
      ghost var before := out;
      out := out[i := cur % B];
      ValPush(out, i);
      assert out[..i] == before[..i] && out[i + 1..] == before[i..][1..] && a[i + 1..] == a[i..][1..];
      CarryStep(cur % B, cur / B, cur, i);
      ScaleStep(a[i], carry, Pow(i));
      carry := cur / B;
    }
    assert out[..4] == out && a[..4] == a;
    FourLimbs();
    ValBound(out);
    if carry != 0 {
      AtLeast(Pow(4), carry);
      return out, true;
    }
    var sum, top := AddCarry(out, [digit, 0, 0, 0]);
    assert Val([digit, 0, 0, 0]) == digit by {
      ZerosVal([0, 0, 0]);
      assert [digit, 0, 0, 0][1..] == [0, 0, 0];
    }
    ValBound(sum);
    return sum, top;
  }

  lemma ScaleStep(x: int, carry: int, p: int)
    ensures (x * 10 + carry) * p == 10 * (x * p) + carry * p
  {
  }

  /** Digits only, value below 2^256; leading zeros are accepted. */
  method FromDecStr(s: string) returns (r: Option<Word>)
    ensures r.Some? <==> s != "" && AllDigits(s) && Number(s) < LIMIT
    ensures r.Some? ==> Val(r.value) == Number(s)
  {
    if s == "" || !AllDigits(s) {
      return None;
    }
    var mag := ZERO;
    ZeroVal();
    for i := 0 to |s|
      invariant Val(mag) == Number(s[..i])
    {
      assert s[..i + 1][..i] == s[..i];
      var overflow: bool;
      mag, overflow := TimesTen(mag, DigitOf(s[i]));
      if overflow {
        NumberGrows(s, i + 1);
        return None;
      }
    }
    assert s[..|s|] == s;
    FourLimbs();
    ValBound(mag);
    return Some(mag);
  }

  /** Quotient and remainder by ten, high limb first. */
  method DivTen(a: Word) returns (q: Word, rem: nat)
    ensures Val(a) == 10 * Val(q) + rem && rem < 10
  {
    q := a;
    rem := 0;
    var i := 4;
    while i > 0
      invariant 0 <= i <= 4 && rem < 10
      invariant Val(a[i..]) == 10 * Val(q[i..]) + rem
      invariant q[..i] == a[..i]
    {
      i := i - 1;
      assert a[i..][1..] == a[i + 1..];
      assert q[i] == q[..i + 1][i] == a[..i + 1][i] == a[i];
      var cur := rem * B + a[i];
      ghost var before := q;
      q := q[i := cur / 10];
      assert q[i..][1..] == before[i + 1..] && q[..i] == before[..i + 1][..i] && a[..i] == a[..i + 1][..i];
      assert Val(q[i..]) == cur / 10 + B * Val(before[i + 1..]);
      rem := cur % 10;
    }
    assert a[0..] == a && q[0..] == q;
  }

  function Reverse(s: string): string {
    if s == "" then "" else Reverse(s[1..]) + [s[0]]
  }

  lemma {:induction false} ReversePush(s: string, c: char)
    ensures Reverse(s + [c]) == [c] + Reverse(s)
  {
    if s == "" {
      assert s + [c] == [c] && [c][1..] == "";
    } else {
      assert (s + [c])[1..] == s[1..] + [c];
      ReversePush(s[1..], c);
    }
  }

  /** Digits are produced from the last one on and reversed at the end. */
  method ToDecStr(x: Word) returns (s: string)
    ensures s == DecText(Val(x))
  {
    ZeroVal();
    if x == ZERO {
      return "0";
    }
    var limbs, digits := x, "";
    assert Val(x) != 0 by { if Val(x) == 0 { ValInjective(x, ZERO); } }
    while limbs != ZERO
      invariant Val(limbs) == 0 ==> DecText(Val(x)) == Reverse(digits)
      invariant Val(limbs) != 0 ==> DecText(Val(x)) == DecText(Val(limbs)) + Reverse(digits)
      decreases Val(limbs)
    {
      ghost var n := Val(limbs);
      if n == 0 { ValInjective(limbs, ZERO); }
      var rem: nat;
      limbs, rem := DivTen(limbs);
      ReversePush(digits, CharOf(rem));
      digits := digits + [CharOf(rem)];
      assert n / 10 == Val(limbs) && n % 10 == rem;
    }
    return Reverse(digits);
  }

  /** Text and number undo each other, on exactly the canonical decimals below 2^256. */
  method RoundTrip(x: Word, t: string) returns (back: Option<Word>, text: Option<string>)
    ensures back == Some(x)
    ensures text == Some(t) <==> Canonical(t) && Number(t) < LIMIT
  {
    var s := ToDecStr(x);
    FourLimbs();
    ValBound(x);
    back := FromDecStr(s);
    ValInjective(back.value, x);
    var n := FromDecStr(t);
    if n.None? {
      text := None;
    } else {
      var u := ToDecStr(n.value);
      text := Some(u);
      if Canonical(t) { TextUnique(t); }
    }
  }
}
