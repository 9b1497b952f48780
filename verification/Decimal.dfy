/** Decimal text of naturals and integers. */
module Decimal {

  predicate IsDigit(c: char) {
    '0' <= c <= '9'
  }

  function DigitOf(c: char): (d: nat)
    requires IsDigit(c)
    ensures d < 10
  {
    c as int - '0' as int
  }

  function CharOf(d: nat): (c: char)
    requires d < 10
    ensures IsDigit(c) && DigitOf(c) == d
  {
    ('0' as int + d) as char
  }

  predicate AllDigits(s: string) {
    forall i :: 0 <= i < |s| ==> IsDigit(s[i])
  }

  /** The number a digit string denotes, leading zeros allowed. */
  function Number(s: string): nat
    requires AllDigits(s)
  {
    if s == [] then 0 else 10 * Number(s[..|s| - 1]) + DigitOf(s[|s| - 1])
  }

  /** No leading zero, and zero itself is one digit. */
  predicate Canonical(s: string) {
    s != [] && AllDigits(s) && (s[0] == '0' ==> |s| == 1)
  }

  function DecText(n: nat): (s: string)
    ensures Canonical(s) && Number(s) == n
    ensures n > 0 ==> s[0] != '0'
  {
    if n < 10 then
      assert [CharOf(n)][..0] == [];
      [CharOf(n)]
    else
      var s := DecText(n / 10) + [CharOf(n % 10)];
      assert s[..|s| - 1] == DecText(n / 10);
      s
  }

  lemma {:induction false} Positive(s: string)
    requires AllDigits(s) && s != [] && s[0] != '0'
    ensures Number(s) > 0
  {
    if |s| > 1 {
      Positive(s[..|s| - 1]);
    } else {
      assert s[..|s| - 1] == [];
    }
  }

  /** Canonical text is the only canonical text of its number. */
  lemma {:induction false} TextUnique(s: string)
    requires Canonical(s)
    ensures DecText(Number(s)) == s
    decreases |s|
  {
    var n := |s| - 1;
    if n == 0 {
      assert s[..0] == [];
    } else {
      var p := s[..n];
      Positive(p);
      TextUnique(p);
      TenSplit(Number(p), DigitOf(s[n]));
      assert DecText(Number(s)) == DecText(Number(p)) + [CharOf(DigitOf(s[n]))];
      assert s == p + [s[n]];
    }
  }

  lemma TenSplit(n: nat, d: nat)
    requires d < 10
    ensures (10 * n + d) / 10 == n && (10 * n + d) % 10 == d
  {
  }

  /** Integers: a minus sign in front of a non-zero number. */
  function IntText(n: int): string {
    if n < 0 then "-" + DecText(-n) else DecText(n)
  }

  lemma {:induction false} NumberGrows(s: string, k: nat)
    requires AllDigits(s) && k <= |s|
    ensures Number(s[..k]) <= Number(s)
    decreases |s|
  {
    if k < |s| {
      assert s[..|s| - 1][..k] == s[..k];
      NumberGrows(s[..|s| - 1], k);
    } else {
      assert s[..k] == s;
    }
  }
}
