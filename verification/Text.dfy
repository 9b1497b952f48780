/** Text order: code points compared left to right, a proper prefix first. On UTF-8 text this
    is the byte order that the canonical encoding sorts by. */
module Text {

  predicate Less(a: string, b: string) {
    if b == [] then false
    else if a == [] then true
    else a[0] < b[0] || (a[0] == b[0] && Less(a[1..], b[1..]))
  }

  lemma {:induction false} LessIrreflexive(a: string)
    ensures !Less(a, a)
  {
    if a != [] {
      LessIrreflexive(a[1..]);
    }
  }

  lemma {:induction false} LessTotal(a: string, b: string)
    ensures a == b || Less(a, b) || Less(b, a)
  {
    if a != [] && b != [] && a[0] == b[0] {
      LessTotal(a[1..], b[1..]);
      assert a == [a[0]] + a[1..] && b == [b[0]] + b[1..];
    }
  }

  lemma {:induction false} LessTransitive(a: string, b: string, c: string)
    requires Less(a, b) && Less(b, c)
    ensures Less(a, c)
  {
    if a != [] && b != [] && a[0] == b[0] && b[0] == c[0] {
      LessTransitive(a[1..], b[1..], c[1..]);
    }
  }

  /** Strictly ascending, stated for neighbours only. */
  predicate Ascending(s: seq<string>) {
    forall i :: 0 < i < |s| ==> Less(s[i - 1], s[i])
  }

  lemma {:induction false} AscendingPairs(s: seq<string>, i: nat, j: nat)
    requires Ascending(s) && i < j < |s|
    ensures Less(s[i], s[j])
    decreases j - i
  {
    if i + 1 < j {
      AscendingPairs(s, i, j - 1);
      LessTransitive(s[i], s[j - 1], s[j]);
    }
  }

  function Elements(s: seq<string>): set<string> {
    set x | x in s
  }

  lemma {:induction false} AscendingCardinality(s: seq<string>)
    requires Ascending(s)
    ensures |Elements(s)| == |s|
  {
    if s != [] {
      var n := |s| - 1;
      AscendingCardinality(s[..n]);
      if s[n] in s[..n] {
        var i :| 0 <= i < n && s[i] == s[n];
        AscendingPairs(s, i, n);
        LessIrreflexive(s[n]);
      }
      assert Elements(s) == Elements(s[..n]) + {s[n]};
    }
  }

  predicate IsLeast(x: string, keys: set<string>) {
    x in keys && forall y :: y in keys && y != x ==> Less(x, y)
  }

  lemma {:induction false} LeastExists(keys: set<string>)
    requires keys != {}
    ensures exists x :: IsLeast(x, keys)
  {
    var k :| k in keys;
    if keys == {k} {
      assert IsLeast(k, keys);
    } else {
      assert keys == (keys - {k}) + {k};
      LeastExists(keys - {k});
      var x :| IsLeast(x, keys - {k});
      LessTotal(k, x);
      if Less(k, x) {
        forall y | y in keys && y != k ensures Less(k, y) {
          if y != x { LessTransitive(k, x, y); }
        }
        assert IsLeast(k, keys);
      } else {
        assert IsLeast(x, keys);
      }
    }
  }

  lemma LeastUnique(x: string, y: string, keys: set<string>)
    requires IsLeast(x, keys) && IsLeast(y, keys)
    ensures x == y
  {
    if x != y {
      LessTransitive(x, y, x);
      LessIrreflexive(x);
    }
  }

  function Least(keys: set<string>): (x: string)
    requires keys != {}
    ensures IsLeast(x, keys)
  {
    LeastExists(keys);
    assert forall x, y | IsLeast(x, keys) && IsLeast(y, keys) :: x == y by {
      forall x, y | IsLeast(x, keys) && IsLeast(y, keys) ensures x == y { LeastUnique(x, y, keys); }
    }
    var x :| IsLeast(x, keys);
    x
  }

  /** The keys of an object in canonical order: the sorted listing of a set of names. */
  function Sorted(keys: set<string>): (s: seq<string>)
    ensures Elements(s) == keys && Ascending(s)
  {
    if keys == {} then []
    else
      var x := Least(keys);
      var rest := Sorted(keys - {x});
      assert rest != [] ==> rest[0] in Elements(rest);
      assert Elements([x] + rest) == {x} + Elements(rest);
      [x] + rest
  }

  lemma {:induction false} SortedUnique(s: seq<string>, t: seq<string>)
    requires Ascending(s) && Ascending(t) && Elements(s) == Elements(t)
    ensures s == t
  {
    assert t != [] ==> t[0] in Elements(t);
    if s != [] {
      assert s[0] in Elements(t) && (t == [] || t[0] in Elements(s));
      var i :| 0 <= i < |t| && t[i] == s[0];
      var j :| 0 <= j < |s| && s[j] == t[0];
      if 0 < i && 0 < j {
        AscendingPairs(s, 0, j);
        AscendingPairs(t, 0, i);
        LessTransitive(s[0], t[0], s[0]);
        LessIrreflexive(s[0]);
      }
      HeadOnlyFirst(s);
      HeadOnlyFirst(t);
      SortedUnique(s[1..], t[1..]);
      assert s == [s[0]] + s[1..] && t == [t[0]] + t[1..];
    }
  }

  lemma HeadOnlyFirst(s: seq<string>)
    requires Ascending(s) && s != []
    ensures Elements(s[1..]) == Elements(s) - {s[0]} && Ascending(s[1..])
  {
    if s[0] in s[1..] {
      var i :| 0 < i < |s| && s[i] == s[0];
      AscendingPairs(s, 0, i);
      LessIrreflexive(s[0]);
    }
  }
}
