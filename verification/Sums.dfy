/** The total of a finite table of amounts. */
module Sums {

  ghost function Sum(m: map<string, nat>): nat
    decreases |m|
  {
    if m == map[] then 0
    else
      var k :| k in m;
      m[k] + Sum(m - {k})
  }

  lemma {:induction false} SumDrop(m: map<string, nat>, k: string)
    requires k in m
    ensures Sum(m) == m[k] + Sum(m - {k})
    decreases |m|
  {
    var j :| j in m && Sum(m) == m[j] + Sum(m - {j});
    if j != k {
      SumDrop(m - {j}, k);
      SumDrop(m - {k}, j);
      assert m - {j} - {k} == m - {k} - {j};
    }
  }

  lemma SumPut(m: map<string, nat>, k: string, v: nat)
    ensures Sum(m[k := v]) == Sum(m) - (if k in m then m[k] else 0) + v
  {
    SumDrop(m[k := v], k);
    assert m[k := v] - {k} == m - {k};
    if k in m {
      SumDrop(m, k);
    } else {
      assert m - {k} == m;
    }
  }

  lemma SumBounds(m: map<string, nat>, k: string)
    requires k in m
    ensures m[k] <= Sum(m)
  {
    SumDrop(m, k);
  }
}
