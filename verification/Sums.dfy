/** The sum of the values of a finite map, whatever order it is taken in. */
module Sums {

  ghost function Sum(m: map<nat, nat>): (s: nat)
  {
    if m == map[] then 0
    else
      var k :| k in m;
      m[k] + Sum(m - {k})
  }

  lemma {:induction false} Split(m: map<nat, nat>, k: nat)
    requires k in m
    ensures Sum(m) == m[k] + Sum(m - {k})
    decreases |m|
  {
    var j :| j in m && Sum(m) == m[j] + Sum(m - {j});
    if j != k {
      Split(m - {j}, k);
      assert m - {j} - {k} == m - {k} - {j};
      Split(m - {k}, j);
    }
  }

  lemma Put(m: map<nat, nat>, k: nat, v: nat)
    ensures Sum(m[k := v]) + (if k in m then m[k] else 0) == Sum(m) + v
  {
    Split(m[k := v], k);
    assert m[k := v] - {k} == m - {k};
    if k in m {
      Split(m, k);
    } else {
      assert m - {k} == m;
    }
  }
}
