/** Sums over the values of a map, in any order. */
module MapSums {

  ghost function Sum<K>(m: map<K, nat>): nat {
    if m.Keys == {} then 0
    else
      var k :| k in m.Keys;
      m[k] + Sum(m - {k})
  }

  lemma {:induction false} SumPick<K>(m: map<K, nat>, k: K)
    requires k in m
    ensures Sum(m) == m[k] + Sum(m - {k})
    decreases |m|
  {
    assert m.Keys != {};
    var j :| j in m.Keys && Sum(m) == m[j] + Sum(m - {j});
    if j != k {
      SumPick(m - {j}, k);
      SumPick(m - {k}, j);
      assert m - {j} - {k} == m - {k} - {j};
    }
  }

  lemma SumUpdate<K>(m: map<K, nat>, k: K, v: nat)
    ensures Sum(m[k := v]) == Sum(m) + v - if k in m then m[k] else 0
  {
    SumPick(m[k := v], k);
    assert m[k := v] - {k} == m - {k};
    if k in m {
      SumPick(m, k);
    } else {
      assert m - {k} == m;
    }
  }

  lemma {:induction false} SumAdd<K>(a: map<K, nat>, b: map<K, nat>, c: map<K, nat>)
    requires a.Keys == b.Keys == c.Keys && forall k :: k in a ==> c[k] == a[k] + b[k]
    ensures Sum(c) == Sum(a) + Sum(b)
    decreases |c|
  {
    if c.Keys != {} {
      var k :| k in c;
      SumPick(a, k);
      SumPick(b, k);
      SumPick(c, k);
      SumAdd(a - {k}, b - {k}, c - {k});
    }
  }

  lemma {:induction false} SumZero<K>(m: map<K, nat>)
    requires forall k :: k in m ==> m[k] == 0
    ensures Sum(m) == 0
    decreases |m|
  {
    if m.Keys != {} {
      var k :| k in m;
      SumPick(m, k);
      SumZero(m - {k});
    }
  }

  function Scale<K>(m: map<K, nat>, c: nat): map<K, nat> { map k | k in m :: m[k] * c }

  lemma Distribute(a: nat, b: nat, c: nat, sum: nat, scaledB: nat)
    requires sum == a + b && scaledB == b * c
    ensures a * c + scaledB == sum * c
  {}

  lemma ScaleWithout<K>(m: map<K, nat>, c: nat, k: K)
    ensures Scale(m, c) - {k} == Scale(m - {k}, c)
  {}

  lemma {:induction false} SumScale<K>(m: map<K, nat>, c: nat)
    ensures Sum(Scale(m, c)) == Sum(m) * c
    decreases |m|
  {
    if m.Keys != {} {
      var k :| k in m.Keys;
      SumScale(m - {k}, c);
      SumPick(m, k);
      SumPick(Scale(m, c), k);
      ScaleWithout(m, c, k);
      Distribute(m[k], Sum(m - {k}), c, Sum(m), Sum(Scale(m - {k}, c)));
    }
  }
}
