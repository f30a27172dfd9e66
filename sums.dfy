/** Exact sums over sequences and maps of reals. */
module Sums {

  /** The sum of a sequence, accumulated front to back as the Java loops do. */
  function Sum(s: seq<real>): real
  {
    if s == [] then 0.0 else Sum(s[..|s| - 1]) + s[|s| - 1]
  }

  /** Dividing every term by t divides the sum by t. */
  lemma {:induction false} SumOfQuotients(s: seq<real>, q: seq<real>, t: real)
    requires |q| == |s| && t != 0.0
    requires forall i :: 0 <= i < |s| ==> q[i] == s[i] / t
    ensures Sum(q) == Sum(s) / t
  {
    if s != [] {
      var n := |s| - 1;
      SumOfQuotients(s[..n], q[..n], t);
      assert Sum(q) == Sum(s[..n]) / t + s[n] / t;
    }
  }

  /** n copies of c sum to n * c. */
  lemma {:induction false} SumOfConstant(s: seq<real>, c: real)
    requires forall i :: 0 <= i < |s| ==> s[i] == c
    ensures Sum(s) == |s| as real * c
  {
    if s != [] {
      SumOfConstant(s[..|s| - 1], c);
    }
  }

  /** An arbitrary but fixed element of a non-empty set. */
  ghost function Pick<K>(s: set<K>): (k: K)
    requires s != {}
    ensures k in s
  {
    var k :| k in s; k
  }

  /** The sum of the values of a map, independent of any iteration order. */
  ghost function Total<K>(m: map<K, real>): real
    decreases |m.Keys|
  {
    if m == map[] then 0.0
    else
      var k := Pick(m.Keys);
      assert (m - {k}).Keys == m.Keys - {k};
      m[k] + Total(m - {k})
  }

  /** Any key can be taken out first: the map sum does not depend on the order of the entries. */
  lemma {:induction false} TotalRemove<K>(m: map<K, real>, k: K)
    requires k in m
    ensures Total(m) == m[k] + Total(m - {k})
    decreases |m.Keys|
  {
    var j := Pick(m.Keys);
    if j != k {
      assert (m - {j}).Keys == m.Keys - {j};
      assert (m - {k}).Keys == m.Keys - {k};
      TotalRemove(m - {j}, k);
      TotalRemove(m - {k}, j);
      assert m - {j} - {k} == m - {k} - {j};
    }
  }

  /** Setting one entry replaces its old value in the sum, or adds the value for a new key. */
  lemma TotalUpdate<K>(m: map<K, real>, k: K, v: real)
    ensures k in m ==> Total(m[k := v]) == Total(m) - m[k] + v
    ensures k !in m ==> Total(m[k := v]) == Total(m) + v
  {
    var after := m[k := v];
    TotalRemove(after, k);
    assert after - {k} == m - {k};
    if k in m {
      TotalRemove(m, k);
    } else {
      assert m - {k} == m;
    }
  }

  /** Sums the values of a map in whatever order its entries come out. */
  method SumValues<K>(m: map<K, real>) returns (t: real)
    ensures t == Total(m)
  {
    t := 0.0;
    var rest := m;
    while rest != map[]
      invariant t + Total(rest) == Total(m)
      decreases |rest.Keys|
    {
      var k :| k in rest;
      TotalRemove(rest, k);
      assert (rest - {k}).Keys == rest.Keys - {k};
      t := t + rest[k];
      rest := rest - {k};
    }
  }
}
