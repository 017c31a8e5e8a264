/** The sum of the values of a dictionary, which does not depend on the order of its keys. */
module Sums {

  ghost function Sum<K(!new)>(m: map<K, real>): real {
    if m == map[] then 0.0
    else
      var k :| k in m;
      m[k] + Sum(m - {k})
  }

  lemma SumEmpty<K(!new)>()
    ensures Sum<K>(map[]) == 0.0
  {
  }

  /** Any key may be taken out first. */
  lemma {:induction false} SumExtract<K(!new)>(m: map<K, real>, k: K)
    requires k in m
    ensures Sum(m) == m[k] + Sum(m - {k})
    decreases |m|
  {
    var first :| first in m && Sum(m) == m[first] + Sum(m - {first});
    if first != k {
      assert |m - {first}| < |m| && |m - {k}| < |m| by { SmallerWithout(m, first); SmallerWithout(m, k); }
      SumExtract(m - {first}, k);
      SumExtract(m - {k}, first);
      assert m - {first} - {k} == m - {k} - {first};
    }
  }

  lemma SmallerWithout<K>(m: map<K, real>, k: K)
    requires k in m
    ensures |m - {k}| == |m| - 1
  {
    assert (m - {k}).Keys == m.Keys - {k};
    assert |m.Keys| == |m| && |(m - {k}).Keys| == |m - {k}|;
  }

  lemma SumAdd<K(!new)>(m: map<K, real>, k: K, v: real)
    requires k !in m
    ensures Sum(m[k := v]) == Sum(m) + v
  {
    SumExtract(m[k := v], k);
    assert m[k := v] - {k} == m;
  }

  lemma SumReplace<K(!new)>(m: map<K, real>, k: K, v: real)
    requires k in m
    ensures Sum(m[k := v]) == Sum(m) - m[k] + v
  {
    SumExtract(m, k);
    SumExtract(m[k := v], k);
    assert m[k := v] - {k} == m - {k};
  }

  lemma {:induction false} SumMonotone<K(!new)>(m: map<K, real>, n: map<K, real>)
    requires m.Keys == n.Keys
    requires forall k :: k in m ==> m[k] <= n[k]
    ensures Sum(m) <= Sum(n)
    decreases |m|
  {
    if m == map[] {
      assert n == map[];
    } else {
      var k :| k in m;
      SumExtract(m, k);
      SumExtract(n, k);
      SmallerWithout(m, k);
      SumMonotone(m - {k}, n - {k});
    }
  }

  lemma {:induction false} SumNonNegative<K(!new)>(m: map<K, real>)
    requires forall k :: k in m ==> m[k] >= 0.0
    ensures Sum(m) >= 0.0
    decreases |m|
  {
    if m != map[] {
      var k :| k in m;
      SumExtract(m, k);
      SmallerWithout(m, k);
      SumNonNegative(m - {k});
    }
  }

  lemma {:induction false} SumAtMostSize<K(!new)>(m: map<K, real>)
    requires forall k :: k in m ==> m[k] <= 1.0
    ensures Sum(m) <= |m| as real
    decreases |m|
  {
    if m != map[] {
      var k :| k in m;
      SumExtract(m, k);
      SmallerWithout(m, k);
      SumAtMostSize(m - {k});
    }
  }

  ghost predicate Additive(h: real -> real) {
    h(0.0) == 0.0 && forall x, y :: h(x + y) == h(x) + h(y)
  }

  /** An additive map of the values carries over to their sum. */
  lemma AdditiveAt(h: real -> real, x: real, y: real)
    requires Additive(h)
    ensures h(0.0) == 0.0 && h(x + y) == h(x) + h(y)
  {
  }

  lemma {:induction false} SumAdditive<K(!new)>(m: map<K, real>, n: map<K, real>, h: real -> real)
    requires Additive(h) && m.Keys == n.Keys
    requires forall k :: k in m ==> n[k] == h(m[k])
    ensures Sum(n) == h(Sum(m))
    decreases |m|
  {
    hide *;
    if m == map[] {
      assert n == map[];
      SumEmpty<K>();
      AdditiveAt(h, 0.0, 0.0);
    } else {
      var k :| k in m;
      SmallerWithout(m, k);
      SumAdditive(m - {k}, n - {k}, h);
      SumExtract(m, k);
      SumExtract(n, k);
      AdditiveAt(h, m[k], Sum(m - {k}));
    }
  }

  /** Pointwise sums over one set of keys. */
  lemma {:induction false} SumPointwise<K(!new)>(m: map<K, real>, a: map<K, real>, b: map<K, real>)
    requires m.Keys == a.Keys == b.Keys
    requires forall k :: k in m ==> m[k] == a[k] + b[k]
    ensures Sum(m) == Sum(a) + Sum(b)
    decreases |m|
  {
    if m == map[] {
      assert a == map[] && b == map[];
    } else {
      var k :| k in m;
      SmallerWithout(m, k);
      SumPointwise(m - {k}, a - {k}, b - {k});
      SumExtract(m, k);
      SumExtract(a, k);
      SumExtract(b, k);
    }
  }

  ghost function Padded<K(!new)>(m: map<K, real>, keys: set<K>): map<K, real> {
    map k | k in keys :: if k in m then m[k] else 0.0
  }

  /** Keys that count as zero do not change the sum. */
  lemma {:induction false} SumPadded<K(!new)>(m: map<K, real>, keys: set<K>)
    requires m.Keys <= keys
    ensures Sum(Padded(m, keys)) == Sum(m)
    decreases keys
  {
    if keys == {} {
      assert m == map[] && Padded(m, keys) == map[];
    } else {
      var k :| k in keys;
      SumExtract(Padded(m, keys), k);
      assert Padded(m, keys) - {k} == Padded(m - {k}, keys - {k});
      SumPadded(m - {k}, keys - {k});
      if k in m {
        SumExtract(m, k);
      } else {
        assert m - {k} == m;
      }
    }
  }

  /** Pointwise sums, where a key missing on one side counts as zero there. */
  lemma SumCombine<K(!new)>(m: map<K, real>, a: map<K, real>, b: map<K, real>)
    requires m.Keys == a.Keys + b.Keys
    requires forall k :: k in m ==> m[k] == Padded(a, m.Keys)[k] + Padded(b, m.Keys)[k]
    ensures Sum(m) == Sum(a) + Sum(b)
  {
    SumPadded(a, m.Keys);
    SumPadded(b, m.Keys);
    SumPointwise(m, Padded(a, m.Keys), Padded(b, m.Keys));
  }

  /** `sum(d.values())`. */
  method SumValues<K(==,!new)>(m: map<K, real>) returns (total: real)
    ensures total == Sum(m)
  {
    total := 0.0;
    var rest := m;
    while rest != map[]
      invariant total + Sum(rest) == Sum(m)
      decreases |rest|
    {
      var k :| k in rest;
      SumExtract(rest, k);
      SmallerWithout(rest, k);
      total := total + rest[k];
      rest := rest - {k};
    }
  }
}
