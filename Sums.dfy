/** Sums over the values of a map, independent of the order in which the keys
    are visited (the engine folds over hash maps, whose order is unspecified). */
module Sums {

  /** The sum of all values of `m`. */
  ghost function Sum(m: map<string, real>): real
    decreases m.Keys
  {
    if m.Keys == {} then 0.0
    else
      var k :| k in m.Keys;
      m[k] + Sum(m - {k})
  }

  /** Any key may be taken out first: the sum does not depend on the visiting order. */
  lemma {:induction false} SumRemove(m: map<string, real>, x: string)
    requires x in m
    ensures Sum(m) == m[x] + Sum(m - {x})
    decreases m.Keys
  {
    var k :| k in m.Keys && Sum(m) == m[k] + Sum(m - {k});
    if k != x {
      var mk, mx := m - {k}, m - {x};
      SumRemove(mk, x);
      SumRemove(mx, k);
      assert mk - {x} == mx - {k};
    }
  }

  /** Adding a fresh key adds its value to the sum; this is one step of every fold. */
  lemma SumInsert(m: map<string, real>, x: string, v: real)
    requires x !in m
    ensures Sum(m[x := v]) == Sum(m) + v
  {
    SumRemove(m[x := v], x);
    assert m[x := v] - {x} == m;
  }

  /** The sum of a map with three entries. */
  lemma SumOfThree(m: map<string, real>, a: string, b: string, c: string)
    requires a != b && b != c && a != c && m.Keys == {a, b, c}
    ensures Sum(m) == m[a] + m[b] + m[c]
  {
    var ma := m - {a};
    var mb := ma - {b};
    var mc := mb - {c};
    SumRemove(m, a);
    SumRemove(ma, b);
    SumRemove(mb, c);
    assert mc.Keys == {};
  }

  /** `n` copies of `x` added up. */
  ghost function Repeat(n: nat, x: real): real
  {
    if n == 0 then 0.0 else Repeat(n - 1, x) + x
  }

  lemma {:induction false} RepeatIsProduct(n: nat, x: real)
    ensures Repeat(n, x) == (n as real) * x
  {
    if n > 0 {
      RepeatIsProduct(n - 1, x);
    }
  }

  /** An upper bound on every value bounds the sum by the number of values. */
  lemma {:induction false} SumAtMost(m: map<string, real>, hi: real)
    requires forall k :: k in m ==> m[k] <= hi
    ensures Sum(m) <= Repeat(|m|, hi)
    decreases m.Keys
  {
    if m.Keys == {} {
      assert |m| == 0;
    } else {
      var k :| k in m.Keys && Sum(m) == m[k] + Sum(m - {k});
      var rest := m - {k};
      SumAtMost(rest, hi);
      assert |rest| + 1 == |m| by { assert rest.Keys == m.Keys - {k}; }
    }
  }

  /** A map of non-negative values has a non-negative sum. */
  lemma {:induction false} SumNonNegative(m: map<string, real>)
    requires forall k :: k in m ==> 0.0 <= m[k]
    ensures 0.0 <= Sum(m)
    decreases m.Keys
  {
    if m.Keys != {} {
      var k :| k in m.Keys && Sum(m) == m[k] + Sum(m - {k});
      SumNonNegative(m - {k});
    }
  }

  /** A non-empty map of positive values has a positive sum. */
  lemma SumPositive(m: map<string, real>)
    requires |m| > 0
    requires forall k :: k in m ==> 0.0 < m[k]
    ensures 0.0 < Sum(m)
  {
    assert |m.Keys| > 0;
    var x :| x in m.Keys;
    SumRemove(m, x);
    SumNonNegative(m - {x});
  }

  /** The mean of the values is at most the greatest value. */
  lemma MeanAtMost(m: map<string, real>, hi: real)
    requires |m| > 0
    requires forall k :: k in m ==> m[k] <= hi
    ensures Sum(m) / (|m| as real) <= hi
  {
    SumAtMost(m, hi);
    RepeatIsProduct(|m|, hi);
  }
}
