/** Option, quotients, sums over finite maps, and numbers outside finite sets. */
module Basics {

  datatype Option<+T> = None | Some(value: T)

  function Min(a: int, b: int): int { if a <= b then a else b }

  function Max(a: int, b: int): int { if a >= b then a else b }

  function Pow2(n: nat): (p: nat)
    ensures p >= 1
  {
    if n == 0 then 1 else 2 * Pow2(n - 1)
  }

  /** Quotient and remainder are determined by x == q * d + r with r < d. */
  lemma QuotientIsUnique(x: nat, d: nat, q: nat, r: nat)
    requires d >= 1 && x == q * d + r && r < d
    ensures x / d == q && x % d == r
  {
    var q1, r1 := x / d, x % d;
    assert x == q1 * d + r1;
    var m := q - q1;
    assert m * d == r1 - r by { assert m * d == q * d - q1 * d; }
    assert m >= 1 ==> (m - 1) * d >= 0;
    assert m <= -1 ==> (-m - 1) * d >= 0;
    assert m == 0;
  }

  /** The sum of all values of a finite map. */
  ghost function Sum<K>(f: map<K, nat>): nat
    decreases |f|
  {
    if f == map[] then 0
    else
      var k :| k in f;
      f[k] + Sum(f - {k})
  }

  /** The sum does not depend on the key that is taken out first. */
  lemma {:induction false} SumSplit<K>(f: map<K, nat>, k: K)
    requires k in f
    ensures Sum(f) == f[k] + Sum(f - {k})
    decreases |f|
  {
    var j :| j in f && Sum(f) == f[j] + Sum(f - {j});
    if j != k {
      SumSplit(f - {j}, k);
      SumSplit(f - {k}, j);
      assert f - {j} - {k} == f - {k} - {j};
    }
  }

  /** Replacing the value at one key moves the sum by the difference at that key. */
  lemma SumUpdate<K>(f: map<K, nat>, g: map<K, nat>, k: K)
    requires k in f && f.Keys == g.Keys
    requires forall j :: j in f && j != k ==> f[j] == g[j]
    ensures Sum(g) == Sum(f) - f[k] + g[k]
  {
    SumSplit(f, k);
    SumSplit(g, k);
    assert f - {k} == g - {k};
  }

  lemma {:induction false} SumMonotone<K>(f: map<K, nat>, g: map<K, nat>)
    requires f.Keys == g.Keys
    requires forall j :: j in f ==> g[j] <= f[j]
    ensures Sum(g) <= Sum(f)
    decreases |f|
  {
    if f == map[] {
      assert g == map[];
    } else {
      var k :| k in f;
      SumSplit(f, k);
      SumSplit(g, k);
      SumMonotone(f - {k}, g - {k});
    }
  }

  /** Every single value is bounded by the sum. */
  lemma SumBounds<K>(f: map<K, nat>, k: K)
    requires k in f
    ensures f[k] <= Sum(f)
  {
    SumSplit(f, k);
  }

  /** A number beyond all of a finite set. */
  lemma {:induction false} NotIn(taken: set<nat>) returns (item: nat)
    ensures forall i :: i in taken ==> i < item
    decreases |taken|
  {
    if taken == {} {
      item := 0;
    } else {
      var some :| some in taken;
      var rest := NotIn(taken - {some});
      item := Max(rest, some + 1);
      assert forall i :: i in taken ==> i == some || i in taken - {some};
    }
  }
}
