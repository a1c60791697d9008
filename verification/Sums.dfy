/** Sums over tables. Rows are never deleted, so a table is a sequence and a
    row's id is its index; a total over a table is the sum of one value per row. */
module Sums {

  function Sum(s: seq<int>): int {
    if s == [] then 0 else Sum(s[..|s| - 1]) + s[|s| - 1]
  }

  lemma {:induction false} SumUpdate(s: seq<int>, i: nat, x: int)
    requires i < |s|
    ensures Sum(s[i := x]) == Sum(s) - s[i] + x
  {
    var n := |s| - 1;
    if i == n {
      assert s[i := x][..n] == s[..n];
    } else {
      assert s[i := x][..n] == s[..n][i := x];
      SumUpdate(s[..n], i, x);
    }
  }

  lemma SumAppend(s: seq<int>, x: int)
    ensures Sum(s + [x]) == Sum(s) + x
  {
    assert (s + [x])[..|s|] == s;
  }

  lemma {:induction false} SumConcat(a: seq<int>, b: seq<int>)
    ensures Sum(a + b) == Sum(a) + Sum(b)
  {
    if b == [] {
      assert a + b == a;
    } else {
      assert (a + b)[..|a + b| - 1] == a + b[..|b| - 1];
      SumConcat(a, b[..|b| - 1]);
    }
  }

  lemma {:induction false} SumNonNegative(s: seq<int>)
    requires forall i :: 0 <= i < |s| ==> s[i] >= 0
    ensures Sum(s) >= 0
    ensures forall i :: 0 <= i < |s| ==> s[i] <= Sum(s)
  {
    if s != [] {
      SumNonNegative(s[..|s| - 1]);
      forall i | 0 <= i < |s| ensures s[i] <= Sum(s) {
        if i < |s| - 1 { assert s[i] == s[..|s| - 1][i]; }
      }
    }
  }

  lemma SumPair(s: seq<int>, i: nat, j: nat)
    requires i < |s| && j < |s| && i != j && forall k :: 0 <= k < |s| ==> s[k] >= 0
    ensures s[i] + s[j] <= Sum(s)
  {
    SumUpdate(s, i, 0);
    SumNonNegative(s[i := 0]);
    assert s[i := 0][j] == s[j];
  }

  lemma {:induction false} SumZeros(s: seq<int>)
    requires forall i :: 0 <= i < |s| ==> s[i] == 0
    ensures Sum(s) == 0
  {
    if s != [] { SumZeros(s[..|s| - 1]); }
  }

  lemma {:induction false} SumOfThree(a: seq<int>, b: seq<int>, c: seq<int>, total: seq<int>)
    requires |a| == |b| == |c| == |total|
    requires forall i :: 0 <= i < |a| ==> total[i] == a[i] + b[i] + c[i]
    ensures Sum(total) == Sum(a) + Sum(b) + Sum(c)
  {
    if a != [] {
      var n := |a| - 1;
      SumOfThree(a[..n], b[..n], c[..n], total[..n]);
    }
  }

  function Zeros(n: nat): seq<int> { seq(n, _ => 0) }

  lemma SumOfTwo(a: seq<int>, b: seq<int>, total: seq<int>)
    requires |a| == |b| == |total|
    requires forall i :: 0 <= i < |a| ==> total[i] == a[i] + b[i]
    ensures Sum(total) == Sum(a) + Sum(b)
  {
    SumZeros(Zeros(|a|));
    SumOfThree(a, b, Zeros(|a|), total);
  }

  /** Total of the values of a finite map. */
  ghost function SumMap<K(!new)>(m: map<K, int>): int
    decreases |m|
  {
    if m == map[] then 0 else
      var k :| k in m;
      m[k] + SumMap(m - {k})
  }

  /** The total does not depend on the order in which the keys are taken out. */
  lemma {:induction false} SumMapRemove<K(!new)>(m: map<K, int>, k: K)
    requires k in m
    ensures SumMap(m) == m[k] + SumMap(m - {k})
    decreases |m|
  {
    var p :| p in m && SumMap(m) == m[p] + SumMap(m - {p});
    if p != k {
      SumMapRemove(m - {p}, k);
      SumMapRemove(m - {k}, p);
      assert m - {p} - {k} == m - {k} - {p};
    }
  }

  lemma SumMapPut<K(!new)>(m: map<K, int>, k: K, x: int)
    ensures SumMap(m[k := x]) == SumMap(m) - (if k in m then m[k] else 0) + x
  {
    SumMapRemove(m[k := x], k);
    if k in m {
      SumMapRemove(m, k);
      assert m[k := x] - {k} == m - {k};
    } else {
      assert m[k := x] - {k} == m;
    }
  }

  /** `order` lists every key of `m` exactly once. */
  predicate Enumerates<K(==)>(order: seq<K>, m: map<K, int>) {
    && (forall i :: 0 <= i < |order| ==> order[i] in m)
    && (forall k :: k in m ==> k in order)
    && (forall i, j :: 0 <= i < j < |order| ==> order[i] != order[j])
  }

  function Picked<K>(order: seq<K>, m: map<K, int>): (r: seq<int>)
    requires forall i :: 0 <= i < |order| ==> order[i] in m
  {
    seq(|order|, i requires 0 <= i < |order| => m[order[i]])
  }

  lemma EnumeratesPrefix<K(!new)>(order: seq<K>, m: map<K, int>)
    requires Enumerates(order, m) && order != []
    ensures Enumerates(order[..|order| - 1], m - {order[|order| - 1]})
  {
    var n := |order| - 1;
    forall k | k in m - {order[n]} ensures k in order[..n] {
      assert k in order;
      var i :| 0 <= i < |order| && order[i] == k;
      assert order[..n][i] == k;
    }
  }

  lemma PickedPrefix<K(!new)>(order: seq<K>, m: map<K, int>)
    requires Enumerates(order, m) && order != []
    ensures var n := |order| - 1;
      && Enumerates(order[..n], m - {order[n]})
      && Picked(order, m) == Picked(order[..n], m - {order[n]}) + [m[order[n]]]
  {
    EnumeratesPrefix(order, m);
  }

  lemma {:induction false} SumPicked<K(!new)>(order: seq<K>, m: map<K, int>)
    requires Enumerates(order, m)
    ensures Sum(Picked(order, m)) == SumMap(m)
    decreases |order|
  {
    if order == [] {
      assert forall k :: k in m ==> k in order;
      assert m.Keys == {};
    } else {
      var n := |order| - 1;
      var rest := m - {order[n]};
      PickedPrefix(order, m);
      SumPicked(order[..n], rest);
      SumMapRemove(m, order[n]);
      SumAppend(Picked(order[..n], rest), m[order[n]]);
    }
  }
}
