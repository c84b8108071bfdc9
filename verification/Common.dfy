/** Vocabulary shared by every module: results, the EVM word bounds, and finite sums over maps. */
module Common {

  datatype Option<+T> = None | Some(value: T)

  datatype Result<+T, +E> = Ok(value: T) | Err(error: E)

  const TWO_255: int := 0x8000000000000000000000000000000000000000000000000000000000000000
  const TWO_256: int := 0x1_0000000000000000000000000000000000000000000000000000000000000000

  predicate IsUint256(x: int) {
    0 <= x < TWO_256
  }

  // ---- Sequences without repetition ----

  ghost predicate NoDup<T>(s: seq<T>) {
    forall i, j :: 0 <= i < j < |s| ==> s[i] != s[j]
  }

  ghost function Elements<T>(s: seq<T>): set<T> {
    set x | x in s
  }

  lemma {:induction false} NoDupCardinality<T>(s: seq<T>)
    requires NoDup(s)
    ensures |Elements(s)| == |s|
  {
    if s == [] {
    } else {
      var front := s[..|s| - 1];
      NoDupCardinality(front);
      assert Elements(s) == Elements(front) + {s[|s| - 1]};
      assert s[|s| - 1] !in Elements(front);
    }
  }

  ghost function Pairs<A, B>(a: A, list: seq<B>): set<(A, B)> {
    set b | b in list :: (a, b)
  }

  lemma {:induction false} PairCount<A, B>(a: A, list: seq<B>)
    requires NoDup(list)
    ensures |Pairs(a, list)| == |list|
    decreases |list|
  {
    if list != [] {
      var front, last := list[..|list| - 1], list[|list| - 1];
      PairCount(a, front);
      assert Pairs(a, list) == Pairs(a, front) + {(a, last)};
      assert (a, last) !in Pairs(a, front);
    }
  }

  // ---- Sums over finite maps ----

  ghost function MapSum<K>(m: map<K, int>): int
    decreases |m|
  {
    if m == map[] then 0
    else
      var k :| k in m;
      assert (m - {k}).Keys == m.Keys - {k};
      m[k] + MapSum(m - {k})
  }

  /** The sum does not depend on the order in which keys are removed. */
  lemma {:induction false} MapSumRemove<K>(m: map<K, int>, k: K)
    requires k in m
    ensures MapSum(m) == m[k] + MapSum(m - {k})
    decreases |m|
  {
    var c :| c in m && MapSum(m) == m[c] + MapSum(m - {c});
    if c != k {
      assert (m - {c}).Keys == m.Keys - {c};
      assert (m - {k}).Keys == m.Keys - {k};
      MapSumRemove(m - {c}, k);
      MapSumRemove(m - {k}, c);
      assert m - {c} - {k} == m - {k} - {c};
    }
  }

  function Lookup<K>(m: map<K, int>, k: K): int {
    if k in m then m[k] else 0
  }

  lemma MapSumUpdate<K>(m: map<K, int>, k: K, v: int)
    ensures MapSum(m[k := v]) == MapSum(m) - Lookup(m, k) + v
  {
    MapSumRemove(m[k := v], k);
    assert m[k := v] - {k} == m - {k};
    if k in m {
      MapSumRemove(m, k);
    } else {
      assert m - {k} == m;
    }
  }

  lemma {:induction false} MapSumBounds<K>(m: map<K, int>, lo: int, hi: int)
    requires forall k :: k in m ==> lo <= m[k] <= hi
    ensures |m| * lo <= MapSum(m) <= |m| * hi
    decreases |m|
  {
    if m != map[] {
      var k :| k in m;
      MapSumRemove(m, k);
      assert (m - {k}).Keys == m.Keys - {k};
      MapSumBounds(m - {k}, lo, hi);
      OneLess(|m|, lo);
      OneLess(|m|, hi);
    }
  }

  lemma OneLess(n: nat, x: int)
    ensures (n - 1) * x == n * x - x
  {
  }

  lemma MapSumNonNegative<K>(m: map<K, int>)
    requires forall k :: k in m ==> m[k] >= 0
    ensures MapSum(m) >= 0
    decreases |m|
  {
    if m != map[] {
      var k :| k in m;
      MapSumRemove(m, k);
      assert (m - {k}).Keys == m.Keys - {k};
      MapSumNonNegative(m - {k});
    }
  }

  lemma MapSumMember<K>(m: map<K, int>, k: K)
    requires forall x :: x in m ==> m[x] >= 0
    ensures Lookup(m, k) <= MapSum(m)
  {
    if k in m {
      MapSumRemove(m, k);
    }
    MapSumNonNegative(m - {k});
    if k !in m {
      assert m - {k} == m;
    }
  }

  /** Pointwise smaller on every shared key, and no key of its own with a positive value. */
  lemma {:induction false} MapSumMonotone<K>(small: map<K, int>, large: map<K, int>)
    requires forall k :: k in small ==> small[k] <= Lookup(large, k)
    requires forall k :: k in large ==> large[k] >= 0
    ensures MapSum(small) <= MapSum(large)
    decreases |small|
  {
    if small == map[] {
      MapSumNonNegative(large);
    } else {
      var k :| k in small;
      MapSumRemove(small, k);
      assert (small - {k}).Keys == small.Keys - {k};
      if k in large {
        MapSumRemove(large, k);
        MapSumMonotone(small - {k}, large - {k});
      } else {
        MapSumMonotone(small - {k}, large);
      }
    }
  }

  /** The part of a two-key map that belongs to one first key. */
  ghost function Row<A(!new), B(!new)>(m: map<(A, B), int>, a: A): map<(A, B), int> {
    map k | k in m && k.0 == a :: m[k]
  }

  /** The sum of a map cut into two disjoint parts. */
  ghost predicate Partition<K>(m: map<K, int>, left: map<K, int>, right: map<K, int>) {
    && left.Keys !! right.Keys
    && m.Keys == left.Keys + right.Keys
    && (forall k :: k in left ==> m[k] == left[k])
    && (forall k :: k in right ==> m[k] == right[k])
  }

  lemma PartitionShrinks<K>(m: map<K, int>, left: map<K, int>, right: map<K, int>, k: K)
    requires Partition(m, left, right) && k in left
    ensures Partition(m - {k}, left - {k}, right) && |left - {k}| < |left| && m[k] == left[k]
  {
    assert (left - {k}).Keys == left.Keys - {k};
    assert (m - {k}).Keys == m.Keys - {k};
  }

  lemma {:induction false} MapSumSplit<K>(m: map<K, int>, left: map<K, int>, right: map<K, int>)
    requires Partition(m, left, right)
    ensures MapSum(m) == MapSum(left) + MapSum(right)
    decreases |left|
  {
    if left == map[] {
      assert m == right;
    } else {
      var k :| k in left;
      PartitionShrinks(m, left, right, k);
      MapSumSplit(m - {k}, left - {k}, right);
      MapSumRemove(left, k);
      MapSumRemove(m, k);
    }
  }

  ghost predicate RowsUnder<A(!new), B(!new)>(m: map<(A, B), int>, bound: map<A, int>) {
    && (forall k :: k in m ==> k.0 in bound)
    && (forall a :: a in bound ==> MapSum(Row(m, a)) <= bound[a])
  }

  ghost function OtherRows<A(!new), B(!new)>(m: map<(A, B), int>, a: A): map<(A, B), int> {
    map k | k in m && k.0 != a :: m[k]
  }

  lemma OtherRowsUnder<A(!new), B(!new)>(m: map<(A, B), int>, bound: map<A, int>, a: A)
    requires RowsUnder(m, bound) && a in bound
    ensures RowsUnder(OtherRows(m, a), bound - {a})
  {
    forall b | b in bound - {a} ensures MapSum(Row(OtherRows(m, a), b)) <= (bound - {a})[b] {
      assert Row(OtherRows(m, a), b) == Row(m, b);
    }
  }

  /** If each row stays under its own bound, the whole table stays under the sum of the bounds. */
  lemma {:induction false} MapSumByRows<A(!new), B(!new)>(m: map<(A, B), int>, bound: map<A, int>)
    requires RowsUnder(m, bound)
    ensures MapSum(m) <= MapSum(bound)
    decreases |bound|
  {
    if bound == map[] {
      assert m == map[];
    } else {
      var a :| a in bound;
      MapSumSplit(m, Row(m, a), OtherRows(m, a));
      MapSumRemove(bound, a);
      OtherRowsUnder(m, bound, a);
      assert (bound - {a}).Keys == bound.Keys - {a};
      MapSumByRows(OtherRows(m, a), bound - {a});
    }
  }
}
