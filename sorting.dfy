/**
 * The library calls the providers use to order their results: a stable
 * sort by start position (`sort_by` on (line, character)) and the
 * removal of consecutive duplicates (`dedup_by`).
 */
module Sorting {
  import opened CoreTypes

  /** (line, character) order on positions. */
  predicate KeyLe(a: Position, b: Position)
  {
    a.line < b.line || (a.line == b.line && a.character <= b.character)
  }

  predicate SortedBy<T>(xs: seq<T>, key: T -> Position)
  {
    forall i, j :: 0 <= i < j < |xs| ==> KeyLe(key(xs[i]), key(xs[j]))
  }

  /** The elements whose key is `p`, in their order. */
  function WithKey<T>(xs: seq<T>, key: T -> Position, p: Position): seq<T>
  {
    if xs == [] then []
    else WithKey(xs[..|xs| - 1], key, p) + (if key(xs[|xs| - 1]) == p then [xs[|xs| - 1]] else [])
  }

  /** Puts `x` after every element of the sorted `ys` whose key is not greater. */
  function InsertAfterEqual<T>(ys: seq<T>, x: T, key: T -> Position): seq<T>
  {
    if ys == [] || KeyLe(key(ys[|ys| - 1]), key(x)) then ys + [x]
    else InsertAfterEqual(ys[..|ys| - 1], x, key) + [ys[|ys| - 1]]
  }

  /** A stable sort by key, as `sort_by` performs it. */
  function SortBy<T>(xs: seq<T>, key: T -> Position): seq<T>
  {
    if xs == [] then [] else InsertAfterEqual(SortBy(xs[..|xs| - 1], key), xs[|xs| - 1], key)
  }

  lemma {:induction false} InsertAfterEqualMultiset<T>(ys: seq<T>, x: T, key: T -> Position)
    ensures multiset(InsertAfterEqual(ys, x, key)) == multiset(ys) + multiset{x}
  {
    if !(ys == [] || KeyLe(key(ys[|ys| - 1]), key(x))) {
      InsertAfterEqualMultiset(ys[..|ys| - 1], x, key);
      assert ys == ys[..|ys| - 1] + [ys[|ys| - 1]];
    }
  }

  lemma {:induction false} InsertAfterEqualSorted<T>(ys: seq<T>, x: T, key: T -> Position)
    requires SortedBy(ys, key)
    ensures SortedBy(InsertAfterEqual(ys, x, key), key)
  {
    var r := InsertAfterEqual(ys, x, key);
    if !(ys == [] || KeyLe(key(ys[|ys| - 1]), key(x))) {
      var init := ys[..|ys| - 1];
      var last := ys[|ys| - 1];
      var r' := InsertAfterEqual(init, x, key);
      InsertAfterEqualSorted(init, x, key);
      InsertAfterEqualMultiset(init, x, key);
      assert r == r' + [last];
      forall i, j | 0 <= i < j < |r| ensures KeyLe(key(r[i]), key(r[j])) {
        if j == |r| - 1 {
          assert r[i] == r'[i];
          assert r[i] in multiset(r');
          if r[i] != x {
            assert r[i] in multiset(init);
            var k :| 0 <= k < |init| && init[k] == r[i];
            assert ys[k] == r[i];
          }
        } else {
          assert r[i] == r'[i] && r[j] == r'[j];
        }
      }
    }
  }

  lemma {:induction false} InsertAfterEqualWithKey<T>(ys: seq<T>, x: T, key: T -> Position, p: Position)
    requires SortedBy(ys, key)
    ensures WithKey(InsertAfterEqual(ys, x, key), key, p) == WithKey(ys, key, p) + (if key(x) == p then [x] else [])
  {
    var r := InsertAfterEqual(ys, x, key);
    if ys == [] || KeyLe(key(ys[|ys| - 1]), key(x)) {
      assert r[..|r| - 1] == ys;
    } else {
      var init := ys[..|ys| - 1];
      var last := ys[|ys| - 1];
      var r' := InsertAfterEqual(init, x, key);
      InsertAfterEqualWithKey(init, x, key, p);
      assert r[..|r| - 1] == r';
      if key(x) == p {
        assert key(last) != p;
      }
    }
  }

  /** The sort orders by key. */
  lemma {:induction false} SortBySorted<T>(xs: seq<T>, key: T -> Position)
    ensures SortedBy(SortBy(xs, key), key)
    ensures multiset(SortBy(xs, key)) == multiset(xs)
  {
    if xs != [] {
      SortBySorted(xs[..|xs| - 1], key);
      InsertAfterEqualSorted(SortBy(xs[..|xs| - 1], key), xs[|xs| - 1], key);
      InsertAfterEqualMultiset(SortBy(xs[..|xs| - 1], key), xs[|xs| - 1], key);
      assert xs == xs[..|xs| - 1] + [xs[|xs| - 1]];
    }
  }

  /** Elements with equal keys keep their input order. */
  lemma {:induction false} SortByStable<T>(xs: seq<T>, key: T -> Position, p: Position)
    ensures WithKey(SortBy(xs, key), key, p) == WithKey(xs, key, p)
  {
    if xs != [] {
      SortBySorted(xs[..|xs| - 1], key);
      SortByStable(xs[..|xs| - 1], key, p);
      InsertAfterEqualWithKey(SortBy(xs[..|xs| - 1], key), xs[|xs| - 1], key, p);
    }
  }

  /** `dedup_by` on a key: drops an element whose key equals its predecessor's. */
  function DedupBy<T, K(==)>(xs: seq<T>, k: T -> K): (r: seq<T>)
    ensures |r| <= |xs|
  {
    if |xs| <= 1 then xs
    else if k(xs[|xs| - 1]) == k(xs[|xs| - 2]) then DedupBy(xs[..|xs| - 1], k)
    else DedupBy(xs[..|xs| - 1], k) + [xs[|xs| - 1]]
  }

  lemma {:induction false} DedupByLast<T, K>(xs: seq<T>, k: T -> K)
    requires |xs| > 0
    ensures |DedupBy(xs, k)| > 0 && k(DedupBy(xs, k)[|DedupBy(xs, k)| - 1]) == k(xs[|xs| - 1])
  {
    if |xs| > 1 {
      DedupByLast(xs[..|xs| - 1], k);
    }
  }

  /** No two neighbours of the result have equal keys. */
  lemma {:induction false} DedupByNoAdjacent<T, K>(xs: seq<T>, k: T -> K)
    ensures forall i :: 0 < i < |DedupBy(xs, k)| ==> k(DedupBy(xs, k)[i - 1]) != k(DedupBy(xs, k)[i])
  {
    if |xs| > 1 {
      var init := xs[..|xs| - 1];
      DedupByNoAdjacent(init, k);
      DedupByLast(init, k);
    }
  }

  /** Every element of the result comes from the input. */
  lemma {:induction false} DedupBySubset<T, K>(xs: seq<T>, k: T -> K)
    ensures forall y :: y in DedupBy(xs, k) ==> y in xs
  {
    if |xs| > 1 {
      DedupBySubset(xs[..|xs| - 1], k);
      assert xs == xs[..|xs| - 1] + [xs[|xs| - 1]];
    }
  }

  /** Every key of the input is kept by some element of the result. */
  lemma {:induction false} DedupByCovers<T, K>(xs: seq<T>, k: T -> K, x: T)
    requires x in xs
    ensures exists y :: y in DedupBy(xs, k) && k(y) == k(x)
  {
    if |xs| > 1 {
      var init := xs[..|xs| - 1];
      var last := xs[|xs| - 1];
      assert xs == init + [last];
      if x == last && k(last) == k(xs[|xs| - 2]) {
        assert xs[|xs| - 2] == init[|init| - 1];
        DedupByCovers(init, k, xs[|xs| - 2]);
      } else if x != last {
        DedupByCovers(init, k, x);
        var y :| y in DedupBy(init, k) && k(y) == k(x);
        assert y in DedupBy(xs, k);
      } else {
        assert x in DedupBy(xs, k);
      }
    } else {
      assert DedupBy(xs, k) == xs;
    }
  }

  /** Removing duplicates from a sorted sequence leaves it sorted. */
  lemma {:induction false} DedupBySorted<T, K>(xs: seq<T>, k: T -> K, key: T -> Position)
    requires SortedBy(xs, key)
    ensures SortedBy(DedupBy(xs, k), key)
  {
    if |xs| > 1 {
      var init := xs[..|xs| - 1];
      var last := xs[|xs| - 1];
      DedupBySorted(init, k, key);
      DedupBySubset(init, k);
      if k(last) != k(xs[|xs| - 2]) {
        var d := DedupBy(init, k);
        var r := d + [last];
        forall i, j | 0 <= i < j < |r| ensures KeyLe(key(r[i]), key(r[j])) {
          if j == |r| - 1 {
            assert r[i] in d;
            assert r[i] in init;
            var m :| 0 <= m < |init| && init[m] == r[i];
            assert xs[m] == r[i];
          }
        }
      }
    }
  }

  /**
   * Sorting by `key` and then dropping neighbours of equal `k` leaves a
   * sorted sequence without adjacent duplicates that keeps every `k` of
   * the input and holds nothing else.
   */
  lemma SortThenDedup<T, K>(xs: seq<T>, key: T -> Position, k: T -> K)
    ensures SortedBy(DedupBy(SortBy(xs, key), k), key)
    ensures forall i :: 0 < i < |DedupBy(SortBy(xs, key), k)| ==>
      k(DedupBy(SortBy(xs, key), k)[i - 1]) != k(DedupBy(SortBy(xs, key), k)[i])
    ensures forall x :: x in xs ==> exists y :: y in DedupBy(SortBy(xs, key), k) && k(y) == k(x)
    ensures forall y :: y in DedupBy(SortBy(xs, key), k) ==> y in xs
  {
    var sorted := SortBy(xs, key);
    SortBySorted(xs, key);
    DedupBySorted(sorted, k, key);
    DedupByNoAdjacent(sorted, k);
    DedupBySubset(sorted, k);
    forall x | x in xs ensures exists y :: y in DedupBy(sorted, k) && k(y) == k(x) {
      assert x in multiset(sorted);
      DedupByCovers(sorted, k, x);
    }
    forall y | y in DedupBy(sorted, k) ensures y in xs {
      assert y in multiset(xs);
    }
  }
}
