/**
 * Python's `list.sort(key=...)` and `sorted(..., key=...)` on a list whose keys
 * have been computed up front: each element travels as a (key, item) pair. The
 * sort is stable, so elements with equal keys keep their input order. It is
 * defined here as an insertion sort and characterised by three lemmas: the
 * result is ordered, a permutation of the input, and stable.
 */
module Sorting {
  import Text

  /** `lt` is a strict total order: irreflexive, transitive and total on distinct keys. */
  ghost predicate StrictTotalOrder<K(!new)>(lt: (K, K) -> bool) {
    && (forall a :: !lt(a, a))
    && (forall a, b, c :: lt(a, b) && lt(b, c) ==> lt(a, c))
    && (forall a, b :: a != b ==> lt(a, b) || lt(b, a))
  }

  /** No element's key is smaller than the key of an element before it. */
  ghost predicate Sorted<K, T>(s: seq<(K, T)>, lt: (K, K) -> bool) {
    forall i, j :: 0 <= i < j < |s| ==> !lt(s[j].0, s[i].0)
  }

  /** The elements whose key is `k`, in their order in `s`. */
  ghost function WithKey<K, T>(s: seq<(K, T)>, k: K): seq<(K, T)> {
    if s == [] then [] else (if s[0].0 == k then [s[0]] else []) + WithKey(s[1..], k)
  }

  /** Insert `x` into the sorted `s` after every element whose key is not greater than its own. */
  function Insert<K, T>(x: (K, T), s: seq<(K, T)>, lt: (K, K) -> bool): seq<(K, T)> {
    if s == [] || lt(x.0, s[0].0) then [x] + s else [s[0]] + Insert(x, s[1..], lt)
  }

  /** The stable sort of `s` by its keys. */
  function SortByKey<K, T>(s: seq<(K, T)>, lt: (K, K) -> bool): seq<(K, T)> {
    if s == [] then [] else Insert(s[|s| - 1], SortByKey(s[..|s| - 1], lt), lt)
  }

  /** The items of a sequence of pairs, without their keys. */
  function Items<K, T>(s: seq<(K, T)>): (r: seq<T>)
    ensures |r| == |s| && forall i :: 0 <= i < |s| ==> r[i] == s[i].1
  {
    seq(|s|, i requires 0 <= i < |s| => s[i].1)
  }

  lemma ItemsConcat<K, T>(a: seq<(K, T)>, b: seq<(K, T)>)
    ensures Items(a + b) == Items(a) + Items(b)
  {
    assert |Items(a + b)| == |Items(a) + Items(b)|;
    forall i | 0 <= i < |a + b|
      ensures Items(a + b)[i] == (Items(a) + Items(b))[i]
    {
      if i < |a| {
        assert (a + b)[i] == a[i];
      } else {
        assert (a + b)[i] == b[i - |a|];
      }
    }
  }

  // ---------------------------------------------------------------- permutation

  lemma {:induction false} InsertPermutes<K, T>(x: (K, T), s: seq<(K, T)>, lt: (K, K) -> bool)
    ensures multiset(Insert(x, s, lt)) == multiset(s) + multiset{x}
    decreases |s|
  {
    if s != [] && !lt(x.0, s[0].0) {
      InsertPermutes(x, s[1..], lt);
      assert s == [s[0]] + s[1..];
    }
  }

  /** Sorting rearranges the elements and neither adds nor drops any. */
  lemma {:induction false} SortPermutes<K, T>(s: seq<(K, T)>, lt: (K, K) -> bool)
    ensures multiset(SortByKey(s, lt)) == multiset(s)
    ensures |SortByKey(s, lt)| == |s|
    decreases |s|
  {
    if s != [] {
      var init := s[..|s| - 1];
      SortPermutes(init, lt);
      InsertPermutes(s[|s| - 1], SortByKey(init, lt), lt);
      assert s == init + [s[|s| - 1]];
    }
    assert |SortByKey(s, lt)| == |multiset(SortByKey(s, lt))|;
  }

  // ---------------------------------------------------------------- order

  lemma {:induction false} InsertSorted<K(!new), T>(x: (K, T), s: seq<(K, T)>, lt: (K, K) -> bool)
    requires StrictTotalOrder(lt) && Sorted(s, lt)
    ensures Sorted(Insert(x, s, lt), lt)
    decreases |s|
  {
    if s == [] {
    } else if lt(x.0, s[0].0) {
      AllAbove(x.0, s, lt);
    } else {
      InsertSorted(x, s[1..], lt);
      InsertPermutes(x, s[1..], lt);
      var r := Insert(x, s[1..], lt);
      forall j | 0 <= j < |r|
        ensures !lt(r[j].0, s[0].0)
      {
        assert r[j] in multiset(s[1..]) + multiset{x};
        if r[j] != x {
          var k :| 0 <= k < |s[1..]| && s[1..][k] == r[j];
          assert s[k + 1] == r[j];
        }
      }
    }
  }

  /** The result is ordered by key. */
  lemma {:induction false} SortSorted<K(!new), T>(s: seq<(K, T)>, lt: (K, K) -> bool)
    requires StrictTotalOrder(lt)
    ensures Sorted(SortByKey(s, lt), lt)
    decreases |s|
  {
    if s != [] {
      SortSorted(s[..|s| - 1], lt);
      InsertSorted(s[|s| - 1], SortByKey(s[..|s| - 1], lt), lt);
    }
  }

  // ---------------------------------------------------------------- stability

  lemma {:induction false} WithKeyConcat<K, T>(a: seq<(K, T)>, b: seq<(K, T)>, k: K)
    ensures WithKey(a + b, k) == WithKey(a, k) + WithKey(b, k)
    decreases |a|
  {
    if a == [] {
      assert a + b == b;
    } else {
      var head := if a[0].0 == k then [a[0]] else [];
      assert (a + b)[0] == a[0];
      assert (a + b)[1..] == a[1..] + b;
      WithKeyConcat(a[1..], b, k);
      assert WithKey(a + b, k) == head + (WithKey(a[1..], k) + WithKey(b, k));
      assert WithKey(a, k) == head + WithKey(a[1..], k);
    }
  }

  lemma {:induction false} WithKeyAbsent<K, T>(s: seq<(K, T)>, k: K)
    requires forall i :: 0 <= i < |s| ==> s[i].0 != k
    ensures WithKey(s, k) == []
    decreases |s|
  {
    if s != [] {
      WithKeyAbsent(s[1..], k);
    }
  }

  /** In a sorted sequence whose first key exceeds `k`, every key exceeds `k`. */
  lemma AllAbove<K(!new), T>(k: K, s: seq<(K, T)>, lt: (K, K) -> bool)
    requires StrictTotalOrder(lt) && Sorted(s, lt)
    requires s != [] && lt(k, s[0].0)
    ensures forall i :: 0 <= i < |s| ==> lt(k, s[i].0)
  {
    forall i | 0 <= i < |s|
      ensures lt(k, s[i].0)
    {
      if s[i].0 != s[0].0 {
        assert lt(s[0].0, s[i].0);
      }
    }
  }

  lemma {:induction false} InsertWithKey<K(!new), T>(x: (K, T), s: seq<(K, T)>, lt: (K, K) -> bool, k: K)
    requires StrictTotalOrder(lt) && Sorted(s, lt)
    ensures WithKey(Insert(x, s, lt), k) == WithKey(s, k) + (if x.0 == k then [x] else [])
    decreases |s|, 1
  {
    if s == [] {
      WithKeyCons(x, [], k);
    } else if lt(x.0, s[0].0) {
      InsertInFrontWithKey(x, s, lt, k);
    } else {
      InsertFurtherWithKey(x, s, lt, k);
    }
  }

  lemma InsertInFrontWithKey<K(!new), T>(x: (K, T), s: seq<(K, T)>, lt: (K, K) -> bool, k: K)
    requires StrictTotalOrder(lt) && Sorted(s, lt)
    requires s != [] && lt(x.0, s[0].0)
    ensures WithKey([x] + s, k) == WithKey(s, k) + (if x.0 == k then [x] else [])
  {
    WithKeyCons(x, s, k);
    if x.0 == k {
      NoneBelow(k, s, lt);
    }
  }

  lemma {:induction false} InsertFurtherWithKey<K(!new), T>(x: (K, T), s: seq<(K, T)>, lt: (K, K) -> bool, k: K)
    requires StrictTotalOrder(lt) && Sorted(s, lt)
    requires s != []
    ensures WithKey([s[0]] + Insert(x, s[1..], lt), k) == WithKey(s, k) + (if x.0 == k then [x] else [])
    decreases |s|, 0
  {
    var r := Insert(x, s[1..], lt);
    assert Sorted(s[1..], lt);
    InsertWithKey(x, s[1..], lt, k);
    WithKeyCons(s[0], r, k);
    WithKeyCons(s[0], s[1..], k);
    assert [s[0]] + s[1..] == s;
  }

  lemma WithKeyCons<K, T>(y: (K, T), r: seq<(K, T)>, k: K)
    ensures WithKey([y] + r, k) == (if y.0 == k then [y] else []) + WithKey(r, k)
  {
    assert ([y] + r)[1..] == r;
  }

  /** A sorted sequence whose first key exceeds `k` has no element with key `k`. */
  lemma NoneBelow<K(!new), T>(k: K, s: seq<(K, T)>, lt: (K, K) -> bool)
    requires StrictTotalOrder(lt) && Sorted(s, lt)
    requires s != [] && lt(k, s[0].0)
    ensures WithKey(s, k) == []
  {
    AllAbove(k, s, lt);
    assert forall i :: 0 <= i < |s| ==> s[i].0 != k;
    WithKeyAbsent(s, k);
  }

  /** Elements with equal keys come out in the order they went in. */
  lemma {:induction false} SortStable<K(!new), T>(s: seq<(K, T)>, lt: (K, K) -> bool, k: K)
    requires StrictTotalOrder(lt)
    ensures WithKey(SortByKey(s, lt), k) == WithKey(s, k)
    decreases |s|
  {
    if s != [] {
      var init := s[..|s| - 1];
      SortStable(init, lt, k);
      SortSorted(init, lt);
      InsertWithKey(s[|s| - 1], SortByKey(init, lt), lt, k);
      assert s == init + [s[|s| - 1]];
      WithKeyConcat(init, [s[|s| - 1]], k);
    }
  }

  // ---------------------------------------------------------------- already sorted

  lemma {:induction false} InsertAtEnd<K, T>(x: (K, T), s: seq<(K, T)>, lt: (K, K) -> bool)
    requires forall i :: 0 <= i < |s| ==> !lt(x.0, s[i].0)
    ensures Insert(x, s, lt) == s + [x]
    decreases |s|
  {
    if s != [] {
      InsertAtEnd(x, s[1..], lt);
      assert s == [s[0]] + s[1..];
    }
  }

  /** Sorting a list that is already ordered leaves it as it is, so sorting twice is sorting once. */
  lemma {:induction false} SortOfSorted<K, T>(s: seq<(K, T)>, lt: (K, K) -> bool)
    requires Sorted(s, lt)
    ensures SortByKey(s, lt) == s
    decreases |s|
  {
    if s != [] {
      var init := s[..|s| - 1];
      assert Sorted(init, lt);
      SortOfSorted(init, lt);
      InsertAtEnd(s[|s| - 1], init, lt);
      assert s == init + [s[|s| - 1]];
    }
  }

  lemma SortIdempotent<K(!new), T>(s: seq<(K, T)>, lt: (K, K) -> bool)
    requires StrictTotalOrder(lt)
    ensures SortByKey(SortByKey(s, lt), lt) == SortByKey(s, lt)
  {
    SortSorted(s, lt);
    SortOfSorted(SortByKey(s, lt), lt);
  }

  // ---------------------------------------------------------------- the two key orders in use

  /** `<` on integers: the order of parsed instants. */
  function IntLt(a: int, b: int): bool {
    a < b
  }

  lemma IntLtIsStrictTotal()
    ensures StrictTotalOrder(IntLt)
  {
  }

  /** Python's `<` on strings is a strict total order. */
  lemma StringLessIsStrictTotal()
    ensures StrictTotalOrder(Text.Less)
  {
    forall a: string
      ensures !Text.Less(a, a)
    {
      Text.LessIrreflexive(a);
    }
    forall a: string, b: string, c: string | Text.Less(a, b) && Text.Less(b, c)
      ensures Text.Less(a, c)
    {
      Text.LessTransitive(a, b, c);
    }
    forall a: string, b: string | a != b
      ensures Text.Less(a, b) || Text.Less(b, a)
    {
      Text.LessTotal(a, b);
    }
  }
}
