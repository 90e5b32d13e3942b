/**
 * Python's list comprehension with a condition, `[x for x in xs if keep(x)]`,
 * spelled out by positions: mark which elements pass, collect the marked
 * positions in ascending order, and pick the elements at those positions.
 */
module Subsequence {

  /** The positions `i` with `marks[i]`, in ascending order. */
  function Positions(marks: seq<bool>): (idx: seq<nat>)
    ensures forall j :: 0 <= j < |idx| ==> idx[j] < |marks| && marks[idx[j]]
  {
    if marks == [] then []
    else
      var n := |marks| - 1;
      Positions(marks[..n]) + (if marks[n] then [n] else [])
  }

  /** The elements of `xs` at the positions `idx`, in that order. */
  function Pick<T>(xs: seq<T>, idx: seq<nat>): (r: seq<T>)
    requires forall j :: 0 <= j < |idx| ==> idx[j] < |xs|
    ensures |r| == |idx| && forall j :: 0 <= j < |idx| ==> r[j] == xs[idx[j]]
  {
    seq(|idx|, j requires 0 <= j < |idx| => xs[idx[j]])
  }

  /**
   * The positions are strictly ascending, so picking keeps the input order and
   * never repeats an element, and every marked position is among them.
   */
  lemma {:induction false} PositionsSpec(marks: seq<bool>)
    ensures var idx := Positions(marks);
            && (forall j, k :: 0 <= j < k < |idx| ==> idx[j] < idx[k])
            && (forall i :: 0 <= i < |marks| ==> (marks[i] <==> i in idx))
    decreases |marks|
  {
    if marks != [] {
      var n := |marks| - 1;
      var init := marks[..n];
      PositionsSpec(init);
      var idx := Positions(marks);
      assert idx == Positions(init) + (if marks[n] then [n] else []);
      forall i | 0 <= i < |marks|
        ensures marks[i] <==> i in idx
      {
        if i < n {
          assert init[i] == marks[i];
          assert n !in Positions(init);
        }
      }
    }
  }

  /** Extending the marks by one position appends that position when it is marked. */
  lemma PositionsStep(marks: seq<bool>, i: nat)
    requires i < |marks|
    ensures Positions(marks[..i + 1]) == Positions(marks[..i]) + (if marks[i] then [i] else [])
  {
    assert marks[..i + 1][..i] == marks[..i];
  }

  lemma PickSnoc<T>(xs: seq<T>, idx: seq<nat>, i: nat)
    requires i < |xs| && forall j :: 0 <= j < |idx| ==> idx[j] < |xs|
    ensures Pick(xs, idx + [i]) == Pick(xs, idx) + [xs[i]]
  {
    assert |Pick(xs, idx + [i])| == |Pick(xs, idx) + [xs[i]]|;
  }

  /** One more input element considered: it is picked exactly when it is marked. */
  lemma PickStep<T>(xs: seq<T>, marks: seq<bool>, i: nat)
    requires i < |marks| == |xs|
    ensures Pick(xs, Positions(marks[..i + 1])) == Pick(xs, Positions(marks[..i])) + (if marks[i] then [xs[i]] else [])
  {
    PositionsStep(marks, i);
    if marks[i] {
      PickSnoc(xs, Positions(marks[..i]), i);
    }
  }

  /** With every position marked, nothing is dropped. */
  lemma {:induction false} AllMarked(marks: seq<bool>)
    requires forall i :: 0 <= i < |marks| ==> marks[i]
    ensures |Positions(marks)| == |marks|
    decreases |marks|
  {
    if marks != [] {
      AllMarked(marks[..|marks| - 1]);
    }
  }

  /** No position marked, nothing picked. */
  lemma {:induction false} NoneMarked(marks: seq<bool>)
    requires forall i :: 0 <= i < |marks| ==> !marks[i]
    ensures Positions(marks) == []
    decreases |marks|
  {
    if marks != [] {
      NoneMarked(marks[..|marks| - 1]);
    }
  }

  /** At most one picked element per input element. */
  lemma PositionsBound(marks: seq<bool>)
    ensures |Positions(marks)| <= |marks|
  {
    var idx := Positions(marks);
    PositionsSpec(marks);
    if |idx| > |marks| {
      AscendingBound(idx, |marks|);
      assert false;
    }
  }

  /** A strictly ascending sequence of naturals below `n` has at most `n` entries. */
  lemma {:induction false} AscendingBound(idx: seq<nat>, n: nat)
    requires forall j, k :: 0 <= j < k < |idx| ==> idx[j] < idx[k]
    requires forall j :: 0 <= j < |idx| ==> idx[j] < n
    ensures |idx| <= n
    decreases n
  {
    if idx != [] {
      var init := idx[..|idx| - 1];
      assert idx[|idx| - 1] < n;
      forall j | 0 <= j < |init|
        ensures init[j] < n - 1
      {
        assert init[j] < idx[|idx| - 1];
      }
      AscendingBound(init, n - 1);
    }
  }

  /**
   * Marks that never overlap: the positions each of them selects add up to
   * the positions their union selects.
   */
  lemma {:induction false} DisjointCount(a: seq<bool>, b: seq<bool>, c: seq<bool>, u: seq<bool>)
    requires |a| == |b| == |c| == |u|
    requires forall i :: 0 <= i < |u| ==> u[i] == (a[i] || b[i] || c[i])
    requires forall i :: 0 <= i < |u| ==> !(a[i] && b[i]) && !(a[i] && c[i]) && !(b[i] && c[i])
    ensures |Positions(a)| + |Positions(b)| + |Positions(c)| == |Positions(u)|
    decreases |u|
  {
    if u != [] {
      var n := |u| - 1;
      DisjointCount(a[..n], b[..n], c[..n], u[..n]);
    }
  }
}
