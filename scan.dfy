/**
 * The shape shared by the two CSV scans: walk the lines from a start index, skip the ones a
 * test rejects, and turn each kept one into a record.
 */
module Scan {

  /** The images under `f` of the elements `s[i]`, `from <= i < n`, that pass `keep`, in order. */
  function FilterMap<T, U>(s: seq<T>, from: nat, n: nat, keep: T -> bool, f: T -> U): seq<U>
    requires n <= |s|
  {
    if n <= from then []
    else FilterMap(s, from, n - 1, keep, f) + (if keep(s[n - 1]) then [f(s[n - 1])] else [])
  }

  /** The indices of the elements kept by `FilterMap`, in order. */
  function KeptIndices<T>(s: seq<T>, from: nat, n: nat, keep: T -> bool): seq<nat>
    requires n <= |s|
  {
    if n <= from then []
    else KeptIndices(s, from, n - 1, keep) + (if keep(s[n - 1]) then [n - 1] else [])
  }

  predicate Increasing(s: seq<nat>) {
    forall i, j | 0 <= i < j < |s| :: s[i] < s[j]
  }

  /**
   * Output `k` comes from the `k`-th kept element; kept indices increase (file order) and
   * are exactly the indices in `[from, n)` whose element passes the test.
   */
  lemma {:induction false} FilterMapSpec<T, U>(s: seq<T>, from: nat, n: nat, keep: T -> bool, f: T -> U)
    requires n <= |s|
    ensures var idx, r := KeptIndices(s, from, n, keep), FilterMap(s, from, n, keep, f);
      && |idx| == |r|
      && Increasing(idx)
      && (forall k | 0 <= k < |idx| :: from <= idx[k] < n && keep(s[idx[k]]) && r[k] == f(s[idx[k]]))
      && (forall i | from <= i < n :: keep(s[i]) <==> i in idx)
  {
    if n > from {
      FilterMapSpec(s, from, n - 1, keep, f);
    }
  }

  /** At most one output per scanned element. */
  lemma {:induction false} FilterMapLength<T, U>(s: seq<T>, from: nat, n: nat, keep: T -> bool, f: T -> U)
    requires n <= |s|
    ensures |FilterMap(s, from, n, keep, f)| <= n
  {
    if n > from {
      FilterMapLength(s, from, n - 1, keep, f);
    }
  }

  /** Scanning further only appends kept indices. */
  lemma {:induction false} KeptPrefix<T>(s: seq<T>, from: nat, m: nat, n: nat, keep: T -> bool)
    requires m <= n <= |s|
    ensures var a, b := KeptIndices(s, from, m, keep), KeptIndices(s, from, n, keep);
      |a| <= |b| && a == b[..|a|]
  {
    if m < n {
      KeptPrefix(s, from, m, n - 1, keep);
    }
  }

  /** The first `cap` kept indices: the scan that stops once it has kept `cap` elements. */
  function FirstKept<T>(s: seq<T>, from: nat, n: nat, keep: T -> bool, cap: nat): (ids: seq<nat>)
    requires n <= |s|
    ensures |ids| <= cap
  {
    var all := KeptIndices(s, from, n, keep);
    if |all| <= cap then all else all[..cap]
  }

  /** The `k`-th of the first `cap` kept indices lies in the scanned range and passes the test. */
  lemma FirstKeptAt<T>(s: seq<T>, from: nat, n: nat, keep: T -> bool, cap: nat, k: nat)
    requires n <= |s| && k < |FirstKept(s, from, n, keep, cap)|
    ensures var i := FirstKept(s, from, n, keep, cap)[k];
      from <= i < n && keep(s[i])
  {
    FilterMapSpec(s, from, n, keep, x => x);
    assert FirstKept(s, from, n, keep, cap)[k] == KeptIndices(s, from, n, keep)[k];
  }

  /** The first `cap` kept indices are in file order. */
  lemma FirstKeptIncreasing<T>(s: seq<T>, from: nat, n: nat, keep: T -> bool, cap: nat)
    requires n <= |s|
    ensures Increasing(FirstKept(s, from, n, keep, cap))
  {
    FilterMapSpec(s, from, n, keep, x => x);
    var all, ids := KeptIndices(s, from, n, keep), FirstKept(s, from, n, keep, cap);
    assert forall k | 0 <= k < |ids| :: ids[k] == all[k];
  }

  /**
   * Index `i` is among the first `cap` kept indices exactly when its element passes and fewer
   * than `cap` elements before it were kept.
   */
  lemma FirstKeptMembers<T>(s: seq<T>, from: nat, n: nat, keep: T -> bool, cap: nat)
    requires n <= |s|
    ensures var ids := FirstKept(s, from, n, keep, cap);
      forall i | from <= i < n :: i in ids <==> keep(s[i]) && |KeptIndices(s, from, i, keep)| < cap
  {
    var all := KeptIndices(s, from, n, keep);
    var ids := FirstKept(s, from, n, keep, cap);
    FilterMapSpec(s, from, n, keep, x => x);
    assert forall k | 0 <= k < |ids| :: ids[k] == all[k];
    forall i | from <= i < n ensures i in ids <==> keep(s[i]) && |KeptIndices(s, from, i, keep)| < cap {
      KeptPrefix(s, from, i, n, keep);
      KeptPrefix(s, from, i + 1, n, keep);
      var before, upto := KeptIndices(s, from, i, keep), KeptIndices(s, from, i + 1, keep);
      FilterMapSpec(s, from, i, keep, x => x);
      if keep(s[i]) {
        assert upto == before + [i];
        assert all[|before|] == i;
        if |before| < cap {
          assert ids[|before|] == i;
        }
      }
      if i in ids {
        var k :| 0 <= k < |ids| && ids[k] == i;
        assert all[k] == i;
        assert upto == before + [i];
        assert all[|before|] == i;
      }
    }
  }

  /** A scan whose first `m` elements already kept `cap` has found all the `cap` it keeps. */
  lemma FirstKeptStops<T>(s: seq<T>, from: nat, m: nat, n: nat, keep: T -> bool, cap: nat)
    requires m <= n <= |s|
    requires |KeptIndices(s, from, m, keep)| == cap || (m == n && |KeptIndices(s, from, m, keep)| <= cap)
    ensures FirstKept(s, from, n, keep, cap) == KeptIndices(s, from, m, keep)
  {
    KeptPrefix(s, from, m, n, keep);
  }

  /** `s.map(f)`. */
  function MapSeq<A, B>(s: seq<A>, f: A -> B): (r: seq<B>)
    ensures |r| == |s|
  {
    if s == [] then [] else MapSeq(s[..|s| - 1], f) + [f(s[|s| - 1])]
  }

  lemma {:induction false} MapSeqAt<A, B>(s: seq<A>, f: A -> B, k: nat)
    requires k < |s|
    ensures MapSeq(s, f)[k] == f(s[k])
  {
    var n := |s| - 1;
    if k < n {
      assert s[..n][k] == s[k];
      MapSeqAt(s[..n], f, k);
    }
  }

  lemma MapSeqAppend<A, B>(s: seq<A>, x: A, f: A -> B)
    ensures MapSeq(s + [x], f) == MapSeq(s, f) + [f(x)]
  {
    assert (s + [x])[..|s|] == s;
  }

  // ---------------------------------------------------------------- Array.prototype.filter

  /** `s.filter(keep)`. */
  function Filter<T>(s: seq<T>, keep: T -> bool): (r: seq<T>)
    ensures |r| <= |s|
  {
    if s == [] then [] else (if keep(s[0]) then [s[0]] else []) + Filter(s[1..], keep)
  }

  /** `r` is `s` with some elements left out and the others in their order. */
  predicate Subsequence<T(==)>(r: seq<T>, s: seq<T>)
    decreases |s|
  {
    if r == [] then true
    else if s == [] then false
    else (r[0] == s[0] && Subsequence(r[1..], s[1..])) || Subsequence(r, s[1..])
  }

  /**
   * The filtered sequence keeps the order of `s`, and holds every element that passes as
   * many times as `s` does and no other.
   */
  lemma {:induction false} FilterSpec<T>(s: seq<T>, keep: T -> bool)
    ensures Subsequence(Filter(s, keep), s)
    ensures forall x :: multiset(Filter(s, keep))[x] == if keep(x) then multiset(s)[x] else 0
  {
    if s != [] {
      FilterSpec(s[1..], keep);
      assert s == [s[0]] + s[1..];
      var r := Filter(s, keep);
      if keep(s[0]) {
        assert r[0] == s[0] && r[1..] == Filter(s[1..], keep);
      } else {
        assert r == Filter(s[1..], keep);
        if r != [] {
          SubsequenceSkip(r, s);
        }
      }
    }
  }

  /** A subsequence of the tail is a subsequence of the whole. */
  lemma SubsequenceSkip<T>(r: seq<T>, s: seq<T>)
    requires s != [] && Subsequence(r, s[1..])
    ensures Subsequence(r, s)
  {
  }

  /** An element of the filtered sequence is exactly an element of `s` that passes. */
  lemma FilterMembers<T>(s: seq<T>, keep: T -> bool, x: T)
    ensures x in Filter(s, keep) <==> x in s && keep(x)
  {
    FilterSpec(s, keep);
    assert x in Filter(s, keep) <==> multiset(Filter(s, keep))[x] > 0;
    assert x in s <==> multiset(s)[x] > 0;
  }

  /** When every element passes, nothing is removed. */
  lemma {:induction false} FilterAll<T>(s: seq<T>, keep: T -> bool)
    requires forall i | 0 <= i < |s| :: keep(s[i])
    ensures Filter(s, keep) == s
  {
    if s != [] {
      FilterAll(s[1..], keep);
    }
  }

  /** Filtering depends only on which elements pass. */
  lemma {:induction false} FilterExt<T>(s: seq<T>, p: T -> bool, q: T -> bool)
    requires forall x :: p(x) == q(x)
    ensures Filter(s, p) == Filter(s, q)
  {
    if s != [] {
      FilterExt(s[1..], p, q);
    }
  }

  /** Two filters in a row are one filter by the conjunction of their tests. */
  lemma {:induction false} FilterFuse<T>(s: seq<T>, p: T -> bool, q: T -> bool, both: T -> bool)
    requires forall x :: both(x) == (p(x) && q(x))
    ensures Filter(Filter(s, p), q) == Filter(s, both)
  {
    if s != [] {
      FilterFuse(s[1..], p, q, both);
      var inner := Filter(s, p);
      assert both(s[0]) == (p(s[0]) && q(s[0]));
      assert Filter(s, both) == (if both(s[0]) then [s[0]] else []) + Filter(s[1..], both);
      if p(s[0]) {
        assert inner[0] == s[0] && inner[1..] == Filter(s[1..], p);
        assert Filter(inner, q) == (if q(s[0]) then [s[0]] else []) + Filter(inner[1..], q);
      } else {
        assert inner == Filter(s[1..], p);
      }
    }
  }
}
