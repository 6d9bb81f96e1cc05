/**
 * `Array.prototype.sort` with a comparator. Since ES2019 the sort is stable, so for a
 * consistent comparator its result is fixed: sorted, a permutation of the input, and
 * elements the comparator ties keep their input order. It is modelled as a stable
 * insertion sort over an order `le(a, b)`, "a may stay before b" (the comparator is <= 0).
 */
module Sorting {
  import opened Wrappers
  import opened Grouping

  ghost predicate TotalPreorder<T(!new)>(le: (T, T) -> bool) {
    && (forall a, b :: le(a, b) || le(b, a))
    && (forall a, b, c :: le(a, b) && le(b, c) ==> le(a, c))
  }

  predicate SortedBy<T>(s: seq<T>, le: (T, T) -> bool) {
    forall i, j | 0 <= i < j < |s| :: le(s[i], s[j])
  }

  /** Put `x` after every element it does not precede. */
  function InsertBy<T>(s: seq<T>, x: T, le: (T, T) -> bool): (r: seq<T>)
    ensures multiset(r) == multiset(s) + multiset{x}
  {
    if s == [] then [x]
    else if le(s[0], x) then
      assert s == [s[0]] + s[1..];
      [s[0]] + InsertBy(s[1..], x, le)
    else [x] + s
  }

  /** The stable sort: each element in turn is inserted after its equals. */
  function SortBy<T>(s: seq<T>, le: (T, T) -> bool): (r: seq<T>)
    ensures multiset(r) == multiset(s)
    ensures |r| == |s|
  {
    if s == [] then []
    else
      var init, x := s[..|s| - 1], s[|s| - 1];
      assert s == init + [x];
      assert multiset(s) == multiset(init) + multiset{x};
      InsertBy(SortBy(init, le), x, le)
  }

  /** `s.slice(0, n)`. */
  function Take<T>(s: seq<T>, n: nat): (r: seq<T>)
    ensures |r| == Min(n, |s|)
    ensures forall i | 0 <= i < |r| :: r[i] == s[i]
  {
    if n <= |s| then s[..n] else s
  }

  // ---------------------------------------------------------------- sorted

  lemma {:induction false} InsertSorted<T(!new)>(s: seq<T>, x: T, le: (T, T) -> bool)
    requires TotalPreorder(le) && SortedBy(s, le)
    ensures SortedBy(InsertBy(s, x, le), le)
  {
    if s != [] {
      if le(s[0], x) {
        var tail := InsertBy(s[1..], x, le);
        InsertSorted(s[1..], x, le);
        forall k | 0 <= k < |tail| ensures le(s[0], tail[k]) {
          assert tail[k] in multiset(tail);
          if tail[k] != x {
            assert tail[k] in multiset(s[1..]);
            var m :| 0 <= m < |s[1..]| && s[1..][m] == tail[k];
            assert s[m + 1] == tail[k];
          }
        }
        var r := [s[0]] + tail;
        forall i, j | 0 <= i < j < |r| ensures le(r[i], r[j]) {
          if i > 0 {
            assert r[i] == tail[i - 1] && r[j] == tail[j - 1];
          }
        }
      } else {
        var r := [x] + s;
        forall i, j | 0 <= i < j < |r| ensures le(r[i], r[j]) {
          if i == 0 {
            assert le(x, s[0]);
            if j > 1 {
              assert le(s[0], s[j - 1]);
            }
          }
        }
      }
    }
  }

  /** The result is ordered by `le` throughout. */
  lemma {:induction false} SortBySorted<T(!new)>(s: seq<T>, le: (T, T) -> bool)
    requires TotalPreorder(le)
    ensures SortedBy(SortBy(s, le), le)
  {
    if s != [] {
      SortBySorted(s[..|s| - 1], le);
      InsertSorted(SortBy(s[..|s| - 1], le), s[|s| - 1], le);
    }
  }

  // ---------------------------------------------------------------- stable

  predicate Equiv<T>(a: T, b: T, le: (T, T) -> bool) {
    le(a, b) && le(b, a)
  }

  /** The elements of `s` that the order ties with `y`, in their order in `s`. */
  function Ties<T>(s: seq<T>, y: T, le: (T, T) -> bool): seq<T> {
    if s == [] then []
    else (if Equiv(s[0], y, le) then [s[0]] else []) + Ties(s[1..], y, le)
  }

  lemma {:induction false} TiesAppend<T>(s: seq<T>, x: T, y: T, le: (T, T) -> bool)
    ensures Ties(s + [x], y, le) == Ties(s, y, le) + (if Equiv(x, y, le) then [x] else [])
  {
    if s != [] {
      assert (s + [x])[1..] == s[1..] + [x];
      TiesAppend(s[1..], x, y, le);
    }
  }

  lemma TiesLast<T>(s: seq<T>, y: T, le: (T, T) -> bool)
    requires s != []
    ensures Ties(s, y, le) == Ties(s[..|s| - 1], y, le) + (if Equiv(s[|s| - 1], y, le) then [s[|s| - 1]] else [])
  {
    assert s == s[..|s| - 1] + [s[|s| - 1]];
    TiesAppend(s[..|s| - 1], s[|s| - 1], y, le);
  }

  lemma {:induction false} TiesNone<T>(s: seq<T>, y: T, le: (T, T) -> bool)
    requires forall i | 0 <= i < |s| :: !Equiv(s[i], y, le)
    ensures Ties(s, y, le) == []
  {
    if s != [] {
      assert forall i | 0 <= i < |s[1..]| :: s[1..][i] == s[i + 1];
      TiesNone(s[1..], y, le);
    }
  }

  lemma {:induction false} InsertTies<T(!new)>(s: seq<T>, x: T, y: T, le: (T, T) -> bool)
    requires TotalPreorder(le) && SortedBy(s, le)
    ensures Ties(InsertBy(s, x, le), y, le) == Ties(s, y, le) + (if Equiv(x, y, le) then [x] else [])
  {
    if s != [] {
      var r := InsertBy(s, x, le);
      if le(s[0], x) {
        var tail := InsertBy(s[1..], x, le);
        var head: seq<T> := if Equiv(s[0], y, le) then [s[0]] else [];
        var extra: seq<T> := if Equiv(x, y, le) then [x] else [];
        SortedTail(s, le);
        InsertTies(s[1..], x, y, le);
        assert r[0] == s[0] && r[1..] == tail;
        calc {
          Ties(r, y, le);
          head + Ties(tail, y, le);
          head + (Ties(s[1..], y, le) + extra);
          { AppendAssociative(head, Ties(s[1..], y, le), extra); }
          (head + Ties(s[1..], y, le)) + extra;
          Ties(s, y, le) + extra;
        }
      } else {
        assert r[0] == x && r[1..] == s;
        if Equiv(x, y, le) {
          NothingTiedAfterGreater(s, x, y, le);
        }
      }
    }
  }

  lemma AppendAssociative<T>(a: seq<T>, b: seq<T>, c: seq<T>)
    ensures a + (b + c) == (a + b) + c
  {
  }

  lemma SortedTail<T>(s: seq<T>, le: (T, T) -> bool)
    requires s != [] && SortedBy(s, le)
    ensures SortedBy(s[1..], le)
  {
    var t := s[1..];
    forall i, j | 0 <= i < j < |t| ensures le(t[i], t[j]) {
      assert t[i] == s[i + 1] && t[j] == s[j + 1];
    }
  }

  /** In a sorted sequence that starts above `x`, nothing is tied with `x`. */
  lemma NothingTiedAfterGreater<T(!new)>(s: seq<T>, x: T, y: T, le: (T, T) -> bool)
    requires TotalPreorder(le) && SortedBy(s, le)
    requires s != [] && !le(s[0], x) && Equiv(x, y, le)
    ensures Ties(s, y, le) == []
  {
    forall i | 0 <= i < |s| ensures !Equiv(s[i], y, le) {
      if i > 0 {
        assert le(s[0], s[i]);
      }
    }
    TiesNone(s, y, le);
  }

  /** Stability: the elements tied with any `y` come out in their input order. */
  lemma {:induction false} SortByStable<T(!new)>(s: seq<T>, y: T, le: (T, T) -> bool)
    requires TotalPreorder(le)
    ensures Ties(SortBy(s, le), y, le) == Ties(s, y, le)
  {
    if s != [] {
      var init, x := s[..|s| - 1], s[|s| - 1];
      var sortedInit := SortBy(init, le);
      assert SortBy(s, le) == InsertBy(sortedInit, x, le);
      SortByStable(init, y, le);
      SortBySorted(init, le);
      InsertTies(sortedInit, x, y, le);
      TiesLast(s, y, le);
    }
  }

  /**
   * `.sort(...).slice(0, n)`: at most `n` elements, drawn from the input, and each one
   * kept may precede every one left out.
   */
  lemma TopSpec<T(!new)>(s: seq<T>, n: nat, le: (T, T) -> bool)
    requires TotalPreorder(le)
    ensures |Take(SortBy(s, le), n)| == Min(n, |s|)
    ensures multiset(Take(SortBy(s, le), n)) <= multiset(s)
    ensures forall a, b | a in Take(SortBy(s, le), n) && b in multiset(s) - multiset(Take(SortBy(s, le), n)) :: le(a, b)
  {
    var sorted := SortBy(s, le);
    var k := Min(n, |s|);
    var top, rest := sorted[..k], sorted[k..];
    assert sorted == top + rest;
    assert Take(sorted, n) == top;
    assert multiset(s) == multiset(top) + multiset(rest);
    SortBySorted(s, le);
    forall a, b | a in top && b in multiset(s) - multiset(top) ensures le(a, b) {
      var i :| 0 <= i < |top| && top[i] == a;
      assert b in rest;
      var j :| 0 <= j < |rest| && rest[j] == b;
      assert sorted[i] == a && sorted[k + j] == b;
    }
  }

  // ---------------------------------------------------------------- the orders used

  /** `(a, b) => b.valor - a.valor`: larger counts first. */
  predicate ByCountDesc<K>(a: Entry<K>, b: Entry<K>) {
    a.count >= b.count
  }

  lemma {:induction false} InsertEntries<K>(s: seq<Entry<K>>, x: Entry<K>, le: (Entry<K>, Entry<K>) -> bool)
    ensures multiset(Keys(InsertBy(s, x, le))) == multiset(Keys(s)) + multiset{x.key}
    ensures SumCounts(InsertBy(s, x, le)) == SumCounts(s) + x.count
  {
    var r := InsertBy(s, x, le);
    if s != [] && le(s[0], x) {
      InsertEntries(s[1..], x, le);
      assert r[0] == s[0] && r[1..] == InsertBy(s[1..], x, le);
      assert Keys(r) == [s[0].key] + Keys(r[1..]);
      assert Keys(s) == [s[0].key] + Keys(s[1..]);
    } else {
      assert r[0] == x && r[1..] == s;
      assert Keys(r) == [x.key] + Keys(s);
    }
  }

  /** Sorting a counting map keeps its multiset of keys and its total. */
  lemma {:induction false} SortEntries<K>(m: seq<Entry<K>>, le: (Entry<K>, Entry<K>) -> bool)
    ensures multiset(Keys(SortBy(m, le))) == multiset(Keys(m))
    ensures SumCounts(SortBy(m, le)) == SumCounts(m)
  {
    if m != [] {
      var init, x := m[..|m| - 1], m[|m| - 1];
      SortEntries(init, le);
      InsertEntries(SortBy(init, le), x, le);
      EntriesLast(m);
    }
  }

  lemma EntriesLast<K>(m: seq<Entry<K>>)
    requires m != []
    ensures multiset(Keys(m)) == multiset(Keys(m[..|m| - 1])) + multiset{m[|m| - 1].key}
    ensures SumCounts(m) == SumCounts(m[..|m| - 1]) + m[|m| - 1].count
  {
    assert m == m[..|m| - 1] + [m[|m| - 1]];
    KeysAppend(m[..|m| - 1], m[|m| - 1]);
    SumAppend(m[..|m| - 1], m[|m| - 1]);
  }

  lemma {:induction false} SumAppend<K>(m: seq<Entry<K>>, e: Entry<K>)
    ensures SumCounts(m + [e]) == SumCounts(m) + e.count
  {
    if m != [] {
      assert (m + [e])[1..] == m[1..] + [e];
      SumAppend(m[1..], e);
    }
  }

  /** The first `n` entries of a counting map count no more than all of them. */
  lemma {:induction false} SumTake<K>(m: seq<Entry<K>>, n: nat)
    ensures SumCounts(Take(m, n)) <= SumCounts(m)
  {
    if n > 0 && m != [] {
      assert Take(m, n)[1..] == Take(m[1..], n - 1);
      SumTake(m[1..], n - 1);
    }
  }

  /**
   * A sorted counting map of `ks`: one entry per distinct key, each key of `ks` present,
   * every count the number of occurrences of its key, and the counts adding up to `|ks|`.
   */
  lemma SortedTally<K>(ks: seq<K>, le: (Entry<K>, Entry<K>) -> bool)
    ensures Distinct(Keys(SortBy(Tally(ks), le)))
    ensures |SortBy(Tally(ks), le)| == |Dedup(ks)|
    ensures SumCounts(SortBy(Tally(ks), le)) == |ks|
    ensures forall k :: k in Keys(SortBy(Tally(ks), le)) <==> k in ks
    ensures forall i | 0 <= i < |SortBy(Tally(ks), le)| ::
      var e := SortBy(Tally(ks), le)[i]; e.key in ks && e.count == multiset(ks)[e.key] >= 1
  {
    SortedTallyKeys(ks, le);
    SortedTallySum(ks, le);
    SortedTallyEntries(ks, le);
  }

  lemma SortedTallyKeys<K>(ks: seq<K>, le: (Entry<K>, Entry<K>) -> bool)
    ensures Distinct(Keys(SortBy(Tally(ks), le)))
    ensures |SortBy(Tally(ks), le)| == |Dedup(ks)|
    ensures forall k :: k in Keys(SortBy(Tally(ks), le)) <==> k in ks
  {
    var m := Tally(ks);
    var r := SortBy(m, le);
    TallyEntries(ks);
    TallyCorrect(ks);
    DedupSpec(ks);
    SortEntries(m, le);
    DistinctMultiset(Keys(m));
    DistinctMultiset(Keys(r));
    forall k ensures k in Keys(r) <==> k in ks {
      assert k in Keys(r) <==> k in multiset(Keys(r));
      assert k in Keys(m) <==> k in multiset(Keys(m));
    }
  }

  lemma SortedTallySum<K>(ks: seq<K>, le: (Entry<K>, Entry<K>) -> bool)
    ensures SumCounts(SortBy(Tally(ks), le)) == |ks|
  {
    TallyCorrect(ks);
    SortEntries(Tally(ks), le);
  }

  lemma SortedTallyEntries<K>(ks: seq<K>, le: (Entry<K>, Entry<K>) -> bool)
    ensures forall i | 0 <= i < |SortBy(Tally(ks), le)| ::
      var e := SortBy(Tally(ks), le)[i]; e.key in ks && e.count == multiset(ks)[e.key] >= 1
  {
    var m := Tally(ks);
    var r := SortBy(m, le);
    TallyEntries(ks);
    forall i | 0 <= i < |r| ensures r[i].key in ks && r[i].count == multiset(ks)[r[i].key] >= 1 {
      assert r[i] in multiset(r);
      var p :| 0 <= p < |m| && m[p] == r[i];
    }
  }

  /**
   * `Array.from(counts.entries()).sort((a, b) => b.valor - a.valor).slice(0, n)`: at most `n`
   * entries, by non-increasing count, each key once with its number of occurrences in `ks`;
   * a key left out occurs no more often than any key kept.
   */
  lemma TopCounts<K(!new)>(ks: seq<K>, n: nat)
    ensures var top := Take(SortBy(Tally(ks), ByCountDesc), n);
      && |top| == Min(n, |Dedup(ks)|)
      && SortedBy(top, ByCountDesc)
      && Distinct(Keys(top))
      && (forall i | 0 <= i < |top| :: top[i].key in ks && top[i].count == multiset(ks)[top[i].key] >= 1)
      && (forall i, d | 0 <= i < |top| && d in ks && d !in Keys(top) :: multiset(ks)[d] <= top[i].count)
  {
    TopCountsShape(ks, n);
    TopCountsEntries(ks, n);
    TopCountsLeftOut(ks, n);
  }

  /** The kept entries' keys are the first keys of the sorted map. */
  lemma TopKeys<K>(sorted: seq<Entry<K>>, n: nat)
    ensures |Keys(sorted)| == |sorted|
    ensures Keys(Take(sorted, n)) == Keys(sorted)[..|Take(sorted, n)|]
  {
    var top := Take(sorted, n);
    KeysLength(top);
    KeysLength(sorted);
    forall p | 0 <= p < |top| ensures Keys(top)[p] == Keys(sorted)[p] {
      KeysAt(top, p);
      KeysAt(sorted, p);
    }
  }

  lemma TopCountsShape<K(!new)>(ks: seq<K>, n: nat)
    ensures var top := Take(SortBy(Tally(ks), ByCountDesc), n);
      && |top| == Min(n, |Dedup(ks)|)
      && SortedBy(top, ByCountDesc)
      && Distinct(Keys(top))
  {
    var sorted := SortBy(Tally(ks), ByCountDesc<K>);
    var top := Take(sorted, n);
    SortedByCount(Tally(ks));
    SortedTake(sorted, n, ByCountDesc<K>);
    SortedTallyKeys(ks, ByCountDesc<K>);
    TopKeys(sorted, n);
    KeysLength(sorted);
    DistinctPrefix(Keys(sorted), |top|);
  }

  /** Sorting by decreasing count orders by decreasing count. */
  lemma SortedByCount<K(!new)>(m: seq<Entry<K>>)
    ensures SortedBy(SortBy(m, ByCountDesc), ByCountDesc)
  {
    ByCountDescTotal<K>();
    SortBySorted(m, ByCountDesc<K>);
  }

  /** A prefix of a sorted sequence is sorted. */
  lemma SortedTake<T>(s: seq<T>, n: nat, le: (T, T) -> bool)
    requires SortedBy(s, le)
    ensures SortedBy(Take(s, n), le)
  {
    var top := Take(s, n);
    forall i, j | 0 <= i < j < |top| ensures le(top[i], top[j]) {
      assert top[i] == s[i] && top[j] == s[j];
    }
  }

  lemma TopCountsEntries<K(!new)>(ks: seq<K>, n: nat)
    ensures var top := Take(SortBy(Tally(ks), ByCountDesc), n);
      forall i | 0 <= i < |top| :: top[i].key in ks && top[i].count == multiset(ks)[top[i].key] >= 1
  {
    SortedTallyEntries(ks, ByCountDesc<K>);
  }

  lemma TopCountsLeftOut<K(!new)>(ks: seq<K>, n: nat)
    ensures var top := Take(SortBy(Tally(ks), ByCountDesc), n);
      forall i, d | 0 <= i < |top| && d in ks && d !in Keys(top) :: multiset(ks)[d] <= top[i].count
  {
    var sorted := SortBy(Tally(ks), ByCountDesc<K>);
    var top := Take(sorted, n);
    SortedByCount(Tally(ks));
    SortedTallyKeys(ks, ByCountDesc<K>);
    SortedTallyEntries(ks, ByCountDesc<K>);
    TopKeys(sorted, n);
    forall i, d | 0 <= i < |top| && d in ks && d !in Keys(top) ensures multiset(ks)[d] <= top[i].count {
      KeysIn(sorted, d);
      var q :| 0 <= q < |sorted| && sorted[q].key == d;
      KeysIn(top, d);
      assert q >= |top|;
      assert ByCountDesc(sorted[i], sorted[q]);
    }
  }

  /** `.sort((a, b) => b.value - a.value)` over a counting map, uncapped. */
  lemma SortedCounts<K(!new)>(ks: seq<K>)
    ensures var dist := SortBy(Tally(ks), ByCountDesc);
      && SortedBy(dist, ByCountDesc)
      && Distinct(Keys(dist))
      && (forall i | 0 <= i < |dist| :: dist[i].key in ks && dist[i].count == multiset(ks)[dist[i].key] >= 1)
      && SumCounts(dist) == |ks|
  {
    ByCountDescTotal<K>();
    SortBySorted(Tally(ks), ByCountDesc<K>);
    SortedTally(ks, ByCountDesc<K>);
  }

  lemma ByCountDescTotal<K(!new)>()
    ensures TotalPreorder(ByCountDesc<K>)
  {
  }

  /** Code-point lexicographic order: `a` is a prefix of `b` or the first difference is smaller in `a`. */
  predicate StrLe(a: string, b: string) {
    a == [] || (b != [] && (a[0] < b[0] || (a[0] == b[0] && StrLe(a[1..], b[1..]))))
  }

  lemma {:induction false} StrLeTotal(a: string, b: string)
    ensures StrLe(a, b) || StrLe(b, a)
  {
    if a != [] && b != [] && a[0] == b[0] {
      StrLeTotal(a[1..], b[1..]);
    }
  }

  lemma {:induction false} StrLeTrans(a: string, b: string, c: string)
    requires StrLe(a, b) && StrLe(b, c)
    ensures StrLe(a, c)
  {
    if a != [] && a[0] == b[0] && b[0] == c[0] {
      StrLeTrans(a[1..], b[1..], c[1..]);
    }
  }

  lemma {:induction false} StrLeAntisymmetric(a: string, b: string)
    requires StrLe(a, b) && StrLe(b, a)
    ensures a == b
  {
    if a != [] {
      StrLeAntisymmetric(a[1..], b[1..]);
      assert a == [a[0]] + a[1..] && b == [b[0]] + b[1..];
    }
  }

  /** `(a, b) => a.mes.localeCompare(b.mes)` on the keys, read as code-point order. */
  predicate ByKeyAsc(a: Entry<string>, b: Entry<string>) {
    StrLe(a.key, b.key)
  }

  lemma ByKeyAscTotal()
    ensures TotalPreorder(ByKeyAsc)
  {
    forall a: Entry<string>, b: Entry<string> ensures ByKeyAsc(a, b) || ByKeyAsc(b, a) {
      StrLeTotal(a.key, b.key);
    }
    forall a: Entry<string>, b: Entry<string>, c: Entry<string> | ByKeyAsc(a, b) && ByKeyAsc(b, c)
      ensures ByKeyAsc(a, c)
    {
      StrLeTrans(a.key, b.key, c.key);
    }
  }
}
