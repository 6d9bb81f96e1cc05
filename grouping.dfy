/**
 * Counting by key the way the modelled code does it with a JavaScript `Map` (or a plain
 * object with non-numeric keys): `m.set(k, (m.get(k) || 0) + 1)` for each key in turn.
 * Such a map iterates in insertion order, so it is modelled as a sequence of entries in
 * order of first appearance.
 */
module Grouping {

  /** One entry of a counting map: `[key, count]`. */
  datatype Entry<K> = Entry(key: K, count: nat)

  function Keys<K>(m: seq<Entry<K>>): seq<K> {
    if m == [] then [] else [m[0].key] + Keys(m[1..])
  }

  /** `m.get(k) || 0`. */
  function CountOf<K(==)>(m: seq<Entry<K>>, k: K): nat {
    if m == [] then 0 else if m[0].key == k then m[0].count else CountOf(m[1..], k)
  }

  function SumCounts<K>(m: seq<Entry<K>>): nat {
    if m == [] then 0 else m[0].count + SumCounts(m[1..])
  }

  predicate Distinct<K(==)>(ks: seq<K>) {
    forall i, j | 0 <= i < j < |ks| :: ks[i] != ks[j]
  }

  /** `m.set(k, (m.get(k) || 0) + 1)`: an existing key keeps its place, a new one goes last. */
  function Bump<K(==)>(m: seq<Entry<K>>, k: K): seq<Entry<K>> {
    if m == [] then [Entry(k, 1)]
    else if m[0].key == k then [Entry(k, m[0].count + 1)] + m[1..]
    else [m[0]] + Bump(m[1..], k)
  }

  /** The counting map after `ks.forEach(k => m.set(k, (m.get(k) || 0) + 1))` on an empty map. */
  function Tally<K(==)>(ks: seq<K>): seq<Entry<K>> {
    if ks == [] then [] else Bump(Tally(ks[..|ks| - 1]), ks[|ks| - 1])
  }

  /** The distinct elements of `ks` in order of first occurrence (a reference for the key order of `Tally`). */
  function Dedup<K(==)>(ks: seq<K>): seq<K> {
    if ks == [] then []
    else
      var d := Dedup(ks[..|ks| - 1]);
      if ks[|ks| - 1] in d then d else d + [ks[|ks| - 1]]
  }

  // ---------------------------------------------------------------- Bump

  lemma {:induction false} KeysAppend<K>(m: seq<Entry<K>>, e: Entry<K>)
    ensures Keys(m + [e]) == Keys(m) + [e.key]
  {
    if m != [] {
      assert (m + [e])[1..] == m[1..] + [e];
      KeysAppend(m[1..], e);
    }
  }

  lemma {:induction false} KeysIn<K>(m: seq<Entry<K>>, k: K)
    ensures k in Keys(m) <==> exists i | 0 <= i < |m| :: m[i].key == k
  {
    if m != [] {
      KeysIn(m[1..], k);
      if k in Keys(m[1..]) {
        var i :| 0 <= i < |m[1..]| && m[1..][i].key == k;
        assert m[i + 1].key == k;
      }
      if exists i | 0 <= i < |m| :: m[i].key == k {
        var i :| 0 <= i < |m| && m[i].key == k;
        if i > 0 { assert m[1..][i - 1].key == k; }
      }
    }
  }

  lemma {:induction false} BumpSpec<K>(m: seq<Entry<K>>, k: K)
    ensures Keys(Bump(m, k)) == if k in Keys(m) then Keys(m) else Keys(m) + [k]
    ensures forall j :: CountOf(Bump(m, k), j) == CountOf(m, j) + (if j == k then 1 else 0)
    ensures SumCounts(Bump(m, k)) == SumCounts(m) + 1
  {
    if m != [] {
      BumpSpec(m[1..], k);
      if m[0].key == k {
        var r := Bump(m, k);
        assert r[1..] == m[1..];
        forall j ensures CountOf(r, j) == CountOf(m, j) + (if j == k then 1 else 0) {
        }
      } else {
        var r := Bump(m, k);
        assert r[1..] == Bump(m[1..], k);
        forall j ensures CountOf(r, j) == CountOf(m, j) + (if j == k then 1 else 0) {
        }
      }
    }
  }

  // ---------------------------------------------------------------- Tally

  /** Counting one more key is one more `Bump`. */
  lemma TallyAppend<K>(ks: seq<K>, k: K)
    ensures Tally(ks + [k]) == Bump(Tally(ks), k)
  {
    assert (ks + [k])[..|ks|] == ks;
  }

  /**
   * The counting map holds every key once, in order of first appearance, and maps each key
   * to its number of occurrences; the counts add up to the number of keys counted.
   */
  lemma {:induction false} TallyCorrect<K>(ks: seq<K>)
    ensures Keys(Tally(ks)) == Dedup(ks)
    ensures forall k :: CountOf(Tally(ks), k) == multiset(ks)[k]
    ensures SumCounts(Tally(ks)) == |ks|
  {
    if ks != [] {
      var init, x := ks[..|ks| - 1], ks[|ks| - 1];
      TallyCorrect(init);
      BumpSpec(Tally(init), x);
      assert ks == init + [x];
      assert multiset(ks) == multiset(init) + multiset{x};
    }
  }

  lemma {:induction false} DedupSpec<K>(ks: seq<K>)
    ensures Distinct(Dedup(ks))
    ensures forall k :: k in Dedup(ks) <==> k in ks
  {
    if ks != [] {
      var init, x := ks[..|ks| - 1], ks[|ks| - 1];
      DedupSpec(init);
      assert ks == init + [x];
    }
  }

  /** With distinct keys, entry `i` holds what the map returns for its key. */
  lemma {:induction false} EntryCount<K>(m: seq<Entry<K>>, i: nat)
    requires Distinct(Keys(m))
    requires i < |m|
    ensures CountOf(m, m[i].key) == m[i].count
  {
    if i > 0 {
      assert Keys(m)[0] == m[0].key;
      KeysAt(m, i);
      assert m[0].key != m[i].key;
      DistinctTail(m);
      assert m[1..][i - 1] == m[i];
      EntryCount(m[1..], i - 1);
    }
  }

  lemma {:induction false} KeysAt<K>(m: seq<Entry<K>>, i: nat)
    requires i < |m|
    ensures |Keys(m)| == |m| && Keys(m)[i] == m[i].key
  {
    if i > 0 {
      KeysAt(m[1..], i - 1);
    } else {
      KeysLength(m);
    }
  }

  lemma {:induction false} KeysLength<K>(m: seq<Entry<K>>)
    ensures |Keys(m)| == |m|
  {
    if m != [] {
      KeysLength(m[1..]);
    }
  }

  lemma DistinctTail<K>(m: seq<Entry<K>>)
    requires m != [] && Distinct(Keys(m))
    ensures Distinct(Keys(m[1..]))
  {
    var t := Keys(m[1..]);
    assert Keys(m) == [m[0].key] + t;
    forall i, j | 0 <= i < j < |t| ensures t[i] != t[j] {
      assert t[i] == Keys(m)[i + 1] && t[j] == Keys(m)[j + 1];
    }
  }

  /**
   * Entry by entry: the counting map has one entry per distinct key, and each entry's
   * count is the number of occurrences of its key, which is at least one.
   */
  lemma TallyEntries<K>(ks: seq<K>)
    ensures Distinct(Keys(Tally(ks)))
    ensures |Tally(ks)| == |Dedup(ks)|
    ensures forall i | 0 <= i < |Tally(ks)| ::
      Tally(ks)[i].key in ks && Tally(ks)[i].count == multiset(ks)[Tally(ks)[i].key] >= 1
  {
    var m := Tally(ks);
    TallyCorrect(ks);
    DedupSpec(ks);
    KeysLength(m);
    forall i | 0 <= i < |m|
      ensures m[i].key in ks && m[i].count == multiset(ks)[m[i].key] >= 1
    {
      KeysAt(m, i);
      EntryCount(m, i);
      assert Keys(m)[i] in Keys(m);
      assert m[i].key in multiset(ks);
    }
  }

  /** There are no more distinct keys than keys. */
  lemma {:induction false} DedupLength<K>(ks: seq<K>)
    ensures |Dedup(ks)| <= |ks|
    ensures |Dedup(ks)| == 0 <==> ks == []
  {
    if ks != [] {
      DedupLength(ks[..|ks| - 1]);
    }
  }

  /** Distinct elements are those that occur at most once. */
  lemma {:induction false} DistinctMultiset<K>(ks: seq<K>)
    ensures Distinct(ks) <==> forall k :: multiset(ks)[k] <= 1
  {
    if ks != [] {
      var init, x := ks[..|ks| - 1], ks[|ks| - 1];
      DistinctMultiset(init);
      assert ks == init + [x];
      assert multiset(ks) == multiset(init) + multiset{x};
      DistinctSnoc(init, x);
      assert x in init <==> multiset(init)[x] > 0;
      if Distinct(ks) {
        forall k ensures multiset(ks)[k] <= 1 {
          assert multiset(ks)[k] == multiset(init)[k] + (if k == x then 1 else 0);
        }
      }
      if forall k :: multiset(ks)[k] <= 1 {
        assert multiset(ks)[x] == multiset(init)[x] + 1;
        assert forall k :: multiset(init)[k] <= multiset(ks)[k];
      }
    }
  }

  lemma DistinctPrefix<K>(s: seq<K>, k: nat)
    requires Distinct(s) && k <= |s|
    ensures Distinct(s[..k])
  {
    var p := s[..k];
    forall i, j | 0 <= i < j < |p| ensures p[i] != p[j] {
      assert p[i] == s[i] && p[j] == s[j];
    }
  }

  /** A sequence with one more element at the end is distinct exactly when the front is and lacks it. */
  lemma DistinctSnoc<K>(init: seq<K>, x: K)
    ensures Distinct(init + [x]) <==> Distinct(init) && x !in init
  {
    var ks := init + [x];
    if Distinct(ks) {
      forall i, j | 0 <= i < j < |init| ensures init[i] != init[j] {
        assert init[i] == ks[i] && init[j] == ks[j];
      }
      forall i | 0 <= i < |init| ensures init[i] != x {
        assert init[i] == ks[i] && x == ks[|init|];
      }
    }
    if Distinct(init) && x !in init {
      forall i, j | 0 <= i < j < |ks| ensures ks[i] != ks[j] {
        assert ks[i] == init[i];
        if j < |init| {
          assert ks[j] == init[j];
        }
      }
    }
  }

  // ---------------------------------------------------------------- first maximum

  /** `j` is the first entry whose count is the greatest. */
  predicate IsFirstMax<K>(m: seq<Entry<K>>, j: int) {
    && 0 <= j < |m|
    && (forall i | 0 <= i < |m| :: m[i].count <= m[j].count)
    && (forall i | 0 <= i < j :: m[i].count < m[j].count)
  }

  /**
   * The index picked by `m.forEach((count, key) => { if (count > max) { max = count; best = key; } })`
   * when it resumes at entry `n` with the entry `j` picked so far (-1: none, and max is 0).
   */
  function MaxIndexFrom<K>(m: seq<Entry<K>>, n: nat, j: int): (r: int)
    requires n <= |m| && -1 <= j < |m|
    ensures -1 <= r < |m|
    decreases |m| - n
  {
    if n == |m| then j
    else if m[n].count > (if j < 0 then 0 else m[j].count) then MaxIndexFrom(m, n + 1, n)
    else MaxIndexFrom(m, n + 1, j)
  }

  /** The key left in `best` by that loop started with `best = default` and `max = 0`. */
  function FirstMaxKey<K>(m: seq<Entry<K>>, default: K): K {
    var j := MaxIndexFrom(m, 0, -1);
    if j < 0 then default else m[j].key
  }

  /** What the loop knows after entry `n`: `j` is the first maximum of `m[..n]`, or -1 when all counts so far are 0. */
  predicate Scanned<K>(m: seq<Entry<K>>, n: nat, j: int)
    requires n <= |m|
  {
    if j < 0 then j == -1 && forall i | 0 <= i < n :: m[i].count == 0
    else
      && j < n && m[j].count > 0
      && (forall i | 0 <= i < n :: m[i].count <= m[j].count)
      && (forall i | 0 <= i < j :: m[i].count < m[j].count)
  }

  lemma {:induction false} MaxIndexFromScans<K>(m: seq<Entry<K>>, n: nat, j: int)
    requires n <= |m| && -1 <= j < |m|
    requires Scanned(m, n, j)
    ensures Scanned(m, |m|, MaxIndexFrom(m, n, j))
    decreases |m| - n
  {
    if n < |m| {
      if m[n].count > (if j < 0 then 0 else m[j].count) {
        MaxIndexFromScans(m, n + 1, n);
      } else {
        MaxIndexFromScans(m, n + 1, j);
      }
    }
  }

  /**
   * The loop's result: the default when every count is 0, otherwise the key of the first
   * entry with the strictly greatest count (a later entry with an equal count does not win).
   */
  lemma FirstMaxKeySpec<K>(m: seq<Entry<K>>, default: K)
    ensures (forall i | 0 <= i < |m| :: m[i].count == 0) ==> FirstMaxKey(m, default) == default
    ensures (exists i | 0 <= i < |m| :: m[i].count > 0) ==>
      exists j | IsFirstMax(m, j) :: m[j].count > 0 && FirstMaxKey(m, default) == m[j].key
  {
    MaxIndexFromScans(m, 0, -1);
    var j := MaxIndexFrom(m, 0, -1);
    if j >= 0 {
      assert IsFirstMax(m, j);
    }
  }

  /** The loop itself, over the entries of a counting map. */
  method FirstMax<K>(m: seq<Entry<K>>, default: K) returns (best: K)
    ensures best == FirstMaxKey(m, default)
  {
    best := default;
    var max := 0;
    ghost var j := -1;
    var n := 0;
    while n < |m|
      invariant 0 <= n <= |m| && -1 <= j < |m|
      invariant MaxIndexFrom(m, n, j) == MaxIndexFrom(m, 0, -1)
      invariant best == (if j < 0 then default else m[j].key)
      invariant max == (if j < 0 then 0 else m[j].count)
    {
      if m[n].count > max {
        max := m[n].count;
        best := m[n].key;
        j := n;
      }
      n := n + 1;
    }
  }

  /**
   * The first-maximum loop over a counting map: the default when nothing was counted,
   * otherwise a counted key that no key outnumbers and that every key seen before it
   * falls short of (on a tie the first-seen key wins).
   */
  lemma FirstMaxOfTally<K>(ks: seq<K>, default: K)
    ensures ks == [] ==> FirstMaxKey(Tally(ks), default) == default
    ensures ks != [] ==> exists j | 0 <= j < |Dedup(ks)| ::
      && Dedup(ks)[j] == FirstMaxKey(Tally(ks), default)
      && (forall k | k in ks :: multiset(ks)[k] <= multiset(ks)[Dedup(ks)[j]])
      && (forall i | 0 <= i < j :: multiset(ks)[Dedup(ks)[i]] < multiset(ks)[Dedup(ks)[j]])
  {
    var m := Tally(ks);
    var d := Dedup(ks);
    TallyEntries(ks);
    TallyCorrect(ks);
    DedupSpec(ks);
    FirstMaxKeySpec(m, default);
    if ks != [] {
      assert ks[0] in d;
      assert m[0].count > 0;
      var j :| IsFirstMax(m, j) && m[j].count > 0 && FirstMaxKey(m, default) == m[j].key;
      forall p | 0 <= p < |m| ensures m[p].key == d[p] {
        KeysAt(m, p);
      }
      forall k | k in ks ensures multiset(ks)[k] <= multiset(ks)[d[j]] {
        var p :| 0 <= p < |d| && d[p] == k;
        assert m[p].count <= m[j].count;
      }
      forall i | 0 <= i < j ensures multiset(ks)[d[i]] < multiset(ks)[d[j]] {
        assert m[i].count < m[j].count;
      }
    }
  }
}
