/**
 * Sorting a list by a two-part integer key in ascending lexicographic order,
 * as the level compiler sorts flyby cameras (List.Sort with a comparer) and
 * AI objects (OrderByDescending(...).ThenBy(...)). The sort below is an
 * insertion sort that keeps equal keys in their input order, so it meets both
 * the contract of List.Sort (sorted, a permutation) and the stronger one of
 * LINQ's ordering operators (also stable).
 */
module KeySort {

  type Key = (int, int)

  /** Lexicographic order on keys: first component, then second. */
  predicate KeyLe(a: Key, b: Key) {
    a.0 < b.0 || (a.0 == b.0 && a.1 <= b.1)
  }

  predicate SortedBy<T>(s: seq<T>, key: T -> Key) {
    forall i, j :: 0 <= i < j < |s| ==> KeyLe(key(s[i]), key(s[j]))
  }

  /** The elements of s whose key is k, in their order in s. */
  function WithKey<T>(s: seq<T>, key: T -> Key, k: Key): (r: seq<T>)
    ensures |r| <= |s|
  {
    if s == [] then []
    else WithKey(s[..|s| - 1], key, k) + (if key(s[|s| - 1]) == k then [s[|s| - 1]] else [])
  }

  /** Inserts x after every element of t whose key is at most x's. */
  function Insert<T>(x: T, t: seq<T>, key: T -> Key): (r: seq<T>)
    ensures |r| == |t| + 1
    ensures multiset(r) == multiset(t) + multiset{x}
  {
    if t == [] || KeyLe(key(t[|t| - 1]), key(x)) then t + [x]
    else
      var last := t[|t| - 1];
      assert t == t[..|t| - 1] + [last];
      Insert(x, t[..|t| - 1], key) + [last]
  }

  function SortByKey<T>(s: seq<T>, key: T -> Key): (r: seq<T>)
    ensures |r| == |s|
    ensures multiset(r) == multiset(s)
  {
    if s == [] then []
    else
      assert s == s[..|s| - 1] + [s[|s| - 1]];
      Insert(s[|s| - 1], SortByKey(s[..|s| - 1], key), key)
  }

  /** Insertion keeps a sorted list sorted. */
  lemma {:induction false} InsertKeepsOrder<T>(x: T, t: seq<T>, key: T -> Key)
    requires SortedBy(t, key)
    ensures SortedBy(Insert(x, t, key), key)
  {
    if t == [] || KeyLe(key(t[|t| - 1]), key(x)) {
    } else {
      var t' := t[..|t| - 1];
      var last := t[|t| - 1];
      InsertKeepsOrder(x, t', key);
      var r := Insert(x, t', key);
      assert multiset(r) == multiset(t') + multiset{x};
      forall i | 0 <= i < |r|
        ensures KeyLe(key(r[i]), key(last))
      {
        assert r[i] in multiset(r);
        if r[i] != x {
          assert r[i] in multiset(t');
          var j :| 0 <= j < |t'| && t'[j] == r[i];
        }
      }
    }
  }

  lemma {:induction false} SortByKeyIsSorted<T>(s: seq<T>, key: T -> Key)
    ensures SortedBy(SortByKey(s, key), key)
  {
    if s != [] {
      SortByKeyIsSorted(s[..|s| - 1], key);
      InsertKeepsOrder(s[|s| - 1], SortByKey(s[..|s| - 1], key), key);
    }
  }

  /** Inserting into a sorted list puts x after every element with the same key. */
  lemma {:induction false} InsertWithKey<T>(x: T, t: seq<T>, key: T -> Key, k: Key)
    requires SortedBy(t, key)
    ensures WithKey(Insert(x, t, key), key, k) == WithKey(t, key, k) + (if key(x) == k then [x] else [])
  {
    if t == [] || KeyLe(key(t[|t| - 1]), key(x)) {
      assert (t + [x])[..|t|] == t;
    } else {
      var t' := t[..|t| - 1];
      var last := t[|t| - 1];
      assert SortedBy(t', key);
      InsertWithKey(x, t', key, k);
      var r := Insert(x, t', key);
      assert (r + [last])[..|r|] == r;
      if key(x) == k && key(last) == k {
        assert KeyLe(key(last), key(x));
      }
    }
  }

  /** Stability: among elements with equal keys the sorted order is the input order. */
  lemma {:induction false} SortByKeyIsStable<T>(s: seq<T>, key: T -> Key, k: Key)
    ensures WithKey(SortByKey(s, key), key, k) == WithKey(s, key, k)
  {
    if s != [] {
      var s' := s[..|s| - 1];
      SortByKeyIsStable(s', key, k);
      SortByKeyIsSorted(s', key);
      InsertWithKey(s[|s| - 1], SortByKey(s', key), key, k);
    }
  }
}
