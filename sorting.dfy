/** The stable comparator sort of Array.prototype.sort (stable since ECMAScript 2019),
    specialised to comparators of the form `(a, b) => key(a) - key(b)`: an insertion
    sort that puts each element before every element whose key is not smaller. */
module Sorting {
  import opened Seqs

  /** Non-decreasing in `key`. */
  predicate SortedBy<T>(s: seq<T>, key: T -> real)
  {
    forall i, j :: 0 <= i < j < |s| ==> key(s[i]) <= key(s[j])
  }

  /** The key negated: sorting ascending by it is sorting descending by `key`. */
  function Negated<T>(key: T -> real): T -> real
  {
    x => -key(x)
  }

  /** Selects the elements whose key is exactly `k`. */
  function KeyIs<T>(key: T -> real, k: real): T -> bool
  {
    x => key(x) == k
  }

  /** Inserts `x` before the first element whose key is at least that of `x`. */
  function Insert<T>(x: T, s: seq<T>, key: T -> real): (r: seq<T>)
    ensures multiset(r) == multiset(s) + multiset{x}
    decreases |s|
  {
    if s == [] || key(x) <= key(s[0]) then [x] + s
    else
      assert s == [s[0]] + s[1..];
      [s[0]] + Insert(x, s[1..], key)
  }

  /** The sorted permutation that keeps equal keys in input order. */
  function StableSort<T>(s: seq<T>, key: T -> real): (r: seq<T>)
    ensures multiset(r) == multiset(s)
    ensures SortedBy(r, key)
    decreases |s|
  {
    if s == [] then []
    else
      assert s == [s[0]] + s[1..];
      InsertSorted(s[0], StableSort(s[1..], key), key);
      Insert(s[0], StableSort(s[1..], key), key)
  }

  lemma {:induction false} InsertSorted<T>(x: T, s: seq<T>, key: T -> real)
    requires SortedBy(s, key)
    ensures SortedBy(Insert(x, s, key), key)
    decreases |s|
  {
    if s != [] && key(x) > key(s[0]) {
      InsertSorted(x, s[1..], key);
      var t := Insert(x, s[1..], key);
      forall i | 0 <= i < |t| ensures key(s[0]) <= key(t[i]) {
        assert t[i] in multiset(t);
        assert t[i] in multiset(s[1..]) || t[i] == x;
      }
    }
  }

  /** Length is kept (a consequence of the permutation). */
  lemma SortLength<T>(s: seq<T>, key: T -> real)
    ensures |StableSort(s, key)| == |s|
  {
    assert |multiset(StableSort(s, key))| == |multiset(s)|;
  }

  /** Ascending in the negated key is descending in the key. */
  lemma SortedNegatedIsDescending<T>(s: seq<T>, key: T -> real)
    requires SortedBy(s, Negated(key))
    ensures forall i, j :: 0 <= i < j < |s| ==> key(s[i]) >= key(s[j])
  {
    forall i, j | 0 <= i < j < |s| ensures key(s[i]) >= key(s[j]) {
      assert Negated(key)(s[i]) <= Negated(key)(s[j]);
    }
  }

  /** Inserting into a sorted list leaves the other key classes where they were. */
  lemma {:induction false} InsertStable<T>(x: T, s: seq<T>, key: T -> real, k: real)
    requires SortedBy(s, key)
    ensures Filter(Insert(x, s, key), KeyIs(key, k))
         == (if key(x) == k then [x] else []) + Filter(s, KeyIs(key, k))
    decreases |s|
  {
    if s == [] || key(x) <= key(s[0]) {
      assert Insert(x, s, key) == [x] + s;
      assert ([x] + s)[1..] == s;
    } else {
      InsertStable(x, s[1..], key, k);
      assert ([s[0]] + Insert(x, s[1..], key))[1..] == Insert(x, s[1..], key);
      if key(x) == k {
        assert !KeyIs(key, k)(s[0]);
      }
    }
  }

  /** Stability: records with the same key appear in the same relative order as in the input. */
  lemma {:induction false} SortIsStable<T>(s: seq<T>, key: T -> real, k: real)
    ensures Filter(StableSort(s, key), KeyIs(key, k)) == Filter(s, KeyIs(key, k))
    decreases |s|
  {
    if s != [] {
      SortIsStable(s[1..], key, k);
      InsertStable(s[0], StableSort(s[1..], key), key, k);
    }
  }

  /** Sorting descending (ascending by the negated key) is stable too. */
  lemma SortDescendingIsStable<T>(s: seq<T>, key: T -> real, k: real)
    ensures Filter(StableSort(s, Negated(key)), KeyIs(key, k)) == Filter(s, KeyIs(key, k))
  {
    SortIsStable(s, Negated(key), -k);
    FilterExtensional(StableSort(s, Negated(key)), KeyIs(Negated(key), -k), KeyIs(key, k));
    FilterExtensional(s, KeyIs(Negated(key), -k), KeyIs(key, k));
  }
}
