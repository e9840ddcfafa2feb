/** A stable sort of a sequence by a real-valued key, standing for
    Python's `list.sort(key=...)`. CPython implements it with Timsort; the
    model uses insertion sort and proves that the output of every stable
    ascending sort is uniquely determined (SortIsUnique), so the choice of
    algorithm is not observable. */
module StableSort {

  /** Ascending (non-strict) order of keys. */
  predicate SortedBy<T>(s: seq<T>, key: T -> real)
  {
    forall i, j :: 0 <= i < j < |s| ==> key(s[i]) <= key(s[j])
  }

  /** The elements of `s` whose key is `k`, in their order in `s`. A sort is
      stable when it keeps every such subsequence unchanged. */
  function KeyFilter<T>(s: seq<T>, key: T -> real, k: real): (r: seq<T>)
    ensures |r| <= |s|
    ensures forall i :: 0 <= i < |r| ==> key(r[i]) == k
  {
    if |s| == 0 then []
    else (if key(s[0]) == k then [s[0]] else []) + KeyFilter(s[1..], key, k)
  }

  ghost predicate SameKeyOrder<T>(a: seq<T>, b: seq<T>, key: T -> real)
  {
    forall k :: KeyFilter(a, key, k) == KeyFilter(b, key, k)
  }

  /** Inserts `x` into the sorted `t` in front of the first element whose key
      is not smaller than its own. */
  function Insert<T>(x: T, t: seq<T>, key: T -> real): (r: seq<T>)
    requires SortedBy(t, key)
    ensures SortedBy(r, key)
    ensures multiset(r) == multiset(t) + multiset{x}
    ensures r[0] == x || (|t| > 0 && r[0] == t[0])
  {
    if |t| == 0 || key(x) <= key(t[0]) then [x] + t
    else
      assert t == [t[0]] + t[1..];
      [t[0]] + Insert(x, t[1..], key)
  }

  /** Insertion sort: insert the head into the sorted tail. */
  function Sort<T>(s: seq<T>, key: T -> real): (r: seq<T>)
    ensures SortedBy(r, key)
    ensures multiset(r) == multiset(s)
  {
    if |s| == 0 then []
    else
      assert s == [s[0]] + s[1..];
      Insert(s[0], Sort(s[1..], key), key)
  }

  lemma {:induction false} KeyFilterCons<T>(x: T, t: seq<T>, key: T -> real, k: real)
    ensures KeyFilter([x] + t, key, k) == (if key(x) == k then [x] else []) + KeyFilter(t, key, k)
  {
  }

  /** Inserting keeps every same-key subsequence in the order "x first,
      then the elements of t". */
  lemma {:induction false} InsertStable<T>(x: T, t: seq<T>, key: T -> real, k: real)
    requires SortedBy(t, key)
    ensures KeyFilter(Insert(x, t, key), key, k) == KeyFilter([x] + t, key, k)
  {
    if |t| == 0 || key(x) <= key(t[0]) {
    } else {
      var t' := t[1..];
      assert t == [t[0]] + t';
      InsertStable(x, t', key, k);
      KeyFilterCons(t[0], Insert(x, t', key), key, k);
      KeyFilterCons(x, t', key, k);
      KeyFilterCons(x, t, key, k);
      KeyFilterCons(t[0], t', key, k);
    }
  }

  /** The sort is stable: elements with equal keys keep their relative order. */
  lemma {:induction false} SortStable<T>(s: seq<T>, key: T -> real)
    ensures SameKeyOrder(Sort(s, key), s, key)
  {
    if |s| > 0 {
      SortStable(s[1..], key);
      forall k
        ensures KeyFilter(Sort(s, key), key, k) == KeyFilter(s, key, k)
      {
        InsertStable(s[0], Sort(s[1..], key), key, k);
        KeyFilterCons(s[0], Sort(s[1..], key), key, k);
        assert s == [s[0]] + s[1..];
        KeyFilterCons(s[0], s[1..], key, k);
      }
    }
  }

  /** In a sorted sequence whose `k`-subsequence is non-empty, the first key
      is at most `k`. */
  lemma {:induction false} SortedHeadBelowFilter<T>(s: seq<T>, key: T -> real, k: real)
    requires SortedBy(s, key)
    requires KeyFilter(s, key, k) != []
    ensures |s| > 0 && key(s[0]) <= k
  {
    assert |s| > 0;
    if key(s[0]) != k {
      SortedHeadBelowFilter(s[1..], key, k);
      assert s[1..][0] == s[1];
    }
  }

  lemma FirstKeyFilterNonEmpty<T>(s: seq<T>, key: T -> real)
    ensures |s| > 0 ==> KeyFilter(s, key, key(s[0])) != []
  {
  }

  /** A sorted sequence is determined by its same-key subsequences: two
      sorted sequences that agree on all of them are equal. */
  lemma {:induction false} SortedSameKeyOrderEqual<T>(a: seq<T>, b: seq<T>, key: T -> real)
    requires SortedBy(a, key) && SortedBy(b, key)
    requires SameKeyOrder(a, b, key)
    ensures a == b
  {
    if |a| == 0 || |b| == 0 {
      // A non-empty side has a non-empty subsequence for its first key,
      // which the empty side cannot match.
      FirstKeyFilterNonEmpty(a, key);
      FirstKeyFilterNonEmpty(b, key);
    } else {
      var ka, kb := key(a[0]), key(b[0]);
      assert KeyFilter(a, key, ka) != [];
      SortedHeadBelowFilter(b, key, ka);
      assert KeyFilter(b, key, kb) != [];
      SortedHeadBelowFilter(a, key, kb);
      assert ka == kb;
      assert a[0] == b[0] by {
        assert KeyFilter(a, key, ka)[0] == a[0];
        assert KeyFilter(b, key, ka)[0] == b[0];
      }
      forall k
        ensures KeyFilter(a[1..], key, k) == KeyFilter(b[1..], key, k)
      {
        assert a == [a[0]] + a[1..];
        assert b == [b[0]] + b[1..];
        KeyFilterCons(a[0], a[1..], key, k);
        KeyFilterCons(b[0], b[1..], key, k);
        var p := if key(a[0]) == k then [a[0]] else [];
        assert KeyFilter(a, key, k)[|p|..] == KeyFilter(a[1..], key, k);
        assert KeyFilter(b, key, k)[|p|..] == KeyFilter(b[1..], key, k);
      }
      SortedSameKeyOrderEqual(a[1..], b[1..], key);
      assert a == [a[0]] + a[1..];
      assert b == [b[0]] + b[1..];
    }
  }

  /** Every stable ascending sort of `s` returns exactly `Sort(s, key)`;
      this is what licenses modelling Python's Timsort by insertion sort. */
  lemma SortIsUnique<T>(s: seq<T>, r: seq<T>, key: T -> real)
    requires SortedBy(r, key)
    requires SameKeyOrder(r, s, key)
    ensures r == Sort(s, key)
  {
    SortStable(s, key);
    SortedSameKeyOrderEqual(r, Sort(s, key), key);
  }

  /** Sorting an already sorted sequence changes nothing; in particular
      sorting is idempotent. */
  lemma SortOfSorted<T>(s: seq<T>, key: T -> real)
    requires SortedBy(s, key)
    ensures Sort(s, key) == s
  {
    SortIsUnique(s, s, key);
  }
}
