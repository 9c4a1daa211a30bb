/** Array.prototype.sort with a numeric comparator `(a, b) => key(b) - key(a)`.
    The JavaScript sort is stable, so the model is a stable insertion sort:
    the result is ordered by key, is a permutation of the input, and keeps the
    input order among elements with equal keys. */
module Sorting {

  predicate SortedDesc<T>(s: seq<T>, key: T -> int)
  {
    forall i, j :: 0 <= i < j < |s| ==> key(s[i]) >= key(s[j])
  }

  /** Places x in front of the first element whose key does not exceed its own. */
  function Insert<T>(x: T, s: seq<T>, key: T -> int): seq<T>
  {
    if s == [] || key(s[0]) <= key(x) then [x] + s else [s[0]] + Insert(x, s[1..], key)
  }

  /** Sorting by key, largest first. */
  function SortDesc<T>(s: seq<T>, key: T -> int): seq<T>
  {
    if s == [] then [] else Insert(s[0], SortDesc(s[1..], key), key)
  }

  /** The subsequence of elements whose key is k, in order. */
  function WithKey<T>(s: seq<T>, key: T -> int, k: int): seq<T>
  {
    if s == [] then [] else (if key(s[0]) == k then [s[0]] else []) + WithKey(s[1..], key, k)
  }

  lemma {:induction false} InsertBounded<T>(x: T, s: seq<T>, key: T -> int, b: int)
    requires key(x) <= b
    requires forall i :: 0 <= i < |s| ==> key(s[i]) <= b
    ensures forall i :: 0 <= i < |Insert(x, s, key)| ==> key(Insert(x, s, key)[i]) <= b
    decreases |s|
  {
    if s != [] && key(s[0]) > key(x) {
      InsertBounded(x, s[1..], key, b);
    }
  }

  lemma {:induction false} InsertSorted<T>(x: T, s: seq<T>, key: T -> int)
    requires SortedDesc(s, key)
    ensures SortedDesc(Insert(x, s, key), key)
    ensures multiset(Insert(x, s, key)) == multiset(s) + multiset{x}
    ensures |Insert(x, s, key)| == |s| + 1
    decreases |s|
  {
    InsertPermutation(x, s, key);
    if s == [] || key(s[0]) <= key(x) {
      forall i | 0 <= i < |s| ensures key(s[i]) <= key(x) {
        assert key(s[i]) <= key(s[0]);
      }
      ConsSorted(x, s, key);
    } else {
      var t := s[1..];
      assert SortedDesc(t, key) by {
        forall i, j | 0 <= i < j < |t| ensures key(t[i]) >= key(t[j]) {
          assert t[i] == s[i + 1] && t[j] == s[j + 1];
        }
      }
      InsertSorted(x, t, key);
      forall i | 0 <= i < |t| ensures key(t[i]) <= key(s[0]) {
        assert t[i] == s[i + 1];
      }
      InsertBounded(x, t, key, key(s[0]));
      ConsSorted(s[0], Insert(x, t, key), key);
    }
  }

  lemma {:induction false} InsertPermutation<T>(x: T, s: seq<T>, key: T -> int)
    ensures multiset(Insert(x, s, key)) == multiset(s) + multiset{x}
    ensures |Insert(x, s, key)| == |s| + 1
    decreases |s|
  {
    if s != [] && key(s[0]) > key(x) {
      InsertPermutation(x, s[1..], key);
      assert s == [s[0]] + s[1..];
    }
  }

  /** An element no smaller than everything after it heads a sorted list. */
  lemma ConsSorted<T>(h: T, r: seq<T>, key: T -> int)
    requires SortedDesc(r, key)
    requires forall i :: 0 <= i < |r| ==> key(r[i]) <= key(h)
    ensures SortedDesc([h] + r, key)
  {
    var c := [h] + r;
    forall i, j | 0 <= i < j < |c| ensures key(c[i]) >= key(c[j]) {
      assert c[j] == r[j - 1];
      if i > 0 { assert c[i] == r[i - 1]; }
    }
  }

  /** The sort is ordered and a permutation of its input. */
  lemma {:induction false} SortDescCorrect<T>(s: seq<T>, key: T -> int)
    ensures SortedDesc(SortDesc(s, key), key)
    ensures multiset(SortDesc(s, key)) == multiset(s)
    ensures |SortDesc(s, key)| == |s|
    decreases |s|
  {
    if s != [] {
      SortDescCorrect(s[1..], key);
      InsertSorted(s[0], SortDesc(s[1..], key), key);
      assert s == [s[0]] + s[1..];
    }
  }

  lemma {:induction false} InsertStable<T>(x: T, s: seq<T>, key: T -> int, k: int)
    ensures WithKey(Insert(x, s, key), key, k) == (if key(x) == k then [x] else []) + WithKey(s, key, k)
    decreases |s|
  {
    var hx := if key(x) == k then [x] else [];
    if s == [] || key(s[0]) <= key(x) {
      WithKeyCons(x, s, key, k);
    } else {
      var t := s[1..];
      var h0 := if key(s[0]) == k then [s[0]] else [];
      InsertStable(x, t, key, k);
      WithKeyCons(s[0], Insert(x, t, key), key, k);
      WithKeyCons(s[0], t, key, k);
      assert s == [s[0]] + t;
      calc {
        WithKey(Insert(x, s, key), key, k);
        WithKey([s[0]] + Insert(x, t, key), key, k);
        h0 + WithKey(Insert(x, t, key), key, k);
        h0 + (hx + WithKey(t, key, k));
        { assert h0 == [] || hx == []; }
        hx + (h0 + WithKey(t, key, k));
        hx + WithKey(s, key, k);
      }
    }
  }

  /** WithKey of a sequence with a given head, unfolded once. */
  lemma WithKeyCons<T>(y: T, t: seq<T>, key: T -> int, k: int)
    ensures WithKey([y] + t, key, k) == (if key(y) == k then [y] else []) + WithKey(t, key, k)
  {
    assert ([y] + t)[1..] == t;
  }

  /** Stability: elements that share a key appear in their original order. */
  lemma {:induction false} SortDescStable<T>(s: seq<T>, key: T -> int, k: int)
    ensures WithKey(SortDesc(s, key), key, k) == WithKey(s, key, k)
    decreases |s|
  {
    if s != [] {
      SortDescStable(s[1..], key, k);
      InsertStable(s[0], SortDesc(s[1..], key), key, k);
    }
  }
}
