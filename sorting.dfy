/** Python's stable sort (`list.sort(key=...)` and `sorted(..., key=...)`)
    for integer keys, written as an insertion sort. `reverse=True` on a
    stable sort is the same as sorting by the negated key. */
module Sorting {
  import opened Sequences

  /** Keys never decrease from left to right. */
  predicate SortedBy<T>(s: seq<T>, key: T -> int) {
    forall i, j :: 0 <= i < j < |s| ==> key(s[i]) <= key(s[j])
  }

  /** The elements of `s` whose key is `k`, in their order in `s`. */
  function WithKey<T>(s: seq<T>, key: T -> int, k: int): seq<T> {
    if s == [] then [] else (if key(s[0]) == k then [s[0]] else []) + WithKey(s[1..], key, k)
  }

  /** Puts `x` after every element whose key is not greater than its own. */
  function Insert<T>(t: seq<T>, x: T, key: T -> int): (r: seq<T>)
    ensures |r| == |t| + 1
    ensures multiset(r) == multiset(t) + multiset{x}
  {
    if t == [] then [x]
    else if key(x) < key(t[0]) then [x] + t
    else
      assert t == [t[0]] + t[1..];
      [t[0]] + Insert(t[1..], x, key)
  }

  /** The stable sort: each element, taken left to right, goes after the
      elements already placed whose key does not exceed its own. */
  function SortBy<T>(s: seq<T>, key: T -> int): (r: seq<T>)
    ensures |r| == |s|
    ensures multiset(r) == multiset(s)
  {
    if s == [] then []
    else
      assert s == s[..|s| - 1] + [s[|s| - 1]];
      Insert(SortBy(s[..|s| - 1], key), s[|s| - 1], key)
  }

  /** Inserting into a sorted list keeps it sorted; the new head is `x` or the old head. */
  lemma {:induction false} InsertKeepsSorted<T>(t: seq<T>, x: T, key: T -> int)
    requires SortedBy(t, key)
    ensures SortedBy(Insert(t, x, key), key)
    ensures Insert(t, x, key)[0] == x || (t != [] && Insert(t, x, key)[0] == t[0])
  {
    if t == [] {
    } else if key(x) < key(t[0]) {
      PrependKeepsSorted(x, t, key);
    } else {
      var rest := Insert(t[1..], x, key);
      InsertKeepsSorted(t[1..], x, key);
      assert key(t[0]) <= key(rest[0]) by {
        if rest[0] != x {
          assert rest[0] == t[1];
        }
      }
      PrependKeepsSorted(t[0], rest, key);
    }
  }

  /** An element no greater than the head of a sorted list can go in front of it. */
  lemma PrependKeepsSorted<T>(x: T, t: seq<T>, key: T -> int)
    requires SortedBy(t, key)
    requires t != [] ==> key(x) <= key(t[0])
    ensures SortedBy([x] + t, key)
  {
    var r := [x] + t;
    forall i, j | 0 <= i < j < |r| ensures key(r[i]) <= key(r[j]) {
      assert r[j] == t[j - 1];
      if i > 0 {
        assert r[i] == t[i - 1];
      } else {
        assert key(t[0]) <= key(t[j - 1]);
      }
    }
  }

  /** The result of the sort is in key order. */
  lemma {:induction false} SortByIsSorted<T>(s: seq<T>, key: T -> int)
    ensures SortedBy(SortBy(s, key), key)
  {
    if s != [] {
      SortByIsSorted(s[..|s| - 1], key);
      InsertKeepsSorted(SortBy(s[..|s| - 1], key), s[|s| - 1], key);
    }
  }

  lemma {:induction false} WithKeyAppend<T>(a: seq<T>, b: seq<T>, key: T -> int, k: int)
    ensures WithKey(a + b, key, k) == WithKey(a, key, k) + WithKey(b, key, k)
  {
    if a != [] {
      assert (a + b)[0] == a[0];
      assert (a + b)[1..] == a[1..] + b;
      WithKeyAppend(a[1..], b, key, k);
    } else {
      assert a + b == b;
    }
  }

  lemma {:induction false} WithKeyNone<T>(s: seq<T>, key: T -> int, k: int)
    requires forall i :: 0 <= i < |s| ==> key(s[i]) != k
    ensures WithKey(s, key, k) == []
  {
    if s != [] {
      WithKeyNone(s[1..], key, k);
    }
  }

  /** Inserting in front of a sorted list: when `x`'s key is `k`, no
      element of the list has it. */
  lemma WithKeyInsertFront<T>(t: seq<T>, x: T, key: T -> int, k: int)
    requires SortedBy(t, key) && t != [] && key(x) < key(t[0])
    ensures WithKey(Insert(t, x, key), key, k)
         == WithKey(t, key, k) + (if key(x) == k then [x] else [])
  {
    assert Insert(t, x, key) == [x] + t;
    WithKeyCons(x, t, key, k);
    if key(x) == k {
      forall i | 0 <= i < |t| ensures key(t[i]) != k {
        assert key(t[0]) <= key(t[i]);
      }
      WithKeyNone(t, key, k);
    }
  }

  /** Inserting behind the head: the head stays in front of the rest. */
  lemma WithKeyInsertBehind<T>(t: seq<T>, x: T, key: T -> int, k: int)
    requires t != [] && key(t[0]) <= key(x)
    requires WithKey(Insert(t[1..], x, key), key, k)
          == WithKey(t[1..], key, k) + (if key(x) == k then [x] else [])
    ensures WithKey(Insert(t, x, key), key, k)
         == WithKey(t, key, k) + (if key(x) == k then [x] else [])
  {
    var rest := Insert(t[1..], x, key);
    var c0 := if key(t[0]) == k then [t[0]] else [];
    var cx := if key(x) == k then [x] else [];
    var w := WithKey(t[1..], key, k);
    assert Insert(t, x, key) == [t[0]] + rest;
    WithKeyCons(t[0], rest, key, k);
    assert WithKey(Insert(t, x, key), key, k) == c0 + (w + cx);
    assert WithKey(t, key, k) == c0 + w;
    AppendIsAssociative(c0, w, cx);
  }

  lemma {:induction false} WithKeyInsert<T>(t: seq<T>, x: T, key: T -> int, k: int)
    requires SortedBy(t, key)
    ensures WithKey(Insert(t, x, key), key, k)
         == WithKey(t, key, k) + (if key(x) == k then [x] else [])
  {
    if t == [] {
      WithKeySingle(x, key, k);
    } else if key(x) < key(t[0]) {
      WithKeyInsertFront(t, x, key, k);
    } else {
      SortedTail(t, key);
      WithKeyInsert(t[1..], x, key, k);
      WithKeyInsertBehind(t, x, key, k);
    }
  }

  lemma SortedTail<T>(t: seq<T>, key: T -> int)
    requires SortedBy(t, key) && t != []
    ensures SortedBy(t[1..], key)
  {
    forall i, j | 0 <= i < j < |t| - 1 ensures key(t[1..][i]) <= key(t[1..][j]) {
      assert t[1..][i] == t[i + 1] && t[1..][j] == t[j + 1];
    }
  }

  lemma WithKeyCons<T>(y: T, t: seq<T>, key: T -> int, k: int)
    ensures WithKey([y] + t, key, k) == (if key(y) == k then [y] else []) + WithKey(t, key, k)
  {
    assert ([y] + t)[0] == y && ([y] + t)[1..] == t;
  }

  /** Stability: the elements that share a key keep their relative order. */
  lemma {:induction false} SortByIsStable<T>(s: seq<T>, key: T -> int, k: int)
    ensures WithKey(SortBy(s, key), key, k) == WithKey(s, key, k)
  {
    if s != [] {
      var init, last := s[..|s| - 1], s[|s| - 1];
      var tail := if key(last) == k then [last] else [];
      SortByIsSorted(init, key);
      calc {
        WithKey(SortBy(s, key), key, k);
        WithKey(Insert(SortBy(init, key), last, key), key, k);
        { WithKeyInsert(SortBy(init, key), last, key, k); }
        WithKey(SortBy(init, key), key, k) + tail;
        { SortByIsStable(init, key, k); }
        WithKey(init, key, k) + tail;
        { WithKeySingle(last, key, k); }
        WithKey(init, key, k) + WithKey([last], key, k);
        { WithKeyAppend(init, [last], key, k); }
        WithKey(init + [last], key, k);
        { assert init + [last] == s; }
        WithKey(s, key, k);
      }
    }
  }

  /** The sort orders by key and keeps the order within each key. */
  lemma SortByIsStableSort<T>(s: seq<T>, key: T -> int)
    ensures SortedBy(SortBy(s, key), key)
    ensures forall k :: WithKey(SortBy(s, key), key, k) == WithKey(s, key, k)
  {
    SortByIsSorted(s, key);
    forall k
      ensures WithKey(SortBy(s, key), key, k) == WithKey(s, key, k)
    {
      SortByIsStable(s, key, k);
    }
  }

  lemma WithKeySingle<T>(x: T, key: T -> int, k: int)
    ensures WithKey([x], key, k) == if key(x) == k then [x] else []
  {
    assert [x][1..] == [];
  }

  /** The first element of a sorted non-empty list has the least key of all. */
  lemma SortedHeadIsLeast<T>(s: seq<T>, key: T -> int)
    requires |s| > 0
    ensures SortBy(s, key)[0] in s
    ensures forall i :: 0 <= i < |s| ==> key(SortBy(s, key)[0]) <= key(s[i])
  {
    var r := SortBy(s, key);
    SortByIsSorted(s, key);
    assert r[0] in multiset(r);
    forall i | 0 <= i < |s| ensures key(r[0]) <= key(s[i]) {
      assert s[i] in multiset(s);
      var j :| 0 <= j < |r| && r[j] == s[i];
      assert j == 0 || key(r[0]) <= key(r[j]);
    }
  }
}
