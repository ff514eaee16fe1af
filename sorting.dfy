/**
 * Python's `list.sort(key=..., reverse=True)`: a stable sort into descending
 * key order. Keys are pairs compared lexicographically, as Python compares
 * tuples.
 */
module Sorting {

  /** A sort key `(major, minor)`. */
  datatype Key = Key(major: int, minor: real)

  predicate Greater(a: Key, b: Key) {
    a.major > b.major || (a.major == b.major && a.minor > b.minor)
  }

  /** Descending by key: no element has a greater key than one before it. */
  predicate SortedDesc<T>(s: seq<T>, key: T -> Key) {
    forall i, j :: 0 <= i < j < |s| ==> !Greater(key(s[j]), key(s[i]))
  }

  /** The elements of `s` whose key is `k`, in order. */
  function WithKey<T>(s: seq<T>, key: T -> Key, k: Key): (r: seq<T>)
    ensures |r| <= |s|
    decreases |s|
  {
    if |s| == 0 then []
    else (if key(s[0]) == k then [s[0]] else []) + WithKey(s[1..], key, k)
  }

  /** Inserts `x` after every element whose key is not smaller than its own. */
  function Insert<T>(s: seq<T>, x: T, key: T -> Key): (r: seq<T>)
    ensures multiset(r) == multiset(s) + multiset{x}
    ensures |r| == |s| + 1
    decreases |s|
  {
    if |s| == 0 then [x]
    else if Greater(key(x), key(s[0])) then [x] + s
    else
      assert s == [s[0]] + s[1..];
      [s[0]] + Insert(s[1..], x, key)
  }

  /** Insertion sort, taking the elements in input order. */
  function SortDesc<T>(s: seq<T>, key: T -> Key): (r: seq<T>)
    ensures multiset(r) == multiset(s)
    ensures |r| == |s|
    decreases |s|
  {
    if |s| == 0 then []
    else
      assert s == s[..|s| - 1] + [s[|s| - 1]];
      Insert(SortDesc(s[..|s| - 1], key), s[|s| - 1], key)
  }

  lemma {:induction false} InsertSorted<T>(s: seq<T>, x: T, key: T -> Key)
    requires SortedDesc(s, key)
    ensures SortedDesc(Insert(s, x, key), key)
    decreases |s|
  {
    if |s| > 0 && !Greater(key(x), key(s[0])) {
      InsertSorted(s[1..], x, key);
      var t := Insert(s[1..], x, key);
      assert multiset(t) == multiset(s[1..]) + multiset{x};
      forall j | 0 <= j < |t| ensures !Greater(key(t[j]), key(s[0])) {
        assert t[j] in multiset(t);
        if t[j] != x {
          assert t[j] in multiset(s[1..]);
          var m :| 0 <= m < |s[1..]| && s[1..][m] == t[j];
          assert s[m + 1] == t[j];
        }
      }
    }
  }

  lemma {:induction false} SortDescSorted<T>(s: seq<T>, key: T -> Key)
    ensures SortedDesc(SortDesc(s, key), key)
    decreases |s|
  {
    if |s| > 0 {
      SortDescSorted(s[..|s| - 1], key);
      InsertSorted(SortDesc(s[..|s| - 1], key), s[|s| - 1], key);
    }
  }

  /** An element of a descending sequence outside its first `n` elements has no greater key than any of them. */
  lemma SortedPrefixDominates<T>(s: seq<T>, n: nat, key: T -> Key, x: T)
    requires SortedDesc(s, key) && n <= |s| && x in s && x !in s[..n]
    ensures forall i :: 0 <= i < n ==> !Greater(key(x), key(s[i]))
  {
    var m :| 0 <= m < |s| && s[m] == x;
  }

  lemma {:induction false} WithKeyAppend<T>(a: seq<T>, b: seq<T>, key: T -> Key, k: Key)
    ensures WithKey(a + b, key, k) == WithKey(a, key, k) + WithKey(b, key, k)
    decreases |a|
  {
    if |a| == 0 {
      assert a + b == b;
    } else {
      assert (a + b)[1..] == a[1..] + b;
      WithKeyAppend(a[1..], b, key, k);
    }
  }

  lemma SortedTail<T>(s: seq<T>, key: T -> Key)
    requires SortedDesc(s, key) && |s| > 0
    ensures SortedDesc(s[1..], key)
  {
    forall i, j | 0 <= i < j < |s[1..]| ensures !Greater(key(s[1..][j]), key(s[1..][i])) {
      assert s[1..][i] == s[i + 1] && s[1..][j] == s[j + 1];
    }
  }

  /** In a descending sequence whose head has a smaller key than `x`, no element shares `x`'s key. */
  lemma {:induction false} NoneWithKeyBelow<T>(s: seq<T>, x: T, key: T -> Key)
    requires SortedDesc(s, key) && |s| > 0 && Greater(key(x), key(s[0]))
    ensures WithKey(s, key, key(x)) == []
    decreases |s|
  {
    if |s| > 1 {
      assert !Greater(key(s[1]), key(s[0]));
      SortedTail(s, key);
      NoneWithKeyBelow(s[1..], x, key);
    }
  }

  lemma InsertWithKeyFront<T>(s: seq<T>, x: T, key: T -> Key, k: Key)
    requires SortedDesc(s, key) && |s| > 0 && Greater(key(x), key(s[0]))
    ensures WithKey([x] + s, key, k) == WithKey(s, key, k) + WithKey([x], key, k)
  {
    WithKeyAppend([x], s, key, k);
    if key(x) == k {
      NoneWithKeyBelow(s, x, key);
    } else {
      assert WithKey([x], key, k) == [];
    }
  }

  /** Inserting into a descending sequence puts `x` after every element with the same key. */
  lemma {:induction false} InsertWithKey<T>(s: seq<T>, x: T, key: T -> Key, k: Key)
    requires SortedDesc(s, key)
    ensures WithKey(Insert(s, x, key), key, k) == WithKey(s, key, k) + WithKey([x], key, k)
    decreases |s|
  {
    if |s| == 0 {
    } else if Greater(key(x), key(s[0])) {
      InsertWithKeyFront(s, x, key, k);
    } else {
      SortedTail(s, key);
      InsertWithKey(s[1..], x, key, k);
      InsertWithKeyBehind(s, x, key, k);
    }
  }

  /** `x` goes behind the head: the head's share of the key is unchanged in front of the rest. */
  lemma {:induction false} InsertWithKeyBehind<T>(s: seq<T>, x: T, key: T -> Key, k: Key)
    requires |s| > 0 && !Greater(key(x), key(s[0]))
    requires WithKey(Insert(s[1..], x, key), key, k) == WithKey(s[1..], key, k) + WithKey([x], key, k)
    ensures WithKey(Insert(s, x, key), key, k) == WithKey(s, key, k) + WithKey([x], key, k)
  {
    var t := Insert(s[1..], x, key);
    assert Insert(s, x, key) == [s[0]] + t;
    WithKeyAppend([s[0]], t, key, k);
    WithKeyAppend([s[0]], s[1..], key, k);
    assert [s[0]] + s[1..] == s;
  }

  /** Stability: elements with equal keys keep their input order. */
  lemma {:induction false} SortDescStable<T>(s: seq<T>, key: T -> Key, k: Key)
    ensures WithKey(SortDesc(s, key), key, k) == WithKey(s, key, k)
    decreases |s|
  {
    if |s| > 0 {
      var init, last := s[..|s| - 1], s[|s| - 1];
      SortDescStable(init, key, k);
      SortDescSorted(init, key);
      InsertWithKey(SortDesc(init, key), last, key, k);
      SortDescStableStep(s, key, k);
    }
  }

  /** The last element goes behind the sorted rest's elements with its key, which is where it was. */
  lemma {:induction false} SortDescStableStep<T>(s: seq<T>, key: T -> Key, k: Key)
    requires |s| > 0
    requires WithKey(SortDesc(s[..|s| - 1], key), key, k) == WithKey(s[..|s| - 1], key, k)
    requires WithKey(Insert(SortDesc(s[..|s| - 1], key), s[|s| - 1], key), key, k)
          == WithKey(SortDesc(s[..|s| - 1], key), key, k) + WithKey([s[|s| - 1]], key, k)
    ensures WithKey(SortDesc(s, key), key, k) == WithKey(s, key, k)
  {
    var init, last := s[..|s| - 1], s[|s| - 1];
    assert SortDesc(s, key) == Insert(SortDesc(init, key), last, key);
    WithKeyAppend(init, [last], key, k);
    assert init + [last] == s;
  }
}
