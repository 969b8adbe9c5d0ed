/** A stable sort by an integer key. It stands for two sorts the system relies on
    without implementing them: `Array.prototype.sort` with a numeric comparator
    (stable since ECMAScript 2019, section 22.1.3.27) and SQL `ORDER BY`. */
module Sorting {

  /** Ascending by key: the order a comparator `(a, b) => key(a) - key(b)` asks for. */
  predicate SortedBy<T>(s: seq<T>, key: T -> int) {
    forall i, j :: 0 <= i < j < |s| ==> key(s[i]) <= key(s[j])
  }

  /** The elements of `s` whose key is `k`, in their order in `s`. A sort is stable
      when it leaves every such subsequence as it was. */
  function WithKey<T>(s: seq<T>, key: T -> int, k: int): (r: seq<T>)
    ensures |r| <= |s|
    ensures forall i :: 0 <= i < |r| ==> r[i] in s && key(r[i]) == k
  {
    if s == [] then []
    else (if key(s[0]) == k then [s[0]] else []) + WithKey(s[1..], key, k)
  }

  /** `x` placed in front of the first element whose key is not smaller. */
  function Insert<T>(x: T, s: seq<T>, key: T -> int): (r: seq<T>)
    ensures |r| == |s| + 1
    ensures multiset(r) == multiset(s) + multiset{x}
  {
    if s == [] || key(x) <= key(s[0]) then [x] + s
    else
      assert s == [s[0]] + s[1..];
      [s[0]] + Insert(x, s[1..], key)
  }

  /** Inserting into a sorted sequence keeps it sorted. */
  lemma {:induction false} InsertSorted<T>(x: T, s: seq<T>, key: T -> int)
    requires SortedBy(s, key)
    ensures SortedBy(Insert(x, s, key), key)
  {
    if s != [] && key(x) > key(s[0]) {
      var t := Insert(x, s[1..], key);
      InsertSorted(x, s[1..], key);
      forall i | 0 <= i < |t|
        ensures key(s[0]) <= key(t[i])
      {
        assert t[i] in multiset(t);
        assert t[i] == x || t[i] in multiset(s[1..]);
        if t[i] != x {
          var j :| 0 <= j < |s[1..]| && s[1..][j] == t[i];
          assert s[j + 1] == t[i];
        }
      }
    }
  }

  /** The stable sort of `s` by `key`, ascending. */
  function SortBy<T>(s: seq<T>, key: T -> int): (r: seq<T>)
    ensures |r| == |s|
    ensures multiset(r) == multiset(s)
    ensures SortedBy(r, key)
  {
    if s == [] then []
    else
      assert s == [s[0]] + s[1..];
      InsertSorted(s[0], SortBy(s[1..], key), key);
      Insert(s[0], SortBy(s[1..], key), key)
  }

  /** The subsequence of key `k` in a sequence with `x` in front. */
  lemma WithKeyCons<T>(x: T, s: seq<T>, key: T -> int, k: int)
    ensures WithKey([x] + s, key, k) == (if key(x) == k then [x] else []) + WithKey(s, key, k)
  {
    assert ([x] + s)[1..] == s;
  }

  /** Insertion adds `x` to its key's subsequence, in front, and leaves every other key's alone. */
  lemma {:induction false} InsertWithKey<T>(x: T, s: seq<T>, key: T -> int, k: int)
    ensures WithKey(Insert(x, s, key), key, k) == (if key(x) == k then [x] else []) + WithKey(s, key, k)
  {
    if s == [] || key(x) <= key(s[0]) {
      WithKeyCons(x, s, key, k);
    } else {
      var head, tail := s[0], s[1..];
      var t := Insert(x, tail, key);
      assert Insert(x, s, key) == [head] + t;
      assert s == [head] + tail;
      InsertWithKey(x, tail, key, k);
      WithKeyCons(head, t, key, k);
      WithKeyCons(head, tail, key, k);
      var rest := WithKey(tail, key, k);
      if key(x) == k {
        // `head` has a smaller key than `x`, so it is not in `k`'s subsequence
        assert WithKey([head] + t, key, k) == WithKey(t, key, k) == [x] + rest;
        assert WithKey(s, key, k) == rest;
      } else {
        assert WithKey(t, key, k) == rest;
      }
    }
  }

  /** Sorting is stable: the elements of any one key keep their relative order. */
  lemma {:induction false} SortByStable<T>(s: seq<T>, key: T -> int, k: int)
    ensures WithKey(SortBy(s, key), key, k) == WithKey(s, key, k)
  {
    if s != [] {
      SortByStable(s[1..], key, k);
      InsertWithKey(s[0], SortBy(s[1..], key), key, k);
    }
  }

  lemma {:induction false} WithKeyOfFirst<T>(s: seq<T>, key: T -> int)
    requires s != []
    ensures WithKey(s, key, key(s[0])) != [] && WithKey(s, key, key(s[0]))[0] == s[0]
  {
  }

  /** Sorted and stable determine the result: any sorted sequence that keeps every
      key's subsequence of `s` is `SortBy(s, key)`, whatever algorithm produced it. */
  lemma SortByUnique<T>(s: seq<T>, r: seq<T>, key: T -> int)
    requires SortedBy(r, key)
    requires forall k :: WithKey(r, key, k) == WithKey(s, key, k)
    ensures r == SortBy(s, key)
  {
    var t := SortBy(s, key);
    forall k ensures WithKey(r, key, k) == WithKey(t, key, k) {
      SortByStable(s, key, k);
    }
    SortedSameGroupsEqual(r, t, key);
  }

  lemma {:induction false} SortedSameGroupsEqual<T>(a: seq<T>, b: seq<T>, key: T -> int)
    requires SortedBy(a, key) && SortedBy(b, key)
    requires forall k :: WithKey(a, key, k) == WithKey(b, key, k)
    ensures a == b
  {
    if a == [] || b == [] {
      if a != [] {
        WithKeyOfFirst(a, key);
        assert false;
      } else if b != [] {
        WithKeyOfFirst(b, key);
        assert false;
      }
    } else {
      WithKeyOfFirst(a, key);
      WithKeyOfFirst(b, key);
      var ka, kb := key(a[0]), key(b[0]);
      var ga := WithKey(a, key, kb);
      assert ga[0] in a && key(ga[0]) == kb;
      assert ka <= kb;
      var gb := WithKey(b, key, ka);
      assert gb[0] in b && key(gb[0]) == ka;
      assert kb <= ka;
      assert a[0] == b[0];
      forall k ensures WithKey(a[1..], key, k) == WithKey(b[1..], key, k) {
        var p := if ka == k then [a[0]] else [];
        assert WithKey(a, key, k) == p + WithKey(a[1..], key, k);
        assert WithKey(b, key, k) == p + WithKey(b[1..], key, k);
        assert (p + WithKey(a[1..], key, k))[|p|..] == WithKey(a[1..], key, k);
        assert (p + WithKey(b[1..], key, k))[|p|..] == WithKey(b[1..], key, k);
      }
      SortedSameGroupsEqual(a[1..], b[1..], key);
      assert a == [a[0]] + a[1..] && b == [b[0]] + b[1..];
    }
  }
}
