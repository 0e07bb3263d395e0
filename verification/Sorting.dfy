/** The stable sort by key that recovery and the GPS loader call on a vector. */
module Sorting {

  ghost predicate SortedByKey<T>(s: seq<T>, key: T -> int) {
    forall i, j :: 0 <= i < j < |s| ==> key(s[i]) <= key(s[j])
  }

  function Insert<T>(x: T, s: seq<T>, key: T -> int): (r: seq<T>)
    ensures multiset(r) == multiset(s) + multiset{x}
  {
    if s == [] then [x]
    else if key(x) <= key(s[0]) then [x] + s
    else
      assert s == [s[0]] + s[1..];
      [s[0]] + Insert(x, s[1..], key)
  }

  function SortByKey<T>(s: seq<T>, key: T -> int): (r: seq<T>)
    ensures multiset(r) == multiset(s)
  {
    if s == [] then []
    else
      assert s == [s[0]] + s[1..];
      Insert(s[0], SortByKey(s[1..], key), key)
  }

  /** The elements with one particular key, in order. */
  function WithKey<T>(s: seq<T>, key: T -> int, k: int): (r: seq<T>) {
    if s == [] then []
    else (if key(s[0]) == k then [s[0]] else []) + WithKey(s[1..], key, k)
  }

  lemma {:induction false} InsertSorts<T>(x: T, s: seq<T>, key: T -> int)
    requires SortedByKey(s, key)
    ensures SortedByKey(Insert(x, s, key), key)
  {
    if s == [] || key(x) <= key(s[0]) {
    } else {
      var tail := Insert(x, s[1..], key);
      InsertSorts(x, s[1..], key);
      forall j | 0 <= j < |tail| ensures key(s[0]) <= key(tail[j]) {
        assert tail[j] in multiset(tail);
        assert tail[j] in s[1..] || tail[j] == x;
      }
    }
  }

  lemma DifferentKeysCommute<T>(x: T, y: T, s: seq<T>, key: T -> int, k: int)
    requires key(x) != key(y)
    ensures WithKey([x] + ([y] + s), key, k) == WithKey([y] + ([x] + s), key, k)
  {
    FirstWithKey(y, s, key, k);
    FirstWithKey(x, s, key, k);
    FirstWithKey(x, [y] + s, key, k);
    FirstWithKey(y, [x] + s, key, k);
    hide WithKey;
    var rest := WithKey(s, key, k);
    if key(x) == k {
      assert [x] + ([] + rest) == [] + ([x] + rest);
    } else if key(y) == k {
      assert [] + ([y] + rest) == [y] + ([] + rest);
    }
  }

  lemma InsertUnfolds<T>(x: T, s: seq<T>, key: T -> int)
    ensures s == [] || key(x) <= key(s[0]) ==> Insert(x, s, key) == [x] + s
    ensures s != [] && key(x) > key(s[0]) ==> Insert(x, s, key) == [s[0]] + Insert(x, s[1..], key)
  {
  }

  lemma {:induction false} InsertIsStable<T>(x: T, s: seq<T>, key: T -> int, k: int)
    ensures WithKey(Insert(x, s, key), key, k) == WithKey([x] + s, key, k)
  {
    hide *;
    InsertUnfolds(x, s, key);
    if s == [] || key(x) <= key(s[0]) {
    } else {
      var y, tail := s[0], s[1..];
      InsertIsStable(x, tail, key, k);
      FirstWithKey(y, Insert(x, tail, key), key, k);
      FirstWithKey(y, [x] + tail, key, k);
      DifferentKeysCommute(x, y, tail, key, k);
      assert s == [y] + tail;
    }
  }

  lemma FirstWithKey<T>(x: T, s: seq<T>, key: T -> int, k: int)
    ensures WithKey([x] + s, key, k) == (if key(x) == k then [x] else []) + WithKey(s, key, k)
  {
    assert ([x] + s)[1..] == s;
  }

  /** The sort orders the elements and never swaps two with the same key. */
  lemma {:induction false} SortByKeyIsStable<T>(s: seq<T>, key: T -> int)
    ensures SortedByKey(SortByKey(s, key), key)
    ensures forall k :: WithKey(SortByKey(s, key), key, k) == WithKey(s, key, k)
  {
    if s != [] {
      SortByKeyIsStable(s[1..], key);
      var tail := SortByKey(s[1..], key);
      InsertSorts(s[0], tail, key);
      forall k ensures WithKey(SortByKey(s, key), key, k) == WithKey(s, key, k) {
        InsertIsStable(s[0], tail, key, k);
        assert ([s[0]] + tail)[1..] == tail;
      }
    }
  }
}
