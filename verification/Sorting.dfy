/** Sorting the keys of a map: what comes out does not depend on the order the map is walked in. */
module Sorting {

  ghost predicate TotalOrder<T(!new)>(le: (T, T) -> bool) {
    && (forall a, b :: le(a, b) || le(b, a))
    && (forall a, b :: le(a, b) && le(b, a) ==> a == b)
    && (forall a, b, c :: le(a, b) && le(b, c) ==> le(a, c))
  }

  ghost predicate Sorted<T(!new)>(r: seq<T>, le: (T, T) -> bool) {
    forall i, j :: 0 <= i < j < |r| ==> le(r[i], r[j]) && r[i] != r[j]
  }

  ghost predicate SortedKeys<T(!new)>(r: seq<T>, keys: set<T>, le: (T, T) -> bool) {
    Sorted(r, le) && forall x :: x in r <==> x in keys
  }

  method SortKeys<T(==,!new)>(keys: set<T>, le: (T, T) -> bool) returns (r: seq<T>)
    requires TotalOrder(le)
    ensures SortedKeys(r, keys, le)
  {
    r := [];
    var todo := keys;
    while todo != {}
      invariant todo <= keys
      invariant SortedKeys(r, keys - todo, le)
      decreases todo
    {
      var k :| k in todo;
      var i := 0;
      while i < |r| && le(r[i], k)
        invariant 0 <= i <= |r|
        invariant forall j :: 0 <= j < i ==> le(r[j], k)
      {
        i := i + 1;
      }
      assert forall j :: 0 <= j < |r| ==> r[j] in r;
      assert k !in r;
      ghost var before := r;
      r := r[..i] + [k] + r[i..];
      assert before == before[..i] + before[i..];
      assert forall x :: x in r <==> x in before || x == k;
      todo := todo - {k};
      assert keys - todo == (keys - (todo + {k})) + {k};
    }
    assert keys - {} == keys;
  }

  /** There is only one way to sort a set of keys. */
  lemma {:induction false} SortedOnlyOneWay<T(!new)>(a: seq<T>, b: seq<T>, keys: set<T>, le: (T, T) -> bool)
    requires TotalOrder(le)
    requires SortedKeys(a, keys, le) && SortedKeys(b, keys, le)
    ensures a == b
  {
    if a != [] {
      assert a[0] in b;
    }
    if b != [] {
      assert b[0] in a;
    }
    if a != [] {
      assert a[0] == b[0];
      Tail(a, keys, le);
      Tail(b, keys, le);
      SortedOnlyOneWay(a[1..], b[1..], keys - {a[0]}, le);
      assert a == [a[0]] + a[1..] && b == [b[0]] + b[1..];
    }
  }

  lemma Tail<T(!new)>(a: seq<T>, keys: set<T>, le: (T, T) -> bool)
    requires SortedKeys(a, keys, le) && a != []
    ensures SortedKeys(a[1..], keys - {a[0]}, le)
  {
    assert forall x :: x in a <==> x == a[0] || x in a[1..];
    assert a[0] !in a[1..];
  }
}
