/** Python's stable `sorted`, as insertion before the first element that does not precede. */
module Sorting {

  function Insert<T>(before: (T, T) -> bool, x: T, s: seq<T>): seq<T> {
    if s == [] || before(x, s[0]) then [x] + s else [s[0]] + Insert(before, x, s[1..])
  }

  /** `before(a, b)` is key(a) <= key(b): equal keys keep their input order. */
  function StableSort<T>(before: (T, T) -> bool, s: seq<T>): seq<T> {
    if s == [] then [] else Insert(before, s[0], StableSort(before, s[1..]))
  }

  lemma {:induction false} InsertMultiset<T>(before: (T, T) -> bool, x: T, s: seq<T>)
    ensures multiset(Insert(before, x, s)) == multiset(s) + multiset{x}
  {
    if s == [] || before(x, s[0]) {
    } else {
      InsertMultiset(before, x, s[1..]);
      assert s == [s[0]] + s[1..];
    }
  }

  /** Sorting loses nothing and repeats nothing. */
  lemma {:induction false} SortMultiset<T>(before: (T, T) -> bool, s: seq<T>)
    ensures multiset(StableSort(before, s)) == multiset(s)
  {
    if s != [] {
      SortMultiset(before, s[1..]);
      InsertMultiset(before, s[0], StableSort(before, s[1..]));
      assert s == [s[0]] + s[1..];
    }
  }

  lemma SortMembers<T>(before: (T, T) -> bool, s: seq<T>)
    ensures forall x :: x in StableSort(before, s) <==> x in s
    ensures |StableSort(before, s)| == |s|
  {
    SortMultiset(before, s);
    forall x ensures x in StableSort(before, s) <==> x in s {
      assert x in multiset(s) <==> x in multiset(StableSort(before, s));
    }
    assert |multiset(s)| == |s| && |multiset(StableSort(before, s))| == |StableSort(before, s)|;
  }

  ghost predicate TotalOrder<T(!new)>(before: (T, T) -> bool) {
    && (forall a, b :: before(a, b) || before(b, a))
    && (forall a, b, c :: before(a, b) && before(b, c) ==> before(a, c))
  }

  lemma {:induction false} InsertOrders<T(!new)>(before: (T, T) -> bool, x: T, s: seq<T>)
    requires TotalOrder(before) && forall i, k :: 0 <= i < k < |s| ==> before(s[i], s[k])
    ensures forall i, k :: 0 <= i < k < |Insert(before, x, s)| ==>
              before(Insert(before, x, s)[i], Insert(before, x, s)[k])
  {
    if s == [] || before(x, s[0]) {
      assert forall k :: 0 < k < |s| ==> before(s[0], s[k]);
    } else {
      var rest := Insert(before, x, s[1..]);
      InsertOrders(before, x, s[1..]);
      InsertMultiset(before, x, s[1..]);
      forall k | 0 <= k < |rest| ensures before(s[0], rest[k]) {
        assert rest[k] in multiset(rest);
        assert rest[k] == x || rest[k] in s[1..];
      }
    }
  }

  lemma {:induction false} SortOrders<T(!new)>(before: (T, T) -> bool, s: seq<T>)
    requires TotalOrder(before)
    ensures forall i, k :: 0 <= i < k < |StableSort(before, s)| ==>
              before(StableSort(before, s)[i], StableSort(before, s)[k])
  {
    if s != [] {
      SortOrders(before, s[1..]);
      InsertOrders(before, s[0], StableSort(before, s[1..]));
    }
  }
}
