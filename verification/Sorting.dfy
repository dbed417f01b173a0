/** What qsort leaves behind, for any order in which it does not matter how equal
    elements are placed. */
module Sorting {

  /** `before` ranks any two elements, and ranks them consistently. */
  ghost predicate IsOrder<T(!new)>(before: (T, T) -> bool) {
    && (forall x, y :: before(x, y) || before(y, x))
    && forall x, y, z :: before(x, y) && before(y, z) ==> before(x, z)
  }

  ghost predicate Sorted<T>(before: (T, T) -> bool, s: seq<T>) {
    forall i, j :: 0 <= i < j < |s| ==> before(s[i], s[j])
  }

  function Insert<T>(before: (T, T) -> bool, x: T, s: seq<T>): (r: seq<T>)
    ensures |r| == |s| + 1
  {
    if s == [] || before(x, s[0]) then [x] + s else [s[0]] + Insert(before, x, s[1..])
  }

  function Sort<T>(before: (T, T) -> bool, s: seq<T>): (r: seq<T>)
    ensures |r| == |s|
  {
    if s == [] then [] else Insert(before, s[0], Sort(before, s[1..]))
  }

  lemma {:induction false} InsertSorts<T(!new)>(before: (T, T) -> bool, x: T, s: seq<T>)
    requires IsOrder(before) && Sorted(before, s)
    ensures Sorted(before, Insert(before, x, s))
    ensures multiset(Insert(before, x, s)) == multiset{x} + multiset(s)
  {
    if s == [] {
    } else if before(x, s[0]) {
      assert multiset([x] + s) == multiset{x} + multiset(s);
    } else {
      var t, r := s[1..], Insert(before, x, s[1..]);
      assert Sorted(before, t);
      InsertSorts(before, x, t);
      assert s == [s[0]] + t;
      forall j | 0 <= j < |r| ensures before(s[0], r[j]) {
        assert r[j] in multiset(r);
        assert r[j] in t || r[j] == x;
      }
      assert Insert(before, x, s) == [s[0]] + r;
    }
  }

  lemma {:induction false} SortSorts<T(!new)>(before: (T, T) -> bool, s: seq<T>)
    requires IsOrder(before)
    ensures Sorted(before, Sort(before, s)) && multiset(Sort(before, s)) == multiset(s)
  {
    if s != [] {
      SortSorts(before, s[1..]);
      InsertSorts(before, s[0], Sort(before, s[1..]));
      assert s == [s[0]] + s[1..];
    }
  }
}
