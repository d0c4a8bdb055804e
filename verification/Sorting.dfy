/**
 * Stable insertion sort by a strict order, standing for the library sort that the
 * decision ranking and the run ledger call.
 */
module Sorting {

  ghost predicate StrictOrder<T(!new)>(before: (T, T) -> bool) {
    && (forall a :: !before(a, a))
    && (forall a, b, c :: before(a, b) && before(b, c) ==> before(a, c))
  }

  /** Any two different elements of the list are ordered one way or the other. */
  predicate Separates<T(==)>(before: (T, T) -> bool, s: seq<T>) {
    forall a, b :: a in s && b in s ==> before(a, b) || before(b, a) || a == b
  }

  predicate Sorted<T(==)>(before: (T, T) -> bool, s: seq<T>) {
    forall i, j :: 0 <= i < j < |s| ==> !before(s[j], s[i])
  }

  function Insert<T(==)>(before: (T, T) -> bool, x: T, s: seq<T>): (r: seq<T>)
    ensures multiset(r) == multiset{x} + multiset(s)
  {
    if s == [] || before(x, s[0]) then [x] + s
    else
      assert s == [s[0]] + s[1..];
      [s[0]] + Insert(before, x, s[1..])
  }

  function Sort<T(==)>(before: (T, T) -> bool, s: seq<T>): (r: seq<T>)
    ensures multiset(r) == multiset(s)
    ensures |r| == |s|
  {
    if s == [] then []
    else
      var n := |s| - 1;
      assert s == s[..n] + [s[n]];
      var r := Insert(before, s[n], Sort(before, s[..n]));
      assert |r| == |multiset(r)|;
      r
  }

  lemma {:induction false} InsertKeepsSorted<T(!new)>(before: (T, T) -> bool, x: T, s: seq<T>)
    requires StrictOrder(before) && Sorted(before, s)
    ensures Sorted(before, Insert(before, x, s))
  {
    if s == [] {
    } else if before(x, s[0]) {
      forall j | 0 <= j < |s| ensures !before(s[j], x) {
        var y, first := s[j], s[0];
        assert before(y, x) && before(x, first) ==> before(y, first);
      }
    } else {
      InsertKeepsSorted(before, x, s[1..]);
      var rest := Insert(before, x, s[1..]);
      forall j | 0 <= j < |rest| ensures !before(rest[j], s[0]) {
        assert rest[j] in multiset(rest);
        assert rest[j] == x || rest[j] in s[1..];
      }
    }
  }

  lemma {:induction false} SortIsSorted<T(!new)>(before: (T, T) -> bool, s: seq<T>)
    requires StrictOrder(before)
    ensures Sorted(before, Sort(before, s))
  {
    if s != [] {
      var n := |s| - 1;
      SortIsSorted(before, s[..n]);
      InsertKeepsSorted(before, s[n], Sort(before, s[..n]));
    }
  }

  lemma FirstIsForced<T>(before: (T, T) -> bool, one: seq<T>, other: seq<T>)
    requires Sorted(before, one) && Sorted(before, other) && Separates(before, one)
    requires one != [] && multiset(one) == multiset(other)
    ensures other != [] && one[0] == other[0]
  {
    assert one[0] in multiset(other);
    assert other[0] in multiset(one);
    var i :| 0 <= i < |other| && other[i] == one[0];
    var j :| 0 <= j < |one| && one[j] == other[0];
  }

  /** There is only one sorted arrangement, so every sorting algorithm gives this one. */
  lemma {:induction false} SortedIsUnique<T>(before: (T, T) -> bool, one: seq<T>, other: seq<T>)
    requires Sorted(before, one) && Sorted(before, other) && Separates(before, one)
    requires multiset(one) == multiset(other)
    ensures one == other
    decreases |one|
  {
    if one == [] {
      assert |multiset(other)| == |other|;
    } else {
      FirstIsForced(before, one, other);
      assert one == [one[0]] + one[1..] && other == [one[0]] + other[1..];
      assert multiset(one[1..]) == multiset(one) - multiset{one[0]};
      assert multiset(other[1..]) == multiset(other) - multiset{one[0]};
      SortedIsUnique(before, one[1..], other[1..]);
    }
  }

  lemma SortIgnoresOrder<T(!new)>(before: (T, T) -> bool, one: seq<T>, other: seq<T>)
    requires StrictOrder(before) && Separates(before, one)
    requires multiset(one) == multiset(other)
    ensures Sort(before, one) == Sort(before, other)
  {
    SortIsSorted(before, one);
    SortIsSorted(before, other);
    forall a | a in Sort(before, one) ensures a in one {
      assert a in multiset(Sort(before, one));
    }
    SortedIsUnique(before, Sort(before, one), Sort(before, other));
  }
}
