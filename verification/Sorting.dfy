/** Python's stable `sorted`, as an insertion sort over a strict weak order. */
module Sorting {
  import opened Sequences

  ghost predicate WeakOrder<T(!new)>(before: (T, T) -> bool) {
    && (forall x, y :: before(x, y) ==> !before(y, x))
    && forall x, y, z {:trigger before(x, y), before(y, z)} :: before(x, z) ==> before(x, y) || before(y, z)
  }

  /** Insertion behind everything that is not after `x`. */
  function Insert<T>(s: seq<T>, x: T, before: (T, T) -> bool): seq<T> {
    if s == [] || before(x, s[0]) then [x] + s else [s[0]] + Insert(s[1..], x, before)
  }

  function StableSort<T>(s: seq<T>, before: (T, T) -> bool): seq<T> {
    if s == [] then [] else Insert(StableSort(s[..|s| - 1], before), s[|s| - 1], before)
  }

  /** Nothing stands behind something it belongs in front of. */
  ghost predicate Ordered<T>(s: seq<T>, before: (T, T) -> bool) {
    forall i, j :: 0 <= i < j < |s| ==> !before(s[j], s[i])
  }

  lemma {:induction false} InsertPermutes<T>(s: seq<T>, x: T, before: (T, T) -> bool)
    ensures multiset(Insert(s, x, before)) == multiset(s) + multiset{x}
  {
    if s != [] && !before(x, s[0]) {
      InsertPermutes(s[1..], x, before);
      assert s == [s[0]] + s[1..];
    }
  }

  lemma AllNotBefore<T(!new)>(s: seq<T>, x: T, before: (T, T) -> bool)
    requires WeakOrder(before) && s != [] && Ordered(s, before) && before(x, s[0])
    ensures forall i :: 0 <= i < |s| ==> before(x, s[i]) && !before(s[i], x)
  {
    forall i | 0 <= i < |s| ensures before(x, s[i]) && !before(s[i], x) {
      var head, y := s[0], s[i];
      assert i > 0 ==> !before(y, head);
      assert before(x, y) || before(y, head);
    }
  }

  lemma {:induction false} InsertKeepsOrder<T(!new)>(s: seq<T>, x: T, before: (T, T) -> bool)
    requires WeakOrder(before) && Ordered(s, before)
    ensures Ordered(Insert(s, x, before), before)
  {
    if s != [] && before(x, s[0]) {
      AllNotBefore(s, x, before);
    } else if s != [] {
      InsertKeepsOrder(s[1..], x, before);
      InsertPermutes(s[1..], x, before);
      var tail := Insert(s[1..], x, before);
      forall j | 0 <= j < |tail| ensures !before(tail[j], s[0]) {
        assert tail[j] in multiset(tail);
        assert tail[j] in s[1..] || tail[j] == x;
      }
    }
  }

  /** The class `p` holds elements the order does not tell apart. */
  ghost predicate Tied<T(!new)>(before: (T, T) -> bool, p: T -> bool) {
    forall x, y {:trigger p(x), p(y)} :: p(x) && p(y) ==> !before(x, y)
  }

  lemma {:induction false} InsertIsStable<T(!new)>(s: seq<T>, x: T, before: (T, T) -> bool, p: T -> bool)
    requires WeakOrder(before) && Ordered(s, before) && Tied(before, p)
    ensures Filter(Insert(s, x, before), p) == Filter(s + [x], p)
  {
    FilterConcat(s, [x], p);
    if s == [] {
      assert [x] + s == s + [x];
    } else if before(x, s[0]) {
      FilterConcat([x], s, p);
      AllNotBefore(s, x, before);
      if p(x) {
        forall y | y in s ensures !p(y) {
          var i :| 0 <= i < |s| && s[i] == y;
        }
        FilterNone(s, p);
      }
    } else {
      InsertIsStable(s[1..], x, before, p);
      FilterConcat(s[1..], [x], p);
      FilterConcat([s[0]], Insert(s[1..], x, before), p);
    }
  }

  /** Sorting permutes, orders, and keeps elements the order does not tell apart as they stood. */
  lemma {:induction false} SortIsStable<T(!new)>(s: seq<T>, before: (T, T) -> bool, p: T -> bool)
    requires WeakOrder(before) && Tied(before, p)
    ensures multiset(StableSort(s, before)) == multiset(s)
    ensures Ordered(StableSort(s, before), before)
    ensures Filter(StableSort(s, before), p) == Filter(s, p)
  {
    if s != [] {
      var front, last := s[..|s| - 1], s[|s| - 1];
      assert s == front + [last];
      SortIsStable(front, before, p);
      InsertPermutes(StableSort(front, before), last, before);
      InsertKeepsOrder(StableSort(front, before), last, before);
      InsertIsStable(StableSort(front, before), last, before, p);
      FilterConcat(StableSort(front, before), [last], p);
      FilterConcat(front, [last], p);
    }
  }

  lemma SortOrders<T(!new)>(s: seq<T>, before: (T, T) -> bool)
    requires WeakOrder(before)
    ensures multiset(StableSort(s, before)) == multiset(s)
    ensures Ordered(StableSort(s, before), before)
  {
    SortIsStable(s, before, (x: T) => false);
  }
}
