/** Facts about sequences shared by the planner, the editor and the recommender. */
module Sequences {
  ghost predicate Distinct<T>(s: seq<T>) {
    forall i, j :: 0 <= i < j < |s| ==> s[i] != s[j]
  }

  function Filter<T>(s: seq<T>, p: T -> bool): (r: seq<T>)
    ensures |r| <= |s|
  {
    if s == [] then []
    else (if p(s[0]) then [s[0]] else []) + Filter(s[1..], p)
  }

  function Map<T, U>(s: seq<T>, f: T -> U): (r: seq<U>)
    ensures |r| == |s|
    ensures forall i :: 0 <= i < |s| ==> r[i] == f(s[i])
  {
    if s == [] then [] else [f(s[0])] + Map(s[1..], f)
  }

  function Flatten<T>(ss: seq<seq<T>>): seq<T> {
    if ss == [] then [] else ss[0] + Flatten(ss[1..])
  }

  function RemoveAt<T>(s: seq<T>, k: nat): (r: seq<T>)
    requires k < |s|
    ensures |r| == |s| - 1
  {
    s[..k] + s[k + 1..]
  }

  /** Python's `list.remove`: drops the first element equal to `x`. */
  function RemoveFirst<T(==)>(s: seq<T>, x: T): (r: seq<T>)
    requires x in s
    ensures |r| == |s| - 1
    ensures multiset(r) == multiset(s) - multiset{x}
  {
    if s[0] == x then
      assert s == [s[0]] + s[1..];
      s[1..]
    else
      assert s == [s[0]] + s[1..];
      [s[0]] + RemoveFirst(s[1..], x)
  }

  lemma RemoveAtTail<T>(s: seq<T>, k: nat)
    requires 0 < k < |s|
    ensures RemoveAt(s, k) == [s[0]] + RemoveAt(s[1..], k - 1)
  {
  }

  lemma {:induction false} RemoveFirstAt<T>(s: seq<T>, k: nat)
    requires k < |s|
    requires forall j :: 0 <= j < k ==> s[j] != s[k]
    ensures RemoveFirst(s, s[k]) == RemoveAt(s, k)
  {
    if k > 0 {
      var tail := s[1..];
      assert tail[k - 1] == s[k] && forall j :: 0 <= j < k - 1 ==> tail[j] == s[j + 1];
      RemoveFirstAt(tail, k - 1);
      RemoveAtTail(s, k);
    }
  }

  lemma RemoveAtMultiset<T>(s: seq<T>, k: nat)
    requires k < |s|
    ensures multiset(RemoveAt(s, k)) == multiset(s) - multiset{s[k]}
    ensures multiset(s) == multiset{s[k]} + multiset(RemoveAt(s, k))
  {
    calc {
      multiset(s);
    == { assert s == s[..k] + ([s[k]] + s[k + 1..]); }
      multiset(s[..k]) + multiset([s[k]] + s[k + 1..]);
    ==
      multiset{s[k]} + multiset(s[..k] + s[k + 1..]);
    }
  }

  lemma {:induction false} FilterMembers<T>(s: seq<T>, p: T -> bool)
    ensures forall x :: x in Filter(s, p) <==> x in s && p(x)
  {
    if s != [] {
      FilterMembers(s[1..], p);
      assert s == [s[0]] + s[1..];
    }
  }

  lemma {:induction false} FilterMember<T>(s: seq<T>, p: T -> bool, x: T)
    ensures x in Filter(s, p) <==> x in s && p(x)
  {
    FilterMembers(s, p);
  }

  lemma {:induction false} FilterDistinct<T>(s: seq<T>, p: T -> bool)
    requires Distinct(s)
    ensures Distinct(Filter(s, p))
  {
    if s != [] {
      FilterDistinct(s[1..], p);
      FilterMembers(s[1..], p);
      assert forall x :: x in s[1..] ==> x != s[0];
    }
  }

  lemma {:induction false} FilterConcat<T>(s: seq<T>, t: seq<T>, p: T -> bool)
    ensures Filter(s + t, p) == Filter(s, p) + Filter(t, p)
  {
    if s == [] {
      assert s + t == t;
    } else {
      var u := s + t;
      assert u[1..] == s[1..] + t && u[0] == s[0];
      FilterConcat(s[1..], t, p);
      var head := if p(s[0]) then [s[0]] else [];
      assert Filter(u, p) == head + Filter(u[1..], p);
      assert head + (Filter(s[1..], p) + Filter(t, p)) == (head + Filter(s[1..], p)) + Filter(t, p);
    }
  }

  /** Filtering twice keeps what the second test keeps, when the first test lets all of that through. */
  lemma {:induction false} FilterThrough<T>(s: seq<T>, p: T -> bool, q: T -> bool)
    requires forall x :: x in s && q(x) ==> p(x)
    ensures Filter(Filter(s, p), q) == Filter(s, q)
  {
    if s != [] {
      FilterThrough(s[1..], p, q);
      FilterConcat(if p(s[0]) then [s[0]] else [], Filter(s[1..], p), q);
    }
  }

  lemma {:induction false} FilterSame<T>(s: seq<T>, p: T -> bool, q: T -> bool)
    requires forall x :: x in s ==> p(x) == q(x)
    ensures Filter(s, p) == Filter(s, q)
  {
    if s != [] {
      FilterSame(s[1..], p, q);
    }
  }

  lemma {:induction false} FilterNone<T>(s: seq<T>, p: T -> bool)
    requires forall x :: x in s ==> !p(x)
    ensures Filter(s, p) == []
  {
    if s != [] {
      FilterNone(s[1..], p);
    }
  }

  lemma {:induction false} FilterAll<T>(s: seq<T>, p: T -> bool)
    requires forall x :: x in s ==> p(x)
    ensures Filter(s, p) == s
  {
    if s != [] {
      FilterAll(s[1..], p);
    }
  }

  /** A key that is injective on `s` stays injective on any filtering of `s`. */
  lemma {:induction false} FilterKeysDistinct<T, K>(s: seq<T>, p: T -> bool, key: T -> K)
    requires Distinct(Map(s, key))
    ensures Distinct(Map(Filter(s, p), key))
  {
    if s != [] {
      assert Map(s, key)[1..] == Map(s[1..], key);
      FilterKeysDistinct(s[1..], p, key);
      var tail := s[1..];
      var rest := Filter(tail, p);
      FilterMembers(tail, p);
      forall i | 0 <= i < |rest| ensures key(rest[i]) != key(s[0]) {
        var x := rest[i];
        assert x in rest;
        FilterMember(tail, p, x);
        var j :| 0 <= j < |tail| && tail[j] == x;
        assert Map(s, key)[j + 1] == key(x);
      }
    }
  }

  lemma MapMember<T, U>(s: seq<T>, f: T -> U, x: T)
    requires x in s
    ensures f(x) in Map(s, f)
  {
    var i :| 0 <= i < |s| && s[i] == x;
    assert Map(s, f)[i] == f(x);
  }

  lemma DistinctKeyUnique<T, K>(s: seq<T>, key: T -> K, x: T, y: T)
    requires Distinct(Map(s, key))
    requires x in s && y in s && key(x) == key(y)
    ensures x == y
  {
    var i :| 0 <= i < |s| && s[i] == x;
    var j :| 0 <= j < |s| && s[j] == y;
    assert Map(s, key)[i] == Map(s, key)[j];
  }

  lemma DistinctConcat<T>(s: seq<T>, t: seq<T>)
    requires Distinct(s) && Distinct(t)
    requires forall x :: x in s ==> x !in t
    ensures Distinct(s + t)
  {
    forall i, j | 0 <= i < j < |s + t| ensures (s + t)[i] != (s + t)[j] {
      if i < |s| <= j {
        assert s[i] in s && t[j - |s|] in t;
      }
    }
  }

  lemma NothingDistinct<T, K>(key: T -> K)
    ensures Distinct(Map([], key))
  {
  }

  lemma DistinctOneMore<T, K>(s: seq<T>, x: T, key: T -> K)
    requires Distinct(Map(s, key)) && forall y :: y in s ==> key(y) != key(x)
    ensures Distinct(Map(s + [x], key))
  {
    forall i, j | 0 <= i < j < |s + [x]| ensures Map(s + [x], key)[i] != Map(s + [x], key)[j] {
      assert s[i] in s;
      if j < |s| {
        assert Map(s, key)[i] != Map(s, key)[j];
      }
    }
  }

  lemma {:induction false} MapConcat<T, U>(s: seq<T>, t: seq<T>, f: T -> U)
    ensures Map(s + t, f) == Map(s, f) + Map(t, f)
  {
  }

  lemma InConcat<T>(a: seq<T>, b: seq<T>, x: T)
    ensures x in a + b <==> x in a || x in b
  {
  }

  lemma ConcatAssociative<T>(a: seq<T>, b: seq<T>, c: seq<T>)
    ensures a + (b + c) == a + b + c
  {
  }

  lemma {:induction false} FlattenMember<T>(ss: seq<seq<T>>, x: T)
    ensures x in Flatten(ss) <==> exists i :: 0 <= i < |ss| && x in ss[i]
  {
    if ss != [] {
      FlattenMember(ss[1..], x);
      if x in ss[0] {
      } else if x in Flatten(ss[1..]) {
        var i :| 0 <= i < |ss[1..]| && x in ss[1..][i];
        assert x in ss[i + 1];
      }
      if i :| 0 <= i < |ss| && x in ss[i] {
        if i > 0 {
          assert x in ss[1..][i - 1];
        }
      }
    }
  }

  lemma {:induction false} FlattenConcat<T>(ss: seq<seq<T>>, tt: seq<seq<T>>)
    ensures Flatten(ss + tt) == Flatten(ss) + Flatten(tt)
  {
    if ss == [] {
      assert ss + tt == tt;
    } else {
      assert (ss + tt)[1..] == ss[1..] + tt;
      FlattenConcat(ss[1..], tt);
    }
  }

  lemma {:induction false} DistinctKeysConcat<T, K>(s: seq<T>, t: seq<T>, key: T -> K)
    requires Distinct(Map(s, key)) && Distinct(Map(t, key))
    requires KeysApart(s, t, key)
    ensures Distinct(Map(s + t, key))
  {
    MapConcat(s, t, key);
    forall k | k in Map(s, key) ensures k !in Map(t, key) {
      var i :| 0 <= i < |s| && Map(s, key)[i] == k;
      assert s[i] in s;
      forall j | 0 <= j < |t| ensures Map(t, key)[j] != k {
        assert t[j] in t;
      }
    }
    DistinctConcat(Map(s, key), Map(t, key));
  }

  lemma DistinctParts<T>(s: seq<T>, t: seq<T>)
    requires Distinct(s + t)
    ensures Distinct(s) && Distinct(t)
    ensures forall x :: x in s ==> x !in t
  {
    assert s == (s + t)[..|s|] && t == (s + t)[|s|..];
    forall i, j | 0 <= i < |s| && 0 <= j < |t| ensures s[i] != t[j] {
      assert (s + t)[i] == s[i] && (s + t)[|s| + j] == t[j];
    }
  }

  lemma FlattenKey<T, K>(ss: seq<seq<T>>, j: nat, key: T -> K)
    requires j < |ss|
    ensures forall x :: x in Map(ss[j], key) ==> x in Map(Flatten(ss), key)
  {
    forall k | 0 <= k < |ss[j]| ensures key(ss[j][k]) in Map(Flatten(ss), key) {
      FlattenMember(ss, ss[j][k]);
      MapMember(Flatten(ss), key, ss[j][k]);
    }
  }

  /** Keys distinct over a flattening are distinct within every part and shared by no two parts. */
  lemma {:induction false} FlattenKeysDistinct<T, K>(ss: seq<seq<T>>, key: T -> K)
    requires Distinct(Map(Flatten(ss), key))
    ensures forall i :: 0 <= i < |ss| ==> Distinct(Map(ss[i], key))
    ensures forall i, j, x :: 0 <= i < j < |ss| && x in Map(ss[i], key) ==> x !in Map(ss[j], key)
  {
    hide Distinct, Map;
    if ss != [] {
      var tail := ss[1..];
      MapConcat(ss[0], Flatten(tail), key);
      DistinctParts(Map(ss[0], key), Map(Flatten(tail), key));
      FlattenKeysDistinct(tail, key);
      forall i | 0 <= i < |ss| ensures Distinct(Map(ss[i], key)) {
        assert i > 0 ==> ss[i] == tail[i - 1];
      }
      forall i, j, x | 0 <= i < j < |ss| && x in Map(ss[i], key) ensures x !in Map(ss[j], key) {
        assert ss[j] == tail[j - 1];
        if i == 0 {
          FlattenKey(tail, j - 1, key);
        } else {
          assert ss[i] == tail[i - 1];
        }
      }
    }
  }

  /** The converse: distinct parts that share no key flatten to distinct keys. */
  lemma {:induction false} FlattenKeysDisjoint<T, K>(ss: seq<seq<T>>, key: T -> K)
    requires forall i :: 0 <= i < |ss| ==> Distinct(Map(ss[i], key))
    requires forall i, j, x :: 0 <= i < j < |ss| && x in Map(ss[i], key) ==> x !in Map(ss[j], key)
    ensures Distinct(Map(Flatten(ss), key))
  {
    if ss != [] {
      var tail := ss[1..];
      forall i, j, x | 0 <= i < j < |tail| && x in Map(tail[i], key) ensures x !in Map(tail[j], key) {
        assert tail[i] == ss[i + 1] && tail[j] == ss[j + 1];
      }
      FlattenKeysDisjoint(tail, key);
      MapConcat(ss[0], Flatten(tail), key);
      forall b | 0 <= b < |Flatten(tail)| ensures key(Flatten(tail)[b]) !in Map(ss[0], key) {
        var y := Flatten(tail)[b];
        FlattenMember(tail, y);
        var j :| 0 <= j < |tail| && y in tail[j];
        MapMember(tail[j], key, y);
        assert tail[j] == ss[j + 1];
      }
      DistinctConcat(Map(ss[0], key), Map(Flatten(tail), key));
    }
  }

  /** What a loop collects that appends one part per round. */
  function Accumulate<T>(n: nat, part: nat -> seq<T>): seq<T> {
    if n == 0 then [] else Accumulate(n - 1, part) + part(n - 1)
  }

  lemma {:induction false} AccumulateMember<T>(n: nat, part: nat -> seq<T>, i: nat, x: T)
    requires i < n && x in part(i)
    ensures x in Accumulate(n, part)
  {
    if i < n - 1 {
      AccumulateMember(n - 1, part, i, x);
    }
  }

  lemma {:induction false} AccumulateOrigin<T>(n: nat, part: nat -> seq<T>, x: T)
    requires x in Accumulate(n, part)
    ensures exists i :: 0 <= i < n && x in part(i)
  {
    if x in Accumulate(n - 1, part) {
      AccumulateOrigin(n - 1, part, x);
    } else {
      assert x in part(n - 1);
    }
  }

  ghost predicate KeysApart<T, K>(s: seq<T>, t: seq<T>, key: T -> K) {
    forall i, j :: 0 <= i < |s| && 0 <= j < |t| ==> key(s[i]) != key(t[j])
  }

  lemma {:induction false} AccumulateApart<T, K>(n: nat, part: nat -> seq<T>, t: seq<T>, key: T -> K)
    requires forall i :: 0 <= i < n ==> KeysApart(part(i), t, key)
    ensures KeysApart(Accumulate(n, part), t, key)
  {
    if n > 0 {
      AccumulateApart(n - 1, part, t, key);
      assert KeysApart(part(n - 1), t, key);
    }
  }

  /** Parts with distinct keys that share no key accumulate to distinct keys. */
  lemma {:induction false} AccumulateKeysDistinct<T, K>(n: nat, part: nat -> seq<T>, key: T -> K)
    requires forall i :: 0 <= i < n ==> Distinct(Map(part(i), key))
    requires forall i, j :: 0 <= i < j < n ==> KeysApart(part(i), part(j), key)
    ensures Distinct(Map(Accumulate(n, part), key))
  {
    hide Distinct, Map, KeysApart;
    if n == 0 {
      NothingDistinct(key);
    } else {
      AccumulateKeysDistinct(n - 1, part, key);
      AccumulateApart(n - 1, part, part(n - 1), key);
      DistinctKeysConcat(Accumulate(n - 1, part), part(n - 1), key);
    }
  }

  lemma TwiceCounted<T>(s: seq<T>, i: nat, j: nat)
    requires i < j < |s| && s[i] == s[j]
    ensures multiset(s)[s[i]] >= 2
  {
    assert s == s[..j] + s[j..];
    assert s[i] == s[..j][i] && s[j] == s[j..][0];
    assert s[i] in multiset(s[..j]) && s[i] in multiset(s[j..]);
  }

  lemma {:induction false} OnceCounted<T>(s: seq<T>, x: T)
    requires Distinct(s)
    ensures multiset(s)[x] <= 1
  {
    if s != [] {
      assert s == [s[0]] + s[1..];
      OnceCounted(s[1..], x);
      if x == s[0] {
        assert x !in s[1..];
      }
    }
  }

  /** A selection with multiplicity of elements with distinct keys has distinct keys. */
  lemma SubselectionKeysDistinct<T, K>(part: seq<T>, whole: seq<T>, key: T -> K)
    requires multiset(part) <= multiset(whole)
    requires Distinct(Map(whole, key))
    ensures Distinct(Map(part, key))
  {
    forall i, j | 0 <= i < j < |part| ensures key(part[i]) != key(part[j]) {
      if key(part[i]) == key(part[j]) {
        assert part[i] in multiset(part) && part[j] in multiset(part);
        assert part[i] in multiset(whole) && part[j] in multiset(whole);
        DistinctKeyUnique(whole, key, part[i], part[j]);
        TwiceCounted(part, i, j);
        assert Distinct(whole) by {
          forall a, b | 0 <= a < b < |whole| ensures whole[a] != whole[b] {
            assert Map(whole, key)[a] != Map(whole, key)[b];
          }
        }
        OnceCounted(whole, part[i]);
      }
    }
  }

  /** Replacing one inner sequence changes the flattened contents by exactly that replacement. */
  lemma FlattenUpdate<T>(ss: seq<seq<T>>, k: nat, t: seq<T>)
    requires k < |ss|
    ensures multiset(Flatten(ss[k := t])) + multiset(ss[k]) == multiset(Flatten(ss)) + multiset(t)
  {
    var tail := ss[k + 1..];
    assert ss == ss[..k] + ([ss[k]] + tail);
    assert ss[k := t] == ss[..k] + ([t] + tail);
    FlattenConcat(ss[..k], [ss[k]] + tail);
    FlattenConcat(ss[..k], [t] + tail);
    assert ([ss[k]] + tail)[1..] == tail && ([t] + tail)[1..] == tail;
  }

  lemma {:induction false} SmallestExists(s: set<nat>) returns (m: nat)
    requires s != {}
    ensures m in s && forall x :: x in s ==> m <= x
  {
    var x :| x in s;
    if s == {x} {
      m := x;
    } else {
      var least := SmallestExists(s - {x});
      m := if x <= least then x else least;
      forall y | y in s ensures m <= y {
        assert y == x || y in s - {x};
      }
    }
  }

  function Smallest(s: set<nat>): (m: nat)
    requires s != {}
    ensures m in s && forall x :: x in s ==> m <= x
  {
    assert exists m :: m in s && forall x :: x in s ==> m <= x by {
      var m := SmallestExists(s);
    }
    var m :| m in s && forall x :: x in s ==> m <= x;
    m
  }

  /** `sorted` on a set of ids. */
  function SortedIds(s: set<nat>): (r: seq<nat>)
    ensures forall x :: x in r <==> x in s
    ensures forall i, j :: 0 <= i < j < |r| ==> r[i] < r[j]
  {
    if s == {} then []
    else
      var m := Smallest(s);
      [m] + SortedIds(s - {m})
  }
}
