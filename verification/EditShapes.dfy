/** What each edit operation does to places and days, before facts are invalidated and recomputed. */
module EditShapes {
  import opened Wrappers
  import opened Sequences
  import opened RequirementData
  import opened SnapshotData
  import opened GreedyRoute
  import opened Editing
  import opened EditPipeline

  /** Places and days that fit together. */
  ghost predicate Coherent(places: seq<Place>, days: seq<Day>) {
    Distinct(Map(places, PLACE_KEY)) && Numbered(days) && Disjoint(days) && Backed(places, days)
  }

  ghost predicate OnSomeDay(days: seq<Day>, id: Id) {
    exists i :: 0 <= i < |days| && id in days[i].placeIds
  }

  lemma WFIsCoherent(s: Snapshot)
    requires WF(s)
    ensures Coherent(s.places, s.days)
  {
    forall i, id | 0 <= i < |s.days| && id in s.days[i].placeIds ensures HasPlace(s.places, id) {
      assert DayGrounded(s, s.days[i]);
    }
  }

  // ---- the place table ------------------------------------------------------------------------

  lemma {:induction false} PutPlaceMember(places: seq<Place>, p: Place, q: Place)
    ensures q in PutPlace(places, p) ==> q == p || q in places
    ensures q in places && q.id != p.id ==> q in PutPlace(places, p)
    ensures p in PutPlace(places, p)
  {
    if places != [] {
      PutPlaceMember(places[1..], p, q);
      assert places == [places[0]] + places[1..];
    }
  }

  lemma {:induction false} PutPlaceDistinct(places: seq<Place>, p: Place)
    requires Distinct(Map(places, PLACE_KEY))
    ensures Distinct(Map(PutPlace(places, p), PLACE_KEY))
  {
    if places != [] {
      var tail := places[1..];
      assert Map(places, PLACE_KEY)[1..] == Map(tail, PLACE_KEY);
      if places[0].id == p.id {
        assert Map([p] + tail, PLACE_KEY) == Map(places, PLACE_KEY);
      } else {
        PutPlaceDistinct(tail, p);
        var more := PutPlace(tail, p);
        forall j | 0 <= j < |more| ensures more[j].id != places[0].id {
          PutPlaceMember(tail, p, more[j]);
          if more[j] != p {
            MapMember(tail, PLACE_KEY, more[j]);
          }
        }
        DistinctKeysConcat([places[0]], more, PLACE_KEY);
      }
    }
  }

  lemma {:induction false} PutPlaceNew(places: seq<Place>, p: Place)
    requires forall q :: q in places ==> q.id != p.id
    ensures PutPlace(places, p) == places + [p]
  {
    if places != [] {
      PutPlaceNew(places[1..], p);
    }
  }

  /** A table built from places with distinct ids lists them in order. */
  lemma {:induction false} PlaceTableIsIdentity(places: seq<Place>)
    requires Distinct(Map(places, PLACE_KEY))
    ensures PlaceTable(places) == places
  {
    hide Distinct, Map, PutPlace;
    if places != [] {
      var n := |places| - 1;
      var head := places[..n];
      HeadIsNew(places);
      PlaceTableIsIdentity(head);
      PutPlaceNew(head, places[n]);
    }
  }

  lemma HeadIsNew(places: seq<Place>)
    requires Distinct(Map(places, PLACE_KEY)) && places != []
    ensures var head := places[..|places| - 1];
      Distinct(Map(head, PLACE_KEY)) && forall q :: q in head ==> q.id != places[|places| - 1].id
  {
    var n := |places| - 1;
    var head := places[..n];
    assert Map(head, PLACE_KEY) == Map(places, PLACE_KEY)[..n];
    forall q | q in head ensures q.id != places[n].id {
      var i :| 0 <= i < n && head[i] == q;
      assert Map(places, PLACE_KEY)[i] != Map(places, PLACE_KEY)[n];
    }
  }

  lemma PutPlaceKnows(places: seq<Place>, p: Place, id: Id)
    requires HasPlace(places, id) || id == p.id
    ensures HasPlace(PutPlace(places, p), id)
  {
    if id == p.id {
      PutPlaceMember(places, p, p);
    } else {
      var q :| q in places && q.id == id;
      PutPlaceMember(places, p, q);
    }
  }

  lemma DropPlaceKnows(places: seq<Place>, target: Id, id: Id)
    requires HasPlace(places, id) && id != target
    ensures HasPlace(DropPlace(places, target), id)
  {
    var q :| q in places && q.id == id;
    FilterMember(places, (p: Place) => p.id != target, q);
  }

  // ---- adding to a day ------------------------------------------------------------------------

  function Appended(days: seq<Day>, i: nat, id: Id): seq<Day>
    requires i < |days|
  {
    days[i := days[i].(placeIds := days[i].placeIds + [id])]
  }

  lemma FindNumbered(days: seq<Day>, n: nat)
    requires Numbered(days)
    ensures FindDay(days, n) == if 1 <= n <= |days| then Some(n - 1) else None
  {
    if 1 <= n <= |days| {
      assert days[n - 1].number == n;
    }
  }

  lemma AppendIsDisjoint(days: seq<Day>, i: nat, id: Id)
    requires Disjoint(days) && i < |days|
    ensures Disjoint(Appended(days, i, id)) <==> !OnSomeDay(days, id)
  {
    var after := Appended(days, i, id);
    if OnSomeDay(days, id) {
      var j :| 0 <= j < |days| && id in days[j].placeIds;
      assert id in after[i].placeIds && id in after[j].placeIds;
      if j == i {
        var k :| 0 <= k < |days[i].placeIds| && days[i].placeIds[k] == id;
        assert after[i].placeIds[k] == after[i].placeIds[|days[i].placeIds|];
        assert !Distinct(after[i].placeIds);
      }
    } else {
      assert forall x :: x in after[i].placeIds <==> x in days[i].placeIds || x == id;
    }
  }

  lemma AppendIsCoherent(places: seq<Place>, days: seq<Day>, i: nat, p: Place)
    requires Coherent(places, days) && i < |days| && !OnSomeDay(days, p.id)
    ensures Coherent(PutPlace(places, p), Appended(days, i, p.id))
  {
    AppendIsDisjoint(days, i, p.id);
    PutPlaceDistinct(places, p);
    var after := Appended(days, i, p.id);
    forall j, id | 0 <= j < |after| && id in after[j].placeIds ensures HasPlace(PutPlace(places, p), id) {
      if id != p.id {
        assert id in days[j].placeIds;
      }
      PutPlaceKnows(places, p, id);
    }
  }

  // ---- removing from all days -----------------------------------------------------------------

  lemma WithoutMembers(ids: seq<Id>, id: Id)
    ensures forall x :: x in Without(ids, id) <==> x in ids && x != id
    ensures id !in ids ==> Without(ids, id) == ids
    ensures Distinct(ids) ==> Distinct(Without(ids, id))
  {
    FilterMembers(ids, (x: Id) => x != id);
    if id !in ids {
      FilterAll(ids, (x: Id) => x != id);
    }
    if Distinct(ids) {
      FilterDistinct(ids, (x: Id) => x != id);
    }
  }

  /** Removing a place from all days leaves exactly the other places on some day. */
  lemma DropVisits(days: seq<Day>, id: Id)
    ensures forall x :: OnSomeDay(DropFromDays(days, id), x) <==> OnSomeDay(days, x) && x != id
  {
    var after := DropFromDays(days, id);
    forall i | 0 <= i < |days| ensures forall x :: x in after[i].placeIds <==> x in days[i].placeIds && x != id {
      WithoutMembers(days[i].placeIds, id);
    }
    forall x | x != id && OnSomeDay(days, x) ensures OnSomeDay(after, x) {
      var i :| 0 <= i < |days| && x in days[i].placeIds;
      assert x in after[i].placeIds;
    }
    forall x | OnSomeDay(after, x) ensures OnSomeDay(days, x) && x != id {
      var i :| 0 <= i < |after| && x in after[i].placeIds;
      assert x in days[i].placeIds;
    }
  }

  lemma DropIsDisjoint(days: seq<Day>, id: Id)
    requires Disjoint(days)
    ensures Disjoint(DropFromDays(days, id))
    ensures forall x :: OnSomeDay(DropFromDays(days, id), x) <==> OnSomeDay(days, x) && x != id
  {
    DropVisits(days, id);
    var after := DropFromDays(days, id);
    forall i | 0 <= i < |days|
      ensures Distinct(after[i].placeIds)
      ensures forall x :: x in after[i].placeIds <==> x in days[i].placeIds && x != id
    {
      WithoutMembers(days[i].placeIds, id);
    }
  }

  lemma DropIsCoherent(places: seq<Place>, days: seq<Day>, target: Id)
    requires Coherent(places, days)
    ensures Coherent(DropPlace(places, target), DropFromDays(days, target))
  {
    DropIsDisjoint(days, target);
    FilterKeysDistinct(places, (p: Place) => p.id != target, PLACE_KEY);
    var after := DropFromDays(days, target);
    forall j, id | 0 <= j < |after| && id in after[j].placeIds ensures HasPlace(DropPlace(places, target), id) {
      WithoutMembers(days[j].placeIds, target);
      DropPlaceKnows(places, target, id);
    }
  }

  lemma DropElsewhere(days: seq<Day>, target: Id, i: nat)
    requires i < |days| && target !in days[i].placeIds
    ensures DropFromDays(days, target)[i] == days[i]
  {
    WithoutMembers(days[i].placeIds, target);
  }

  // ---- reordering one day ---------------------------------------------------------------------

  lemma NearestOrderKeeps(ids: seq<Id>, places: seq<Place>)
    requires NearestOrder(ids, places).Ok?
    ensures multiset(NearestOrder(ids, places).value) == multiset(ids)
  {
    if |ids| >= 3 {
      GreedyPermutes(CloserById(places), ids);
    }
  }

  lemma NearestOrderPermutes(ids: seq<Id>, places: seq<Place>)
    requires forall id :: id in ids ==> HasPlace(places, id)
    ensures NearestOrder(ids, places).Ok?
    ensures multiset(NearestOrder(ids, places).value) == multiset(ids)
    ensures ids != [] ==> NearestOrder(ids, places).value != [] && NearestOrder(ids, places).value[0] == ids[0]
  {
    forall id | id in ids ensures Knows(places, id) {
      assert HasPlace(places, id);
    }
    if |ids| >= 3 {
      GreedyPermutes(CloserById(places), ids);
    }
  }

  /**
   * The edit ordering is settled: ordering an ordered day changes
   * nothing, and each stop is nearest among those to come.
   */
  lemma NearestOrderIsIdempotent(ids: seq<Id>, places: seq<Place>)
    requires NearestOrder(ids, places).Ok?
    ensures NearestOrder(NearestOrder(ids, places).value, places) == NearestOrder(ids, places)
    ensures |ids| >= 3 ==> NearestChain(CloserById(places), NearestOrder(ids, places).value)
  {
    if |ids| >= 3 {
      var ordered := Greedy(CloserById(places), ids);
      CloserRanks(CoordinateKey(places));
      GreedyIsNearest(CloserById(places), ids);
      GreedyIsIdempotent(CloserById(places), ids);
      GreedyPermutes(CloserById(places), ids);
      SameMembers(ordered, ids);
    }
  }

  lemma SameMembers<T>(a: seq<T>, b: seq<T>)
    requires multiset(a) == multiset(b)
    ensures |a| == |b| && forall x :: x in a <==> x in b
  {
    assert |a| == |multiset(a)| && |b| == |multiset(b)|;
    forall x ensures x in a <==> x in b {
      assert x in multiset(a) <==> x in multiset(b);
    }
  }

  /**
   * The edit ordering, or its failure, depends on the first stop and on which stops remain, not on how they are listed.
   */
  lemma NearestOrderIgnoresOrder(first: Id, rest: seq<Id>, rest': seq<Id>, places: seq<Place>)
    requires multiset(rest) == multiset(rest')
    ensures NearestOrder([first] + rest, places) == NearestOrder([first] + rest', places)
  {
    hide Ranking, Tieless, Extend;
    SameMembers(rest, rest');
    var ids, ids' := [first] + rest, [first] + rest';
    forall id ensures id in ids <==> id in ids' {
    }
    if |ids| >= 3 {
      CloserRanks(CoordinateKey(places));
      assert ids[1..] == rest && ids'[1..] == rest';
      ExtendIgnoresOrder(CloserById(places), first, rest, rest');
    } else {
      if |rest| == 1 {
        assert rest[0] in rest' && rest'[0] in rest;
      }
      assert rest == rest';
    }
  }

  lemma PermutationIsDistinct(a: seq<Id>, b: seq<Id>)
    requires multiset(a) == multiset(b) && Distinct(a)
    ensures Distinct(b)
    ensures forall x :: x in b <==> x in a
  {
    forall x ensures x in b <==> x in a {
      assert x in b <==> x in multiset(b);
      assert x in a <==> x in multiset(a);
    }
    forall i, j | 0 <= i < j < |b| ensures b[i] != b[j] {
      OnceCounted(a, b[i]);
      if b[i] == b[j] {
        TwiceCounted(b, i, j);
      }
    }
  }

  function Replaced(days: seq<Day>, i: nat, order: seq<Id>): seq<Day>
    requires i < |days|
  {
    days[i := days[i].(placeIds := order, segmentIds := [], weatherRefs := [])]
  }

  lemma ReplaceIsCoherent(places: seq<Place>, days: seq<Day>, i: nat, order: seq<Id>)
    requires Coherent(places, days) && i < |days| && multiset(order) == multiset(days[i].placeIds)
    ensures Coherent(places, Replaced(days, i, order))
  {
    PermutationIsDistinct(days[i].placeIds, order);
    var after := Replaced(days, i, order);
    forall j | 0 <= j < |after| ensures forall x :: x in after[j].placeIds <==> x in days[j].placeIds {
    }
  }

  // ---- changing the number of days ------------------------------------------------------------

  lemma {:induction false} GrowDays(days: seq<Day>, n: nat)
    requires |days| <= n && Numbered(days)
    ensures Numbered(Grow(days, n))
    ensures forall i :: 0 <= i < |days| ==> Grow(days, n)[i] == days[i]
    ensures forall i :: |days| <= i < n ==> Grow(days, n)[i] == NewDay(i + 1)
    decreases n - |days|
  {
    if |days| < n {
      GrowDays(days + [NewDay(|days| + 1)], n);
    }
  }

  lemma ResizeDaysFacts(days: seq<Day>, n: nat)
    requires Numbered(days)
    ensures Numbered(Resize(days, n))
    ensures forall i :: 0 <= i < n && i < |days| ==> Resize(days, n)[i] == days[i]
    ensures forall i :: |days| <= i < n ==> Resize(days, n)[i] == NewDay(i + 1)
  {
    var kept := if |days| > n then days[..n] else days;
    GrowDays(kept, n);
  }

  lemma ResizeIsCoherent(places: seq<Place>, days: seq<Day>, n: nat)
    requires Coherent(places, days)
    ensures Coherent(places, Resize(days, n))
  {
    ResizeDaysFacts(days, n);
    var after := Resize(days, n);
    forall i, id | 0 <= i < |after| && id in after[i].placeIds ensures i < |days| && id in days[i].placeIds {
    }
  }
}
