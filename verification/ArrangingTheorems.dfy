/** What the arrangement promises for every input: a partition, no empty day, balanced loads. */
module ArrangingTheorems {
  import opened Sequences
  import opened PlannerData
  import opened Arranging

  lemma {:induction false} AddToGroupKeeps(groups: seq<Group>, place: PlanningPlace)
    ensures multiset(Flatten(Map(AddToGroup(groups, place), MEMBERS)))
         == multiset(Flatten(Map(groups, MEMBERS))) + multiset{place}
  {
    if groups == [] {
      assert Map([Group(DistrictKey(place), [place])], MEMBERS) == [[place]];
      assert Flatten([[place]]) == [place];
    } else {
      var tail := groups[1..];
      assert Map(groups, MEMBERS) == [groups[0].members] + Map(tail, MEMBERS);
      if groups[0].key == DistrictKey(place) {
        var head := groups[0].(members := groups[0].members + [place]);
        assert Map([head] + tail, MEMBERS) == [head.members] + Map(tail, MEMBERS);
      } else {
        AddToGroupKeeps(tail, place);
        var more := AddToGroup(tail, place);
        assert Map([groups[0]] + more, MEMBERS) == [groups[0].members] + Map(more, MEMBERS);
      }
    }
  }

  lemma {:induction false} GroupAllKeeps(places: seq<PlanningPlace>)
    ensures multiset(Flatten(Map(GroupAll(places), MEMBERS))) == multiset(places)
  {
    if places != [] {
      var n := |places| - 1;
      GroupAllKeeps(places[..n]);
      AddToGroupKeeps(GroupAll(places[..n]), places[n]);
      assert places == places[..n] + [places[n]];
    }
  }

  lemma {:induction false} SplitKeeps(places: seq<PlanningPlace>)
    ensures multiset(MustVisitFirst(places)) == multiset(places)
  {
    if places != [] {
      SplitKeeps(places[1..]);
      assert places == [places[0]] + places[1..];
    }
  }

  lemma HandOutKeeps(places: seq<PlanningPlace>)
    ensures multiset(HandOut(places)) == multiset(places)
    ensures |HandOut(places)| == |places|
  {
    GroupAllKeeps(MustVisitFirst(places));
    SplitKeeps(places);
    assert |multiset(HandOut(places))| == |multiset(places)|;
  }

  lemma AppendKeeps(days: Schedule, i: nat, place: PlanningPlace)
    requires i < |days|
    ensures multiset(Flatten(days[i := days[i] + [place]])) == multiset(Flatten(days)) + multiset{place}
  {
    FlattenUpdate(days, i, days[i] + [place]);
    var after := multiset(Flatten(days[i := days[i] + [place]]));
    assert after + multiset(days[i]) == (multiset(Flatten(days)) + multiset{place}) + multiset(days[i]);
    Cancel(after, multiset(Flatten(days)) + multiset{place}, multiset(days[i]));
  }

  lemma Cancel<T>(a: multiset<T>, b: multiset<T>, c: multiset<T>)
    requires a + c == b + c
    ensures a == b
  {
    assert a == (a + c) - c && b == (b + c) - c;
  }

  lemma PutKeeps(days: Schedule, turn: nat, place: PlanningPlace, maximum: nat, preferred: Preferred)
    requires |days| > 0
    ensures multiset(Flatten(Put(days, turn, place, maximum, preferred).0)) == multiset(Flatten(days)) + multiset{place}
  {
    match BestDay(days, |days|, maximum, preferred, place.candidate.category) {
      case Some(i) => AppendKeeps(days, i, place);
      case None => AppendKeeps(days, turn % |days|, place);
    }
  }

  lemma HeadAndTail<T>(s: seq<T>, before: multiset<T>)
    requires s != []
    ensures before + multiset{s[0]} + multiset(s[1..]) == before + multiset(s)
  {
    assert s == [s[0]] + s[1..];
  }

  lemma {:induction false} DistributeKeeps(
    places: seq<PlanningPlace>, days: Schedule, turn: nat, maximum: nat, preferred: Preferred)
    requires |days| > 0
    ensures multiset(Flatten(Distribute(places, days, turn, maximum, preferred)))
         == multiset(Flatten(days)) + multiset(places)
    decreases |places|
  {
    if places != [] {
      var (next, turn') := Put(days, turn, places[0], maximum, preferred);
      PutKeeps(days, turn, places[0], maximum, preferred);
      DistributeKeeps(places[1..], next, turn', maximum, preferred);
      HeadAndTail(places, multiset(Flatten(days)));
    }
  }

  lemma DonateKeeps(days: Schedule, empty: nat)
    requires empty < |days|
    ensures multiset(Flatten(Donate(days, empty))) == multiset(Flatten(days))
  {
    var donor := LongestDay(days, |days|);
    if |days[donor]| > 1 {
      var last := |days[donor]| - 1;
      var moved := days[donor][last];
      var shrunk := days[donor := days[donor][..last]];
      assert days[donor] == days[donor][..last] + [moved];
      assert shrunk[donor := shrunk[donor] + [moved]] == days;
      AppendKeeps(shrunk, donor, moved);
      AppendKeeps(shrunk, empty, moved);
    }
  }

  lemma {:induction false} RebalanceKeeps(days: Schedule, empties: seq<nat>)
    requires forall i :: 0 <= i < |empties| ==> empties[i] < |days|
    ensures multiset(Flatten(Rebalance(days, empties))) == multiset(Flatten(days))
    decreases |empties|
  {
    if empties != [] {
      DonateKeeps(days, empties[0]);
      RebalanceKeeps(Donate(days, empties[0]), empties[1..]);
    }
  }

  lemma {:induction false} EmptyScheduleFlat(days: nat)
    ensures Flatten(EmptySchedule(days)) == []
  {
    if days > 0 {
      EmptyScheduleFlat(days - 1);
      FlattenConcat(EmptySchedule(days - 1), [[]]);
      assert Flatten<PlanningPlace>([[]]) == [];
    }
  }

  /** Every place is on exactly one day, as often as it was given. */
  lemma ArrangedPartitions(places: seq<PlanningPlace>, days: nat, maximum: nat, preferred: Preferred)
    requires days > 0
    ensures multiset(Flatten(Arranged(places, days, maximum, preferred))) == multiset(places)
  {
    HandOutKeeps(places);
    EmptyScheduleFlat(days);
    DistributeKeeps(HandOut(places), EmptySchedule(days), 0, maximum, preferred);
    var spread := Distribute(HandOut(places), EmptySchedule(days), 0, maximum, preferred);
    if |places| >= days {
      RebalanceKeeps(spread, EmptyDays(spread, 0));
    }
  }

  /** The load of `n` days that hold `bound` places each. */
  function Times(bound: nat, n: nat): nat {
    if n == 0 then 0 else Times(bound, n - 1) + bound
  }

  lemma {:induction false} TimesIsProduct(bound: nat, n: nat)
    ensures Times(bound, n) == bound * n
  {
    if n > 0 {
      TimesIsProduct(bound, n - 1);
      assert bound * (n - 1) == bound * n - bound;
    }
  }

  /** Days that hold at most `bound` places hold at most that many each together. */
  lemma {:induction false} LoadsBelow(days: Schedule, bound: nat)
    requires forall i :: 0 <= i < |days| ==> |days[i]| <= bound
    ensures |Flatten(days)| <= Times(bound, |days|)
  {
    if days != [] {
      LoadsBelow(days[1..], bound);
    }
  }

  /** Pigeonhole: with one day below the bound they hold less. */
  lemma {:induction false} LoadsBelowAt(days: Schedule, bound: nat, k: nat)
    requires k < |days| && |days[k]| < bound
    requires forall i :: 0 <= i < |days| ==> |days[i]| <= bound
    ensures |Flatten(days)| < Times(bound, |days|)
  {
    if k == 0 {
      LoadsBelow(days[1..], bound);
    } else {
      LoadsBelowAt(days[1..], bound, k - 1);
    }
  }

  lemma {:induction false} LoadsAbove(days: Schedule, bound: nat)
    requires forall i :: 0 <= i < |days| ==> |days[i]| >= bound
    ensures |Flatten(days)| >= Times(bound, |days|)
  {
    if days != [] {
      LoadsAbove(days[1..], bound);
    }
  }

  lemma {:induction false} LoadsAboveAt(days: Schedule, bound: nat, k: nat)
    requires k < |days| && |days[k]| > bound
    requires forall i :: 0 <= i < |days| ==> |days[i]| >= bound
    ensures |Flatten(days)| > Times(bound, |days|)
  {
    if k == 0 {
      LoadsAbove(days[1..], bound);
    } else {
      LoadsAboveAt(days[1..], bound, k - 1);
    }
  }

  /** The empty days are exactly those still waiting for a donation. */
  lemma {:induction false} RebalanceFillsAll(days: Schedule, empties: seq<nat>)
    requires forall i :: 0 <= i < |empties| ==> empties[i] < |days|
    requires Distinct(empties)
    requires forall i :: 0 <= i < |days| ==> (days[i] == [] <==> i in empties)
    requires |Flatten(days)| >= |days|
    ensures forall i :: 0 <= i < |days| ==> Rebalance(days, empties)[i] != []
    decreases |empties|
  {
    if empties != [] {
      var empty := empties[0];
      var donor := LongestDay(days, |days|);
      if |days[donor]| <= 1 {
        LoadsBelowAt(days, 1, empty);
        TimesIsProduct(1, |days|);
        assert false;
      }
      var next := Donate(days, empty);
      DonateKeeps(days, empty);
      assert |multiset(Flatten(next))| == |multiset(Flatten(days))|;
      forall i | 0 <= i < |days| ensures next[i] == [] <==> i in empties[1..] {
        assert i in empties <==> i == empty || i in empties[1..];
        assert empty !in empties[1..];
      }
      RebalanceFillsAll(next, empties[1..]);
    }
  }

  /** With at least as many places as days, no day stays empty. */
  lemma ArrangedLeavesNoDayEmpty(places: seq<PlanningPlace>, days: nat, maximum: nat, preferred: Preferred)
    requires 0 < days <= |places|
    ensures forall i :: 0 <= i < days ==> Arranged(places, days, maximum, preferred)[i] != []
  {
    HandOutKeeps(places);
    EmptyScheduleFlat(days);
    DistributeKeeps(HandOut(places), EmptySchedule(days), 0, maximum, preferred);
    var spread := Distribute(HandOut(places), EmptySchedule(days), 0, maximum, preferred);
    assert |multiset(Flatten(spread))| == |multiset(places)|;
    RebalanceFillsAll(spread, EmptyDays(spread, 0));
  }

  /** Either no day is over the maximum, or all are full and the surplus went around in turn. */
  ghost predicate Even(days: Schedule, turn: nat, maximum: nat, level: nat) {
    || (turn == 0 && forall i :: 0 <= i < |days| ==> |days[i]| <= maximum)
    || (|days| > 0 && level >= maximum
        && forall i :: 0 <= i < |days| ==> |days[i]| == level + (if i < turn % |days| then 1 else 0))
  }

  /** Euclidean division is determined by its quotient-remainder equation. */
  lemma Quotient(m: nat, d: nat, q: nat, r: nat)
    requires d > 0 && m == d * q + r && r < d
    ensures m / d == q && m % d == r
  {
    Larger(m / d, q, d);
    Larger(q, m / d, d);
  }

  lemma {:induction false} Larger(a: nat, b: nat, d: nat)
    ensures a < b ==> d * a + d <= d * b
    decreases b
  {
    if a + 1 < b {
      Larger(a, b - 1, d);
    }
  }

  lemma NextTurn(turn: nat, n: nat)
    requires n > 0
    ensures (turn + 1) % n == (if turn % n + 1 == n then 0 else turn % n + 1)
  {
    var q, r := turn / n, turn % n;
    if r + 1 == n {
      Quotient(turn + 1, n, q + 1, 0);
    } else {
      Quotient(turn + 1, n, q, r + 1);
    }
  }

  /** Every day holds the level, and those before the turn one place more. */
  ghost predicate Filled(days: Schedule, turn: nat, level: nat)
    requires |days| > 0
  {
    forall i :: 0 <= i < |days| ==> |days[i]| == level + (if i < turn % |days| then 1 else 0)
  }

  /** When every day is full, there is such a level. */
  lemma FullLevel(days: Schedule, turn: nat, maximum: nat, level: nat) returns (full: nat)
    requires |days| > 0 && Even(days, turn, maximum, level)
    requires forall i :: 0 <= i < |days| ==> |days[i]| >= maximum
    ensures full >= maximum && Filled(days, turn, full)
  {
    full := if turn == 0 && (forall i :: 0 <= i < |days| ==> |days[i]| <= maximum) then maximum else level;
  }

  /** A place that fits no day goes to the day whose turn it is. */
  lemma OverflowIsEven(
    days: Schedule, turn: nat, p: PlanningPlace, maximum: nat, preferred: Preferred, level: nat) returns (raised: nat)
    requires |days| > 0 && Even(days, turn, maximum, level)
    requires BestDay(days, |days|, maximum, preferred, p.candidate.category).None?
    ensures var (next, following) := Put(days, turn, p, maximum, preferred); Even(next, following, maximum, raised)
  {
    NextTurn(turn, |days|);
    var full := FullLevel(days, turn, maximum, level);
    raised := if (turn + 1) % |days| == 0 then full + 1 else full;
    RaisedIsFilled(days, turn, p, full, raised);
    FilledIsEven(Put(days, turn, p, maximum, preferred).0, turn + 1, maximum, raised);
  }

  lemma FilledIsEven(days: Schedule, turn: nat, maximum: nat, level: nat)
    requires |days| > 0 && level >= maximum && Filled(days, turn, level)
    ensures Even(days, turn, maximum, level)
  {
  }

  /** A full schedule with one more place on the day whose turn it is. */
  lemma RaisedIsFilled(days: Schedule, turn: nat, p: PlanningPlace, full: nat, raised: nat)
    requires |days| > 0 && Filled(days, turn, full)
    requires (turn + 1) % |days| == (if turn % |days| + 1 == |days| then 0 else turn % |days| + 1)
    requires raised == if (turn + 1) % |days| == 0 then full + 1 else full
    ensures Filled(days[turn % |days| := days[turn % |days|] + [p]], turn + 1, raised)
  {
  }

  lemma {:induction false} DistributeIsEven(
    places: seq<PlanningPlace>, days: Schedule, turn: nat, maximum: nat, preferred: Preferred, level: nat)
    returns (turn': nat, level': nat)
    requires |days| > 0 && Even(days, turn, maximum, level)
    ensures Even(Distribute(places, days, turn, maximum, preferred), turn', maximum, level')
    decreases |places|
  {
    turn', level' := turn, level;
    if places != [] {
      var (next, following) := Put(days, turn, places[0], maximum, preferred);
      var best := BestDay(days, |days|, maximum, preferred, places[0].candidate.category);
      if best.Some? {
        turn', level' := DistributeIsEven(places[1..], next, turn, maximum, preferred, level);
      } else {
        var raised := OverflowIsEven(days, turn, places[0], maximum, preferred, level);
        turn', level' := DistributeIsEven(places[1..], next, following, maximum, preferred, raised);
      }
    }
  }

  function CeilDiv(n: nat, d: nat): nat
    requires d > 0
  {
    (n + d - 1) / d
  }

  lemma CeilDivAtLeast(n: nat, d: nat, level: nat)
    requires d > 0 && n > level * d
    ensures CeilDiv(n, d) >= level + 1
  {
    Larger((n + d - 1) / d, level + 1, d);
  }

  lemma CeilDivCovers(n: nat, d: nat, level: nat)
    requires d > 0 && n >= level * d
    ensures CeilDiv(n, d) >= level
  {
    if level > 0 {
      assert (level - 1) * d == level * d - d;
      CeilDivAtLeast(n, d, level - 1);
    }
  }

  ghost predicate LoadsWithin(days: Schedule, bound: nat) {
    forall i :: 0 <= i < |days| ==> |days[i]| <= bound
  }

  lemma EvenIsBounded(days: Schedule, turn: nat, maximum: nat, level: nat)
    requires |days| > 0 && Even(days, turn, maximum, level)
    ensures LoadsWithin(days, Max(maximum, CeilDiv(|Flatten(days)|, |days|)))
  {
    if !(turn == 0 && forall i :: 0 <= i < |days| ==> |days[i]| <= maximum) {
      LoadsAbove(days, level);
      TimesIsProduct(level, |days|);
      CeilDivCovers(|Flatten(days)|, |days|, level);
      if i :| 0 <= i < |days| && |days[i]| > level {
        LoadsAboveAt(days, level, i);
        CeilDivAtLeast(|Flatten(days)|, |days|, level);
      }
    }
  }

  lemma {:induction false} RebalanceStaysWithin(days: Schedule, empties: seq<nat>, bound: nat)
    requires forall i :: 0 <= i < |empties| ==> empties[i] < |days| && days[empties[i]] == []
    requires Distinct(empties)
    requires LoadsWithin(days, bound)
    ensures LoadsWithin(Rebalance(days, empties), bound)
    decreases |empties|
  {
    if empties != [] {
      var next := Donate(days, empties[0]);
      forall i | 0 <= i < |empties[1..]| ensures next[empties[1..][i]] == [] {
        assert empties[1..][i] == empties[i + 1] != empties[0];
      }
      RebalanceStaysWithin(next, empties[1..], bound);
    }
  }

  function Max(a: nat, b: nat): nat {
    if a >= b then a else b
  }

  /** No day gets more than the maximum or an even share, whichever is larger. */
  lemma ArrangedIsBalanced(places: seq<PlanningPlace>, days: nat, maximum: nat, preferred: Preferred)
    requires days > 0
    ensures LoadsWithin(Arranged(places, days, maximum, preferred), Max(maximum, CeilDiv(|places|, days)))
  {
    HandOutKeeps(places);
    EmptyScheduleFlat(days);
    DistributeKeeps(HandOut(places), EmptySchedule(days), 0, maximum, preferred);
    var spread := Distribute(HandOut(places), EmptySchedule(days), 0, maximum, preferred);
    assert |multiset(Flatten(spread))| == |multiset(places)|;
    var turn, level := DistributeIsEven(HandOut(places), EmptySchedule(days), 0, maximum, preferred, 0);
    EvenIsBounded(spread, turn, maximum, level);
    if |places| >= days {
      RebalanceStaysWithin(spread, EmptyDays(spread, 0), Max(maximum, CeilDiv(|places|, days)));
    }
  }
}
