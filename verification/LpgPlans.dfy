/** The three LPG plans of a replay run, built from the greedy filling, and what their reported
    numbers guarantee. */
module LpgPlans {
  import opened Arithmetic
  import opened Ordering
  import opened Wrappers
  import opened LpgNetwork
  import opened LpgPlanner

  /** One allocation of a plan. */
  datatype Leg = Leg(route: Route, volume: real)

  datatype LpgPlan = LpgPlan(
    profile: Profile, legs: seq<Leg>, delivered: real, residual: real, landedCost: real,
    supplierShare: real, routeShare: real)

  /** A plan must hold at least one allocation. */
  datatype PlanError = NoAllocation

  // ---------------------------------------------------------------- from filling to allocations

  function Legs(offers: seq<Offer>, volumes: seq<real>): seq<Leg>
    requires |offers| == |volumes|
  {
    if offers == [] then []
    else
      (if volumes[0] > 0.0 then [Leg(offers[0].route, volumes[0])] else [])
      + Legs(offers[1..], volumes[1..])
  }

  function Volume(legs: seq<Leg>): real {
    if legs == [] then 0.0 else legs[0].volume + Volume(legs[1..])
  }

  function LandedCost(legs: seq<Leg>): real {
    if legs == [] then 0.0 else legs[0].volume * legs[0].route.cost + LandedCost(legs[1..])
  }

  ghost predicate Positive(legs: seq<Leg>) {
    forall i :: 0 <= i < |legs| ==> legs[i].volume > 0.0
  }

  lemma LegFirst(leg: Leg, rest: seq<Leg>)
    ensures Volume([leg] + rest) == leg.volume + Volume(rest)
    ensures LandedCost([leg] + rest) == Pay(leg.route.cost, leg.volume) + LandedCost(rest)
    ensures Positive([leg] + rest) <==> leg.volume > 0.0 && Positive(rest)
  {
    var all := [leg] + rest;
    assert all[0] == leg && all[1..] == rest;
    if Positive(all) {
      forall i | 0 <= i < |rest| ensures rest[i].volume > 0.0 {
        assert rest[i] == all[i + 1];
      }
    }
  }

  lemma {:induction false} LegsAddUp(offers: seq<Offer>, volumes: seq<real>)
    requires |offers| == |volumes| && forall i :: 0 <= i < |volumes| ==> volumes[i] >= 0.0
    ensures Positive(Legs(offers, volumes)) && |Legs(offers, volumes)| <= |offers|
    ensures Volume(Legs(offers, volumes)) == Sum(volumes)
    ensures LandedCost(Legs(offers, volumes)) == Cost(Prices(LowestCost, offers), volumes)
  {
    if offers == [] {
    } else {
      hide Pay, Positive, Volume, LandedCost;
      var rest := Legs(offers[1..], volumes[1..]);
      LegsAddUp(offers[1..], volumes[1..]);
      assert Prices(LowestCost, offers)[1..] == Prices(LowestCost, offers[1..]);
      if volumes[0] > 0.0 {
        LegFirst(Leg(offers[0].route, volumes[0]), rest);
      } else {
        PayNothing(Price(LowestCost, offers[0].route));
        assert [] + rest == rest;
      }
    }
  }

  lemma PayNothing(price: real)
    ensures Pay(price, 0.0) == 0.0
  {
  }

  lemma LegsUnfold(rest: seq<Offer>, remaining: real)
    requires rest != []
    ensures var v := Take(rest[0].capacity, remaining);
            Legs(rest, Fill(rest, remaining))
            == (if v > 0.0 then [Leg(rest[0].route, v)] else [])
               + Legs(rest[1..], Fill(rest[1..], remaining - v))
  {
    hide Take;
    var v := Take(rest[0].capacity, remaining);
    assert Fill(rest, remaining) == [v] + Fill(rest[1..], remaining - v);
    assert Fill(rest, remaining)[1..] == Fill(rest[1..], remaining - v);
  }

  lemma LegsStep(legs: seq<Leg>, rest: seq<Offer>, remaining: real)
    requires rest != []
    ensures var v := Take(rest[0].capacity, remaining);
            legs + Legs(rest, Fill(rest, remaining))
            == (if v > 0.0 then legs + [Leg(rest[0].route, v)] else legs)
               + Legs(rest[1..], Fill(rest[1..], remaining - v))
  {
    hide *;
    var v := Take(rest[0].capacity, remaining);
    var tail := Legs(rest[1..], Fill(rest[1..], remaining - v));
    LegsUnfold(rest, remaining);
    var leg := Leg(rest[0].route, v);
    if v > 0.0 {
      assert legs + ([leg] + tail) == (legs + [leg]) + tail;
    } else {
      assert legs + ([] + tail) == legs + tail;
    }
  }

  /** The allocation loop over the routes in order. */
  method Allocate(offers: seq<Offer>, target: real) returns (legs: seq<Leg>)
    ensures legs == Legs(offers, Fill(offers, target))
  {
    legs := [];
    var remaining, rest := target, offers;
    while rest != []
      invariant legs + Legs(rest, Fill(rest, remaining)) == Legs(offers, Fill(offers, target))
    {
      LegsStep(legs, rest, remaining);
      var offer := rest[0];
      rest := rest[1..];
      var volume := if offer.capacity <= remaining then offer.capacity else remaining;
      if volume <= EPSILON {
        continue;
      }
      legs := legs + [Leg(offer.route, volume)];
      remaining := remaining - volume;
    }
  }

  // ---------------------------------------------------------------- concentration

  function Share(legs: seq<Leg>, supplier: AssetId): real {
    if legs == [] then 0.0
    else (if legs[0].route.supplierId == supplier then legs[0].volume else 0.0) + Share(legs[1..], supplier)
  }

  ghost predicate LargestVolume(legs: seq<Leg>, v: real) {
    && (exists i :: 0 <= i < |legs| && legs[i].volume == v)
    && forall i :: 0 <= i < |legs| ==> legs[i].volume <= v
  }

  ghost predicate LargestShare(legs: seq<Leg>, v: real) {
    && (exists i :: 0 <= i < |legs| && Share(legs, legs[i].route.supplierId) == v)
    && forall i :: 0 <= i < |legs| ==> Share(legs, legs[i].route.supplierId) <= v
  }

  lemma {:induction false} ShareHolds(legs: seq<Leg>, supplier: AssetId)
    requires Positive(legs)
    ensures 0.0 <= Share(legs, supplier) <= Volume(legs)
    ensures forall i :: 0 <= i < |legs| && legs[i].route.supplierId == supplier ==>
              legs[i].volume <= Share(legs, supplier)
  {
    if legs != [] {
      ShareHolds(legs[1..], supplier);
      forall i | 0 <= i < |legs| && legs[i].route.supplierId == supplier
        ensures legs[i].volume <= Share(legs, supplier)
      {
        if i > 0 {
          assert legs[1..][i - 1] == legs[i];
        }
      }
    }
  }

  lemma {:induction false} VolumeBelow(legs: seq<Leg>, v: real)
    requires forall i :: 0 <= i < |legs| ==> legs[i].volume <= v
    ensures Volume(legs) <= |legs| as real * v
  {
    if legs != [] {
      VolumeBelow(legs[1..], v);
      assert |legs| as real == |legs[1..]| as real + 1.0;
      assert (|legs[1..]| as real + 1.0) * v == |legs[1..]| as real * v + v;
    }
  }

  /** The largest allocation is at least the average, at most its supplier's share, and no share
      exceeds the whole. */
  lemma Concentrations(legs: seq<Leg>, v: real, share: real)
    requires Positive(legs) && LargestVolume(legs, v) && LargestShare(legs, share)
    ensures Volume(legs) > 0.0
    ensures 1.0 / |legs| as real <= v / Volume(legs) <= share / Volume(legs) <= 1.0
  {
    var i :| 0 <= i < |legs| && legs[i].volume == v;
    var j :| 0 <= j < |legs| && Share(legs, legs[j].route.supplierId) == share;
    ShareHolds(legs, legs[i].route.supplierId);
    ShareHolds(legs, legs[j].route.supplierId);
    var total := Volume(legs);
    AboveAverage(legs, v);
    Divide(v, share, total);
    Divide(share, total, total);
  }

  lemma AboveAverage(legs: seq<Leg>, v: real)
    requires legs != [] && Volume(legs) > 0.0 && forall i :: 0 <= i < |legs| ==> legs[i].volume <= v
    ensures 1.0 / |legs| as real <= v / Volume(legs)
  {
    VolumeBelow(legs, v);
    Average(v, Volume(legs), |legs| as real);
  }

  lemma Divide(a: real, b: real, total: real)
    requires a <= b && total > 0.0
    ensures a / total <= b / total
    ensures total / total == 1.0
  {
    var u, w := a / total, b / total;
    assert u * total == a && w * total == b;
    assert (w - u) * total == b - a;
  }

  lemma Average(v: real, total: real, n: real)
    requires total > 0.0 && n > 0.0 && total <= n * v
    ensures 1.0 / n <= v / total
  {
    var u, w := 1.0 / n, v / total;
    assert u * n == 1.0 && w * total == v && u > 0.0;
    assert u * (n * v) == (u * n) * v;
    assert u * (n * v - total) >= 0.0;
    assert (w - u) * total >= 0.0;
  }

  /** The `shares` dictionary and its maximum. */
  method LargestShareOf(legs: seq<Leg>) returns (largest: real)
    requires legs != []
    ensures LargestShare(legs, largest)
  {
    var shares: map<AssetId, real> := map[];
    for i := 0 to |legs|
      invariant forall s :: s in shares <==> exists k :: 0 <= k < i && legs[k].route.supplierId == s
      invariant forall s :: (if s in shares then shares[s] else 0.0) == Share(legs[..i], s)
    {
      var s := legs[i].route.supplierId;
      forall k ensures Share(legs[..i + 1], k) == Share(legs[..i], k) + if k == s then legs[i].volume else 0.0 {
        assert legs[..i + 1] == legs[..i] + [legs[i]];
        SharePush(legs[..i], legs[i], k);
      }
      shares := AddTo(shares, s, legs[i].volume);
    }
    assert legs[..|legs|] == legs;
    assert legs[0].route.supplierId in shares;
    largest := shares[legs[0].route.supplierId];
    var todo := shares.Keys;
    while todo != {}
      invariant todo <= shares.Keys
      invariant exists i :: 0 <= i < |legs| && Share(legs, legs[i].route.supplierId) == largest
      invariant forall s :: s in shares && s !in todo ==> shares[s] <= largest
    {
      var s :| s in todo;
      if shares[s] > largest {
        largest := shares[s];
      }
      todo := todo - {s};
    }
  }

  lemma {:induction false} SharePush(legs: seq<Leg>, leg: Leg, s: AssetId)
    ensures Share(legs + [leg], s) == Share(legs, s) + if leg.route.supplierId == s then leg.volume else 0.0
  {
    if legs != [] {
      assert (legs + [leg])[1..] == legs[1..] + [leg];
      SharePush(legs[1..], leg, s);
    }
  }

  method LargestVolumeOf(legs: seq<Leg>) returns (largest: real)
    requires legs != []
    ensures LargestVolume(legs, largest)
  {
    largest := legs[0].volume;
    for i := 1 to |legs|
      invariant exists k :: 0 <= k < |legs| && legs[k].volume == largest
      invariant forall k :: 0 <= k < i ==> legs[k].volume <= largest
    {
      if legs[i].volume > largest {
        largest := legs[i].volume;
      }
    }
  }

  // ---------------------------------------------------------------- one plan

  function Target(p: Profile, available: seq<Offer>, demand: real): real {
    Min(demand, Capacities(available) * Fraction(p))
  }

  function Ranked(p: Profile, available: seq<Offer>): seq<Offer> {
    StableSort(KeyLe(p), available)
  }

  function Volumes(p: Profile, available: seq<Offer>, demand: real): seq<real> {
    Fill(Ranked(p, available), Target(p, available, demand))
  }

  lemma {:induction false} CapacitiesAreSum(offers: seq<Offer>, capacity: Offer -> real)
    requires forall o :: capacity(o) == o.capacity
    ensures Capacities(offers) == SumOf(capacity, offers)
  {
    if offers != [] {
      SumOfFirst(capacity, offers);
      CapacitiesAreSum(offers[1..], capacity);
    }
  }

  lemma CapacitiesPermuted(a: seq<Offer>, b: seq<Offer>)
    requires multiset(a) == multiset(b)
    ensures Capacities(a) == Capacities(b)
  {
    var capacity := (o: Offer) => o.capacity;
    CapacitiesAreSum(a, capacity);
    CapacitiesAreSum(b, capacity);
    SumOfIgnoresOrder(capacity, a, b);
  }

  /** Sorting keeps the offers, and orders them by price in the cost profiles. */
  lemma RankedHolds(p: Profile, available: seq<Offer>)
    requires NonNegative(available)
    ensures |Ranked(p, available)| == |available| && NonNegative(Ranked(p, available))
    ensures Capacities(Ranked(p, available)) == Capacities(available)
    ensures !p.HighestResilience? ==> Rising(Prices(p, Ranked(p, available)))
    ensures forall o :: o in Ranked(p, available) <==> o in available
  {
    KeyOrder(p);
    StableSortSorts(KeyLe(p), available);
    CapacitiesPermuted(available, Ranked(p, available));
    forall o ensures o in Ranked(p, available) <==> o in available {
      MemberOfSort(KeyLe(p), available, o);
    }
    var r := Ranked(p, available);
    forall i | 0 <= i < |r| ensures r[i].capacity >= 0.0 {
      assert r[i] in available;
    }
  }

  lemma TargetHolds(p: Profile, available: seq<Offer>, demand: real)
    requires NonNegative(available) && demand >= 0.0
    ensures 0.0 <= Target(p, available, demand) <= demand
    ensures Target(p, available, demand) <= Capacities(available)
  {
    CapacitiesNonNegative(available);
    var c := Capacities(available);
    assert 0.0 <= c * Fraction(p) <= c;
  }

  /** The delivered volume misses the target by a negligible volume per route at most. */
  lemma DeliveredMeetsTarget(p: Profile, available: seq<Offer>, demand: real)
    requires NonNegative(available) && demand >= 0.0
    ensures var delivered := Sum(Volumes(p, available, demand));
            var target := Target(p, available, demand);
            0.0 <= target - delivered <= Negligible(|available|)
  {
    RankedHolds(p, available);
    TargetHolds(p, available, demand);
    FillConserves(Ranked(p, available), Target(p, available, demand));
  }

  /** Deliveries meet the target, and residual and deliveries add up to the demand. */
  ghost predicate Conserves(plan: LpgPlan, p: Profile, available: seq<Offer>, demand: real) {
    && Target(p, available, demand) - Negligible(|available|) <= plan.delivered <= Target(p, available, demand)
    && plan.delivered + plan.residual == demand && plan.residual >= 0.0
  }

  /** The route comes strictly earlier: it is cheaper, cheaper with three half dollars for a day of
      transit, or of an earlier supplier and then faster. */
  ghost predicate Before(p: Profile, a: Route, b: Route) {
    match p
    case LowestCost => a.cost < b.cost
    case Balanced => a.cost + 1.5 * a.transitDays < b.cost + 1.5 * b.transitDays
    case HighestResilience =>
      a.supplierId < b.supplierId || (a.supplierId == b.supplierId && a.transitDays < b.transitDays)
  }

  ghost predicate InOrder(p: Profile, legs: seq<Leg>) {
    forall i, j :: 0 <= i < j < |legs| ==> !Before(p, legs[j].route, legs[i].route)
  }

  /** A route is used only when every earlier one with more than a negligible capacity is filled. */
  ghost predicate FilledFirst(p: Profile, legs: seq<Leg>, available: seq<Offer>) {
    forall leg, o ::
      leg in legs && o in available && Before(p, o.route, leg.route) && o.capacity > 0.000000001 ==>
        Leg(o.route, o.capacity) in legs
  }

  /** Every leg is part of an offer, and more than negligible. */
  ghost predicate Sourced(legs: seq<Leg>, available: seq<Offer>) {
    forall leg :: leg in legs ==>
      exists o :: o in available && o.route == leg.route && 0.000000001 < leg.volume <= o.capacity
  }

  lemma {:induction false} LegsHold(offers: seq<Offer>, volumes: seq<real>, leg: Leg)
    requires |offers| == |volumes|
    ensures leg in Legs(offers, volumes) <==>
              exists j :: 0 <= j < |offers| && volumes[j] > 0.0 && leg == Leg(offers[j].route, volumes[j])
  {
    if offers == [] {
    } else {
      LegsHold(offers[1..], volumes[1..], leg);
      if j :| 0 <= j < |offers| && volumes[j] > 0.0 && leg == Leg(offers[j].route, volumes[j]) {
        if j > 0 {
          assert offers[1..][j - 1] == offers[j] && volumes[1..][j - 1] == volumes[j];
        }
      }
      if j :| 0 <= j < |offers| - 1 && volumes[1..][j] > 0.0
              && leg == Leg(offers[1..][j].route, volumes[1..][j]) {
        assert offers[1..][j] == offers[j + 1] && volumes[1..][j] == volumes[j + 1];
      }
    }
  }

  lemma {:induction false} LegsKeepOrder(p: Profile, offers: seq<Offer>, volumes: seq<real>)
    requires |offers| == |volumes|
    requires forall i, j :: 0 <= i < j < |offers| ==> !Before(p, offers[j].route, offers[i].route)
    ensures InOrder(p, Legs(offers, volumes))
  {
    hide Before;
    if offers == [] {
    } else {
      var rest := Legs(offers[1..], volumes[1..]);
      LegsKeepOrder(p, offers[1..], volumes[1..]);
      forall leg | leg in rest ensures !Before(p, leg.route, offers[0].route) {
        LegsHold(offers[1..], volumes[1..], leg);
        var j :| 0 <= j < |offers| - 1 && leg == Leg(offers[1..][j].route, volumes[1..][j]);
        assert offers[1..][j] == offers[j + 1];
      }
      if volumes[0] > 0.0 {
        OrderFirst(p, Leg(offers[0].route, volumes[0]), rest);
      } else {
        assert [] + rest == rest;
      }
    }
  }

  lemma OrderFirst(p: Profile, first: Leg, rest: seq<Leg>)
    requires InOrder(p, rest) && forall leg :: leg in rest ==> !Before(p, leg.route, first.route)
    ensures InOrder(p, [first] + rest)
  {
    hide Before;
    var all := [first] + rest;
    forall i, j | 0 <= i < j < |all| ensures !Before(p, all[j].route, all[i].route) {
      assert all[j] == rest[j - 1] && rest[j - 1] in rest;
    }
  }

  /** The greedy filling reaches a route only past routes that are filled or negligible. */
  lemma {:induction false} FillsInOrder(offers: seq<Offer>, target: real, i: nat, j: nat)
    requires i < j < |offers| && Fill(offers, target)[j] > 0.0 && offers[i].capacity > EPSILON
    ensures Fill(offers, target)[i] == offers[i].capacity
  {
    var v := Take(offers[0].capacity, target);
    assert Fill(offers, target)[j] == Fill(offers[1..], target - v)[j - 1];
    if i > 0 {
      FillsInOrder(offers[1..], target - v, i - 1, j - 1);
    } else if v != offers[0].capacity {
      FillNothing(offers[1..], target - v);
    }
  }

  lemma RankedInOrder(p: Profile, available: seq<Offer>)
    ensures var ranked := Ranked(p, available);
            forall i, j :: 0 <= i < j < |ranked| ==> !Before(p, ranked[j].route, ranked[i].route)
  {
    KeyOrder(p);
    StableSortSorts(KeyLe(p), available);
    var ranked := Ranked(p, available);
    forall i, j | 0 <= i < j < |ranked| ensures !Before(p, ranked[j].route, ranked[i].route) {
      assert KeyLe(p)(ranked[i], ranked[j]);
    }
  }

  lemma LegsAreSourced(p: Profile, available: seq<Offer>, target: real)
    requires NonNegative(available) && target >= 0.0
    ensures Sourced(Legs(Ranked(p, available), Fill(Ranked(p, available), target)), available)
  {
    hide Legs, Fill, Ranked;
    var ranked := Ranked(p, available);
    var volumes, legs := Fill(ranked, target), Legs(ranked, Fill(ranked, target));
    RankedHolds(p, available);
    FillNonNegative(ranked, target);
    forall leg | leg in legs
      ensures exists o :: o in available && o.route == leg.route && 0.000000001 < leg.volume <= o.capacity
    {
      LegsHold(ranked, volumes, leg);
      var j :| 0 <= j < |ranked| && volumes[j] > 0.0 && leg == Leg(ranked[j].route, volumes[j]);
      assert ranked[j] in available;
    }
  }

  lemma LegsFillFirst(p: Profile, available: seq<Offer>, target: real, leg: Leg, o: Offer)
    requires NonNegative(available)
    requires leg in Legs(Ranked(p, available), Fill(Ranked(p, available), target))
    requires o in available && Before(p, o.route, leg.route) && o.capacity > 0.000000001
    ensures Leg(o.route, o.capacity) in Legs(Ranked(p, available), Fill(Ranked(p, available), target))
  {
    hide Legs, Fill, Ranked;
    var ranked := Ranked(p, available);
    var volumes := Fill(ranked, target);
    RankedHolds(p, available);
    RankedInOrder(p, available);
    LegsHold(ranked, volumes, leg);
    var j :| 0 <= j < |ranked| && volumes[j] > 0.0 && leg == Leg(ranked[j].route, volumes[j]);
    assert o in ranked;
    var i :| 0 <= i < |ranked| && ranked[i] == o;
    FillsInOrder(ranked, target, i, j);
    LegsHold(ranked, volumes, Leg(o.route, o.capacity));
  }

  lemma PlanFollowsOrder(p: Profile, available: seq<Offer>, demand: real)
    requires NonNegative(available) && demand >= 0.0
    ensures var legs := Legs(Ranked(p, available), Volumes(p, available, demand));
            InOrder(p, legs) && FilledFirst(p, legs, available) && Sourced(legs, available)
  {
    hide Legs, Fill, Ranked, InOrder, Target, Sourced, Before;
    var ranked, target := Ranked(p, available), Target(p, available, demand);
    RankedInOrder(p, available);
    LegsKeepOrder(p, ranked, Fill(ranked, target));
    TargetHolds(p, available, demand);
    LegsAreSourced(p, available, target);
    forall leg, o |
      leg in Legs(ranked, Fill(ranked, target)) && o in available && Before(p, o.route, leg.route)
      && o.capacity > 0.000000001
      ensures Leg(o.route, o.capacity) in Legs(ranked, Fill(ranked, target))
    {
      LegsFillFirst(p, available, target, leg, o);
    }
  }

  /** What the plan of one profile reports. */
  ghost predicate Reports(plan: LpgPlan, p: Profile, available: seq<Offer>, demand: real) {
    && plan.profile == p
    && plan.legs == Legs(Ranked(p, available), Volumes(p, available, demand)) && plan.legs != []
    && InOrder(p, plan.legs) && FilledFirst(p, plan.legs, available) && Sourced(plan.legs, available)
    && plan.delivered == Volume(plan.legs) == Sum(Volumes(p, available, demand)) > 0.0
    && Conserves(plan, p, available, demand)
    && plan.landedCost == Cost(Prices(LowestCost, Ranked(p, available)), Volumes(p, available, demand))
    && (exists v :: LargestShare(plan.legs, v) && plan.supplierShare == v / plan.delivered)
    && (exists v :: LargestVolume(plan.legs, v) && plan.routeShare == v / plan.delivered)
    && 1.0 / |plan.legs| as real <= plan.routeShare <= plan.supplierShare <= 1.0
  }

  /** Nothing worth allocating: the target is negligible, or every capacity is. */
  ghost predicate NothingToAllocate(p: Profile, available: seq<Offer>, demand: real) {
    Target(p, available, demand) <= EPSILON || forall o :: o in available ==> o.capacity <= EPSILON
  }

  lemma {:induction false} NoLegsExactly(offers: seq<Offer>, target: real)
    ensures Legs(offers, Fill(offers, target)) == []
            <==> target <= EPSILON || forall i :: 0 <= i < |offers| ==> offers[i].capacity <= EPSILON
  {
    if offers != [] {
      LegsUnfold(offers, target);
      NoLegsExactly(offers[1..], target - Take(offers[0].capacity, target));
      assert forall i :: 1 <= i < |offers| ==> offers[i] == offers[1..][i - 1];
      hide Legs, Fill;
      if offers[0].capacity <= EPSILON {
        forall i | 0 <= i < |offers| - 1 ensures offers[1..][i] == offers[i + 1] {
        }
      }
    }
  }

  /** Whether a plan has an allocation can be told from the capacities and the target. */
  lemma PlanFailsExactly(p: Profile, available: seq<Offer>, demand: real)
    requires NonNegative(available)
    ensures Legs(Ranked(p, available), Volumes(p, available, demand)) == []
            <==> NothingToAllocate(p, available, demand)
  {
    hide Legs, Fill, Target, Ranked;
    var ranked := Ranked(p, available);
    RankedHolds(p, available);
    NoLegsExactly(ranked, Target(p, available, demand));
    if forall i :: 0 <= i < |ranked| ==> ranked[i].capacity <= EPSILON {
      forall o | o in available ensures o.capacity <= EPSILON {
        assert o in ranked;
      }
    }
    if forall o :: o in available ==> o.capacity <= EPSILON {
      forall i | 0 <= i < |ranked| ensures ranked[i].capacity <= EPSILON {
        assert ranked[i] in available;
      }
    }
  }

  method Plan(p: Profile, available: seq<Offer>, demand: real) returns (r: Result<LpgPlan, PlanError>)
    requires NonNegative(available) && demand >= 0.0
    ensures r.Failure? <==> NothingToAllocate(p, available, demand)
    ensures r.Success? ==> Reports(r.value, p, available, demand)
  {
    hide Legs, Fill, Ranked, Target, InOrder, FilledFirst, Sourced, LargestShare, LargestVolume, NothingToAllocate,
      Prices, Cost;
    var target := AimAt(p, available, demand);
    var ranked := Ranked(p, available);
    RankedHolds(p, available);
    TargetHolds(p, available, demand);
    FillNonNegative(ranked, target);
    PlanFailsExactly(p, available, demand);
    PlanFollowsOrder(p, available, demand);
    var legs := Allocate(ranked, target);
    if legs == [] {
      return Failure(NoAllocation);
    }
    var delivered, cost := Totals(legs);
    LegsAddUp(ranked, Fill(ranked, target));
    DeliveredMeetsTarget(p, available, demand);
    var share := LargestShareOf(legs);
    var volume := LargestVolumeOf(legs);
    Concentrations(legs, volume, share);
    var residual := if demand - delivered > 0.0 then demand - delivered else 0.0;
    r := Success(LpgPlan(p, legs, delivered, residual, cost, share / delivered, volume / delivered));
  }

  method TotalCapacity(available: seq<Offer>) returns (total: real)
    ensures total == Capacities(available)
  {
    total := 0.0;
    assert available[0..] == available;
    for i := 0 to |available|
      invariant total + Capacities(available[i..]) == Capacities(available)
    {
      assert available[i..][1..] == available[i + 1..];
      total := total + available[i].capacity;
    }
  }

  method AimAt(p: Profile, available: seq<Offer>, demand: real) returns (target: real)
    ensures target == Target(p, available, demand)
  {
    var total := TotalCapacity(available);
    var fraction := if p.LowestCost? then 0.90 else if p.Balanced? then 0.97 else 1.0;
    target := demand;
    if total * fraction < demand {
      target := total * fraction;
    }
  }

  /** The target in numbers: the demand, or nine tenths, 97 per cent or all of the capacity. */
  lemma TargetIs(p: Profile, available: seq<Offer>, demand: real, capacity: Offer -> real)
    requires forall o :: capacity(o) == o.capacity
    ensures var total := SumOf(capacity, available);
            var part := total * (match p case LowestCost => 0.9 case Balanced => 0.97 case HighestResilience => 1.0);
            Target(p, available, demand) == if part < demand then part else demand
  {
    CapacitiesAreSum(available, capacity);
  }

  method Totals(legs: seq<Leg>) returns (delivered: real, cost: real)
    ensures delivered == Volume(legs) && cost == LandedCost(legs)
  {
    delivered, cost := 0.0, 0.0;
    assert legs[0..] == legs;
    for i := 0 to |legs|
      invariant delivered + Volume(legs[i..]) == Volume(legs)
      invariant cost + LandedCost(legs[i..]) == LandedCost(legs)
    {
      assert legs[i..][1..] == legs[i + 1..];
      delivered := delivered + legs[i].volume;
      cost := cost + legs[i].volume * legs[i].route.cost;
    }
  }

  lemma UndercutRanked(p: Profile, available: seq<Offer>, target: real)
    ensures Undercut(Prices(p, Ranked(p, available)), Ranked(p, available), target)
            <==> Undercut(Prices(p, available), available, target)
  {
    KeyOrder(p);
    StableSortSorts(KeyLe(p), available);
    if Undercut(Prices(p, available), available, target) {
      UndercutPermuted(p, available, Ranked(p, available), target);
    }
    if Undercut(Prices(p, Ranked(p, available)), Ranked(p, available), target) {
      UndercutPermuted(p, Ranked(p, available), available, target);
    }
  }

  /** In the two cost profiles no plan within the route capacities that delivers as much is cheaper
      by the profile's key - exactly when no negligible capacity undercuts, which can be told from the
      network, the horizon and the reduction alone. */
  lemma CostPlansAreOptimal(p: Profile, available: seq<Offer>, demand: real)
    requires NonNegative(available) && demand >= 0.0 && !p.HighestResilience?
    requires forall o :: o in available ==> o.route.cost >= 0.0 && o.route.transitDays >= 0.0
    ensures Optimal(Prices(p, Ranked(p, available)), Ranked(p, available), Volumes(p, available, demand))
            <==> !Undercut(Prices(p, available), available, Target(p, available, demand))
    ensures (forall o :: o in available ==> o.capacity == 0.0 || o.capacity > EPSILON) ==>
              Optimal(Prices(p, Ranked(p, available)), Ranked(p, available), Volumes(p, available, demand))
  {
    hide Optimal, Undercut, Fill, Target, Ranked, Rising, PricedFrom, NonNegative, Prices, Price;
    var ranked, target := Ranked(p, available), Target(p, available, demand);
    RankedHolds(p, available);
    TargetHolds(p, available, demand);
    PricesNonNegative(p, available);
    GreedyOptimalIff(Prices(p, ranked), ranked, target);
    UndercutRanked(p, available, target);
    if forall o :: o in available ==> o.capacity == 0.0 || o.capacity > EPSILON {
      NothingUndercuts(Prices(p, available), available, target);
    }
  }

  lemma PricesNonNegative(p: Profile, available: seq<Offer>)
    requires NonNegative(available)
    requires forall o :: o in available ==> o.route.cost >= 0.0 && o.route.transitDays >= 0.0
    ensures PricedFrom(Prices(p, Ranked(p, available)), 0.0)
  {
    hide Ranked, Rising, Prices;
    var ranked := Ranked(p, available);
    RankedHolds(p, available);
    forall i | 0 <= i < |ranked| ensures 0.0 <= Prices(p, ranked)[i] {
      assert ranked[i] in available;
    }
  }

  lemma NothingUndercuts(prices: seq<real>, available: seq<Offer>, target: real)
    requires |prices| == |available|
    requires forall o :: o in available ==> o.capacity == 0.0 || o.capacity > EPSILON
    ensures !Undercut(prices, available, target)
  {
    hide UsableUpTo;
    forall i, j ensures !UndercutAt(prices, available, target, i, j) {
      if 0 <= i < |available| {
        assert available[i] in available;
      }
    }
  }

  /** An accepted network whose LOWEST_COST plan is not the cheapest: next to the route it uses there
      is a cheaper one with a capacity of a millionth of a millionth. */
  lemma GreedyMayBeUndercut() returns (n: Network)
    ensures FieldsInRange(n) && PhysicallySound(n)
    ensures var available := Available(n.routes, 1, 0.0);
            var volumes := Volumes(LowestCost, available, n.baselineDemand);
            !Optimal(Prices(LowestCost, Ranked(LowestCost, available)), Ranked(LowestCost, available), volumes)
  {
    var cheap := Route(0, 0, 0, Elsewhere, 0.000000000001, 0.0, 1.0, 1.0);
    var dear := Route(1, 0, 0, Elsewhere, 2.0, 1.0, 1.0, 2.0);
    n := Network([Supplier(0, 2.0)], [Terminal(0, 2.0, true)], [cheap, dear], 1.0, 0, 1);
    ExampleIsSound(n, cheap, dear);
    var available := Available(n.routes, 1, 0.0);
    var prices, target := Prices(LowestCost, available), Target(LowestCost, available, 1.0);
    assert available[1..][1..] == [] && prices[1..][1..] == [];
    assert Capacities(available[1..]) == available[1].capacity + Capacities(available[1..][1..]);
    assert Capacities(available) == available[0].capacity + available[1].capacity;
    assert target == 1.0;
    assert UsableUpTo(prices[1..], available[1..], 1.0) == 0.0;
    assert UndercutAt(prices, available, target, 0, 1);
    CostPlansAreOptimal(LowestCost, available, 1.0);
  }

  lemma ExampleIsSound(n: Network, cheap: Route, dear: Route)
    requires cheap == Route(0, 0, 0, Elsewhere, 0.000000000001, 0.0, 1.0, 1.0)
    requires dear == Route(1, 0, 0, Elsewhere, 2.0, 1.0, 1.0, 2.0)
    requires n == Network([Supplier(0, 2.0)], [Terminal(0, 2.0, true)], [cheap, dear], 1.0, 0, 1)
    ensures FieldsInRange(n) && PhysicallySound(n)
  {
    hide Flow;
    assert n.suppliers[0] in n.suppliers && n.terminals[0] in n.terminals;
    ExampleFlows(cheap, dear);
  }

  lemma ExampleFlows(cheap: Route, dear: Route)
    requires cheap.baselineFlow == 0.0 && dear.baselineFlow == 1.0
    ensures forall e: Endpoint :: Flow([cheap, dear], e) <= 1.0
    ensures Flow([cheap, dear], Anywhere) == 1.0
  {
    forall e: Endpoint ensures Flow([cheap, dear], e) <= 1.0 && (e.Anywhere? ==> Flow([cheap, dear], e) == 1.0) {
      assert [cheap] + [dear] == [cheap, dear] && [] + [cheap] == [cheap];
      FlowPush([], cheap, e);
      FlowPush([cheap], dear, e);
    }
  }

  // ---------------------------------------------------------------- the three plans

  function OfferOf(r: Route, days: nat, reduction: real): Offer {
    var capacity := r.capacity * days as real;
    Offer(r, if r.via.Hormuz? then capacity * (1.0 - reduction) else capacity)
  }

  function Available(routes: seq<Route>, days: nat, reduction: real): (offers: seq<Offer>)
    ensures |offers| == |routes|
    ensures forall i :: 0 <= i < |routes| ==> offers[i] == OfferOf(routes[i], days, reduction)
  {
    if routes == [] then []
    else Available(routes[..|routes| - 1], days, reduction) + [OfferOf(routes[|routes| - 1], days, reduction)]
  }

  lemma AvailableHolds(n: Network, days: nat, reduction: real)
    requires FieldsInRange(n) && 0.0 <= reduction <= 1.0
    ensures NonNegative(Available(n.routes, days, reduction))
  {
    forall i | 0 <= i < |n.routes| ensures OfferOf(n.routes[i], days, reduction).capacity >= 0.0 {
      assert n.routes[i] in n.routes;
      OfferNonNegative(n.routes[i], days, reduction);
    }
  }

  lemma OfferNonNegative(r: Route, days: nat, reduction: real)
    requires r.capacity >= 0.0 && 0.0 <= reduction <= 1.0
    ensures OfferOf(r, days, reduction).capacity >= 0.0
  {
    Product(r.capacity, days as real);
    Product(r.capacity * days as real, 1.0 - reduction);
  }

  method OfferFor(route: Route, days: nat, reduction: real) returns (offer: Offer)
    ensures offer == OfferOf(route, days, reduction)
  {
    var capacity := route.capacity * days as real;
    if route.via.Hormuz? {
      capacity := capacity * (1.0 - reduction);
    }
    offer := Offer(route, capacity);
  }

  method BuildAvailable(routes: seq<Route>, days: nat, reduction: real) returns (available: seq<Offer>)
    ensures available == Available(routes, days, reduction)
  {
    available := [];
    for i := 0 to |routes|
      invariant available == Available(routes[..i], days, reduction)
    {
      assert routes[..i + 1][..i] == routes[..i];
      var offer := OfferFor(routes[i], days, reduction);
      available := available + [offer];
    }
    assert routes[..|routes|] == routes;
  }

  /** The least any profile aims at is nine tenths of the capacity; a run fails when that, the
      demand, or every single capacity is negligible. */
  ghost predicate NothingToPlan(n: Network, days: nat, reduction: real) {
    var available := Available(n.routes, days, reduction);
    || n.baselineDemand * days as real <= EPSILON
    || Capacities(available) * 0.9 <= EPSILON
    || forall o :: o in available ==> o.capacity <= EPSILON
  }

  lemma CheapestFailsFirst(n: Network, days: nat, reduction: real, p: Profile)
    requires FieldsInRange(n) && 0.0 <= reduction <= 1.0
    ensures var available, demand := Available(n.routes, days, reduction), n.baselineDemand * days as real;
            && (NothingToAllocate(LowestCost, available, demand) <==> NothingToPlan(n, days, reduction))
            && (NothingToAllocate(p, available, demand) ==> NothingToPlan(n, days, reduction))
  {
    hide Available;
    var available := Available(n.routes, days, reduction);
    AvailableHolds(n, days, reduction);
    CapacitiesNonNegative(available);
    assert Capacities(available) * 1.0 == Capacities(available);
  }

  /** Builds the plans of all profiles, or fails when one has no allocation. */
  method Plans(n: Network, days: nat, reduction: real) returns (r: Result<seq<LpgPlan>, PlanError>)
    requires FieldsInRange(n) && 0.0 <= reduction <= 1.0
    ensures r.Success? ==>
              var available, demand := Available(n.routes, days, reduction), n.baselineDemand * days as real;
              && |r.value| == 3
              && Reports(r.value[0], LowestCost, available, demand)
              && Reports(r.value[1], Balanced, available, demand)
              && Reports(r.value[2], HighestResilience, available, demand)
    ensures r.Failure? <==> NothingToPlan(n, days, reduction)
  {
    hide Reports, Available, OfferOf, NothingToAllocate, NothingToPlan;
    var available := BuildAvailable(n.routes, days, reduction);
    AvailableHolds(n, days, reduction);
    Product(n.baselineDemand, days as real);
    var demand := n.baselineDemand * days as real;
    var profiles, plans := [LowestCost, Balanced, HighestResilience], [];
    for i := 0 to 3
      invariant |plans| == i
      invariant forall k :: 0 <= k < i ==> Reports(plans[k], profiles[k], available, demand)
      invariant i > 0 ==> !NothingToPlan(n, days, reduction)
    {
      CheapestFailsFirst(n, days, reduction, profiles[i]);
      var plan := Plan(profiles[i], available, demand);
      if plan.Failure? {
        return Failure(plan.error);
      }
      plans := plans + [plan.value];
    }
    r := Success(plans);
  }

  /** A network whose routes all pass Hormuz has no plan while Hormuz is closed. */
  lemma ClosedHormuzLeavesNoPlan(n: Network, days: nat)
    requires forall r :: r in n.routes ==> r.via.Hormuz?
    ensures NothingToPlan(n, days, 1.0)
  {
    var available := Available(n.routes, days, 1.0);
    forall o | o in available ensures o.capacity <= EPSILON {
      var i :| 0 <= i < |available| && available[i] == o;
      assert n.routes[i] in n.routes;
      assert o.capacity == n.routes[i].capacity * days as real * 0.0;
    }
  }

  /** An accepted network of that kind: the run raises instead of returning plans. */
  lemma PlansMayFail(days: nat) returns (n: Network)
    ensures FieldsInRange(n) && PhysicallySound(n) && NothingToPlan(n, days, 1.0)
  {
    var route := Route(0, 0, 0, Hormuz, 2.0, 1.0, 1.0, 1.0);
    n := Network([Supplier(0, 2.0)], [Terminal(0, 2.0, true)], [route], 1.0, 0, 1);
    assert n.suppliers[0] in n.suppliers && n.terminals[0] in n.terminals;
    forall e: Endpoint ensures Flow(n.routes, e) <= 1.0 && (e.Anywhere? ==> Flow(n.routes, e) == 1.0) {
      assert [] + [route] == n.routes;
      FlowPush([], route, e);
    }
    ClosedHormuzLeavesNoPlan(n, days);
  }

  // ---------------------------------------------------------------- resilience

  function HormuzCapacity(routes: seq<Route>): real {
    if routes == [] then 0.0
    else
      var r := routes[|routes| - 1];
      HormuzCapacity(routes[..|routes| - 1]) + if r.via.Hormuz? then r.capacity else 0.0
  }

  /** The flow kept over a number of days when a share of the Hormuz capacity is lost. */
  function Kept(d: real, reduction: real, flow: real, hormuz: real): real {
    d * flow - d * (reduction * hormuz)
  }

  lemma KeptAdds(d: real, reduction: real, flow: real, more: real, hormuz: real, also: real)
    ensures Kept(d, reduction, flow + more, hormuz + also)
            == Kept(d, reduction, flow, hormuz) + Kept(d, reduction, more, also)
  {
    assert d * (reduction * (hormuz + also)) == d * (reduction * hormuz) + d * (reduction * also);
  }

  lemma OneRouteKeeps(r: Route, days: nat, reduction: real)
    requires r.baselineFlow <= r.capacity
    ensures OfferOf(r, days, reduction).capacity
            >= Kept(days as real, reduction, r.baselineFlow, if r.via.Hormuz? then r.capacity else 0.0)
  {
    var d := days as real;
    Product(r.capacity - r.baselineFlow, d);
    assert r.capacity * d - r.baselineFlow * d >= 0.0;
    if r.via.Hormuz? {
      assert r.capacity * d * (1.0 - reduction) == r.capacity * d - d * (reduction * r.capacity);
    }
  }

  /** What remains carries the baseline flow, less the lost Hormuz capacity. */
  lemma {:induction false} CapacityRemains(routes: seq<Route>, days: nat, reduction: real)
    requires forall r :: r in routes ==> r.baselineFlow <= r.capacity
    ensures Capacities(Available(routes, days, reduction))
            >= Kept(days as real, reduction, Flow(routes, Anywhere), HormuzCapacity(routes))
  {
    if routes == [] {
      assert Kept(days as real, reduction, 0.0, 0.0) == 0.0;
    } else {
      var init, last := routes[..|routes| - 1], routes[|routes| - 1];
      CapacityRemains(init, days, reduction);
      assert last in routes;
      OneRouteKeeps(last, days, reduction);
      CapacitiesPush(Available(init, days, reduction), OfferOf(last, days, reduction));
      KeptAdds(days as real, reduction, Flow(init, Anywhere), last.baselineFlow,
               HormuzCapacity(init), if last.via.Hormuz? then last.capacity else 0.0);
    }
  }

  lemma {:induction false} CapacitiesPush(offers: seq<Offer>, o: Offer)
    ensures Capacities(offers + [o]) == Capacities(offers) + o.capacity
  {
    if offers != [] {
      assert (offers + [o])[1..] == offers[1..] + [o];
      CapacitiesPush(offers[1..], o);
    }
  }

  /** On a sound network the resilience plan leaves no more shortage than the Hormuz reduction
      explains, up to the validator's and the loop's tolerances. */
  lemma ResilienceBound(n: Network, days: nat, reduction: real, plan: LpgPlan)
    requires FieldsInRange(n) && PhysicallySound(n) && 0.0 <= reduction <= 1.0
    requires Conserves(plan, HighestResilience, Available(n.routes, days, reduction), n.baselineDemand * days as real)
    ensures plan.residual <= Explained(days as real, reduction, HormuzCapacity(n.routes)) + Negligible(|n.routes|)
  {
    hide Explained, Negligible, Conserves, Kept, FieldsInRange, PhysicallySound, Capacities, Available, Flow,
      HormuzCapacity;
    SoundCapacity(n, days, reduction);
    var capacity := Capacities(Available(n.routes, days, reduction));
    MeetsDemandOrCapacity(plan, Available(n.routes, days, reduction), n.baselineDemand * days as real);
    Shortfall(days as real, n.baselineDemand, Flow(n.routes, Anywhere), reduction, HormuzCapacity(n.routes),
              capacity, plan.delivered, plan.residual, Negligible(|n.routes|));
  }

  /** The shortage over a number of days that the lost Hormuz capacity and the tolerance of the
      validator account for. */
  function Explained(d: real, reduction: real, hormuz: real): real {
    d * (0.000001 + reduction * hormuz)
  }

  lemma MeetsDemandOrCapacity(plan: LpgPlan, available: seq<Offer>, demand: real)
    requires Conserves(plan, HighestResilience, available, demand)
    ensures plan.delivered >= Min(demand, Capacities(available)) - Negligible(|available|)
    ensures plan.delivered + plan.residual == demand
  {
    assert Capacities(available) * 1.0 == Capacities(available);
  }

  lemma SoundCapacity(n: Network, days: nat, reduction: real)
    requires FieldsInRange(n) && PhysicallySound(n)
    ensures Capacities(Available(n.routes, days, reduction))
            >= Kept(days as real, reduction, Flow(n.routes, Anywhere), HormuzCapacity(n.routes))
    ensures HormuzCapacity(n.routes) >= 0.0
    ensures n.baselineDemand - Flow(n.routes, Anywhere) <= 0.000001
  {
    forall r | r in n.routes ensures r.baselineFlow <= r.capacity {
      assert GoodRoute(n, r);
    }
    CapacityRemains(n.routes, days, reduction);
    HormuzNonNegative(n.routes);
  }

  lemma Shortfall(
    d: real, demand: real, flow: real, reduction: real, hormuz: real, capacity: real, delivered: real, residual: real,
    slack: real)
    requires d >= 0.0 && reduction >= 0.0 && hormuz >= 0.0 && demand - flow <= 0.000001
    requires capacity >= Kept(d, reduction, flow, hormuz)
    requires delivered >= Min(demand * d, capacity) - slack && delivered + residual == demand * d
    ensures residual <= Explained(d, reduction, hormuz) + slack
  {
    var lost := reduction * hormuz;
    Product(reduction, hormuz);
    Product(d, lost);
    Product(d, 0.000001 - (demand - flow));
    assert d * (0.000001 + lost) == d * 0.000001 + d * lost;
    assert d * (0.000001 - (demand - flow)) == d * 0.000001 - demand * d + d * flow;
  }

  lemma {:induction false} HormuzNonNegative(routes: seq<Route>)
    requires forall r :: r in routes ==> r.capacity >= 0.0
    ensures HormuzCapacity(routes) >= 0.0
  {
    if routes != [] {
      assert routes[|routes| - 1] in routes;
      HormuzNonNegative(routes[..|routes| - 1]);
    }
  }
}
