/** The greedy LPG planner: routes in key order are filled up to their capacity until the target
    is met. Its optimality, conservation, concentration and resilience are proved for every network. */
module LpgPlanner {
  import opened Arithmetic
  import opened Ordering
  import opened Wrappers
  import opened LpgNetwork

  const EPSILON := 0.000000001

  datatype Profile = LowestCost | Balanced | HighestResilience

  function Fraction(p: Profile): real {
    match p
    case LowestCost => 0.90
    case Balanced => 0.97
    case HighestResilience => 1.0
  }

  /** A route with the volume it can carry over the horizon. */
  datatype Offer = Offer(route: Route, capacity: real)

  // ---------------------------------------------------------------- sort keys

  /** The numeric sort keys of the two cost profiles. */
  function Price(p: Profile, r: Route): real {
    match p
    case LowestCost => r.cost
    case Balanced => r.cost + r.transitDays * 1.5
    case HighestResilience => 0.0
  }

  function KeyLe(p: Profile): (Offer, Offer) -> bool {
    (a: Offer, b: Offer) =>
      if p.HighestResilience? then
        a.route.supplierId < b.route.supplierId
        || (a.route.supplierId == b.route.supplierId && a.route.transitDays <= b.route.transitDays)
      else Price(p, a.route) <= Price(p, b.route)
  }

  lemma KeyOrder(p: Profile)
    ensures Preorder(KeyLe(p))
  {
  }

  // ---------------------------------------------------------------- the greedy filling

  function Min(a: real, b: real): real {
    if b < a then b else a
  }

  /** What the loop takes from one route: all it can, unless that is negligible. */
  function Take(capacity: real, remaining: real): real {
    var volume := Min(capacity, remaining);
    if volume <= EPSILON then 0.0 else volume
  }

  /** The volume taken from each route, in order. */
  function Fill(offers: seq<Offer>, remaining: real): (volumes: seq<real>)
    ensures |volumes| == |offers|
  {
    if offers == [] then []
    else
      var v := Take(offers[0].capacity, remaining);
      [v] + Fill(offers[1..], remaining - v)
  }

  function Sum(xs: seq<real>): real {
    if xs == [] then 0.0 else xs[0] + Sum(xs[1..])
  }

  function Capacities(offers: seq<Offer>): real {
    if offers == [] then 0.0 else offers[0].capacity + Capacities(offers[1..])
  }

  predicate NonNegative(offers: seq<Offer>) {
    forall i :: 0 <= i < |offers| ==> offers[i].capacity >= 0.0
  }

  lemma {:induction false} FillNothing(offers: seq<Offer>, remaining: real)
    requires remaining <= EPSILON
    ensures Sum(Fill(offers, remaining)) == 0.0
    ensures forall i :: 0 <= i < |offers| ==> Fill(offers, remaining)[i] == 0.0
  {
    if offers != [] {
      FillNothing(offers[1..], remaining);
      forall i | 0 <= i < |offers| ensures Fill(offers, remaining)[i] == 0.0 {
        assert i > 0 ==> Fill(offers, remaining)[i] == Fill(offers[1..], remaining)[i - 1];
      }
    }
  }

  lemma {:induction false} CapacitiesNonNegative(offers: seq<Offer>)
    requires NonNegative(offers)
    ensures Capacities(offers) >= 0.0
  {
    if offers != [] {
      CapacitiesNonNegative(offers[1..]);
    }
  }

  /** What is left over is at most the shortfall of capacity plus one negligible volume per route. */
  lemma {:induction false} FillConserves(offers: seq<Offer>, target: real)
    requires NonNegative(offers) && target >= 0.0
    ensures var left := target - Sum(Fill(offers, target));
            && 0.0 <= left
            && (left <= Negligible(|offers|) || left <= target - Capacities(offers) + Negligible(|offers|))
  {
    if offers != [] {
      var v := Take(offers[0].capacity, target);
      var rest := offers[1..];
      if target <= EPSILON {
        FillNothing(offers, target);
      } else {
        FillConserves(rest, target - v);
        CapacitiesNonNegative(rest);
      }
    }
  }

  /** What the loop may skip over a number of routes. */
  function Negligible(n: nat): (r: real)
    ensures r >= 0.0
  {
    if n == 0 then 0.0 else Negligible(n - 1) + EPSILON
  }

  lemma {:induction false} NegligibleIs(n: nat)
    ensures Negligible(n) == n as real * EPSILON
  {
    if n > 0 {
      NegligibleIs(n - 1);
      assert n as real == (n - 1) as real + 1.0;
    }
  }

  // ---------------------------------------------------------------- optimality

  /** An allocation within the capacities. */
  ghost predicate Allocation(offers: seq<Offer>, x: seq<real>) {
    && |x| == |offers|
    && forall i :: 0 <= i < |x| ==> 0.0 <= x[i] <= offers[i].capacity
  }

  /** The price of each offer under a profile's key. */
  function Prices(p: Profile, offers: seq<Offer>): (prices: seq<real>)
    ensures |prices| == |offers|
    ensures forall i :: 0 <= i < |offers| ==> prices[i] == Price(p, offers[i].route)
  {
    if offers == [] then [] else [Price(p, offers[0].route)] + Prices(p, offers[1..])
  }

  function Pay(price: real, volume: real): real {
    price * volume
  }

  function Cost(prices: seq<real>, x: seq<real>): real
    requires |x| == |prices|
  {
    if prices == [] then 0.0
    else Pay(prices[0], x[0]) + Cost(prices[1..], x[1..])
  }

  /** No allocation that delivers at least as much is cheaper. */
  ghost predicate Optimal(prices: seq<real>, offers: seq<Offer>, g: seq<real>)
    requires |g| == |offers| == |prices|
  {
    forall x :: Allocation(offers, x) && Sum(x) >= Sum(g) ==> Cost(prices, x) >= Cost(prices, g)
  }

  /** A route the loop skips as negligible is cheaper than one the filling `g` uses. */
  ghost predicate Skips(prices: seq<real>, offers: seq<Offer>, g: seq<real>)
    requires |g| == |offers| == |prices|
  {
    exists i, j :: SkipsAt(prices, offers, g, i, j)
  }

  ghost predicate SkipsAt(prices: seq<real>, offers: seq<Offer>, g: seq<real>, i: int, j: int)
    requires |g| == |offers| == |prices|
  {
    && 0 <= i < |offers| && 0 <= j < |offers|
    && 0.0 < offers[i].capacity <= EPSILON && g[j] > 0.0
    && prices[i] < prices[j]
  }

  /** What the routes with more than a negligible capacity carry, up to a price. */
  function UsableUpTo(prices: seq<real>, offers: seq<Offer>, bound: real): real
    requires |prices| == |offers|
  {
    if offers == [] then 0.0
    else
      (if offers[0].capacity > EPSILON && prices[0] <= bound then offers[0].capacity else 0.0)
      + UsableUpTo(prices[1..], offers[1..], bound)
  }

  /** Some negligible route is cheaper than a usable one, and the usable routes up to its price
      leave more than a negligible part of the target open. */
  ghost predicate Undercut(prices: seq<real>, offers: seq<Offer>, target: real)
    requires |prices| == |offers|
  {
    exists i, j :: UndercutAt(prices, offers, target, i, j)
  }

  ghost predicate UndercutAt(prices: seq<real>, offers: seq<Offer>, target: real, i: int, j: int)
    requires |prices| == |offers|
  {
    && 0 <= i < |offers| && 0 <= j < |offers|
    && 0.0 < offers[i].capacity <= EPSILON < offers[j].capacity && prices[i] < prices[j]
    && target - UsableUpTo(prices, offers, prices[i]) > EPSILON
  }

  ghost predicate PricedFrom(prices: seq<real>, bound: real) {
    forall i :: 0 <= i < |prices| ==> bound <= prices[i]
  }

  ghost predicate Rising(prices: seq<real>) {
    forall i, j :: 0 <= i < j < |prices| ==> prices[i] <= prices[j]
  }

  lemma PayDearer(price: real, bound: real, x: real)
    requires bound <= price && x >= 0.0
    ensures Pay(bound, x) <= Pay(price, x)
  {
    assert (price - bound) * x >= 0.0;
  }

  lemma PayAdds(k: real, a: real, b: real)
    ensures Pay(k, a + b) == Pay(k, a) + Pay(k, b)
  {
  }

  lemma {:induction false} CostAtLeast(prices: seq<real>, x: seq<real>, bound: real)
    requires |x| == |prices| && PricedFrom(prices, bound)
    requires forall i :: 0 <= i < |x| ==> x[i] >= 0.0
    ensures Cost(prices, x) >= Pay(bound, Sum(x))
  {
    if prices != [] {
      CostAtLeast(prices[1..], x[1..], bound);
      PayDearer(prices[0], bound, x[0]);
      PayAdds(bound, x[0], Sum(x[1..]));
    } else {
      assert x == [];
    }
  }

  /** If only routes at the bound are used, the cost is the bound times the volume. */
  lemma {:induction false} CostAtBound(prices: seq<real>, g: seq<real>, bound: real)
    requires |g| == |prices|
    requires forall i :: 0 <= i < |g| ==> g[i] == 0.0 || prices[i] == bound
    ensures Cost(prices, g) == Pay(bound, Sum(g))
  {
    if prices != [] {
      CostAtBound(prices[1..], g[1..], bound);
      PayAdds(bound, g[0], Sum(g[1..]));
      assert Pay(prices[0], g[0]) == Pay(bound, g[0]);
    } else {
      assert g == [];
    }
  }

  /** Every surplus over an allocation costs at least the bound. */
  ghost predicate SurplusCosts(prices: seq<real>, x: seq<real>, g: seq<real>, bound: real)
    requires |x| == |g| == |prices|
  {
    Cost(prices, x) >= Cost(prices, g) + Pay(bound, Sum(x) - Sum(g))
  }

  /** The exchange argument: every surplus over the greedy volume costs at least the bound, which
      is any price below all of them. */
  lemma {:induction false} GreedyIsCheapest(
    prices: seq<real>, offers: seq<Offer>, target: real, x: seq<real>, bound: real)
    requires |prices| == |offers| && NonNegative(offers) && target >= 0.0 && Allocation(offers, x)
    requires Rising(prices) && PricedFrom(prices, bound)
    requires Sum(x) >= Sum(Fill(offers, target)) && !Skips(prices, offers, Fill(offers, target))
    ensures SurplusCosts(prices, x, Fill(offers, target), bound)
  {
    var g := Fill(offers, target);
    if offers == [] {
      assert x == [] && g == [];
    } else {
      PricesRise(prices);
      if g[0] == offers[0].capacity {
        FillTail(prices, offers, target);
        GreedyIsCheapest(prices[1..], offers[1..], target - g[0], x[1..], prices[0]);
        SurplusFull(prices, x, g, bound);
      } else {
        OnlyFirstPrice(prices, offers, target);
        SurplusPart(prices, x, g, bound);
      }
    }
  }

  lemma PricesRise(prices: seq<real>)
    requires prices != [] && Rising(prices)
    ensures PricedFrom(prices, prices[0]) && Rising(prices[1..]) && PricedFrom(prices[1..], prices[0])
  {
  }

  lemma SurplusFull(prices: seq<real>, x: seq<real>, g: seq<real>, bound: real)
    requires |x| == |g| == |prices| && prices != [] && bound <= prices[0] && Sum(x) >= Sum(g)
    requires SurplusCosts(prices[1..], x[1..], g[1..], prices[0])
    ensures SurplusCosts(prices, x, g, bound)
  {
    var ahead, surplus := x[0] - g[0], Sum(x[1..]) - Sum(g[1..]);
    assert Sum(x) - Sum(g) == ahead + surplus;
    PayDearer(prices[0], bound, ahead + surplus);
    PayAdds(prices[0], ahead, surplus);
    PayAdds(prices[0], g[0], ahead);
  }

  lemma SurplusPart(prices: seq<real>, x: seq<real>, g: seq<real>, bound: real)
    requires prices != [] && |x| == |g| == |prices| && Sum(x) >= Sum(g)
    requires bound <= prices[0] && PricedFrom(prices, prices[0])
    requires forall i :: 0 <= i < |x| ==> x[i] >= 0.0
    requires forall i :: 0 <= i < |g| ==> g[i] == 0.0 || prices[i] == prices[0]
    ensures SurplusCosts(prices, x, g, bound)
  {
    CostAtLeast(prices, x, prices[0]);
    CostAtBound(prices, g, prices[0]);
    PayDearer(prices[0], bound, Sum(x) - Sum(g));
    PayAdds(prices[0], Sum(g), Sum(x) - Sum(g));
  }

  /** The rest of a filling is a filling without undercut routes. */
  lemma FillTail(prices: seq<real>, offers: seq<Offer>, target: real)
    requires |prices| == |offers| && NonNegative(offers) && target >= 0.0 && offers != []
    requires !Skips(prices, offers, Fill(offers, target)) && Fill(offers, target)[0] == offers[0].capacity
    ensures var v := Fill(offers, target)[0];
            && Fill(offers, target)[1..] == Fill(offers[1..], target - v) && target - v >= 0.0
            && NonNegative(offers[1..])
            && !Skips(prices[1..], offers[1..], Fill(offers[1..], target - v))
            && Sum(Fill(offers, target)) == v + Sum(Fill(offers[1..], target - v))
  {
    var g := Fill(offers, target);
    forall i, j ensures !SkipsAt(prices[1..], offers[1..], g[1..], i, j) {
      assert !SkipsAt(prices, offers, g, i + 1, j + 1);
    }
  }

  /** When the first route is not filled, the filling uses no dearer route than the first. */
  lemma OnlyFirstPrice(prices: seq<real>, offers: seq<Offer>, target: real)
    requires |prices| == |offers| && NonNegative(offers) && target >= 0.0 && offers != [] && Rising(prices)
    requires !Skips(prices, offers, Fill(offers, target)) && Fill(offers, target)[0] != offers[0].capacity
    ensures forall i :: 0 <= i < |offers| ==> Fill(offers, target)[i] == 0.0 || prices[i] == prices[0]
  {
    var g := Fill(offers, target);
    var v := g[0];
    if v > 0.0 || target <= EPSILON {
      FillNothing(offers[1..], target - v);
      assert g[1..] == Fill(offers[1..], target - v);
      forall i | 1 <= i < |offers| ensures g[i] == 0.0 {
        assert g[i] == g[1..][i - 1];
      }
    } else {
      FillNonNegative(offers, target);
      forall i | 0 <= i < |offers| ensures g[i] == 0.0 || prices[i] == prices[0] {
        assert !SkipsAt(prices, offers, g, 0, i);
        assert i > 0 ==> prices[0] <= prices[i];
      }
    }
  }

  lemma {:induction false} FillNonNegative(offers: seq<Offer>, target: real)
    requires NonNegative(offers) && target >= 0.0
    ensures forall i :: 0 <= i < |offers| ==>
              0.0 <= Fill(offers, target)[i] <= offers[i].capacity
              && (Fill(offers, target)[i] > 0.0 ==> Fill(offers, target)[i] > EPSILON)
  {
    if offers != [] {
      var v := Take(offers[0].capacity, target);
      FillNonNegative(offers[1..], target - v);
      forall i | 1 <= i < |offers|
        ensures 0.0 <= Fill(offers, target)[i] <= offers[i].capacity
                && (Fill(offers, target)[i] > 0.0 ==> Fill(offers, target)[i] > EPSILON)
      {
        assert Fill(offers, target)[i] == Fill(offers[1..], target - v)[i - 1];
      }
    }
  }

  lemma {:induction false} SumUpdate(xs: seq<real>, i: nat, v: real)
    requires i < |xs|
    ensures Sum(xs[i := v]) == Sum(xs) + v - xs[i]
  {
    if i > 0 {
      SumUpdate(xs[1..], i - 1, v);
      assert xs[i := v][1..] == xs[1..][i - 1 := v];
    } else {
      assert xs[i := v][1..] == xs[1..];
    }
  }

  lemma {:induction false} CostUpdate(prices: seq<real>, xs: seq<real>, i: nat, v: real)
    requires i < |xs| == |prices|
    ensures Cost(prices, xs[i := v]) == Cost(prices, xs) + Pay(prices[i], v) - Pay(prices[i], xs[i])
  {
    if i > 0 {
      CostUpdate(prices[1..], xs[1..], i - 1, v);
      assert xs[i := v][1..] == xs[1..][i - 1 := v];
    } else {
      assert xs[i := v][1..] == xs[1..];
    }
  }

  /** The greedy filling with a negligible volume shifted from route j to route i. */
  lemma Shifted(prices: seq<real>, g: seq<real>, i: nat, j: nat, c: real)
    requires |g| == |prices| && i < |g| && j < |g| && i != j && g[i] == 0.0 && c > 0.0
    requires prices[i] < prices[j]
    ensures Sum(g[i := c][j := g[j] - c]) == Sum(g)
    ensures Cost(prices, g[i := c][j := g[j] - c]) < Cost(prices, g)
  {
    var h := g[i := c];
    SumUpdate(g, i, c);
    SumUpdate(h, j, g[j] - c);
    CostUpdate(prices, g, i, c);
    CostUpdate(prices, h, j, g[j] - c);
    PayAdds(prices[j], g[j] - c, c);
    PayCheaper(prices[i], prices[j], c);
    assert Pay(prices[i], 0.0) == 0.0;
  }

  lemma PayCheaper(cheap: real, dear: real, c: real)
    requires cheap < dear && c > 0.0
    ensures Pay(cheap, c) < Pay(dear, c)
  {
    assert (dear - cheap) * c > 0.0;
  }

  /** Shifting a negligible volume to the cheaper route improves on the greedy filling. */
  lemma UndercutImproves(prices: seq<real>, offers: seq<Offer>, target: real, i: nat, j: nat)
    requires |prices| == |offers| && NonNegative(offers) && target >= 0.0
    requires SkipsAt(prices, offers, Fill(offers, target), i, j)
    ensures !Optimal(prices, offers, Fill(offers, target))
  {
    var g := Fill(offers, target);
    FillNonNegative(offers, target);
    var c := offers[i].capacity;
    Shifted(prices, g, i, j, c);
    assert Allocation(offers, g[i := c][j := g[j] - c]);
  }

  // ---------------------------------------------------------------- which routes are used

  /** What the usable ones among the first `j` routes carry. */
  function Usable(offers: seq<Offer>, j: nat): (total: real)
    requires j <= |offers|
    ensures total >= 0.0
  {
    if j == 0 then 0.0
    else (if offers[0].capacity > EPSILON then offers[0].capacity else 0.0) + Usable(offers[1..], j - 1)
  }

  /** A route is used exactly when it is usable and the usable routes before it leave enough open. */
  lemma {:induction false} UsedExactly(offers: seq<Offer>, target: real, j: nat)
    requires j < |offers|
    ensures Fill(offers, target)[j] > 0.0
            <==> offers[j].capacity > EPSILON && target - Usable(offers, j) > EPSILON
  {
    if j > 0 {
      var v := Take(offers[0].capacity, target);
      UsedExactly(offers[1..], target - v, j - 1);
      assert Fill(offers, target)[j] == Fill(offers[1..], target - v)[j - 1];
    }
  }

  lemma {:induction false} NothingUpTo(prices: seq<real>, offers: seq<Offer>, bound: real)
    requires |prices| == |offers| && forall i :: 0 <= i < |prices| ==> bound < prices[i]
    ensures UsableUpTo(prices, offers, bound) == 0.0
  {
    if offers != [] {
      NothingUpTo(prices[1..], offers[1..], bound);
    }
  }

  /** Routes up to a price come before every dearer route. */
  lemma {:induction false} UpToComesBefore(prices: seq<real>, offers: seq<Offer>, bound: real, j: nat)
    requires |prices| == |offers| && Rising(prices) && j < |prices| && bound < prices[j]
    ensures UsableUpTo(prices, offers, bound) <= Usable(offers, j)
  {
    if j == 0 {
      NothingUpTo(prices, offers, bound);
    } else {
      UpToComesBefore(prices[1..], offers[1..], bound, j - 1);
    }
  }

  /** Exactly those come before the first usable route that is dearer. */
  lemma {:induction false} FirstDearer(prices: seq<real>, offers: seq<Offer>, bound: real, at: nat)
    returns (j: nat)
    requires |prices| == |offers| && Rising(prices)
    requires at < |offers| && offers[at].capacity > EPSILON && bound < prices[at]
    ensures j < |offers| && offers[j].capacity > EPSILON && bound < prices[j]
    ensures UsableUpTo(prices, offers, bound) == Usable(offers, j)
  {
    if offers[0].capacity > EPSILON && bound < prices[0] {
      j := 0;
      NothingUpTo(prices, offers, bound);
    } else {
      var k := FirstDearer(prices[1..], offers[1..], bound, at - 1);
      j := k + 1;
    }
  }

  /** Whether a used route is undercut can be told from capacities, prices and target alone. */
  lemma SkipsIffUndercut(prices: seq<real>, offers: seq<Offer>, target: real)
    requires |prices| == |offers| && Rising(prices)
    ensures Skips(prices, offers, Fill(offers, target)) <==> Undercut(prices, offers, target)
  {
    var g := Fill(offers, target);
    if i, j :| SkipsAt(prices, offers, g, i, j) {
      UsedExactly(offers, target, j);
      UpToComesBefore(prices, offers, prices[i], j);
      assert UndercutAt(prices, offers, target, i, j);
    }
    if i, j :| UndercutAt(prices, offers, target, i, j) {
      var first := FirstDearer(prices, offers, prices[i], j);
      UsedExactly(offers, target, first);
      assert SkipsAt(prices, offers, g, i, first);
    }
  }

  /** The greedy plan is optimal for its key exactly when no negligible route undercuts it. */
  lemma GreedyOptimalIff(prices: seq<real>, offers: seq<Offer>, target: real)
    requires |prices| == |offers| && NonNegative(offers) && target >= 0.0
    requires Rising(prices) && PricedFrom(prices, 0.0)
    ensures Optimal(prices, offers, Fill(offers, target)) <==> !Undercut(prices, offers, target)
  {
    var g := Fill(offers, target);
    SkipsIffUndercut(prices, offers, target);
    if Skips(prices, offers, g) {
      var i, j :| SkipsAt(prices, offers, g, i, j);
      UndercutImproves(prices, offers, target, i, j);
    } else {
      forall x | Allocation(offers, x) && Sum(x) >= Sum(g) ensures Cost(prices, x) >= Cost(prices, g) {
        GreedyIsCheapest(prices, offers, target, x, 0.0);
        assert Pay(0.0, Sum(x) - Sum(g)) == 0.0;
      }
    }
  }

  // ---------------------------------------------------------------- the order of the offers

  function UsableTerm(p: Profile, o: Offer, bound: real): real {
    if o.capacity > EPSILON && Price(p, o.route) <= bound then o.capacity else 0.0
  }

  lemma {:induction false} UsableIsSum(p: Profile, offers: seq<Offer>, bound: real, term: Offer -> real)
    requires forall o :: term(o) == UsableTerm(p, o, bound)
    ensures UsableUpTo(Prices(p, offers), offers, bound) == SumOf(term, offers)
  {
    if offers != [] {
      SumOfFirst(term, offers);
      UsableIsSum(p, offers[1..], bound, term);
      assert Prices(p, offers)[1..] == Prices(p, offers[1..]);
    }
  }

  lemma UsablePermuted(p: Profile, a: seq<Offer>, b: seq<Offer>, bound: real)
    requires multiset(a) == multiset(b)
    ensures UsableUpTo(Prices(p, a), a, bound) == UsableUpTo(Prices(p, b), b, bound)
  {
    var term := (o: Offer) => UsableTerm(p, o, bound);
    UsableIsSum(p, a, bound, term);
    UsableIsSum(p, b, bound, term);
    SumOfIgnoresOrder(term, a, b);
  }

  /** Being undercut does not depend on the order in which the routes are listed. */
  lemma UndercutPermuted(p: Profile, a: seq<Offer>, b: seq<Offer>, target: real)
    requires multiset(a) == multiset(b) && Undercut(Prices(p, a), a, target)
    ensures Undercut(Prices(p, b), b, target)
  {
    var i, j :| UndercutAt(Prices(p, a), a, target, i, j);
    UsablePermuted(p, a, b, Prices(p, a)[i]);
    assert a[i] in multiset(b) && a[j] in multiset(b);
    var k :| 0 <= k < |b| && b[k] == a[i];
    var l :| 0 <= l < |b| && b[l] == a[j];
    assert UndercutAt(Prices(p, b), b, target, k, l);
  }
}
