/** The sums, rules and objective of a plan in the fields of its options: tonnes, prices, days and
    kilometres, with every scale and tolerance written out. */
module PlanLedger {
  import opened Arithmetic
  import opened Sequences
  import opened Wrappers
  import opened PlanModel
  import opened PlanRules

  /** The kilotonnes a plan takes of an option. */
  ghost function Quantity(q: map<Uuid, real>, o: ProcurementOption): real {
    if o.optionId in q then q[o.optionId] else 0.0
  }

  /** The landed cost of a tonne; an option without one counts nothing. */
  ghost function PerTonne(o: ProcurementOption): LandedCost {
    match o.landedCost
    case Some(cost) => cost
    case None => LandedCost(0.0, 0.0, 0.0)
  }

  // ---------------------------------------------------------------- what is summed

  /** Costs, penalties and emissions are weighed by the thousand tonnes, transit days too, and
      kilometres by the million; money is spent on tonnes. */
  ghost predicate Contributes(amount: ProcurementOption -> real, q: map<Uuid, real>, c: Component) {
    forall o :: amount(o) == ContributionOf(q, o, c)
  }

  ghost function ContributionOf(q: map<Uuid, real>, o: ProcurementOption, c: Component): real {
    var x := Quantity(q, o);
    match c
    case Landed => PerTonne(o).total * x / 1000.0
    case Delay => (match o.transitTime case Some(days) => days * x / 1000.0 case None => 0.0)
    case RouteRisk => (match o.routeDistance case Some(far) => far * x / 1000000.0 case None => 0.0)
    case Compatibility => PerTonne(o).compatibilityPenalty * x / 1000.0
    case Emissions => PerTonne(o).emissions * x / 1000.0
    case Spend => (x * 1000.0) * PerTonne(o).total
  }

  lemma TermIsContribution(q: map<Uuid, real>, o: ProcurementOption, c: Component)
    ensures Term(o, Amount(c), Get(q, o.optionId)) == ContributionOf(q, o, c)
  {
    hide *;
    match c
    case Landed => LandedTerm(q, o);
    case Delay => DelayTerm(q, o);
    case RouteRisk => RiskTerm(q, o);
    case Compatibility => PenaltyTerm(q, o);
    case Emissions => EmissionsTerm(q, o);
    case Spend => SpendTerm(q, o);
  }

  lemma LandedTerm(q: map<Uuid, real>, o: ProcurementOption)
    ensures Term(o, Amount(Landed), Get(q, o.optionId)) == ContributionOf(q, o, Landed)
  {
    TermBy(q, o, Landed, PerTonne(o).total, 1000.0);
  }

  lemma DelayTerm(q: map<Uuid, real>, o: ProcurementOption)
    ensures Term(o, Amount(Delay), Get(q, o.optionId)) == ContributionOf(q, o, Delay)
  {
    TermBy(q, o, Delay, if o.transitTime.Some? then o.transitTime.value else 0.0, 1000.0);
  }

  lemma RiskTerm(q: map<Uuid, real>, o: ProcurementOption)
    ensures Term(o, Amount(RouteRisk), Get(q, o.optionId)) == ContributionOf(q, o, RouteRisk)
  {
    TermBy(q, o, RouteRisk, if o.routeDistance.Some? then o.routeDistance.value else 0.0, 1000000.0);
  }

  lemma PenaltyTerm(q: map<Uuid, real>, o: ProcurementOption)
    ensures Term(o, Amount(Compatibility), Get(q, o.optionId)) == ContributionOf(q, o, Compatibility)
  {
    TermBy(q, o, Compatibility, PerTonne(o).compatibilityPenalty, 1000.0);
  }

  lemma EmissionsTerm(q: map<Uuid, real>, o: ProcurementOption)
    ensures Term(o, Amount(Component.Emissions), Get(q, o.optionId)) == ContributionOf(q, o, Component.Emissions)
  {
    TermBy(q, o, Component.Emissions, PerTonne(o).emissions, 1000.0);
  }

  lemma SpendTerm(q: map<Uuid, real>, o: ProcurementOption)
    ensures Term(o, Amount(Spend), Get(q, o.optionId)) == ContributionOf(q, o, Spend)
  {
  }

  lemma TermBy(q: map<Uuid, real>, o: ProcurementOption, c: Component, value: real, scale: real)
    requires scale > 0.0 && Rate(o, c) == value / scale
    ensures Term(o, Amount(c), Get(q, o.optionId)) == value * Quantity(q, o) / scale
  {
    hide Rate;
    Scaled(value, Quantity(q, o), scale, Rate(o, c));
  }

  lemma Scaled(value: real, x: real, scale: real, rate: real)
    requires scale > 0.0 && rate == value / scale
    ensures rate * x == value * x / scale
  {
    assert rate * scale == value;
    assert (rate * x) * scale == value * x;
  }

  /** Each component of the objective, and the money spent, is the sum of what the options contribute. */
  lemma AmountIsSum(
    options: seq<ProcurementOption>, q: map<Uuid, real>, c: Component, amount: ProcurementOption -> real)
    requires Contributes(amount, q, c)
    ensures Total(options, q, Amount(c)) == SumOf(amount, options)
  {
    forall o ensures amount(o) == Term(o, Amount(c), Get(q, o.optionId)) {
      TermIsContribution(q, o, c);
    }
    TotalIsSum(options, q, Amount(c), amount);
  }

  /** A tonne costs what it costs: a million times the landed component is spent. */
  lemma {:induction false} SpendIsLanded(options: seq<ProcurementOption>, q: map<Uuid, real>)
    ensures Total(options, q, Amount(Spend)) == 1000000.0 * Total(options, q, Amount(Landed))
  {
    if options != [] {
      var last := options[|options| - 1];
      SpendIsLanded(options[..|options| - 1], q);
      TermIsContribution(q, last, Spend);
      TermIsContribution(q, last, Landed);
      Rescaled(PerTonne(last).total, Quantity(q, last));
    }
  }

  lemma Rescaled(total: real, x: real)
    ensures (x * 1000.0) * total == 1000000.0 * (total * x / 1000.0)
  {
  }

  /** The option passes the asset that the key names. */
  ghost predicate Passes(o: ProcurementOption, kind: Kind, id: Uuid) {
    match kind
    case Refinery => o.refineryId == id
    case Supplier => o.supplierId == id
    case Corridor => o.routeId == id
    case Segment => id in o.segmentIds
    case LoadPort => o.loadPortId == Some(id)
    case ReceivingPort => o.receivingPortId == Some(id)
  }

  ghost predicate Carries(
    volume: ProcurementOption -> real, q: map<Uuid, real>, kind: Kind, id: Uuid)
  {
    forall o :: volume(o) == if Passes(o, kind, id) then Quantity(q, o) else 0.0
  }

  lemma KeysArePassed(o: ProcurementOption, kind: Kind, id: Uuid)
    ensures id in Keys(o, kind) <==> Passes(o, kind, id)
  {
  }

  /** What is delivered to, by or through an asset is the sum over the options that pass it. */
  lemma VolumeIsSum(
    options: seq<ProcurementOption>, q: map<Uuid, real>, kind: Kind, id: Uuid, volume: ProcurementOption -> real)
    requires Carries(volume, q, kind, id)
    ensures Total(options, q, Volume(kind, id)) == SumOf(volume, options)
  {
    forall o ensures volume(o) == Term(o, Volume(kind, id), Get(q, o.optionId)) {
      KeysArePassed(o, kind, id);
    }
    TotalIsSum(options, q, Volume(kind, id), volume);
  }

  // ---------------------------------------------------------------- demand

  /** The dictionary holds the volume of the last demand listed for a refinery. */
  lemma {:induction false} DemandIsLast(demands: seq<Demand>, i: nat)
    requires i < |demands| && forall j :: i < j < |demands| ==> demands[j].refineryId != demands[i].refineryId
    ensures demands[i].refineryId in DemandMap(demands)
    ensures DemandMap(demands)[demands[i].refineryId] == demands[i].volume
  {
    if i < |demands| - 1 {
      DemandIsLast(demands[..|demands| - 1], i);
    }
  }

  lemma {:induction false} DemandIsListed(demands: seq<Demand>, r: Uuid)
    requires r in DemandMap(demands)
    ensures exists d :: d in demands && d.refineryId == r
  {
    var last := demands[|demands| - 1];
    if last.refineryId != r {
      DemandIsListed(demands[..|demands| - 1], r);
      var d :| d in demands[..|demands| - 1] && d.refineryId == r;
      assert d in demands;
    }
  }

  lemma NotDemanded(demands: seq<Demand>, r: Uuid)
    requires forall d :: d in demands ==> d.refineryId != r
    ensures r !in DemandMap(demands)
  {
    if r in DemandMap(demands) {
      DemandIsListed(demands, r);
    }
  }

  lemma {:induction false} ListedDemandIsSum(demands: seq<Demand>, volume: Demand -> real)
    requires forall d :: volume(d) == d.volume
    ensures ListedDemand(demands) == SumOf(volume, demands)
  {
    if demands != [] {
      ListedDemandIsSum(demands[..|demands| - 1], volume);
    }
  }

  /** With one demand per refinery the dictionary adds up to what is listed. */
  lemma {:induction false} DemandsAddUp(demands: seq<Demand>)
    requires forall i, j :: 0 <= i < j < |demands| ==> demands[i].refineryId != demands[j].refineryId
    ensures SumValues(DemandMap(demands)) == ListedDemand(demands)
  {
    if demands != [] {
      var n := |demands| - 1;
      var init, last := demands[..n], demands[n];
      assert forall i :: 0 <= i < n ==> init[i] == demands[i];
      DemandsAddUp(init);
      NotDemanded(init, last.refineryId);
      NewKeyAdds(DemandMap(init), last.refineryId, last.volume);
    }
  }

  lemma NewKeyAdds(m: map<Uuid, real>, k: Uuid, x: real)
    requires k !in m
    ensures SumValues(m[k := x]) == SumValues(m) + x
  {
    var longer := m[k := x];
    SumOverSplit(longer.Keys, longer, k);
    assert longer.Keys - {k} == m.Keys;
    SameValues(m.Keys, longer, m);
  }

  lemma {:induction false} SameValues(keys: set<Uuid>, a: map<Uuid, real>, b: map<Uuid, real>)
    requires forall k :: k in keys ==> Get(a, k) == Get(b, k)
    ensures SumOver(keys, a) == SumOver(keys, b)
  {
    if keys != {} {
      var k :| k in keys;
      SumOverSplit(keys, a, k);
      SumOverSplit(keys, b, k);
      SameValues(keys - {k}, a, b);
    }
  }

  // ---------------------------------------------------------------- the constraints

  /** The four rules of an option, for its quantity. */
  lemma OptionRulesExactly(input: PlanInput, q: map<Uuid, real>, s: map<Uuid, real>, o: ProcurementOption)
    requires ValidInput(input) && o in input.options
    ensures var x := Quantity(q, o);
            && (Violates(input, q, s, OptionRule(o.optionId, InBounds)) <==>
                  || x < -0.000001 || x > o.supplierCapacity + 0.000001 || x > o.availableVolume + 0.000001
                  || x > o.routeCapacity + 0.000001 || x > o.receivingCapacity + 0.000001)
            && (Violates(input, q, s, OptionRule(o.optionId, Unsanctioned)) <==>
                  x > 0.000001 && !o.sanctionsPermitted)
            && (Violates(input, q, s, OptionRule(o.optionId, Compatible)) <==>
                  x > 0.000001 && !o.compatibilityPermitted)
            && (Violates(input, q, s, OptionRule(o.optionId, OnTime)) <==>
                  exists d :: d in input.demands && d.refineryId == o.refineryId
                              && (o.windowStart < d.intervalStart || d.intervalEnd < o.windowEnd))
  {
    hide ValidOption, ValidDemand;
    forall p | p in input.options && p.optionId == o.optionId ensures p == o {
    }
  }

  /** Deliveries and shortage of a refinery miss its demand, or the shortage is negative. */
  lemma BalanceExactly(
    input: PlanInput, q: map<Uuid, real>, s: map<Uuid, real>, i: nat, volume: ProcurementOption -> real)
    requires i < |input.demands|
    requires forall j :: i < j < |input.demands| ==> input.demands[j].refineryId != input.demands[i].refineryId
    requires Carries(volume, q, Refinery, input.demands[i].refineryId)
    ensures var d := input.demands[i];
            var shortage := if d.refineryId in s then s[d.refineryId] else 0.0;
            var gap := SumOf(volume, input.options) + shortage - d.volume;
            Violates(input, q, s, MassBalance(d.refineryId))
            <==> gap > 0.000001 || gap < -0.000001 || shortage < -0.000001
  {
    DemandIsLast(input.demands, i);
    VolumeIsSum(input.options, q, Refinery, input.demands[i].refineryId, volume);
  }

  lemma NoDemandNoBalance(input: PlanInput, q: map<Uuid, real>, s: map<Uuid, real>, r: Uuid)
    requires forall d :: d in input.demands ==> d.refineryId != r
    ensures !Violates(input, q, s, MassBalance(r))
  {
    NotDemanded(input.demands, r);
  }

  /** The capacity an option declares behind a key; behind a port the largest of its segments. */
  ghost predicate Declares(o: ProcurementOption, kind: Kind, id: Uuid, capacity: real) {
    match kind
    case Supplier => capacity == o.supplierCapacity
    case Refinery => capacity == o.receivingCapacity
    case Corridor => false
    case Segment => id in o.segmentCapacities && capacity == o.segmentCapacities[id]
    case LoadPort => LargestDeclared(o.segmentCapacities, capacity)
    case ReceivingPort => LargestDeclared(o.segmentCapacities, capacity)
  }

  ghost predicate LargestDeclared(capacities: map<Uuid, real>, capacity: real) {
    if capacities == map[] then capacity == 0.0
    else
      && (exists k :: k in capacities && capacities[k] == capacity)
      && forall k :: k in capacities ==> capacities[k] <= capacity
  }

  lemma {:induction false} LargestIsLargest(ids: seq<Uuid>, capacities: map<Uuid, real>)
    requires forall k :: k in ids ==> k in capacities
    requires forall k :: k in capacities ==> capacities[k] >= 0.0
    ensures forall k :: k in ids ==> capacities[k] <= LargestSegment(ids, capacities)
    ensures LargestSegment(ids, capacities) >= 0.0
    ensures ids != [] ==> exists k :: k in ids && capacities[k] == LargestSegment(ids, capacities)
  {
    if ids != [] {
      var n := |ids| - 1;
      LargestIsLargest(ids[..n], capacities);
      forall k | k in ids ensures capacities[k] <= LargestSegment(ids, capacities) {
        assert k in ids[..n] || k == ids[n];
      }
      if LargestSegment(ids, capacities) == capacities[ids[n]] {
        assert ids[n] in ids;
      } else {
        assert LargestSegment(ids[..n], capacities) > capacities[ids[n]] >= 0.0;
        assert ids[..n] != [];
        var k :| k in ids[..n] && capacities[k] == LargestSegment(ids[..n], capacities);
        assert k in ids;
      }
    }
  }

  lemma CapIsDeclared(o: ProcurementOption, kind: Kind, id: Uuid, capacity: real)
    requires ValidOption(o) && Passes(o, kind, id) && !kind.Corridor?
    ensures Declares(o, kind, id, capacity) <==> capacity == Cap(o, kind, id)
  {
    if kind.LoadPort? || kind.ReceivingPort? {
      LargestIsLargest(o.segmentIds, o.segmentCapacities);
      var largest := LargestSegment(o.segmentIds, o.segmentCapacities);
      if o.segmentIds == [] {
        assert o.segmentCapacities == map[];
      } else {
        var k :| k in o.segmentIds && o.segmentCapacities[k] == largest;
        assert forall k :: k in o.segmentCapacities ==> k in o.segmentIds;
      }
    }
  }

  /** A segment is overloaded when its load exceeds some declared capacity, any other asset when it
      exceeds every one. */
  lemma CapacityExactly(
    input: PlanInput, q: map<Uuid, real>, s: map<Uuid, real>, kind: Kind, id: Uuid, volume: ProcurementOption -> real)
    requires ValidInput(input) && !kind.Corridor? && Carries(volume, q, kind, id)
    ensures var load := SumOf(volume, input.options);
            Violates(input, q, s, Capacity(kind, id)) <==>
              if kind.Segment?
              then exists o, c :: o in input.options && Passes(o, kind, id) && Declares(o, kind, id, c)
                                  && load > c + 0.000001
              else
                && (exists o :: o in input.options && Passes(o, kind, id))
                && forall o, c :: o in input.options && Passes(o, kind, id) && Declares(o, kind, id, c) ==>
                     load > c + 0.000001
  {
    hide Cap, Declares, Total, ValidDemand, ValidLimits, ValidOption, Keys, Passes;
    VolumeIsSum(input.options, q, kind, id, volume);
    forall o ensures id in Keys(o, kind) <==> Passes(o, kind, id) {
      KeysArePassed(o, kind, id);
    }
    forall o, c | o in input.options && Passes(o, kind, id)
      ensures Declares(o, kind, id, c) <==> c == Cap(o, kind, id)
    {
      CapIsDeclared(o, kind, id, c);
    }
    forall o | o in input.options && Passes(o, kind, id) ensures Declares(o, kind, id, Cap(o, kind, id)) {
      CapIsDeclared(o, kind, id, Cap(o, kind, id));
    }
    if o :| o in input.options && Passes(o, kind, id) {
      var i :| 0 <= i < |input.options| && input.options[i] == o;
      assert Touched(input.options, kind, id);
    }
  }

  /** More is spent than the budget allows: tonnes times the price of a tonne. */
  lemma BudgetExactly(input: PlanInput, q: map<Uuid, real>, s: map<Uuid, real>, spend: ProcurementOption -> real)
    requires Contributes(spend, q, Spend)
    ensures Violates(input, q, s, BudgetRule) <==> SumOf(spend, input.options) > input.limits.budget + 0.000001
  {
    AmountIsSum(input.options, q, Spend, spend);
  }

  /** Some supplier, or corridor, carries more than its share of the demand, or of one kilotonne. */
  lemma ShareExactly(
    input: PlanInput, q: map<Uuid, real>, s: map<Uuid, real>, kind: Kind,
    volumes: ProcurementOption -> (ProcurementOption -> real))
    requires kind.Supplier? || kind.Corridor?
    requires forall o :: Carries(volumes(o), q, kind, if kind.Supplier? then o.supplierId else o.routeId)
    ensures var total := SumValues(DemandMap(input.demands));
            var limit := if kind.Supplier? then input.limits.supplierShare else input.limits.corridorShare;
            Violates(input, q, s, ShareRule(kind)) <==>
              exists o :: o in input.options
                && SumOf(volumes(o), input.options) > (limit + 0.000001) * (if total < 1.0 then 1.0 else total)
  {
    hide Total, SumValues, DemandMap, SumOf, Carries;
    forall o
      ensures Keys(o, kind) != []
      ensures Total(input.options, q, Volume(kind, Keys(o, kind)[0])) == SumOf(volumes(o), input.options)
    {
      VolumeIsSum(input.options, q, kind, Keys(o, kind)[0], volumes(o));
    }
  }

  // ---------------------------------------------------------------- the objective

  /** Eight weighted components: costs, shortage, delay, distance, the two peak shares, penalties
      and emissions. */
  lemma ObjectiveExactly(
    input: PlanInput, w: Components, q: map<Uuid, real>, s: map<Uuid, real>, volume: Demand -> real)
    requires input.options != [] && forall d :: volume(d) == d.volume
    ensures var options := input.options;
            var listed := SumOf(volume, input.demands);
            var base := if listed < 1.0 then 1.0 else listed;
            Objective(input, w, q, s)
            == w.landed * Total(options, q, Amount(Landed)) + w.shortfall * SumValues(s)
               + w.delay * Total(options, q, Amount(Delay)) + w.routeRisk * Total(options, q, Amount(RouteRisk))
               + w.supplierShare * (Peak(options, options, q, Supplier) / base)
               + w.corridorShare * (Peak(options, options, q, Corridor) / base)
               + w.compatibility * Total(options, q, Amount(Compatibility))
               + w.emissions * Total(options, q, Amount(Component.Emissions))
  {
    hide Total, SumValues, Peak;
    ListedDemandIsSum(input.demands, volume);
  }
}
