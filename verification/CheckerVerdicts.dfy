/** Verdicts of the independent checker on whole families of plans. */
module CheckerVerdicts {
  import opened Arithmetic
  import opened Wrappers
  import opened PlanModel
  import opened PlanRules
  import opened PlanTheorems
  import opened PlanChecker

  lemma {:induction false} SumOverNonNegative(keys: set<Uuid>, m: map<Uuid, real>)
    requires forall k :: k in m ==> m[k] >= 0.0
    ensures SumOver(keys, m) >= 0.0
  {
    if keys != {} {
      var k :| k in keys;
      SumOverSplit(keys, m, k);
      SumOverNonNegative(keys - {k}, m);
    }
  }

  lemma NothingRaw(input: PlanInput)
    requires ValidInput(input)
    ensures var raw := Raw(input, map[], DemandMap(input.demands));
            raw == Components(0.0, SumValues(DemandMap(input.demands)), 0.0, 0.0, 0.0, 0.0, 0.0, 0.0)
            && raw.shortfall >= 0.0
  {
    var options := input.options;
    NothingDelivered(options, Amount(Landed));
    NothingDelivered(options, Amount(Delay));
    NothingDelivered(options, Amount(RouteRisk));
    NothingDelivered(options, Amount(Compatibility));
    NothingDelivered(options, Amount(Component.Emissions));
    var x := PeakIsLargest(options, options, map[], Supplier);
    NothingDelivered(options, Volume(Supplier, Keys(x, Supplier)[0]));
    var y := PeakIsLargest(options, options, map[], Corridor);
    NothingDelivered(options, Volume(Corridor, Keys(y, Corridor)[0]));
    DemandMapNonNegative(input.demands);
    SumOverNonNegative(DemandMap(input.demands).Keys, DemandMap(input.demands));
  }

  /** Declaring the whole demand short, with the objective reported truthfully, passes whenever
      the windows are on time and the fingerprints are genuine. The only ways left to miss the
      verdict are the two ValueErrors: a demanded refinery without options, or a missing cost. */
  lemma AllShortagePasses(input: PlanInput, w: Components, fingerprint: ProcurementOption -> string)
    requires ValidInput(input) && NonNegative(w) && FingerprintsMatch(input.options, fingerprint)
    requires forall o :: o in input.options ==> !BreaksRule(o, 0.0, input.demands, OnTime)
    ensures var s := DemandMap(input.demands);
            var reported := Objective(input, w, map[], s);
            && Passes(input, fingerprint, w, map[], s, reported)
            && !Rejected(Raw(input, map[], s), reported, reported)
  {
    var s := DemandMap(input.demands);
    AllShortageIsFeasible(input);
    assert !Rejected(Raw(input, map[], s), Objective(input, w, map[], s), Objective(input, w, map[], s)) by {
      AllShortageIsReported(input, w);
    }
  }

  lemma AllShortageIsReported(input: PlanInput, w: Components)
    requires ValidInput(input) && NonNegative(w)
    ensures var s := DemandMap(input.demands);
            !Rejected(Raw(input, map[], s), Objective(input, w, map[], s), Objective(input, w, map[], s))
  {
    var raw := Raw(input, map[], DemandMap(input.demands));
    NothingRaw(input);
    assert NonNegative(raw);
    WeightedNonNegative(w, raw);
  }

  /** Within the tolerance a quantity may be slightly negative. Such a plan violates nothing, yet
      the result types refuse its negative cost, so it gets an error instead of a verdict. */
  lemma FeasiblePlanMayBeRejected() returns (input: PlanInput, q: map<Uuid, real>)
    ensures ValidInput(input) && Feasible(input, q, map[])
    ensures !Unserved(input) && !MissingCost(input.options)
    ensures forall reported, reconstructed :: Rejected(Raw(input, q, map[]), reported, reconstructed)
  {
    var o := ProcurementOption(
      0, 1, 2, 3, 4, 0, 1, 1.0, 1.0, 1.0, 1.0, true, true, [0], [], [], [],
      Some(LandedCost(1.0, 0.0, 0.0)), None, None, None, None, [], map[], None);
    input := PlanInput([o], [], Limits(1.0, 1.0, 1.0));
    q := map[0 := -0.0000005];
    TotalOfOne(o, q, Amount(Landed));
    assert Raw(input, q, map[]).landed < 0.0;
    forall c ensures !Violates(input, q, map[], c) {
      OneOptionHolds(input, o, q, c);
    }
  }

  /** A refinery whose demand no option serves makes the checker raise, whatever the plan is. */
  lemma DemandMayBeUnserved() returns (input: PlanInput)
    ensures ValidInput(input) && !MissingCost(input.options) && Unserved(input)
  {
    var o := ProcurementOption(
      0, 1, 2, 3, 4, 0, 1, 1.0, 1.0, 1.0, 1.0, true, true, [0], [], [], [],
      Some(LandedCost(1.0, 0.0, 0.0)), None, None, None, None, [], map[], None);
    var d := Demand(9, 0, 1, 1.0);
    input := PlanInput([o], [d], Limits(1.0, 1.0, 1.0));
    assert 9 in DemandMap(input.demands);
  }

  lemma TotalOfOne(o: ProcurementOption, q: map<Uuid, real>, m: Measure)
    ensures Total([o], q, m) == Term(o, m, Get(q, o.optionId))
  {
    TotalPush([], o, q, m);
    assert [] + [o] == [o];
  }

  /** A single, slightly negative quantity violates nothing when no demand is listed. */
  lemma OneOptionHolds(input: PlanInput, o: ProcurementOption, q: map<Uuid, real>, c: Constraint)
    requires input.options == [o] && ValidInput(input) && input.demands == []
    requires Rate(o, Spend) >= 0.0
    requires forall id :: -TOLERANCE <= Get(q, id) <= 0.0
    ensures !Violates(input, q, map[], c)
  {
    match c
    case OptionRule(_, _) =>
    case MassBalance(_) =>
    case Capacity(kind, id) =>
      TotalOfOne(o, q, Volume(kind, id));
      CapNonNegative(o, kind, id);
      if Touched(input.options, kind, id) {
        assert id in Keys(o, kind);
      }
    case BudgetRule =>
      TotalOfOne(o, q, Amount(Spend));
      assert Rate(o, Spend) * Get(q, o.optionId) <= 0.0;
    case ShareRule(kind) =>
      if kind.Supplier? || kind.Corridor? {
        TotalOfOne(o, q, Volume(kind, Keys(o, kind)[0]));
        var base := ShareBase(input.demands);
        assert (input.limits.supplierShare + TOLERANCE) * base >= 0.0;
        assert (input.limits.corridorShare + TOLERANCE) * base >= 0.0;
      }
  }

  ghost predicate NonNegativeRates(o: ProcurementOption) {
    forall c :: Rate(o, c) >= 0.0
  }

  /** A plan with non-negative amounts and a non-negative reported objective is never rejected. */
  lemma NonNegativePlansGetVerdicts(
    input: PlanInput, w: Components, q: map<Uuid, real>, s: map<Uuid, real>, reported: real)
    requires ValidInput(input) && NonNegative(w) && reported >= 0.0
    requires forall k :: k in q ==> q[k] >= 0.0
    requires forall k :: k in s ==> s[k] >= 0.0
    requires forall o :: o in input.options ==> NonNegativeRates(o)
    ensures !Rejected(Raw(input, q, s), reported, Objective(input, w, q, s))
  {
    var options := input.options;
    TotalNonNegative(options, q, Amount(Landed));
    TotalNonNegative(options, q, Amount(Delay));
    TotalNonNegative(options, q, Amount(RouteRisk));
    TotalNonNegative(options, q, Amount(Compatibility));
    TotalNonNegative(options, q, Amount(Component.Emissions));
    var x := PeakIsLargest(options, options, q, Supplier);
    TotalNonNegative(options, q, Volume(Supplier, Keys(x, Supplier)[0]));
    var y := PeakIsLargest(options, options, q, Corridor);
    TotalNonNegative(options, q, Volume(Corridor, Keys(y, Corridor)[0]));
    SumOverNonNegative(s.Keys, s);
    var raw := Raw(input, q, s);
    var base := MaxReal(ListedDemand(input.demands), 1.0);
    DivideMonotone(0.0, Peak(options, options, q, Supplier), base);
    DivideMonotone(0.0, Peak(options, options, q, Corridor), base);
    WeightedNonNegative(w, raw);
  }

  lemma WeightedNonNegative(w: Components, raw: Components)
    requires NonNegative(w) && NonNegative(raw)
    ensures NonNegative(Weighted(w, raw))
  {
  }

  lemma {:induction false} TotalNonNegative(options: seq<ProcurementOption>, q: map<Uuid, real>, m: Measure)
    requires forall k :: k in q ==> q[k] >= 0.0
    requires forall o :: o in options ==> NonNegativeRates(o)
    ensures Total(options, q, m) >= 0.0
  {
    if options != [] {
      var last := options[|options| - 1];
      TotalNonNegative(options[..|options| - 1], q, m);
      if m.Amount? {
        assert last in options && NonNegativeRates(last);
        assert Rate(last, m.component) >= 0.0 && Get(q, last.optionId) >= 0.0;
      }
    }
  }
}
