/** What holds of the constraints and the objective for every input: the order of the options
    does not matter, the feasible region is convex, the objective is convex along it, and
    volumes are conserved. */
module PlanTheorems {
  import opened Arithmetic
  import opened Ordering
  import opened Wrappers
  import opened PlanModel
  import opened PlanRules

  // ---------------------------------------------------------------- order

  lemma TouchedIgnoresOrder(a: seq<ProcurementOption>, b: seq<ProcurementOption>, kind: Kind, id: Uuid)
    requires forall o :: o in a ==> o in b
    requires Touched(a, kind, id)
    ensures Touched(b, kind, id)
  {
    var i :| 0 <= i < |a| && id in Keys(a[i], kind);
    assert a[i] in b;
  }

  /** The verdict on every constraint is the same for every order of the options. */
  lemma ViolationsIgnoreOrder(
    input: PlanInput, options: seq<ProcurementOption>, q: map<Uuid, real>, s: map<Uuid, real>, c: Constraint)
    requires multiset(options) == multiset(input.options)
    ensures Violates(input.(options := options), q, s, c) <==> Violates(input, q, s, c)
  {
    SameMembers(options, input.options);
    match c
    case OptionRule(_, _) =>
    case MassBalance(r) => TotalIgnoresOrder(options, input.options, q, Volume(Refinery, r));
    case Capacity(kind, id) =>
      TotalIgnoresOrder(options, input.options, q, Volume(kind, id));
      if Touched(options, kind, id) {
        TouchedIgnoresOrder(options, input.options, kind, id);
      }
      if Touched(input.options, kind, id) {
        TouchedIgnoresOrder(input.options, options, kind, id);
      }
    case BudgetRule => TotalIgnoresOrder(options, input.options, q, Amount(Spend));
    case ShareRule(kind) =>
      if kind.Supplier? || kind.Corridor? {
        forall o | o in options
          ensures Total(options, q, Volume(kind, Keys(o, kind)[0]))
                  == Total(input.options, q, Volume(kind, Keys(o, kind)[0]))
        {
          TotalIgnoresOrder(options, input.options, q, Volume(kind, Keys(o, kind)[0]));
        }
      }
  }

  lemma PeakIgnoresOrder(a: seq<ProcurementOption>, b: seq<ProcurementOption>, q: map<Uuid, real>, kind: Kind)
    requires a != [] && multiset(a) == multiset(b) && (kind.Supplier? || kind.Corridor?)
    ensures b != [] && Peak(a, a, q, kind) == Peak(b, b, q, kind)
  {
    SameMembers(a, b);
    assert a[0] in b;
    var x := PeakIsLargest(a, a, q, kind);
    var y := PeakIsLargest(b, b, q, kind);
    TotalIgnoresOrder(a, b, q, Volume(kind, Keys(x, kind)[0]));
    TotalIgnoresOrder(a, b, q, Volume(kind, Keys(y, kind)[0]));
  }

  /** So is the objective. */
  lemma ObjectiveIgnoresOrder(
    input: PlanInput, options: seq<ProcurementOption>, w: Components, q: map<Uuid, real>, s: map<Uuid, real>)
    requires input.options != [] && multiset(options) == multiset(input.options)
    ensures options != []
    ensures Objective(input.(options := options), w, q, s) == Objective(input, w, q, s)
  {
    PeakIgnoresOrder(input.options, options, q, Supplier);
    PeakIgnoresOrder(input.options, options, q, Corridor);
    TotalIgnoresOrder(options, input.options, q, Amount(Landed));
    TotalIgnoresOrder(options, input.options, q, Amount(Delay));
    TotalIgnoresOrder(options, input.options, q, Amount(RouteRisk));
    TotalIgnoresOrder(options, input.options, q, Amount(Compatibility));
    TotalIgnoresOrder(options, input.options, q, Amount(Component.Emissions));
    assert Raw(input.(options := options), q, s) == Raw(input, q, s);
  }

  // ---------------------------------------------------------------- convexity

  function Blend(t: real, a: real, b: real): real {
    t * a + (1.0 - t) * b
  }

  predicate Fraction(t: real) {
    0.0 <= t <= 1.0
  }

  lemma BlendAdds(t: real, a: real, b: real, c: real, d: real)
    ensures Blend(t, a + c, b + d) == Blend(t, a, b) + Blend(t, c, d)
  {
  }

  lemma BlendScales(t: real, a: real, b: real, k: real)
    ensures Blend(t, k * a, k * b) == k * Blend(t, a, b)
  {
    assert t * (k * a) == k * (t * a);
    assert (1.0 - t) * (k * b) == k * ((1.0 - t) * b);
  }

  lemma BlendMonotone(t: real, a: real, b: real, c: real, d: real)
    requires Fraction(t) && a <= c && b <= d
    ensures Blend(t, a, b) <= Blend(t, c, d)
  {
    assert t * (c - a) >= 0.0;
    assert (1.0 - t) * (d - b) >= 0.0;
  }

  lemma BlendConstant(t: real, a: real)
    ensures Blend(t, a, a) == a
  {
  }

  /** A blend of two numbers below a bound is below it, and likewise above. */
  lemma BlendBelow(t: real, a: real, b: real, bound: real)
    requires Fraction(t) && a <= bound && b <= bound
    ensures Blend(t, a, b) <= bound
  {
    BlendMonotone(t, a, b, bound, bound);
    BlendConstant(t, bound);
  }

  lemma BlendAbove(t: real, a: real, b: real, bound: real)
    requires Fraction(t) && a >= bound && b >= bound
    ensures Blend(t, a, b) >= bound
  {
    BlendMonotone(t, bound, bound, a, b);
    BlendConstant(t, bound);
  }

  /** The convex combination of two plans, key by key. */
  function Mix(t: real, a: map<Uuid, real>, b: map<Uuid, real>): map<Uuid, real> {
    map k | k in a.Keys + b.Keys :: Blend(t, Get(a, k), Get(b, k))
  }

  lemma MixAt(t: real, a: map<Uuid, real>, b: map<Uuid, real>, k: Uuid)
    ensures Get(Mix(t, a, b), k) == Blend(t, Get(a, k), Get(b, k))
  {
    if k !in a.Keys + b.Keys {
      assert Blend(t, 0.0, 0.0) == 0.0;
    }
  }

  lemma TermBlends(t: real, o: ProcurementOption, m: Measure, x: real, y: real)
    ensures Term(o, m, Blend(t, x, y)) == Blend(t, Term(o, m, x), Term(o, m, y))
  {
    if m.Amount? {
      BlendScales(t, x, y, Rate(o, m.component));
    } else if m.Volume? && m.id !in Keys(o, m.kind) {
      BlendConstant(t, 0.0);
    }
  }

  /** Every accumulator of the checker is linear in the plan. */
  lemma {:induction false} TotalBlends(
    t: real, options: seq<ProcurementOption>, q: map<Uuid, real>, r: map<Uuid, real>, m: Measure)
    ensures Total(options, Mix(t, q, r), m) == Blend(t, Total(options, q, m), Total(options, r, m))
  {
    if options == [] {
      BlendConstant(t, 0.0);
    } else {
      var init, last := options[..|options| - 1], options[|options| - 1];
      TotalBlends(t, init, q, r, m);
      MixAt(t, q, r, last.optionId);
      TermBlends(t, last, m, Get(q, last.optionId), Get(r, last.optionId));
      BlendAdds(t, Total(init, q, m), Total(init, r, m),
                Term(last, m, Get(q, last.optionId)), Term(last, m, Get(r, last.optionId)));
    }
  }

  lemma {:induction false} SumOverBlends(t: real, keys: set<Uuid>, a: map<Uuid, real>, b: map<Uuid, real>)
    ensures SumOver(keys, Mix(t, a, b)) == Blend(t, SumOver(keys, a), SumOver(keys, b))
  {
    if keys == {} {
      BlendConstant(t, 0.0);
    } else {
      var k :| k in keys;
      SumOverSplit(keys, Mix(t, a, b), k);
      SumOverSplit(keys, a, k);
      SumOverSplit(keys, b, k);
      SumOverBlends(t, keys - {k}, a, b);
      MixAt(t, a, b, k);
      BlendAdds(t, Get(a, k), Get(b, k), SumOver(keys - {k}, a), SumOver(keys - {k}, b));
    }
  }

  lemma SumValuesBlends(t: real, a: map<Uuid, real>, b: map<Uuid, real>)
    ensures SumValues(Mix(t, a, b)) == Blend(t, SumValues(a), SumValues(b))
  {
    var keys := a.Keys + b.Keys;
    assert Mix(t, a, b).Keys == keys;
    SumOverBlends(t, keys, a, b);
    SumOverExtra(keys, a);
    SumOverExtra(keys, b);
  }

  /** No constraint separates two plans that meet it. */
  lemma ConstraintIsConvex(
    input: PlanInput, t: real, q: map<Uuid, real>, s: map<Uuid, real>, q': map<Uuid, real>, s': map<Uuid, real>,
    c: Constraint)
    requires Fraction(t) && !Violates(input, q, s, c) && !Violates(input, q', s', c)
    ensures !Violates(input, Mix(t, q, q'), Mix(t, s, s'), c)
  {
    var mix := Mix(t, q, q');
    match c
    case OptionRule(id, check) => OptionRuleIsConvex(input, t, q, q', id, check);
    case MassBalance(r) =>
      TotalBlends(t, input.options, q, q', Volume(Refinery, r));
      MixAt(t, s, s', r);
      if r in DemandMap(input.demands) {
        BalanceIsConvex(t, Total(input.options, q, Volume(Refinery, r)), Get(s, r),
                        Total(input.options, q', Volume(Refinery, r)), Get(s', r), DemandMap(input.demands)[r]);
      }
    case Capacity(kind, id) => CapacityIsConvex(input.options, t, q, q', kind, id);
    case BudgetRule =>
      TotalBlends(t, input.options, q, q', Amount(Spend));
      BlendBelow(t, Total(input.options, q, Amount(Spend)), Total(input.options, q', Amount(Spend)),
                 input.limits.budget + TOLERANCE);
    case ShareRule(kind) =>
      if kind.Supplier? || kind.Corridor? {
        ShareIsConvex(input.options, t, q, q', kind, ShareBase(input.demands),
                      if kind.Supplier? then input.limits.supplierShare else input.limits.corridorShare);
      }
  }

  lemma OptionRuleIsConvex(
    input: PlanInput, t: real, q: map<Uuid, real>, q': map<Uuid, real>, id: Uuid, check: OptionCheck)
    requires Fraction(t)
    requires !RuleBroken(input.options, q, input.demands, id, check)
    requires !RuleBroken(input.options, q', input.demands, id, check)
    ensures !RuleBroken(input.options, Mix(t, q, q'), input.demands, id, check)
  {
    forall o | o in input.options && o.optionId == id
      ensures !BreaksRule(o, Get(Mix(t, q, q'), id), input.demands, check)
    {
      var x, y := Get(q, id), Get(q', id);
      MixAt(t, q, q', id);
      assert !BreaksRule(o, x, input.demands, check) && !BreaksRule(o, y, input.demands, check);
      match check
      case InBounds =>
        BlendAbove(t, x, y, -TOLERANCE);
        BlendBelow(t, x, y, o.supplierCapacity + TOLERANCE);
        BlendBelow(t, x, y, o.availableVolume + TOLERANCE);
        BlendBelow(t, x, y, o.routeCapacity + TOLERANCE);
        BlendBelow(t, x, y, o.receivingCapacity + TOLERANCE);
      case Unsanctioned =>
        if !o.sanctionsPermitted {
          BlendBelow(t, x, y, TOLERANCE);
        }
      case Compatible =>
        if !o.compatibilityPermitted {
          BlendBelow(t, x, y, TOLERANCE);
        }
      case OnTime =>
    }
  }

  lemma BalanceIsConvex(t: real, d: real, s: real, d': real, s': real, demand: real)
    requires Fraction(t) && !Unbalanced(d, s, demand) && !Unbalanced(d', s', demand)
    ensures !Unbalanced(Blend(t, d, d'), Blend(t, s, s'), demand)
  {
    BlendAdds(t, d, d', s, s');
    BlendBelow(t, d + s, d' + s', demand + TOLERANCE);
    BlendAbove(t, d + s, d' + s', demand - TOLERANCE);
    BlendAbove(t, s, s', -TOLERANCE);
  }

  lemma CapacityIsConvex(
    options: seq<ProcurementOption>, t: real, q: map<Uuid, real>, q': map<Uuid, real>, kind: Kind, id: Uuid)
    requires Fraction(t) && !OverCapacity(options, q, kind, id) && !OverCapacity(options, q', kind, id)
    ensures !OverCapacity(options, Mix(t, q, q'), kind, id)
  {
    var load, load' := Total(options, q, Volume(kind, id)), Total(options, q', Volume(kind, id));
    TotalBlends(t, options, q, q', Volume(kind, id));
    if kind.Segment? {
      forall o | o in options && id in Keys(o, kind) ensures Blend(t, load, load') <= Cap(o, kind, id) + TOLERANCE {
        BlendBelow(t, load, load', Cap(o, kind, id) + TOLERANCE);
      }
    } else if !kind.Corridor? && Touched(options, kind, id) {
      var o :| o in options && id in Keys(o, kind) && load <= Cap(o, kind, id) + TOLERANCE;
      var o' :| o' in options && id in Keys(o', kind) && load' <= Cap(o', kind, id) + TOLERANCE;
      var larger := if Cap(o, kind, id) >= Cap(o', kind, id) then o else o';
      BlendBelow(t, load, load', Cap(larger, kind, id) + TOLERANCE);
      assert larger in options && id in Keys(larger, kind);
    }
  }

  lemma ShareIsConvex(
    options: seq<ProcurementOption>, t: real, q: map<Uuid, real>, q': map<Uuid, real>, kind: Kind, base: real,
    limit: real)
    requires Fraction(t) && !OverShare(options, q, kind, base, limit) && !OverShare(options, q', kind, base, limit)
    ensures !OverShare(options, Mix(t, q, q'), kind, base, limit)
  {
    forall o | o in options && Keys(o, kind) != []
      ensures Total(options, Mix(t, q, q'), Volume(kind, Keys(o, kind)[0])) <= (limit + TOLERANCE) * base
    {
      var m := Volume(kind, Keys(o, kind)[0]);
      TotalBlends(t, options, q, q', m);
      BlendBelow(t, Total(options, q, m), Total(options, q', m), (limit + TOLERANCE) * base);
    }
  }

  /** The region of plans without violations is convex. */
  lemma FeasibleIsConvex(
    input: PlanInput, t: real, q: map<Uuid, real>, s: map<Uuid, real>, q': map<Uuid, real>, s': map<Uuid, real>)
    requires Fraction(t) && Feasible(input, q, s) && Feasible(input, q', s')
    ensures Feasible(input, Mix(t, q, q'), Mix(t, s, s'))
  {
    forall c ensures !Violates(input, Mix(t, q, q'), Mix(t, s, s'), c) {
      ConstraintIsConvex(input, t, q, s, q', s', c);
    }
  }

  lemma PeakIsConvex(
    options: seq<ProcurementOption>, t: real, q: map<Uuid, real>, q': map<Uuid, real>, kind: Kind, base: real)
    requires Fraction(t) && options != [] && (kind.Supplier? || kind.Corridor?) && base >= 1.0
    ensures Peak(options, options, Mix(t, q, q'), kind) / base
            <= Blend(t, Peak(options, options, q, kind) / base, Peak(options, options, q', kind) / base)
  {
    var at := PeakIsLargest(options, options, Mix(t, q, q'), kind);
    var _ := PeakIsLargest(options, options, q, kind);
    var _ := PeakIsLargest(options, options, q', kind);
    var m := Volume(kind, Keys(at, kind)[0]);
    var p, p' := Peak(options, options, q, kind), Peak(options, options, q', kind);
    TotalBlends(t, options, q, q', m);
    BlendMonotone(t, Total(options, q, m), Total(options, q', m), p, p');
    BlendDivides(t, p, p', base);
    DivideMonotone(Total(options, Mix(t, q, q'), m), Blend(t, p, p'), base);
  }

  lemma DivideMonotone(a: real, b: real, base: real)
    requires a <= b && base >= 1.0
    ensures a / base <= b / base
  {
    assert (b - a) / base >= 0.0;
    assert b / base - a / base == (b - a) / base;
  }

  lemma BlendDivides(t: real, a: real, b: real, base: real)
    requires base >= 1.0
    ensures Blend(t, a / base, b / base) == Blend(t, a, b) / base
  {
    var u, v := a / base, b / base;
    assert u * base == a && v * base == b;
    BlendScales(t, u, v, base);
    assert base * Blend(t, u, v) == Blend(t, a, b);
  }

  lemma WeightIsConvex(t: real, mixed: real, a: real, b: real, w: real)
    requires mixed <= Blend(t, a, b) && w >= 0.0
    ensures Scale(mixed, w) <= Blend(t, Scale(a, w), Scale(b, w))
  {
    BlendScales(t, a, b, w);
    assert mixed * w <= Blend(t, a, b) * w;
  }

  /** With non-negative weights the reconstructed objective is convex, concentration included. */
  lemma ObjectiveIsConvex(
    input: PlanInput, w: Components, t: real,
    q: map<Uuid, real>, s: map<Uuid, real>, q': map<Uuid, real>, s': map<Uuid, real>)
    requires Fraction(t) && input.options != [] && NonNegative(w)
    ensures Objective(input, w, Mix(t, q, q'), Mix(t, s, s'))
            <= Blend(t, Objective(input, w, q, s), Objective(input, w, q', s'))
  {
    var base := MaxReal(ListedDemand(input.demands), 1.0);
    var m, a, b := Raw(input, Mix(t, q, q'), Mix(t, s, s')), Raw(input, q, s), Raw(input, q', s');
    TotalBlends(t, input.options, q, q', Amount(Landed));
    TotalBlends(t, input.options, q, q', Amount(Delay));
    TotalBlends(t, input.options, q, q', Amount(RouteRisk));
    TotalBlends(t, input.options, q, q', Amount(Compatibility));
    TotalBlends(t, input.options, q, q', Amount(Component.Emissions));
    SumValuesBlends(t, s, s');
    PeakIsConvex(input.options, t, q, q', Supplier, base);
    PeakIsConvex(input.options, t, q, q', Corridor, base);
    SumIsConvex(t, m, a, b, w);
  }

  lemma SumIsConvex(t: real, m: Components, a: Components, b: Components, w: Components)
    requires NonNegative(w)
    requires m.landed <= Blend(t, a.landed, b.landed) && m.shortfall <= Blend(t, a.shortfall, b.shortfall)
    requires m.delay <= Blend(t, a.delay, b.delay) && m.routeRisk <= Blend(t, a.routeRisk, b.routeRisk)
    requires m.supplierShare <= Blend(t, a.supplierShare, b.supplierShare)
    requires m.corridorShare <= Blend(t, a.corridorShare, b.corridorShare)
    requires m.compatibility <= Blend(t, a.compatibility, b.compatibility)
    requires m.emissions <= Blend(t, a.emissions, b.emissions)
    ensures Sum(Weighted(w, m)) <= Blend(t, Sum(Weighted(w, a)), Sum(Weighted(w, b)))
  {
    var x, y, z := Weighted(w, m), Weighted(w, a), Weighted(w, b);
    WeightIsConvex(t, m.landed, a.landed, b.landed, w.landed);
    WeightIsConvex(t, m.shortfall, a.shortfall, b.shortfall, w.shortfall);
    WeightIsConvex(t, m.delay, a.delay, b.delay, w.delay);
    WeightIsConvex(t, m.routeRisk, a.routeRisk, b.routeRisk, w.routeRisk);
    WeightIsConvex(t, m.supplierShare, a.supplierShare, b.supplierShare, w.supplierShare);
    WeightIsConvex(t, m.corridorShare, a.corridorShare, b.corridorShare, w.corridorShare);
    WeightIsConvex(t, m.compatibility, a.compatibility, b.compatibility, w.compatibility);
    WeightIsConvex(t, m.emissions, a.emissions, b.emissions, w.emissions);
    SumBelow(t, x, y, z);
  }

  lemma SumBelow(t: real, x: Components, y: Components, z: Components)
    requires x.landed <= Blend(t, y.landed, z.landed) && x.shortfall <= Blend(t, y.shortfall, z.shortfall)
    requires x.delay <= Blend(t, y.delay, z.delay) && x.routeRisk <= Blend(t, y.routeRisk, z.routeRisk)
    requires x.supplierShare <= Blend(t, y.supplierShare, z.supplierShare)
    requires x.corridorShare <= Blend(t, y.corridorShare, z.corridorShare)
    requires x.compatibility <= Blend(t, y.compatibility, z.compatibility)
    requires x.emissions <= Blend(t, y.emissions, z.emissions)
    ensures Sum(x) <= Blend(t, Sum(y), Sum(z))
  {
    BlendSums(t, y, z);
  }

  lemma BlendSums(t: real, y: Components, z: Components)
    ensures Blend(t, Sum(y), Sum(z))
            == Blend(t, y.landed, z.landed) + Blend(t, y.shortfall, z.shortfall) + Blend(t, y.delay, z.delay)
               + Blend(t, y.routeRisk, z.routeRisk) + Blend(t, y.supplierShare, z.supplierShare)
               + Blend(t, y.corridorShare, z.corridorShare) + Blend(t, y.compatibility, z.compatibility)
               + Blend(t, y.emissions, z.emissions)
  {
    var a2, b2 := y.landed + y.shortfall, z.landed + z.shortfall;
    var a3, b3 := a2 + y.delay, b2 + z.delay;
    var a4, b4 := a3 + y.routeRisk, b3 + z.routeRisk;
    var a5, b5 := a4 + y.supplierShare, b4 + z.supplierShare;
    var a6, b6 := a5 + y.corridorShare, b5 + z.corridorShare;
    var a7, b7 := a6 + y.compatibility, b6 + z.compatibility;
    BlendAdds(t, y.landed, z.landed, y.shortfall, z.shortfall);
    BlendAdds(t, a2, b2, y.delay, z.delay);
    BlendAdds(t, a3, b3, y.routeRisk, z.routeRisk);
    BlendAdds(t, a4, b4, y.supplierShare, z.supplierShare);
    BlendAdds(t, a5, b5, y.corridorShare, z.corridorShare);
    BlendAdds(t, a6, b6, y.compatibility, z.compatibility);
    BlendAdds(t, a7, b7, y.emissions, z.emissions);
  }

  // ---------------------------------------------------------------- conservation

  ghost function BalanceOver(keys: set<Uuid>, input: PlanInput, q: map<Uuid, real>, s: map<Uuid, real>): real {
    VolumeOver(keys, input.options, q, Refinery) + SumOver(keys, s) - SumOver(keys, DemandMap(input.demands))
  }

  lemma {:induction false} BalancesAddUp(keys: set<Uuid>, input: PlanInput, q: map<Uuid, real>, s: map<Uuid, real>)
    requires Feasible(input, q, s) && keys <= DemandMap(input.demands).Keys
    ensures Abs(BalanceOver(keys, input, q, s)) <= |keys| as real * TOLERANCE
  {
    hide Total, DemandMap;
    if keys != {} {
      var k :| k in keys;
      var demand := DemandMap(input.demands);
      VolumeOverSplit(keys, input.options, q, Refinery, k);
      SumOverSplit(keys, s, k);
      SumOverSplit(keys, demand, k);
      BalancesAddUp(keys - {k}, input, q, s);
      assert !Violates(input, q, s, MassBalance(k));
      var off := Total(input.options, q, Volume(Refinery, k)) + Get(s, k) - demand[k];
      assert BalanceOver(keys, input, q, s) == off + BalanceOver(keys - {k}, input, q, s);
      AbsAdds(off, BalanceOver(keys - {k}, input, q, s), |keys - {k}|);
      assert |keys| == |keys - {k}| + 1;
    }
  }

  lemma AbsAdds(a: real, b: real, n: nat)
    requires Abs(a) <= TOLERANCE && Abs(b) <= n as real * TOLERANCE
    ensures Abs(a + b) <= (n + 1) as real * TOLERANCE
  {
    assert (n + 1) as real * TOLERANCE == n as real * TOLERANCE + TOLERANCE;
  }

  /** If every option serves a demanded refinery, a plan without violations delivers, over all
      refineries together, the demand less the shortages, up to the tolerance per refinery. */
  lemma DeliveriesMeetDemand(input: PlanInput, q: map<Uuid, real>, s: map<Uuid, real>)
    requires Feasible(input, q, s)
    requires forall i :: 0 <= i < |input.options| ==> input.options[i].refineryId in DemandMap(input.demands)
    ensures var demand := DemandMap(input.demands);
            Abs(Total(input.options, q, Whole) + SumOver(demand.Keys, s) - SumValues(demand))
            <= |demand.Keys| as real * TOLERANCE
  {
    var keys := DemandMap(input.demands).Keys;
    BalancesAddUp(keys, input, q, s);
    SplitsAddUp(keys, input.options, q, Refinery);
  }

  // ---------------------------------------------------------------- the plan that delivers nothing

  lemma {:induction false} NothingDelivered(options: seq<ProcurementOption>, m: Measure)
    ensures Total(options, map[], m) == 0.0
  {
    if options != [] {
      NothingDelivered(options[..|options| - 1], m);
    }
  }

  lemma {:induction false} LargestSegmentNonNegative(ids: seq<Uuid>, capacities: map<Uuid, real>)
    ensures LargestSegment(ids, capacities) >= 0.0
  {
    if ids != [] {
      LargestSegmentNonNegative(ids[..|ids| - 1], capacities);
    }
  }

  lemma CapNonNegative(o: ProcurementOption, kind: Kind, id: Uuid)
    requires ValidOption(o)
    ensures Cap(o, kind, id) >= 0.0
  {
    LargestSegmentNonNegative(o.segmentIds, o.segmentCapacities);
  }

  lemma {:induction false} DemandMapNonNegative(demands: seq<Demand>)
    requires forall d :: d in demands ==> ValidDemand(d)
    ensures forall r :: r in DemandMap(demands) ==> DemandMap(demands)[r] >= 0.0
  {
    if demands != [] {
      assert ValidDemand(demands[|demands| - 1]);
      DemandMapNonNegative(demands[..|demands| - 1]);
    }
  }

  /** Declaring the whole demand short is always possible, provided the windows are on time. */
  lemma AllShortageIsFeasible(input: PlanInput)
    requires ValidInput(input)
    requires forall o :: o in input.options ==> !BreaksRule(o, 0.0, input.demands, OnTime)
    ensures Feasible(input, map[], DemandMap(input.demands))
  {
    var s := DemandMap(input.demands);
    DemandMapNonNegative(input.demands);
    forall c ensures !Violates(input, map[], s, c) {
      match c
      case OptionRule(_, _) =>
      case MassBalance(r) => NothingDelivered(input.options, Volume(Refinery, r));
      case Capacity(kind, id) =>
        NothingDelivered(input.options, Volume(kind, id));
        forall o | o in input.options ensures Cap(o, kind, id) >= 0.0 {
          CapNonNegative(o, kind, id);
        }
        if Touched(input.options, kind, id) {
          var i :| 0 <= i < |input.options| && id in Keys(input.options[i], kind);
          assert input.options[i] in input.options;
        }
      case BudgetRule => NothingDelivered(input.options, Amount(Spend));
      case ShareRule(kind) =>
        var base := ShareBase(input.demands);
        forall o | o in input.options && Keys(o, kind) != []
          ensures Total(input.options, map[], Volume(kind, Keys(o, kind)[0])) == 0.0
        {
          NothingDelivered(input.options, Volume(kind, Keys(o, kind)[0]));
        }
        assert (input.limits.supplierShare + TOLERANCE) * base >= 0.0;
        assert (input.limits.corridorShare + TOLERANCE) * base >= 0.0;
    }
  }
}
