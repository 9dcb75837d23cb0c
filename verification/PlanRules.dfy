/** The hard constraints of a procurement plan and its objective, stated declaratively. */
module PlanRules {
  import opened Wrappers
  import opened Arithmetic
  import opened PlanModel

  const TOLERANCE := 0.000001
  const OBJECTIVE_TOLERANCE := 0.00001

  datatype OptionCheck = InBounds | Unsanctioned | Compatible | OnTime

  datatype Constraint =
    | OptionRule(optionId: Uuid, check: OptionCheck)
    | MassBalance(refineryId: Uuid)
    | Capacity(kind: Kind, id: Uuid)
    | BudgetRule
    | ShareRule(shareOf: Kind)

  // ---------------------------------------------------------------- the constraints

  predicate BreaksRule(o: ProcurementOption, x: real, demands: seq<Demand>, check: OptionCheck) {
    match check
    case InBounds =>
      || x < -TOLERANCE
      || x > o.supplierCapacity + TOLERANCE || x > o.availableVolume + TOLERANCE
      || x > o.routeCapacity + TOLERANCE || x > o.receivingCapacity + TOLERANCE
    case Unsanctioned => x > TOLERANCE && !o.sanctionsPermitted
    case Compatible => x > TOLERANCE && !o.compatibilityPermitted
    case OnTime =>
      exists d :: d in demands && d.refineryId == o.refineryId
                  && (o.windowStart < d.intervalStart || o.windowEnd > d.intervalEnd)
  }

  ghost predicate RuleBroken(
    options: seq<ProcurementOption>, q: map<Uuid, real>, demands: seq<Demand>, id: Uuid, check: OptionCheck)
  {
    exists o :: o in options && o.optionId == id && BreaksRule(o, Get(q, id), demands, check)
  }

  /** Python's `max(capacities.values(), default=0.0)` over non-negative capacities. */
  function LargestSegment(ids: seq<Uuid>, capacities: map<Uuid, real>): real {
    if ids == [] then 0.0
    else MaxReal(LargestSegment(ids[..|ids| - 1], capacities), Get(capacities, ids[|ids| - 1]))
  }

  /** What one option declares as the capacity behind a key. */
  function Cap(o: ProcurementOption, kind: Kind, id: Uuid): real {
    match kind
    case Supplier => o.supplierCapacity
    case Refinery => o.receivingCapacity
    case Corridor => 0.0
    case Segment => Get(o.segmentCapacities, id)
    case LoadPort => LargestSegment(o.segmentIds, o.segmentCapacities)
    case ReceivingPort => LargestSegment(o.segmentIds, o.segmentCapacities)
  }

  /** A segment must respect every declared capacity; the other keys only the largest one. */
  ghost predicate OverCapacity(options: seq<ProcurementOption>, q: map<Uuid, real>, kind: Kind, id: Uuid) {
    var load := Total(options, q, Volume(kind, id));
    match kind
    case Corridor => false
    case Segment =>
      exists o :: o in options && id in Keys(o, kind) && load > Cap(o, kind, id) + TOLERANCE
    case _ =>
      && Touched(options, kind, id)
      && forall o :: o in options && id in Keys(o, kind) ==> load > Cap(o, kind, id) + TOLERANCE
  }

  predicate Unbalanced(delivered: real, shortage: real, demand: real) {
    Abs(delivered + shortage - demand) > TOLERANCE || shortage < -TOLERANCE
  }

  /** Shares are taken of the demand dictionary, and never of less than one kilotonne. */
  ghost function ShareBase(demands: seq<Demand>): real {
    MaxReal(SumValues(DemandMap(demands)), 1.0)
  }

  ghost predicate OverShare(options: seq<ProcurementOption>, q: map<Uuid, real>, kind: Kind, base: real, limit: real) {
    exists o :: o in options && Keys(o, kind) != []
                && Total(options, q, Volume(kind, Keys(o, kind)[0])) > (limit + TOLERANCE) * base
  }

  ghost predicate Violates(input: PlanInput, q: map<Uuid, real>, s: map<Uuid, real>, c: Constraint) {
    match c
    case OptionRule(id, check) => RuleBroken(input.options, q, input.demands, id, check)
    case MassBalance(r) =>
      var demand := DemandMap(input.demands);
      r in demand && Unbalanced(Total(input.options, q, Volume(Refinery, r)), Get(s, r), demand[r])
    case Capacity(kind, id) => OverCapacity(input.options, q, kind, id)
    case BudgetRule => Total(input.options, q, Amount(Spend)) > input.limits.budget + TOLERANCE
    case ShareRule(kind) =>
      && (kind.Supplier? || kind.Corridor?)
      && OverShare(input.options, q, kind, ShareBase(input.demands),
                   if kind.Supplier? then input.limits.supplierShare else input.limits.corridorShare)
  }

  ghost predicate Feasible(input: PlanInput, q: map<Uuid, real>, s: map<Uuid, real>) {
    forall c :: !Violates(input, q, s, c)
  }

  // ---------------------------------------------------------------- the objective

  datatype Components = Components(
    landed: real, shortfall: real, delay: real, routeRisk: real,
    supplierShare: real, corridorShare: real, compatibility: real, emissions: real)

  predicate NonNegative(c: Components) {
    && c.landed >= 0.0 && c.shortfall >= 0.0 && c.delay >= 0.0 && c.routeRisk >= 0.0
    && c.supplierShare >= 0.0 && c.corridorShare >= 0.0 && c.compatibility >= 0.0 && c.emissions >= 0.0
  }

  function Scale(value: real, weight: real): real {
    value * weight
  }

  function Weighted(w: Components, raw: Components): Components {
    Components(
      Scale(raw.landed, w.landed), Scale(raw.shortfall, w.shortfall), Scale(raw.delay, w.delay),
      Scale(raw.routeRisk, w.routeRisk), Scale(raw.supplierShare, w.supplierShare),
      Scale(raw.corridorShare, w.corridorShare), Scale(raw.compatibility, w.compatibility),
      Scale(raw.emissions, w.emissions))
  }

  function Sum(c: Components): real {
    c.landed + c.shortfall + c.delay + c.routeRisk + c.supplierShare + c.corridorShare + c.compatibility + c.emissions
  }

  /** The largest keyed volume among the keys of `some`. */
  function Peak(some: seq<ProcurementOption>, options: seq<ProcurementOption>, q: map<Uuid, real>, kind: Kind): real
    requires some != [] && (kind.Supplier? || kind.Corridor?)
  {
    var last := Total(options, q, Volume(kind, Keys(some[|some| - 1], kind)[0]));
    if |some| == 1 then last else MaxReal(Peak(some[..|some| - 1], options, q, kind), last)
  }

  function ListedDemand(demands: seq<Demand>): real {
    if demands == [] then 0.0
    else ListedDemand(demands[..|demands| - 1]) + demands[|demands| - 1].volume
  }

  ghost function Raw(input: PlanInput, q: map<Uuid, real>, s: map<Uuid, real>): Components
    requires input.options != []
  {
    var base := MaxReal(ListedDemand(input.demands), 1.0);
    Components(
      Total(input.options, q, Amount(Landed)), SumValues(s),
      Total(input.options, q, Amount(Delay)), Total(input.options, q, Amount(RouteRisk)),
      Peak(input.options, input.options, q, Supplier) / base, Peak(input.options, input.options, q, Corridor) / base,
      Total(input.options, q, Amount(Compatibility)), Total(input.options, q, Amount(Component.Emissions)))
  }

  ghost function Objective(input: PlanInput, w: Components, q: map<Uuid, real>, s: map<Uuid, real>): real
    requires input.options != []
  {
    Sum(Weighted(w, Raw(input, q, s)))
  }

  /** The peak is the largest keyed volume. */
  lemma {:induction false} PeakIsLargest(
    some: seq<ProcurementOption>, options: seq<ProcurementOption>, q: map<Uuid, real>, kind: Kind)
    returns (at: ProcurementOption)
    requires some != [] && (kind.Supplier? || kind.Corridor?)
    ensures at in some && Peak(some, options, q, kind) == Total(options, q, Volume(kind, Keys(at, kind)[0]))
    ensures forall o :: o in some ==> Total(options, q, Volume(kind, Keys(o, kind)[0])) <= Peak(some, options, q, kind)
  {
    var init, last := some[..|some| - 1], some[|some| - 1];
    at := last;
    if |some| > 1 {
      var best := PeakIsLargest(init, options, q, kind);
      if Peak(init, options, q, kind) >= Total(options, q, Volume(kind, Keys(last, kind)[0])) {
        at := best;
      }
    }
    forall o | o in some ensures Total(options, q, Volume(kind, Keys(o, kind)[0])) <= Peak(some, options, q, kind) {
      assert o in init || o == last;
    }
  }
}
