/** The procurement optimisation input, and what a plan delivers: sums over its options. */
module PlanModel {
  import opened Arithmetic
  import opened Sequences
  import opened Wrappers

  datatype LandedCost = LandedCost(total: real, compatibilityPenalty: real, emissions: real)

  datatype ProcurementOption = ProcurementOption(
    optionId: Uuid, supplierId: Uuid, gradeId: Uuid, routeId: Uuid, refineryId: Uuid,
    windowStart: int, windowEnd: int,
    supplierCapacity: real, availableVolume: real, routeCapacity: real, receivingCapacity: real,
    sanctionsPermitted: bool, compatibilityPermitted: bool,
    evidenceIds: seq<Uuid>, assumptionIds: seq<Uuid>,
    transportEvidence: seq<Uuid>, transportAssumptions: seq<Uuid>,
    landedCost: Option<LandedCost>, routeDistance: Option<real>, transitTime: Option<real>,
    loadPortId: Option<Uuid>, receivingPortId: Option<Uuid>,
    segmentIds: seq<Uuid>, segmentCapacities: map<Uuid, real>,
    fingerprint: Option<string>)

  datatype Demand = Demand(refineryId: Uuid, intervalStart: int, intervalEnd: int, volume: real)

  datatype Limits = Limits(budget: real, supplierShare: real, corridorShare: real)

  datatype PlanInput = PlanInput(options: seq<ProcurementOption>, demands: seq<Demand>, limits: Limits)

  // ---------------------------------------------------------------- what the contract types enforce

  predicate ValidOption(o: ProcurementOption) {
    && o.windowStart < o.windowEnd
    && o.supplierCapacity >= 0.0 && o.availableVolume >= 0.0
    && o.routeCapacity >= 0.0 && o.receivingCapacity >= 0.0
    && o.evidenceIds != [] && NoRepeats(o.evidenceIds) && NoRepeats(o.assumptionIds)
    && NoRepeats(o.transportEvidence) && NoRepeats(o.transportAssumptions)
    && NoRepeats(o.segmentIds)
    && (forall k :: k in o.segmentIds ==> k in o.segmentCapacities)
    && (forall k :: k in o.segmentCapacities ==> k in o.segmentIds && o.segmentCapacities[k] >= 0.0)
  }

  predicate ValidLimits(l: Limits) {
    l.budget >= 0.0 && 0.0 <= l.supplierShare <= 1.0 && 0.0 <= l.corridorShare <= 1.0
  }

  predicate ValidDemand(d: Demand) {
    d.intervalStart < d.intervalEnd && d.volume >= 0.0
  }

  predicate ValidInput(input: PlanInput) {
    && input.options != []
    && (forall o :: o in input.options ==> ValidOption(o))
    && (forall i, j :: 0 <= i < j < |input.options| ==> input.options[i].optionId != input.options[j].optionId)
    && (forall d :: d in input.demands ==> ValidDemand(d))
    && (forall i, j :: 0 <= i < j < |input.demands| ==>
          (input.demands[i].refineryId, input.demands[i].intervalStart)
          != (input.demands[j].refineryId, input.demands[j].intervalStart))
    && ValidLimits(input.limits)
  }

  // ---------------------------------------------------------------- keyed sums

  /** The keys under which the checker accumulates an option's quantity. */
  datatype Kind = Refinery | Supplier | Corridor | Segment | LoadPort | ReceivingPort

  function Keys(o: ProcurementOption, kind: Kind): seq<Uuid> {
    match kind
    case Refinery => [o.refineryId]
    case Supplier => [o.supplierId]
    case Corridor => [o.routeId]
    case Segment => o.segmentIds
    case LoadPort => if o.loadPortId.Some? then [o.loadPortId.value] else []
    case ReceivingPort => if o.receivingPortId.Some? then [o.receivingPortId.value] else []
  }

  datatype Component = Landed | Delay | RouteRisk | Compatibility | Emissions | Spend

  /** What one thousand tonnes of an option contribute to a component. */
  function Rate(o: ProcurementOption, c: Component): real {
    match c
    case Landed => (if o.landedCost.Some? then o.landedCost.value.total else 0.0) / 1000.0
    case Delay => (if o.transitTime.Some? then o.transitTime.value else 0.0) / 1000.0
    case RouteRisk => (if o.routeDistance.Some? then o.routeDistance.value else 0.0) / 1000000.0
    case Compatibility => (if o.landedCost.Some? then o.landedCost.value.compatibilityPenalty else 0.0) / 1000.0
    case Emissions => (if o.landedCost.Some? then o.landedCost.value.emissions else 0.0) / 1000.0
    case Spend => (if o.landedCost.Some? then o.landedCost.value.total else 0.0) * 1000.0
  }

  /** Everything that is summed over the options: a keyed volume, the whole volume, a component. */
  datatype Measure = Volume(kind: Kind, id: Uuid) | Whole | Amount(component: Component)

  function Term(o: ProcurementOption, m: Measure, x: real): real {
    match m
    case Volume(kind, id) => if id in Keys(o, kind) then x else 0.0
    case Whole => x
    case Amount(c) => Rate(o, c) * x
  }

  function Total(options: seq<ProcurementOption>, q: map<Uuid, real>, m: Measure): real {
    if options == [] then 0.0
    else
      var last := options[|options| - 1];
      Total(options[..|options| - 1], q, m) + Term(last, m, Get(q, last.optionId))
  }

  /** Some option carries this key. */
  predicate Touched(options: seq<ProcurementOption>, kind: Kind, id: Uuid) {
    exists i :: 0 <= i < |options| && id in Keys(options[i], kind)
  }

  /** The demand dictionary: a later entry for the same refinery replaces an earlier one. */
  function DemandMap(demands: seq<Demand>): map<Uuid, real> {
    if demands == [] then map[]
    else
      var last := demands[|demands| - 1];
      DemandMap(demands[..|demands| - 1])[last.refineryId := last.volume]
  }

  ghost function SumOver(keys: set<Uuid>, m: map<Uuid, real>): real {
    if keys == {} then 0.0
    else
      var k :| k in keys;
      Get(m, k) + SumOver(keys - {k}, m)
  }

  /** `sum(m.values())`. */
  ghost function SumValues(m: map<Uuid, real>): real {
    SumOver(m.Keys, m)
  }

  lemma {:induction false} SumOverSplit(keys: set<Uuid>, m: map<Uuid, real>, k: Uuid)
    requires k in keys
    ensures SumOver(keys, m) == Get(m, k) + SumOver(keys - {k}, m)
  {
    var c :| c in keys && SumOver(keys, m) == Get(m, c) + SumOver(keys - {c}, m);
    if c != k {
      SumOverSplit(keys - {c}, m, k);
      SumOverSplit(keys - {k}, m, c);
      assert keys - {c} - {k} == keys - {k} - {c};
    }
  }

  /** Keys outside the map add nothing. */
  lemma {:induction false} SumOverExtra(keys: set<Uuid>, m: map<Uuid, real>)
    requires m.Keys <= keys
    ensures SumOver(keys, m) == SumValues(m)
  {
    if keys != m.Keys {
      var k :| k in keys && k !in m.Keys;
      SumOverSplit(keys, m, k);
      SumOverExtra(keys - {k}, m);
    }
  }

  function MaxReal(a: real, b: real): real {
    if a >= b then a else b
  }

  lemma TotalPush(options: seq<ProcurementOption>, o: ProcurementOption, q: map<Uuid, real>, m: Measure)
    ensures Total(options + [o], q, m) == Total(options, q, m) + Term(o, m, Get(q, o.optionId))
  {
    assert (options + [o])[..|options|] == options;
  }

  // ---------------------------------------------------------------- the order of the options is irrelevant

  lemma {:induction false} TotalIsSum(
    options: seq<ProcurementOption>, q: map<Uuid, real>, m: Measure, term: ProcurementOption -> real)
    requires forall o :: term(o) == Term(o, m, Get(q, o.optionId))
    ensures Total(options, q, m) == SumOf(term, options)
  {
    if options != [] {
      TotalIsSum(options[..|options| - 1], q, m, term);
    }
  }

  /** Every accumulator is the same for every order of the options. */
  lemma TotalIgnoresOrder(a: seq<ProcurementOption>, b: seq<ProcurementOption>, q: map<Uuid, real>, m: Measure)
    requires multiset(a) == multiset(b)
    ensures Total(a, q, m) == Total(b, q, m)
  {
    var term := (o: ProcurementOption) => Term(o, m, Get(q, o.optionId));
    TotalIsSum(a, q, m, term);
    TotalIsSum(b, q, m, term);
    SumOfIgnoresOrder(term, a, b);
  }

  // ---------------------------------------------------------------- double counting

  ghost function VolumeOver(keys: set<Uuid>, options: seq<ProcurementOption>, q: map<Uuid, real>, kind: Kind): real {
    if keys == {} then 0.0
    else
      var k :| k in keys;
      Total(options, q, Volume(kind, k)) + VolumeOver(keys - {k}, options, q, kind)
  }

  lemma {:induction false} VolumeOverPush(
    keys: set<Uuid>, options: seq<ProcurementOption>, o: ProcurementOption, q: map<Uuid, real>, kind: Kind)
    requires kind.Refinery? || kind.Supplier? || kind.Corridor?
    ensures VolumeOver(keys, options + [o], q, kind)
            == VolumeOver(keys, options, q, kind) + if Keys(o, kind)[0] in keys then Get(q, o.optionId) else 0.0
  {
    if keys != {} {
      var longer := options + [o];
      var k :| k in keys && VolumeOver(keys, longer, q, kind)
                            == Total(longer, q, Volume(kind, k)) + VolumeOver(keys - {k}, longer, q, kind);
      TotalPush(options, o, q, Volume(kind, k));
      VolumeOverPush(keys - {k}, options, o, q, kind);
      VolumeOverSplit(keys, options, q, kind, k);
    }
  }

  lemma {:induction false} VolumeOverSplit(
    keys: set<Uuid>, options: seq<ProcurementOption>, q: map<Uuid, real>, kind: Kind, k: Uuid)
    requires k in keys
    ensures VolumeOver(keys, options, q, kind)
            == Total(options, q, Volume(kind, k)) + VolumeOver(keys - {k}, options, q, kind)
  {
    var c :| c in keys && VolumeOver(keys, options, q, kind)
                          == Total(options, q, Volume(kind, c)) + VolumeOver(keys - {c}, options, q, kind);
    if c != k {
      VolumeOverSplit(keys - {c}, options, q, kind, k);
      VolumeOverSplit(keys - {k}, options, q, kind, c);
      assert keys - {c} - {k} == keys - {k} - {c};
    }
  }

  lemma {:induction false} VolumeOverNothing(keys: set<Uuid>, q: map<Uuid, real>, kind: Kind)
    ensures VolumeOver(keys, [], q, kind) == 0.0
  {
    if keys != {} {
      var k :| k in keys && VolumeOver(keys, [], q, kind)
                            == Total([], q, Volume(kind, k)) + VolumeOver(keys - {k}, [], q, kind);
      VolumeOverNothing(keys - {k}, q, kind);
      assert Total([], q, Volume(kind, k)) == 0.0;
    }
  }

  /** Splitting the deliveries by refinery, by supplier or by corridor counts every tonne once:
      each split adds up to the whole. */
  lemma {:induction false} SplitsAddUp(
    keys: set<Uuid>, options: seq<ProcurementOption>, q: map<Uuid, real>, kind: Kind)
    requires kind.Refinery? || kind.Supplier? || kind.Corridor?
    requires forall i :: 0 <= i < |options| ==> Keys(options[i], kind)[0] in keys
    ensures VolumeOver(keys, options, q, kind) == Total(options, q, Whole)
  {
    if options == [] {
      VolumeOverNothing(keys, q, kind);
    } else {
      var init, last := options[..|options| - 1], options[|options| - 1];
      SplitsAddUp(keys, init, q, kind);
      VolumeOverPush(keys, init, last, q, kind);
      assert options == init + [last];
    }
  }
}
