/** The independent plan checker: one pass over the options fills keyed accumulators, further
    passes compare them with limits, and the objective is rebuilt. Its verdict is exactly the
    declarative one. */
module PlanChecker {
  import opened Arithmetic
  import opened Sequences
  import opened Wrappers
  import opened PlanLedger
  import opened PlanModel
  import opened PlanRules

  datatype Violation = Violation(constraint: Constraint, actual: real, limit: real)

  datatype FailureCode =
    | MassBalanceCode | HardConstraintCode | ObjectiveCode | SanctionsCode
    | CompatibilityCode | FingerprintCode | TimingCode

  datatype Verdict = Verdict(
    passed: bool, massOk: bool, boundsOk: bool, objectiveOk: bool, sanctionsOk: bool,
    compatibilityOk: bool, fingerprintOk: bool, timingOk: bool,
    reconstructed: real, failureCodes: seq<FailureCode>, violations: seq<Violation>, raw: Components)

  /** The ways in which the check ends in a ValueError instead of a verdict. */
  datatype CheckError =
    | UnservedRefinery     // the maximum over the options of a demanded refinery that has none
    | MissingLandedCost    // an option without a landed cost
    | ResultRejected       // the result types refuse negative components or a clipped objective

  // ---------------------------------------------------------------- the declarative verdict

  ghost predicate Unserved(input: PlanInput) {
    exists r :: r in DemandMap(input.demands) && !Touched(input.options, Refinery, r)
  }

  predicate MissingCost(options: seq<ProcurementOption>) {
    exists o :: o in options && o.landedCost.None?
  }

  predicate FingerprintsMatch(options: seq<ProcurementOption>, fingerprint: ProcurementOption -> string) {
    forall o :: o in options ==> o.fingerprint == Some(fingerprint(o))
  }

  /** The result types hold non-negative components only, and recompute the objective agreement
      from values clipped at zero. */
  predicate Rejected(raw: Components, reported: real, reconstructed: real) {
    || !NonNegative(raw)
    || ((Abs(MaxReal(0.0, reported) - MaxReal(0.0, reconstructed)) <= OBJECTIVE_TOLERANCE)
        != (Abs(reported - reconstructed) <= OBJECTIVE_TOLERANCE))
  }

  /** A component below zero, or objectives that agree only before or only after they are clipped. */
  lemma RejectedExactly(raw: Components, reported: real, reconstructed: real)
    ensures var gap := reported - reconstructed;
            var clipped := (if reported < 0.0 then 0.0 else reported)
                           - if reconstructed < 0.0 then 0.0 else reconstructed;
            Rejected(raw, reported, reconstructed) <==>
              || raw.landed < 0.0 || raw.shortfall < 0.0 || raw.delay < 0.0 || raw.routeRisk < 0.0
              || raw.supplierShare < 0.0 || raw.corridorShare < 0.0 || raw.compatibility < 0.0 || raw.emissions < 0.0
              || (-0.00001 <= gap <= 0.00001) != (-0.00001 <= clipped <= 0.00001)
  {
  }

  ghost predicate Passes(
    input: PlanInput, fingerprint: ProcurementOption -> string, w: Components,
    q: map<Uuid, real>, s: map<Uuid, real>, reported: real)
    requires input.options != []
  {
    && Feasible(input, q, s)
    && FingerprintsMatch(input.options, fingerprint)
    && Abs(reported - Objective(input, w, q, s)) <= OBJECTIVE_TOLERANCE
  }

  /** How a check ends: with the error whose condition holds first, or with whether the plan passed. */
  ghost function CheckOutcome(
    input: PlanInput, fingerprint: ProcurementOption -> string, w: Components,
    q: map<Uuid, real>, s: map<Uuid, real>, reported: real): Result<bool, CheckError>
    requires input.options != []
  {
    if Unserved(input) then Failure(UnservedRefinery)
    else if MissingCost(input.options) then Failure(MissingLandedCost)
    else if Rejected(Raw(input, q, s), reported, Objective(input, w, q, s)) then Failure(ResultRejected)
    else Success(Passes(input, fingerprint, w, q, s, reported))
  }

  ghost predicate Listed(found: seq<Violation>, c: Constraint) {
    exists v :: v in found && v.constraint == c
  }

  lemma ListedConcat(a: seq<Violation>, b: seq<Violation>, c: Constraint)
    ensures Listed(a + b, c) <==> Listed(a, c) || Listed(b, c)
  {
    if Listed(a, c) {
      var v :| v in a && v.constraint == c;
      assert v in a + b;
    }
    if Listed(b, c) {
      var v :| v in b && v.constraint == c;
      assert v in a + b;
    }
  }

  lemma ListedPush(found: seq<Violation>, v: Violation, c: Constraint)
    ensures Listed(found + [v], c) <==> Listed(found, c) || c == v.constraint
  {
    ListedConcat(found, [v], c);
    assert v in [v];
  }

  // ---------------------------------------------------------------- what a violation reports

  /** No constraint is reported twice. */
  ghost predicate Once(found: seq<Violation>) {
    forall i, j :: 0 <= i < j < |found| ==> found[i].constraint != found[j].constraint
  }

  lemma OncePush(found: seq<Violation>, v: Violation)
    requires Once(found) && !Listed(found, v.constraint)
    ensures Once(found + [v])
  {
    forall i | 0 <= i < |found| ensures found[i].constraint != v.constraint {
      assert found[i] in found;
    }
  }

  lemma OnceConcat(a: seq<Violation>, b: seq<Violation>)
    requires Once(a) && Once(b) && forall c :: !Listed(a, c) || !Listed(b, c)
    ensures Once(a + b)
  {
    forall i, j | 0 <= i < |a| && 0 <= j < |b| ensures a[i].constraint != b[j].constraint {
      assert a[i] in a && b[j] in b;
      assert Listed(a, a[i].constraint) && Listed(b, b[j].constraint);
    }
  }

  /** The smallest of the four capacities of an option. */
  ghost predicate TightestCap(o: ProcurementOption, cap: real) {
    var caps := [o.supplierCapacity, o.availableVolume, o.routeCapacity, o.receivingCapacity];
    cap in caps && forall i :: 0 <= i < 4 ==> cap <= caps[i]
  }

  ghost predicate RuleAmounts(o: ProcurementOption, x: real, v: Violation)
    requires v.constraint.OptionRule?
  {
    match v.constraint.check
    case InBounds => v.actual == x && TightestCap(o, v.limit)
    case OnTime => v.actual == 1.0 && v.limit == 0.0
    case _ => v.actual == x && v.limit == 0.0
  }

  /** The limit that decides about a key: the smallest declared one for a segment, else the largest. */
  ghost predicate DecidingCap(options: seq<ProcurementOption>, kind: Kind, id: Uuid, limit: real) {
    && (exists o :: o in options && id in Keys(o, kind) && Cap(o, kind, id) == limit)
    && forall o :: o in options && id in Keys(o, kind) ==>
         if kind.Segment? then limit <= Cap(o, kind, id) else Cap(o, kind, id) <= limit
  }

  ghost predicate RuleMeasured(options: seq<ProcurementOption>, q: map<Uuid, real>, v: Violation) {
    && v.constraint.OptionRule?
    && exists o :: o in options && o.optionId == v.constraint.optionId
                   && RuleAmounts(o, Get(q, o.optionId), v)
  }

  ghost predicate CapacityMeasured(options: seq<ProcurementOption>, q: map<Uuid, real>, kind: Kind, v: Violation) {
    && v.constraint.Capacity? && v.constraint.kind == kind
    && v.actual == Total(options, q, Volume(kind, v.constraint.id))
    && DecidingCap(options, kind, v.constraint.id, v.limit)
  }

  ghost predicate BalanceMeasured(input: PlanInput, q: map<Uuid, real>, s: map<Uuid, real>, v: Violation) {
    && v.constraint.MassBalance?
    && var r, demand := v.constraint.refineryId, DemandMap(input.demands);
       && v.actual == Total(input.options, q, Volume(Refinery, r)) + Get(s, r)
       && r in demand && v.limit == demand[r]
  }

  ghost predicate ShareMeasured(
    options: seq<ProcurementOption>, q: map<Uuid, real>, kind: Kind, base: real, limit: real, v: Violation)
    requires options != [] && base >= 1.0
  {
    && v.constraint == ShareRule(kind) && (kind.Supplier? || kind.Corridor?)
    && v.actual == Peak(options, options, q, kind) / base && v.limit == limit
  }

  /** The amounts reported are the sum that was compared and the limit it was compared with. */
  ghost predicate Measured(input: PlanInput, q: map<Uuid, real>, s: map<Uuid, real>, v: Violation)
    requires input.options != []
  {
    match v.constraint
    case OptionRule(_, _) => RuleMeasured(input.options, q, v)
    case MassBalance(_) => BalanceMeasured(input, q, s, v)
    case Capacity(kind, _) => CapacityMeasured(input.options, q, kind, v)
    case BudgetRule => v.actual == Total(input.options, q, Amount(Spend)) && v.limit == input.limits.budget
    case ShareRule(kind) =>
      ShareMeasured(input.options, q, kind, ShareBase(input.demands),
                    if kind.Supplier? then input.limits.supplierShare else input.limits.corridorShare, v)
  }

  ghost predicate Exact(input: PlanInput, q: map<Uuid, real>, s: map<Uuid, real>, found: seq<Violation>)
    requires input.options != []
  {
    Once(found) && forall v :: v in found ==> Measured(input, q, s, v)
  }

  // ---------------------------------------------------------------- accumulators

  function AddAll(m: map<Uuid, real>, ids: seq<Uuid>, x: real): map<Uuid, real> {
    if ids == [] then m else AddTo(AddAll(m, ids[..|ids| - 1], x), ids[|ids| - 1], x)
  }

  /** The accumulator holds exactly the touched keys, each with the sum over its options. */
  ghost predicate Tally(m: map<Uuid, real>, kind: Kind, options: seq<ProcurementOption>, q: map<Uuid, real>) {
    forall id :: TallyAt(m, kind, options, q, id)
  }

  ghost predicate TallyAt(
    m: map<Uuid, real>, kind: Kind, options: seq<ProcurementOption>, q: map<Uuid, real>, id: Uuid)
  {
    && (id in m <==> Touched(options, kind, id))
    && Get(m, id) == Total(options, q, Volume(kind, id))
  }

  lemma {:induction false} AddAllAt(m: map<Uuid, real>, ids: seq<Uuid>, x: real, id: Uuid)
    requires NoRepeats(ids)
    ensures id in AddAll(m, ids, x) <==> id in m || id in ids
    ensures Get(AddAll(m, ids, x), id) == Get(m, id) + if id in ids then x else 0.0
  {
    if ids != [] {
      AddAllAt(m, ids[..|ids| - 1], x, id);
      assert id in ids <==> id in ids[..|ids| - 1] || id == ids[|ids| - 1];
      assert ids[|ids| - 1] !in ids[..|ids| - 1];
    }
  }

  lemma TouchedPush(options: seq<ProcurementOption>, o: ProcurementOption, kind: Kind, id: Uuid)
    ensures Touched(options + [o], kind, id) <==> Touched(options, kind, id) || id in Keys(o, kind)
  {
    var longer := options + [o];
    assert longer[|options|] == o;
    if Touched(options, kind, id) {
      var i :| 0 <= i < |options| && id in Keys(options[i], kind);
      assert longer[i] == options[i];
    }
  }

  lemma TallyPush(
    m: map<Uuid, real>, kind: Kind, options: seq<ProcurementOption>, o: ProcurementOption, q: map<Uuid, real>)
    requires Tally(m, kind, options, q) && ValidOption(o)
    ensures Tally(AddAll(m, Keys(o, kind), Get(q, o.optionId)), kind, options + [o], q)
  {
    forall id ensures TallyAt(AddAll(m, Keys(o, kind), Get(q, o.optionId)), kind, options + [o], q, id) {
      assert TallyAt(m, kind, options, q, id);
      AddAllAt(m, Keys(o, kind), Get(q, o.optionId), id);
      TouchedPush(options, o, kind, id);
      TotalPush(options, o, q, Volume(kind, id));
    }
  }

  lemma TallyPushOne(
    m: map<Uuid, real>, kind: Kind, options: seq<ProcurementOption>, o: ProcurementOption, q: map<Uuid, real>, id: Uuid)
    requires Tally(m, kind, options, q) && ValidOption(o) && Keys(o, kind) == [id]
    ensures Tally(AddTo(m, id, Get(q, o.optionId)), kind, options + [o], q)
  {
    TallyPush(m, kind, options, o, q);
    assert AddAll(m, [id], Get(q, o.optionId)) == AddTo(AddAll(m, [], Get(q, o.optionId)), id, Get(q, o.optionId));
  }

  /** The six dictionaries of the checker. */
  datatype Tallies = Tallies(
    refinery: map<Uuid, real>, supplier: map<Uuid, real>, corridor: map<Uuid, real>,
    segment: map<Uuid, real>, loadPort: map<Uuid, real>, receivingPort: map<Uuid, real>)

  ghost predicate Tallied(t: Tallies, options: seq<ProcurementOption>, q: map<Uuid, real>) {
    && Tally(t.refinery, Refinery, options, q) && Tally(t.supplier, Supplier, options, q)
    && Tally(t.corridor, Corridor, options, q) && Tally(t.segment, Segment, options, q)
    && Tally(t.loadPort, LoadPort, options, q) && Tally(t.receivingPort, ReceivingPort, options, q)
  }

  lemma AddAllOne(m: map<Uuid, real>, id: Uuid, x: real)
    ensures AddAll(m, [id], x) == AddTo(m, id, x)
    ensures AddAll(m, [], x) == m
  {
    assert [id][..0] == [];
  }

  method AddSegments(m: map<Uuid, real>, ids: seq<Uuid>, quantity: real) returns (m': map<Uuid, real>)
    ensures m' == AddAll(m, ids, quantity)
  {
    m' := m;
    for j := 0 to |ids|
      invariant m' == AddAll(m, ids[..j], quantity)
    {
      assert ids[..j + 1][..j] == ids[..j];
      m' := AddTo(m', ids[j], quantity);
    }
    assert ids[..|ids|] == ids;
  }

  /** One option is added to every dictionary. */
  method AddOption(t: Tallies, o: ProcurementOption, quantity: real) returns (t': Tallies)
    ensures t'.refinery == AddAll(t.refinery, Keys(o, Refinery), quantity)
    ensures t'.supplier == AddAll(t.supplier, Keys(o, Supplier), quantity)
    ensures t'.corridor == AddAll(t.corridor, Keys(o, Corridor), quantity)
    ensures t'.segment == AddAll(t.segment, Keys(o, Segment), quantity)
    ensures t'.loadPort == AddAll(t.loadPort, Keys(o, LoadPort), quantity)
    ensures t'.receivingPort == AddAll(t.receivingPort, Keys(o, ReceivingPort), quantity)
  {
    AddAllOne(t.refinery, o.refineryId, quantity);
    AddAllOne(t.supplier, o.supplierId, quantity);
    AddAllOne(t.corridor, o.routeId, quantity);
    if o.loadPortId.Some? {
      AddAllOne(t.loadPort, o.loadPortId.value, quantity);
    }
    if o.receivingPortId.Some? {
      AddAllOne(t.receivingPort, o.receivingPortId.value, quantity);
    }
    var segment := AddSegments(t.segment, o.segmentIds, quantity);
    t' := Tallies(
      AddTo(t.refinery, o.refineryId, quantity), AddTo(t.supplier, o.supplierId, quantity),
      AddTo(t.corridor, o.routeId, quantity), segment,
      if o.loadPortId.Some? then AddTo(t.loadPort, o.loadPortId.value, quantity) else t.loadPort,
      if o.receivingPortId.Some? then AddTo(t.receivingPort, o.receivingPortId.value, quantity) else t.receivingPort);
  }

  lemma TalliedPush(t: Tallies, t': Tallies, options: seq<ProcurementOption>, o: ProcurementOption, q: map<Uuid, real>)
    requires Tallied(t, options, q) && ValidOption(o)
    requires t' == Tallies(
                     AddAll(t.refinery, Keys(o, Refinery), Get(q, o.optionId)),
                     AddAll(t.supplier, Keys(o, Supplier), Get(q, o.optionId)),
                     AddAll(t.corridor, Keys(o, Corridor), Get(q, o.optionId)),
                     AddAll(t.segment, Keys(o, Segment), Get(q, o.optionId)),
                     AddAll(t.loadPort, Keys(o, LoadPort), Get(q, o.optionId)),
                     AddAll(t.receivingPort, Keys(o, ReceivingPort), Get(q, o.optionId)))
    ensures Tallied(t', options + [o], q)
  {
    TallyPush(t.refinery, Refinery, options, o, q);
    TallyPush(t.supplier, Supplier, options, o, q);
    TallyPush(t.corridor, Corridor, options, o, q);
    TallyPush(t.segment, Segment, options, o, q);
    TallyPush(t.loadPort, LoadPort, options, o, q);
    TallyPush(t.receivingPort, ReceivingPort, options, o, q);
  }

  // ---------------------------------------------------------------- pass 1: the options

  function Rank(check: OptionCheck): nat {
    match check
    case InBounds => 0
    case Unsanctioned => 1
    case Compatible => 2
    case OnTime => 3
  }

  /** The first `n` rules of an option were checked. */
  ghost predicate RulesTo(found: seq<Violation>, o: ProcurementOption, x: real, demands: seq<Demand>, n: nat) {
    && Once(found)
    && (forall v :: v in found ==> v.constraint.OptionRule? && RuleAmounts(o, x, v))
    && forall c :: RuleListedTo(found, o, x, demands, n, c)
  }

  ghost predicate RuleListedTo(
    found: seq<Violation>, o: ProcurementOption, x: real, demands: seq<Demand>, n: nat, c: Constraint)
  {
    Listed(found, c) <==>
      c.OptionRule? && c.optionId == o.optionId && Rank(c.check) < n && BreaksRule(o, x, demands, c.check)
  }

  /** The next rule: a violation exactly when the option breaks it. */
  lemma NextRule(
    found: seq<Violation>, o: ProcurementOption, x: real, demands: seq<Demand>, check: OptionCheck,
    more: seq<Violation>)
    requires RulesTo(found, o, x, demands, Rank(check))
    requires if BreaksRule(o, x, demands, check)
             then |more| == 1 && more[0].constraint == OptionRule(o.optionId, check) && RuleAmounts(o, x, more[0])
             else more == []
    ensures RulesTo(found + more, o, x, demands, Rank(check) + 1)
  {
    hide RuleAmounts, BreaksRule, Listed, Once;
    var rule := OptionRule(o.optionId, check);
    assert RuleListedTo(found, o, x, demands, Rank(check), rule);
    if more == [] {
      assert found + more == found;
    } else {
      assert more == [more[0]];
      OncePush(found, more[0]);
    }
    var next := Rank(check) + 1;
    forall c ensures RuleListedTo(found + more, o, x, demands, next, c) {
      assert RuleListedTo(found, o, x, demands, Rank(check), c);
      if more != [] {
        ListedPush(found, more[0], c);
      }
    }
  }

  lemma NoRulesYet(o: ProcurementOption, x: real, demands: seq<Demand>)
    ensures RulesTo([], o, x, demands, 0)
  {
  }

  method Late(o: ProcurementOption, demands: seq<Demand>) returns (late: bool)
    ensures forall x :: late <==> BreaksRule(o, x, demands, OnTime)
  {
    late := false;
    for i := 0 to |demands|
      invariant late <==> exists k ::
                  0 <= k < i && demands[k].refineryId == o.refineryId
                  && (o.windowStart < demands[k].intervalStart || o.windowEnd > demands[k].intervalEnd)
    {
      var d := demands[i];
      late := late
              || (d.refineryId == o.refineryId
                  && (o.windowStart < d.intervalStart || o.windowEnd > d.intervalEnd));
    }
  }

  method Tightest(o: ProcurementOption) returns (cap: real)
    ensures TightestCap(o, cap)
  {
    cap := o.supplierCapacity;
    if o.availableVolume < cap { cap := o.availableVolume; }
    if o.routeCapacity < cap { cap := o.routeCapacity; }
    if o.receivingCapacity < cap { cap := o.receivingCapacity; }
  }

  lemma CapDecides(o: ProcurementOption, x: real, demands: seq<Demand>, cap: real)
    requires TightestCap(o, cap)
    ensures BreaksRule(o, x, demands, InBounds) <==> x < -TOLERANCE || x > cap + TOLERANCE
  {
    var caps := [o.supplierCapacity, o.availableVolume, o.routeCapacity, o.receivingCapacity];
    assert cap <= caps[0] && cap <= caps[1] && cap <= caps[2] && cap <= caps[3];
  }

  /** The rules of a single option. */
  method CheckOption(o: ProcurementOption, quantity: real, demands: seq<Demand>) returns (found: seq<Violation>)
    ensures forall c :: Listed(found, c) <==>
              c.OptionRule? && c.optionId == o.optionId && BreaksRule(o, quantity, demands, c.check)
    ensures Once(found) && forall v :: v in found ==> v.constraint.OptionRule? && RuleAmounts(o, quantity, v)
  {
    hide RulesTo, Once, TightestCap, Listed;
    var cap := Tightest(o);
    CapDecides(o, quantity, demands, cap);
    NoRulesYet(o, quantity, demands);
    var more := [];
    if quantity < -TOLERANCE || quantity > cap + TOLERANCE {
      more := [Violation(OptionRule(o.optionId, InBounds), quantity, cap)];
    }
    NextRule([], o, quantity, demands, InBounds, more);
    found := [] + more;
    more := [];
    if quantity > TOLERANCE && !o.sanctionsPermitted {
      more := [Violation(OptionRule(o.optionId, Unsanctioned), quantity, 0.0)];
    }
    NextRule(found, o, quantity, demands, Unsanctioned, more);
    found := found + more;
    more := [];
    if quantity > TOLERANCE && !o.compatibilityPermitted {
      more := [Violation(OptionRule(o.optionId, Compatible), quantity, 0.0)];
    }
    NextRule(found, o, quantity, demands, Compatible, more);
    found := found + more;
    more := [];
    var late := Late(o, demands);
    if late {
      more := [Violation(OptionRule(o.optionId, OnTime), 1.0, 0.0)];
    }
    NextRule(found, o, quantity, demands, OnTime, more);
    found := found + more;
    AllRules(found, o, quantity, demands);
  }

  lemma AllRules(found: seq<Violation>, o: ProcurementOption, x: real, demands: seq<Demand>)
    requires RulesTo(found, o, x, demands, 4)
    ensures forall c :: Listed(found, c) <==>
              c.OptionRule? && c.optionId == o.optionId && BreaksRule(o, x, demands, c.check)
    ensures Once(found) && forall v :: v in found ==> v.constraint.OptionRule? && RuleAmounts(o, x, v)
  {
    hide RuleAmounts, BreaksRule, Listed, Once;
    forall c
      ensures Listed(found, c) <==>
              c.OptionRule? && c.optionId == o.optionId && BreaksRule(o, x, demands, c.check)
    {
      assert RuleListedTo(found, o, x, demands, 4, c);
    }
  }

  lemma SingleListed(found: seq<Violation>, c: Constraint)
    requires |found| <= 1
    ensures Listed(found, c) <==> |found| == 1 && found[0].constraint == c
  {
    if |found| == 1 {
      assert found[0] in found;
    }
  }

  ghost predicate RuleListed(
    found: seq<Violation>, options: seq<ProcurementOption>, q: map<Uuid, real>, demands: seq<Demand>, c: Constraint)
  {
    Listed(found, c) <==> c.OptionRule? && RuleBroken(options, q, demands, c.optionId, c.check)
  }

  lemma RuleListedPush(
    found: seq<Violation>, more: seq<Violation>, options: seq<ProcurementOption>, o: ProcurementOption,
    q: map<Uuid, real>, demands: seq<Demand>, c: Constraint)
    requires RuleListed(found, options, q, demands, c)
    requires Listed(more, c) <==>
               c.OptionRule? && c.optionId == o.optionId && BreaksRule(o, Get(q, o.optionId), demands, c.check)
    ensures RuleListed(found + more, options + [o], q, demands, c)
  {
    ListedConcat(found, more, c);
    assert forall p :: p in options + [o] <==> p in options || p == o;
  }

  lemma RulesPush(
    found: seq<Violation>, more: seq<Violation>, options: seq<ProcurementOption>, i: nat, q: map<Uuid, real>,
    demands: seq<Demand>)
    requires i < |options| && forall k :: 0 <= k < i ==> options[k].optionId != options[i].optionId
    requires forall c :: RuleListed(found, options[..i], q, demands, c)
    requires forall c :: Listed(more, c) ==> c.OptionRule? && c.optionId == options[i].optionId
    requires Once(found) && forall v :: v in found ==> RuleMeasured(options[..i], q, v)
    requires Once(more)
    requires forall v :: v in more ==>
               v.constraint.OptionRule? && RuleAmounts(options[i], Get(q, options[i].optionId), v)
    ensures Once(found + more) && forall v :: v in found + more ==> RuleMeasured(options[..i + 1], q, v)
  {
    hide RuleAmounts, BreaksRule, Once;
    forall c ensures !Listed(found, c) || !Listed(more, c) {
      assert RuleListed(found, options[..i], q, demands, c);
    }
    OnceConcat(found, more);
    forall v | v in found + more ensures RuleMeasured(options[..i + 1], q, v) {
      if v in found {
        var o :| o in options[..i] && o.optionId == v.constraint.optionId && RuleAmounts(o, Get(q, o.optionId), v);
        assert o in options[..i + 1];
      } else {
        assert Listed(more, v.constraint);
        assert options[..i + 1][i] == options[i];
      }
    }
  }

  lemma NothingTallied(q: map<Uuid, real>)
    ensures Tallied(Tallies(map[], map[], map[], map[], map[], map[]), [], q)
  {
  }

  method ScanOptions(input: PlanInput, q: map<Uuid, real>, fingerprint: ProcurementOption -> string)
    returns (found: seq<Violation>, fingerprintOk: bool, t: Tallies)
    requires ValidInput(input)
    ensures forall c :: RuleListed(found, input.options, q, input.demands, c)
    ensures Once(found) && forall v :: v in found ==> RuleMeasured(input.options, q, v)
    ensures fingerprintOk <==> FingerprintsMatch(input.options, fingerprint)
    ensures Tallied(t, input.options, q)
  {
    hide Listed, Once, RuleMeasured, RuleAmounts, BreaksRule, Tallied;
    var options := input.options;
    found, fingerprintOk := [], true;
    NothingListed();
    NothingTallied(q);
    t := Tallies(map[], map[], map[], map[], map[], map[]);
    for i := 0 to |options|
      invariant forall c :: RuleListed(found, options[..i], q, input.demands, c)
      invariant Once(found) && forall v :: v in found ==> RuleMeasured(options[..i], q, v)
      invariant fingerprintOk <==> FingerprintsMatch(options[..i], fingerprint)
      invariant Tallied(t, options[..i], q)
    {
      var o := options[i];
      var quantity := Get(q, o.optionId);
      var more := CheckOption(o, quantity, input.demands);
      assert options[..i + 1] == options[..i] + [o];
      forall c ensures RuleListed(found + more, options[..i] + [o], q, input.demands, c) {
        assert RuleListed(found, options[..i], q, input.demands, c);
        RuleListedPush(found, more, options[..i], o, q, input.demands, c);
      }
      RulesPush(found, more, options, i, q, input.demands);
      found := found + more;
      fingerprintOk := fingerprintOk && o.fingerprint.Some? && o.fingerprint.value == fingerprint(o);
      ghost var before := t;
      t := AddOption(t, o, quantity);
      TalliedPush(before, t, options[..i], o, q);
    }
    assert options[..|options|] == options;
  }

  // ---------------------------------------------------------------- pass 2: mass balance

  /** Reading the refinery dictionary inserts a zero for every demanded refinery. */
  method CheckBalance(input: PlanInput, q: map<Uuid, real>, s: map<Uuid, real>, delivered: map<Uuid, real>)
    returns (found: seq<Violation>, delivered': map<Uuid, real>)
    requires input.options != [] && Tally(delivered, Refinery, input.options, q)
    ensures ListsFamily(found, 1, input, q, s) && Exact(input, q, s, found)
    ensures forall id :: id in delivered' <==> id in delivered || id in DemandMap(input.demands)
    ensures forall id :: Get(delivered', id) == Get(delivered, id)
  {
    hide Listed, Once;
    var demands := DemandMap(input.demands);
    found, delivered' := [], delivered;
    NothingListed();
    var todo := demands.Keys;
    while todo != {}
      invariant todo <= demands.Keys
      invariant forall c :: Listed(found, c) <==> c.MassBalance? && c.refineryId !in todo && Violates(input, q, s, c)
      invariant Once(found) && forall v :: v in found ==> BalanceMeasured(input, q, s, v)
      invariant forall id :: id in delivered' <==> id in delivered || (id in demands && id !in todo)
      invariant forall id :: Get(delivered', id) == Get(delivered, id)
    {
      var r :| r in todo;
      assert TallyAt(delivered, Refinery, input.options, q, r);
      delivered' := AddTo(delivered', r, 0.0);
      var actual := delivered'[r] + Get(s, r);
      ghost var before := found;
      var violation := Violation(MassBalance(r), actual, demands[r]);
      if Abs(actual - demands[r]) > TOLERANCE || Get(s, r) < -TOLERANCE {
        OncePush(found, violation);
        found := found + [violation];
      }
      todo := todo - {r};
      forall c ensures Listed(found, c) <==> c.MassBalance? && c.refineryId !in todo && Violates(input, q, s, c) {
        ListedPush(before, violation, c);
      }
    }
    forall c ensures ListedIn(found, 1, input, q, s, c) {
    }
  }

  lemma NothingListed()
    ensures Once([]) && forall c :: !Listed([], c)
  {
  }

  // ---------------------------------------------------------------- pass 3: capacities

  /** The largest capacity declared for a key, if any option carries it. */
  method LargestCap(options: seq<ProcurementOption>, kind: Kind, id: Uuid) returns (limit: Option<real>)
    ensures limit.Some? <==> Touched(options, kind, id)
    ensures limit.Some? ==> forall o :: o in options && id in Keys(o, kind) ==> Cap(o, kind, id) <= limit.value
    ensures limit.Some? ==> exists o :: o in options && id in Keys(o, kind) && Cap(o, kind, id) == limit.value
  {
    limit := None;
    for i := 0 to |options|
      invariant limit.Some? <==> exists k :: 0 <= k < i && id in Keys(options[k], kind)
      invariant limit.Some? ==> forall k :: 0 <= k < i && id in Keys(options[k], kind) ==>
                                  Cap(options[k], kind, id) <= limit.value
      invariant limit.Some? ==> exists o :: o in options && id in Keys(o, kind) && Cap(o, kind, id) == limit.value
    {
      var o := options[i];
      if id in Keys(o, kind) && (limit.None? || Cap(o, kind, id) > limit.value) {
        limit := Some(Cap(o, kind, id));
        assert o in options;
      }
    }
  }

  /** The smallest capacity any option declares for a segment. */
  method SmallestSegment(options: seq<ProcurementOption>, id: Uuid) returns (limit: Option<real>)
    requires forall o :: o in options ==> ValidOption(o)
    ensures limit.Some? <==> Touched(options, Segment, id)
    ensures limit.Some? ==> forall o :: o in options && id in Keys(o, Segment) ==> Cap(o, Segment, id) >= limit.value
    ensures limit.Some? ==> exists o :: o in options && id in Keys(o, Segment) && Cap(o, Segment, id) == limit.value
  {
    limit := None;
    for i := 0 to |options|
      invariant limit.Some? <==> exists k :: 0 <= k < i && id in Keys(options[k], Segment)
      invariant limit.Some? ==> forall k :: 0 <= k < i && id in Keys(options[k], Segment) ==>
                                  Cap(options[k], Segment, id) >= limit.value
      invariant limit.Some? ==> exists o :: o in options && id in Keys(o, Segment) && Cap(o, Segment, id) == limit.value
    {
      var o := options[i];
      assert o in options && ValidOption(o);
      if id in o.segmentCapacities && (limit.None? || o.segmentCapacities[id] < limit.value) {
        limit := Some(o.segmentCapacities[id]);
      }
    }
  }

  /** Compares one dictionary with the limits of its keys. `None` is the ValueError of a maximum
      over nothing. */
  method CheckCapacities(options: seq<ProcurementOption>, q: map<Uuid, real>, kind: Kind, delivered: map<Uuid, real>)
    returns (found: Option<seq<Violation>>)
    requires forall o :: o in options ==> ValidOption(o)
    requires !kind.Corridor?
    requires forall id :: Touched(options, kind, id) ==> id in delivered
    requires forall id :: Get(delivered, id) == Total(options, q, Volume(kind, id))
    ensures found.None? <==> exists id :: id in delivered && !Touched(options, kind, id)
    ensures found.Some? ==>
              forall c :: Listed(found.value, c) <==>
                c.Capacity? && c.kind == kind && OverCapacity(options, q, kind, c.id)
    ensures found.Some? ==> Once(found.value) && forall v :: v in found.value ==> CapacityMeasured(options, q, kind, v)
  {
    hide Listed, Once, Cap, ValidOption, Total, CapacityMeasured;
    NothingListed();
    var todo := delivered.Keys;
    var list: seq<Violation> := [];
    while todo != {}
      invariant todo <= delivered.Keys
      invariant forall id :: id in delivered && id !in todo ==> Touched(options, kind, id)
      invariant forall c :: Listed(list, c) <==>
                  && c.Capacity? && c.kind == kind && c.id in delivered && c.id !in todo
                  && OverCapacity(options, q, kind, c.id)
      invariant Once(list) && forall v :: v in list ==> CapacityMeasured(options, q, kind, v)
    {
      var id :| id in todo;
      var limit: Option<real>;
      if kind.Segment? {
        limit := SmallestSegment(options, id);
      } else {
        limit := LargestCap(options, kind, id);
      }
      if limit.None? {
        return None;
      }
      var actual := delivered[id];
      assert Get(delivered, id) == Total(options, q, Volume(kind, id));
      var violation := Violation(Capacity(kind, id), actual, limit.value);
      LimitDecides(options, q, kind, id, limit.value);
      MeasuresCapacity(options, q, kind, violation);
      ghost var before := list;
      if actual > limit.value + TOLERANCE {
        OncePush(list, violation);
        list := list + [violation];
      }
      todo := todo - {id};
      forall c
        ensures Listed(list, c) <==>
                && c.Capacity? && c.kind == kind && c.id in delivered && c.id !in todo
                && OverCapacity(options, q, kind, c.id)
      {
        ListedPush(before, violation, c);
      }
    }
    forall c
      ensures Listed(list, c) <==> c.Capacity? && c.kind == kind && OverCapacity(options, q, kind, c.id)
    {
      if c.Capacity? && OverCapacity(options, q, kind, c.id) {
        OverCapacityTouched(options, q, kind, c.id);
      }
    }
    found := Some(list);
  }

  lemma MeasuresCapacity(options: seq<ProcurementOption>, q: map<Uuid, real>, kind: Kind, v: Violation)
    requires v.constraint.Capacity? && v.constraint.kind == kind
    requires v.actual == Total(options, q, Volume(kind, v.constraint.id))
    requires DecidingCap(options, kind, v.constraint.id, v.limit)
    ensures CapacityMeasured(options, q, kind, v)
  {
  }

  lemma LimitDecides(options: seq<ProcurementOption>, q: map<Uuid, real>, kind: Kind, id: Uuid, limit: real)
    requires !kind.Corridor? && DecidingCap(options, kind, id, limit)
    ensures OverCapacity(options, q, kind, id) <==> Total(options, q, Volume(kind, id)) > limit + TOLERANCE
  {
    hide Total;
    var o :| o in options && id in Keys(o, kind) && Cap(o, kind, id) == limit;
    var i :| 0 <= i < |options| && options[i] == o;
    assert Touched(options, kind, id);
  }

  lemma OverCapacityTouched(options: seq<ProcurementOption>, q: map<Uuid, real>, kind: Kind, id: Uuid)
    requires OverCapacity(options, q, kind, id)
    ensures Touched(options, kind, id)
  {
    if kind.Segment? {
      var o :| o in options && id in Keys(o, kind);
    }
  }

  // ---------------------------------------------------------------- the objective

  /** `max(m.values())` of a dictionary that is not empty. */
  method MaxOfValues(m: map<Uuid, real>) returns (largest: real)
    requires m != map[]
    ensures exists k :: k in m && m[k] == largest
    ensures forall k :: k in m ==> m[k] <= largest
  {
    var first :| first in m.Keys;
    largest := m[first];
    var todo := m.Keys - {first};
    while todo != {}
      invariant todo <= m.Keys
      invariant exists k :: k in m && m[k] == largest
      invariant forall k :: k in m && k !in todo ==> m[k] <= largest
    {
      var k :| k in todo;
      if m[k] > largest {
        largest := m[k];
      }
      todo := todo - {k};
    }
  }

  /** `sum(m.values())`. */
  method SumOfValues(m: map<Uuid, real>) returns (total: real)
    ensures total == SumValues(m)
  {
    total := 0.0;
    var todo := m.Keys;
    while todo != {}
      invariant todo <= m.Keys
      invariant total + SumOver(todo, m) == SumValues(m)
    {
      var k :| k in todo;
      SumOverSplit(todo, m, k);
      total := total + m[k];
      todo := todo - {k};
    }
  }

  /** The largest value of a full accumulator is the peak over the options. */
  lemma LargestIsPeak(
    m: map<Uuid, real>, kind: Kind, options: seq<ProcurementOption>, q: map<Uuid, real>, largest: real)
    requires options != [] && (kind.Supplier? || kind.Corridor?) && Tally(m, kind, options, q)
    requires exists k :: k in m && m[k] == largest
    requires forall k :: k in m ==> m[k] <= largest
    ensures largest == Peak(options, options, q, kind)
  {
    var at := PeakIsLargest(options, options, q, kind);
    var k :| k in m && m[k] == largest;
    assert TallyAt(m, kind, options, q, k);
    var i :| 0 <= i < |options| && k in Keys(options[i], kind);
    assert options[i] in options && k == Keys(options[i], kind)[0];
    var top := Keys(at, kind)[0];
    var j :| 0 <= j < |options| && options[j] == at;
    assert Touched(options, kind, top);
    assert TallyAt(m, kind, options, q, top);
  }

  /** The five components that are plain sums. */
  datatype Sums = Sums(landed: real, delay: real, risk: real, compatibility: real, emissions: real)

  ghost predicate SumsOf(t: Sums, options: seq<ProcurementOption>, q: map<Uuid, real>) {
    && t.landed == Total(options, q, Amount(Landed))
    && t.delay == Total(options, q, Amount(Delay))
    && t.risk == Total(options, q, Amount(RouteRisk))
    && t.compatibility == Total(options, q, Amount(Compatibility))
    && t.emissions == Total(options, q, Amount(Component.Emissions))
  }

  lemma Rescaled(rate: real, x: real, scale: real)
    requires scale > 0.0
    ensures rate * x / scale == (rate / scale) * x
  {
    var u := rate / scale;
    assert u * scale == rate;
    assert rate * x == (u * x) * scale;
  }

  /** One `raw[component] += value * quantity / scale`. */
  method AddAmount(
    sum: real, o: ProcurementOption, x: real, c: Component, value: real, scale: real,
    ghost options: seq<ProcurementOption>, ghost q: map<Uuid, real>)
    returns (sum': real)
    requires sum == Total(options, q, Amount(c)) && x == Get(q, o.optionId)
    requires scale > 0.0 && Rate(o, c) == value / scale
    ensures sum' == Total(options + [o], q, Amount(c))
  {
    hide Total, Rate, Get;
    TotalPush(options, o, q, Amount(c));
    Rescaled(value, x, scale);
    sum' := sum + value * x / scale;
  }

  method AddComponents(
    t: Sums, o: ProcurementOption, x: real, ghost options: seq<ProcurementOption>, ghost q: map<Uuid, real>)
    returns (t': Sums)
    requires o.landedCost.Some? && SumsOf(t, options, q) && x == Get(q, o.optionId)
    ensures SumsOf(t', options + [o], q)
  {
    var cost := o.landedCost.value;
    var days := if o.transitTime.Some? then o.transitTime.value else 0.0;
    var distance := if o.routeDistance.Some? then o.routeDistance.value else 0.0;
    var landed := AddAmount(t.landed, o, x, Landed, cost.total, 1000.0, options, q);
    var delay := AddAmount(t.delay, o, x, Delay, days, 1000.0, options, q);
    var risk := AddAmount(t.risk, o, x, RouteRisk, distance, 1000000.0, options, q);
    var compatibility := AddAmount(t.compatibility, o, x, Compatibility, cost.compatibilityPenalty, 1000.0, options, q);
    var emissions := AddAmount(t.emissions, o, x, Component.Emissions, cost.emissions, 1000.0, options, q);
    t' := Sums(landed, delay, risk, compatibility, emissions);
  }

  method ObjectiveComponents(input: PlanInput, q: map<Uuid, real>, s: map<Uuid, real>) returns (raw: Option<Components>)
    requires ValidInput(input)
    ensures raw.None? <==> MissingCost(input.options)
    ensures raw.Some? ==> raw.value == Raw(input, q, s)
  {
    var options := input.options;
    var demand := ListedDemand(input.demands);
    var suppliers, corridors := map[], map[];
    var sums := Sums(0.0, 0.0, 0.0, 0.0, 0.0);
    for i := 0 to |options|
      invariant !MissingCost(options[..i])
      invariant Tally(suppliers, Supplier, options[..i], q) && Tally(corridors, Corridor, options[..i], q)
      invariant SumsOf(sums, options[..i], q)
    {
      var o := options[i];
      assert o in options && ValidOption(o);
      assert options[..i + 1] == options[..i] + [o];
      TallyPushOne(suppliers, Supplier, options[..i], o, q, o.supplierId);
      TallyPushOne(corridors, Corridor, options[..i], o, q, o.routeId);
      suppliers := AddTo(suppliers, o.supplierId, Get(q, o.optionId));
      corridors := AddTo(corridors, o.routeId, Get(q, o.optionId));
      if o.landedCost.None? {
        return None;
      }
      sums := AddComponents(sums, o, Get(q, o.optionId), options[..i], q);
    }
    assert options[..|options|] == options;
    var shortfall := SumOfValues(s);
    var supplierPeak := PeakOf(suppliers, Supplier, options, q);
    var corridorPeak := PeakOf(corridors, Corridor, options, q);
    var denominator := MaxReal(demand, 1.0);
    raw := Some(Components(
      sums.landed, shortfall, sums.delay, sums.risk, supplierPeak / denominator, corridorPeak / denominator,
      sums.compatibility, sums.emissions));
  }

  method PeakOf(m: map<Uuid, real>, kind: Kind, options: seq<ProcurementOption>, ghost q: map<Uuid, real>)
    returns (peak: real)
    requires options != [] && (kind.Supplier? || kind.Corridor?) && Tally(m, kind, options, q)
    ensures peak == Peak(options, options, q, kind)
  {
    assert Keys(options[0], kind)[0] in Keys(options[0], kind);
    assert Touched(options, kind, Keys(options[0], kind)[0]);
    assert TallyAt(m, kind, options, q, Keys(options[0], kind)[0]);
    peak := MaxOfValues(m);
    LargestIsPeak(m, kind, options, q, peak);
  }

  // ---------------------------------------------------------------- policy rules

  method BudgetUsed(options: seq<ProcurementOption>, q: map<Uuid, real>) returns (spent: real)
    requires !MissingCost(options)
    ensures spent == Total(options, q, Amount(Spend))
  {
    spent := 0.0;
    for i := 0 to |options|
      invariant spent == Total(options[..i], q, Amount(Spend))
    {
      var o := options[i];
      assert o in options && o.landedCost.Some?;
      assert options[..i + 1] == options[..i] + [o];
      TotalPush(options[..i], o, q, Amount(Spend));
      SpendTerm(Get(q, o.optionId), o.landedCost.value.total);
      spent := spent + Get(q, o.optionId) * 1000.0 * o.landedCost.value.total;
    }
    assert options[..|options|] == options;
  }

  method CheckShare(
    options: seq<ProcurementOption>, q: map<Uuid, real>, kind: Kind, m: map<Uuid, real>, base: real, limit: real)
    returns (found: seq<Violation>)
    requires options != [] && (kind.Supplier? || kind.Corridor?) && Tally(m, kind, options, q) && base >= 1.0
    ensures forall c :: Listed(found, c) <==> c == ShareRule(kind) && OverShare(options, q, kind, base, limit)
    ensures Once(found) && forall v :: v in found ==> ShareMeasured(options, q, kind, base, limit, v)
  {
    hide Tally, OverShare, Total;
    var peak := PeakOf(m, kind, options, q);
    PeakDecides(options, q, kind, base, limit);
    ShareMeaning(peak, base, limit + TOLERANCE);
    found := if peak / base > limit + TOLERANCE then [Violation(ShareRule(kind), peak / base, limit)] else [];
    forall c ensures Listed(found, c) <==> c == ShareRule(kind) && OverShare(options, q, kind, base, limit) {
      SingleListed(found, c);
    }
  }

  /** Budget and concentration. */
  method CheckPolicy(input: PlanInput, q: map<Uuid, real>, suppliers: map<Uuid, real>, corridors: map<Uuid, real>)
    returns (found: seq<Violation>)
    requires ValidInput(input) && !MissingCost(input.options)
    requires Tally(suppliers, Supplier, input.options, q) && Tally(corridors, Corridor, input.options, q)
    ensures forall s :: ListsFamily(found, 7, input, q, s) && Exact(input, q, s, found)
  {
    var spent := BudgetUsed(input.options, q);
    var totalDemand := SumOfValues(DemandMap(input.demands));
    var base := MaxReal(totalDemand, 1.0);
    var budget: seq<Violation> := [];
    if spent > input.limits.budget + TOLERANCE {
      budget := [Violation(BudgetRule, spent, input.limits.budget)];
    }
    var supplier := CheckShare(input.options, q, Supplier, suppliers, base, input.limits.supplierShare);
    var corridor := CheckShare(input.options, q, Corridor, corridors, base, input.limits.corridorShare);
    found := budget + supplier + corridor;
    forall s ensures ListsFamily(found, 7, input, q, s) && Exact(input, q, s, found) {
      PolicyFamily(input, q, s, budget, supplier, corridor);
    }
  }

  lemma PolicyFamily(
    input: PlanInput, q: map<Uuid, real>, s: map<Uuid, real>, budget: seq<Violation>, supplier: seq<Violation>,
    corridor: seq<Violation>)
    requires input.options != [] && |budget| <= 1
    requires forall c :: Listed(budget, c) <==> c == BudgetRule && Violates(input, q, s, c)
    requires forall c :: Listed(supplier, c) <==> c == ShareRule(Supplier) && Violates(input, q, s, c)
    requires forall c :: Listed(corridor, c) <==> c == ShareRule(Corridor) && Violates(input, q, s, c)
    requires Exact(input, q, s, budget) && Exact(input, q, s, supplier) && Exact(input, q, s, corridor)
    ensures ListsFamily(budget + supplier + corridor, 7, input, q, s)
    ensures Exact(input, q, s, budget + supplier + corridor)
  {
    hide Listed, Once, Measured, OverShare, RuleBroken;
    forall c ensures Listed(budget + supplier, c) <==> Listed(budget, c) || Listed(supplier, c) {
      ListedConcat(budget, supplier, c);
    }
    OnceConcat(budget, supplier);
    OnceConcat(budget + supplier, corridor);
    forall c ensures ListedIn(budget + supplier + corridor, 7, input, q, s, c) {
      ListedConcat(budget + supplier, corridor, c);
    }
  }

  lemma SpendTerm(x: real, total: real)
    ensures x * 1000.0 * total == (total * 1000.0) * x
  {
  }

  /** The peak exceeds a limit iff some key does. */
  lemma PeakDecides(options: seq<ProcurementOption>, q: map<Uuid, real>, kind: Kind, base: real, limit: real)
    requires options != [] && (kind.Supplier? || kind.Corridor?)
    ensures Peak(options, options, q, kind) > (limit + TOLERANCE) * base <==> OverShare(options, q, kind, base, limit)
  {
    var at := PeakIsLargest(options, options, q, kind);
    assert Keys(at, kind) != [];
  }

  lemma ShareMeaning(volume: real, base: real, bound: real)
    requires base >= 1.0
    ensures volume / base > bound <==> volume > bound * base
  {
    var u := volume / base;
    assert u * base == volume;
    assert (u - bound) * base == volume - bound * base;
  }

  // ---------------------------------------------------------------- the check

  /** The passes of the check report disjoint families of constraints. */
  ghost function Family(c: Constraint): nat {
    match c
    case OptionRule(_, _) => 0
    case MassBalance(_) => 1
    case Capacity(kind, _) =>
      (match kind
       case Supplier => 2
       case Segment => 3
       case Refinery => 4
       case LoadPort => 5
       case ReceivingPort => 6
       case Corridor => 7)
    case _ => 7
  }

  ghost predicate ListedIn(
    found: seq<Violation>, family: nat, input: PlanInput, q: map<Uuid, real>, s: map<Uuid, real>, c: Constraint)
  {
    Listed(found, c) <==> Family(c) == family && Violates(input, q, s, c)
  }

  ghost predicate ListsFamily(
    found: seq<Violation>, family: nat, input: PlanInput, q: map<Uuid, real>, s: map<Uuid, real>)
  {
    forall c :: ListedIn(found, family, input, q, s, c)
  }

  ghost predicate ListedBelow(
    found: seq<Violation>, family: nat, input: PlanInput, q: map<Uuid, real>, s: map<Uuid, real>, c: Constraint)
  {
    Listed(found, c) <==> Family(c) < family && Violates(input, q, s, c)
  }

  ghost predicate ListsBelow(
    found: seq<Violation>, family: nat, input: PlanInput, q: map<Uuid, real>, s: map<Uuid, real>)
  {
    forall c :: ListedBelow(found, family, input, q, s, c)
  }

  lemma AppendFamily(
    all: seq<Violation>, more: seq<Violation>, family: nat, next: nat,
    input: PlanInput, q: map<Uuid, real>, s: map<Uuid, real>)
    requires next == family + 1
    requires input.options != [] && Exact(input, q, s, all) && Exact(input, q, s, more)
    requires ListsBelow(all, family, input, q, s) && ListsFamily(more, family, input, q, s)
    ensures ListsBelow(all + more, next, input, q, s) && Exact(input, q, s, all + more)
  {
    hide Listed, Once, Measured, Violates, Family;
    forall c ensures !Listed(all, c) || !Listed(more, c) {
      assert ListedBelow(all, family, input, q, s, c);
      assert ListedIn(more, family, input, q, s, c);
    }
    OnceConcat(all, more);
    forall c ensures ListedBelow(all + more, next, input, q, s, c) {
      assert ListedBelow(all, family, input, q, s, c);
      assert ListedIn(more, family, input, q, s, c);
      ListedConcat(all, more, c);
    }
  }

  /** Mass balance and all capacities behind the option rules, or the ValueError. */
  method CheckSums(input: PlanInput, q: map<Uuid, real>, s: map<Uuid, real>, t: Tallies, rules: seq<Violation>)
    returns (found: Option<seq<Violation>>, massOk: bool)
    requires ValidInput(input) && Tallied(t, input.options, q)
    requires ListsBelow(rules, 1, input, q, s) && Exact(input, q, s, rules)
    ensures found.None? <==> Unserved(input)
    ensures found.Some? ==> ListsBelow(found.value, 7, input, q, s) && Exact(input, q, s, found.value)
    ensures massOk <==> forall r :: !Violates(input, q, s, MassBalance(r))
  {
    hide Violates, Touched, Total, ListsBelow, ListsFamily, Tally, OverCapacity, ValidOption, DemandMap, Exact,
      CapacityMeasured, Once;
    var balance, refinery := CheckBalance(input, q, s, t.refinery);
    massOk := balance == [];
    MassVerdict(input, q, s, balance);
    AppendFamily(rules, balance, 1, 2, input, q, s);
    var all := rules + balance;
    var list := CheckKind(input, q, s, Supplier, t.supplier, all);
    list := CheckKind(input, q, s, Segment, t.segment, list.value);
    TallyUse(t.refinery, Refinery, input.options, q);
    var refineries := CheckCapacities(input.options, q, Refinery, refinery);
    if refineries.None? {
      return None, massOk;
    }
    CapacityFamily(input, q, s, Refinery, refineries.value);
    AppendFamily(list.value, refineries.value, 4, 5, input, q, s);
    list := CheckKind(input, q, s, LoadPort, t.loadPort, list.value + refineries.value);
    list := CheckKind(input, q, s, ReceivingPort, t.receivingPort, list.value);
    found := list;
  }

  /** One dictionary whose keys all come from options. */
  method CheckKind(
    input: PlanInput, q: map<Uuid, real>, ghost s: map<Uuid, real>, kind: Kind, m: map<Uuid, real>, all: seq<Violation>)
    returns (list: Option<seq<Violation>>)
    requires ValidInput(input) && Tally(m, kind, input.options, q) && !kind.Corridor?
    requires ListsBelow(all, Family(Capacity(kind, 0)), input, q, s) && Exact(input, q, s, all)
    ensures list.Some? && ListsBelow(list.value, Family(Capacity(kind, 0)) + 1, input, q, s)
    ensures Exact(input, q, s, list.value)
  {
    hide ListsBelow, ListsFamily, Tally, Exact, Once, CapacityMeasured, Touched, Total, OverCapacity;
    TallyUse(m, kind, input.options, q);
    var more := CheckCapacities(input.options, q, kind, m);
    CapacityFamily(input, q, s, kind, more.value);
    AppendFamily(all, more.value, Family(Capacity(kind, 0)), Family(Capacity(kind, 0)) + 1, input, q, s);
    list := Some(all + more.value);
  }

  lemma CapacityFamily(input: PlanInput, q: map<Uuid, real>, s: map<Uuid, real>, kind: Kind, found: seq<Violation>)
    requires !kind.Corridor?
    requires input.options != []
    requires Once(found) && forall v :: v in found ==> CapacityMeasured(input.options, q, kind, v)
    requires forall c :: Listed(found, c) <==>
               c.Capacity? && c.kind == kind && OverCapacity(input.options, q, kind, c.id)
    ensures ListsFamily(found, Family(Capacity(kind, 0)), input, q, s) && Exact(input, q, s, found)
  {
    forall c ensures ListedIn(found, Family(Capacity(kind, 0)), input, q, s, c) {
    }
  }

  lemma MassVerdict(input: PlanInput, q: map<Uuid, real>, s: map<Uuid, real>, balance: seq<Violation>)
    requires ListsFamily(balance, 1, input, q, s)
    ensures balance == [] <==> forall r :: !Violates(input, q, s, MassBalance(r))
  {
    if balance == [] {
      forall r ensures !Violates(input, q, s, MassBalance(r)) {
        assert ListedIn(balance, 1, input, q, s, MassBalance(r));
      }
    } else {
      var c := balance[0].constraint;
      assert balance[0] in balance;
      assert ListedIn(balance, 1, input, q, s, c);
      assert c == MassBalance(c.refineryId);
    }
  }

  lemma TallyUse(m: map<Uuid, real>, kind: Kind, options: seq<ProcurementOption>, q: map<Uuid, real>)
    requires Tally(m, kind, options, q)
    ensures forall id :: id in m <==> Touched(options, kind, id)
    ensures forall id :: Get(m, id) == Total(options, q, Volume(kind, id))
  {
    forall id ensures (id in m <==> Touched(options, kind, id)) && Get(m, id) == Total(options, q, Volume(kind, id)) {
      assert TallyAt(m, kind, options, q, id);
    }
  }

  ghost predicate Respected(input: PlanInput, q: map<Uuid, real>, check: OptionCheck) {
    forall id :: !RuleBroken(input.options, q, input.demands, id, check)
  }

  /** Whether some listed violation is of the given rule; the checker's flags. */
  method NoneOfRule(rules: seq<Violation>, check: OptionCheck) returns (ok: bool)
    ensures ok <==> forall id :: !Listed(rules, OptionRule(id, check))
  {
    ok := true;
    for i := 0 to |rules|
      invariant ok <==> forall k :: 0 <= k < i ==>
                  !(rules[k].constraint.OptionRule? && rules[k].constraint.check == check)
    {
      if rules[i].constraint.OptionRule? && rules[i].constraint.check == check {
        ok := false;
      }
    }
    if !ok {
      var k :| 0 <= k < |rules| && rules[k].constraint.OptionRule? && rules[k].constraint.check == check;
      assert rules[k] in rules;
      assert Listed(rules, OptionRule(rules[k].constraint.optionId, check));
    }
  }

  method IndependentCheck(
    input: PlanInput, w: Components, q: map<Uuid, real>, s: map<Uuid, real>, reported: real,
    fingerprint: ProcurementOption -> string)
    returns (r: Result<Verdict, CheckError>)
    requires ValidInput(input) && NonNegative(w)
    ensures CheckOutcome(input, fingerprint, w, q, s, reported)
            == if r.Success? then Success(r.value.passed) else Failure(r.error)
    ensures r.Success? ==>
              var v := r.value;
              && (forall c :: Listed(v.violations, c) <==> Violates(input, q, s, c))
              && Exact(input, q, s, v.violations)
              && (forall spend :: Contributes(spend, q, Spend) ==>
                    (Listed(v.violations, BudgetRule)
                     <==> SumOf(spend, input.options) > input.limits.budget + 0.000001))
              && (v.boundsOk <==> Feasible(input, q, s))
              && (v.massOk <==> forall k :: !Violates(input, q, s, MassBalance(k)))
              && (v.sanctionsOk <==> Respected(input, q, Unsanctioned))
              && (v.compatibilityOk <==> Respected(input, q, Compatible))
              && (v.timingOk <==> Respected(input, q, OnTime))
              && (v.fingerprintOk <==> FingerprintsMatch(input.options, fingerprint))
              && v.raw == Raw(input, q, s) && v.reconstructed == Objective(input, w, q, s)
              && (v.objectiveOk <==> -0.00001 <= reported - v.reconstructed <= 0.00001)
              && (v.passed <==> v.failureCodes == [])
              && (forall code :: code in v.failureCodes <==> Flags(v, code))
  {
    hide Violates, Raw, Unserved, RuleBroken, Tally, ListsFamily, Exact, Once, RuleMeasured, Flags, Contributes, Listed;
    var rules, fingerprintOk, t := ScanOptions(input, q, fingerprint);
    var sanctionsOk, compatibilityOk, timingOk := RuleFlags(input, q, rules);
    RulesFirst(input, q, s, rules);
    var sums, massOk := CheckSums(input, q, s, t, rules);
    if sums.None? {
      return Failure(UnservedRefinery);
    }
    var raw := ObjectiveComponents(input, q, s);
    if raw.None? {
      return Failure(MissingLandedCost);
    }
    var policy := CheckPolicy(input, q, t.supplier, t.corridor);
    assert ListsFamily(policy, 7, input, q, s);
    AppendFamily(sums.value, policy, 7, 8, input, q, s);
    var violations := sums.value + policy;
    var reconstructed := Sum(Weighted(w, raw.value));
    var objectiveOk := Abs(reported - reconstructed) <= OBJECTIVE_TOLERANCE;
    var allConstraints := violations == [];
    EmptyMeansFeasible(input, q, s, violations);
    var codes := Codes(massOk, allConstraints, objectiveOk, sanctionsOk, compatibilityOk, fingerprintOk, timingOk);
    if Rejected(raw.value, reported, reconstructed) {
      return Failure(ResultRejected);
    }
    forall c ensures Listed(violations, c) <==> Violates(input, q, s, c) {
      assert ListedBelow(violations, 8, input, q, s, c);
    }
    FlagsFollow(input, q, s);
    BudgetListedExactly(input, q, s, violations);
    var v := Verdict(
      codes == [], massOk, allConstraints, objectiveOk, sanctionsOk, compatibilityOk, fingerprintOk, timingOk,
      reconstructed, codes, violations, raw.value);
    forall c ensures c in v.failureCodes <==> Flags(v, c) {
      CodesFlag(v, c);
    }
    r := Success(v);
  }

  method RuleFlags(input: PlanInput, q: map<Uuid, real>, rules: seq<Violation>)
    returns (sanctionsOk: bool, compatibilityOk: bool, timingOk: bool)
    requires forall c :: RuleListed(rules, input.options, q, input.demands, c)
    ensures sanctionsOk <==> Respected(input, q, Unsanctioned)
    ensures compatibilityOk <==> Respected(input, q, Compatible)
    ensures timingOk <==> Respected(input, q, OnTime)
  {
    sanctionsOk := NoneOfRule(rules, Unsanctioned);
    compatibilityOk := NoneOfRule(rules, Compatible);
    timingOk := NoneOfRule(rules, OnTime);
    forall id, check
      ensures Listed(rules, OptionRule(id, check)) <==> RuleBroken(input.options, q, input.demands, id, check)
    {
      assert RuleListed(rules, input.options, q, input.demands, OptionRule(id, check));
    }
  }

  lemma RulesFirst(input: PlanInput, q: map<Uuid, real>, s: map<Uuid, real>, rules: seq<Violation>)
    requires forall c :: RuleListed(rules, input.options, q, input.demands, c)
    requires input.options != [] && Once(rules) && forall v :: v in rules ==> RuleMeasured(input.options, q, v)
    ensures ListsBelow(rules, 1, input, q, s) && Exact(input, q, s, rules)
  {
    forall c ensures ListedBelow(rules, 1, input, q, s, c) {
      assert RuleListed(rules, input.options, q, input.demands, c);
    }
  }

  /** The flag that each failure code stands for was not set. */
  ghost predicate Flags(v: Verdict, code: FailureCode) {
    match code
    case MassBalanceCode => !v.massOk
    case HardConstraintCode => !v.boundsOk
    case ObjectiveCode => !v.objectiveOk
    case SanctionsCode => !v.sanctionsOk
    case CompatibilityCode => !v.compatibilityOk
    case FingerprintCode => !v.fingerprintOk
    case TimingCode => !v.timingOk
  }

  function Codes(
    massOk: bool, allConstraints: bool, objectiveOk: bool, sanctionsOk: bool, compatibilityOk: bool,
    fingerprintOk: bool, timingOk: bool): (codes: seq<FailureCode>)
    ensures codes == [] <==>
              massOk && allConstraints && objectiveOk && sanctionsOk && compatibilityOk && fingerprintOk && timingOk
  {
    Flag(Flag(Flag(Flag(Flag(Flag(Flag([], massOk, MassBalanceCode), allConstraints, HardConstraintCode),
      objectiveOk, ObjectiveCode), sanctionsOk, SanctionsCode), compatibilityOk, CompatibilityCode),
      fingerprintOk, FingerprintCode), timingOk, TimingCode)
  }

  function Flag(codes: seq<FailureCode>, ok: bool, code: FailureCode): seq<FailureCode> {
    if ok then codes else codes + [code]
  }

  lemma FlagHolds(codes: seq<FailureCode>, ok: bool, code: FailureCode, c: FailureCode)
    ensures c in Flag(codes, ok, code) <==> c in codes || (!ok && c == code)
  {
  }

  /** A code is given exactly when its flag is not set. */
  lemma CodesFlag(v: Verdict, c: FailureCode)
    ensures c in Codes(v.massOk, v.boundsOk, v.objectiveOk, v.sanctionsOk, v.compatibilityOk, v.fingerprintOk,
                       v.timingOk)
            <==> Flags(v, c)
  {
    hide Flag;
    var a := Flag([], v.massOk, MassBalanceCode);
    FlagHolds([], v.massOk, MassBalanceCode, c);
    var b := Flag(a, v.boundsOk, HardConstraintCode);
    FlagHolds(a, v.boundsOk, HardConstraintCode, c);
    var d := Flag(b, v.objectiveOk, ObjectiveCode);
    FlagHolds(b, v.objectiveOk, ObjectiveCode, c);
    var e := Flag(d, v.sanctionsOk, SanctionsCode);
    FlagHolds(d, v.sanctionsOk, SanctionsCode, c);
    var f := Flag(e, v.compatibilityOk, CompatibilityCode);
    FlagHolds(e, v.compatibilityOk, CompatibilityCode, c);
    var g := Flag(f, v.fingerprintOk, FingerprintCode);
    FlagHolds(f, v.fingerprintOk, FingerprintCode, c);
    FlagHolds(g, v.timingOk, TimingCode, c);
  }

  /** The budget is reported exactly when more is spent than it allows. */
  lemma BudgetListedExactly(input: PlanInput, q: map<Uuid, real>, s: map<Uuid, real>, violations: seq<Violation>)
    requires Listed(violations, BudgetRule) <==> Violates(input, q, s, BudgetRule)
    ensures forall spend :: Contributes(spend, q, Spend) ==>
              (Listed(violations, BudgetRule)
               <==> SumOf(spend, input.options) > input.limits.budget + 0.000001)
  {
    hide Violates, Contributes;
    forall spend | Contributes(spend, q, Spend)
      ensures Listed(violations, BudgetRule) <==> SumOf(spend, input.options) > input.limits.budget + 0.000001
    {
      BudgetExactly(input, q, s, spend);
    }
  }

  lemma EmptyMeansFeasible(input: PlanInput, q: map<Uuid, real>, s: map<Uuid, real>, found: seq<Violation>)
    requires ListsBelow(found, 8, input, q, s)
    ensures found == [] <==> Feasible(input, q, s)
  {
    if found == [] {
      forall c ensures !Violates(input, q, s, c) {
        assert ListedBelow(found, 8, input, q, s, c);
      }
    } else {
      var c := found[0].constraint;
      assert found[0] in found;
      assert ListedBelow(found, 8, input, q, s, c);
    }
  }

  /** A plan without violations raises none of the flags. */
  lemma FlagsFollow(input: PlanInput, q: map<Uuid, real>, s: map<Uuid, real>)
    ensures Feasible(input, q, s) ==>
              && (forall k :: !Violates(input, q, s, MassBalance(k)))
              && Respected(input, q, Unsanctioned) && Respected(input, q, Compatible) && Respected(input, q, OnTime)
  {
    if Feasible(input, q, s) {
      forall id, check ensures !RuleBroken(input.options, q, input.demands, id, check) {
        assert !Violates(input, q, s, OptionRule(id, check));
      }
    }
  }
}
