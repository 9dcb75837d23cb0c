/** What the checker says of inputs that come from the builder. */
module BuiltInputs {
  import opened Wrappers
  import opened Ordering
  import opened PlanModel
  import opened PlanRules
  import opened PlanChecker
  import opened Sequences
  import CheckerVerdicts
  import B = InputBuilder

  /** A fingerprint that does not depend on the field it is stored in. */
  ghost predicate IgnoresOwnField(naming: B.Naming) {
    forall o: ProcurementOption, t: Option<string> ::
      naming.fingerprint(o.(fingerprint := t)) == naming.fingerprint(o)
  }

  lemma OptionLeIsPreorder()
    ensures Preorder((x: ProcurementOption, y: ProcurementOption) => B.OptionLe(x, y))
  {
  }

  /** Sorting by identifier keeps the promises of every option. */
  lemma BuiltOptionPromises(
    c: B.Context, naming: B.Naming, p: B.Policy, options: seq<ProcurementOption>, excluded: seq<B.Exclusion>,
    o: ProcurementOption)
    requires B.ValidContext(c) && B.Split(c, naming, B.Ordered(c.flows), options, excluded)
    requires o in B.InputOf(c, options, p).options
    ensures B.Promises(c, o) && o in options
    ensures o.fingerprint == Some(naming.fingerprint(o.(fingerprint := None)))
  {
    hide B.Split, B.Promises;
    OptionLeIsPreorder();
    MemberOfSort((x: ProcurementOption, y: ProcurementOption) => B.OptionLe(x, y), options, o);
    B.SplitPromises(c, naming, B.Ordered(c.flows), options, excluded, o);
  }

  ghost predicate DemandFor(h: B.Horizon, s: B.Shortfall, d: Demand) {
    d == Demand(s.refinery, h.start, h.end, s.value * ((h.end - h.start) as real / 86400.0))
  }

  lemma DemandOfIs(h: B.Horizon, s: B.Shortfall)
    ensures DemandFor(h, s, B.DemandOf(h, s))
  {
  }

  /** The demands are the shortfalls of the simulation, over the days of the horizon. */
  lemma DemandsAreShortfalls(h: B.Horizon, shortfalls: seq<B.Shortfall>)
    ensures |B.Demands(h, shortfalls)| == |shortfalls|
    ensures forall d :: d in B.Demands(h, shortfalls) ==> exists s :: s in shortfalls && DemandFor(h, s, d)
    ensures forall s :: s in shortfalls ==> exists d :: d in B.Demands(h, shortfalls) && DemandFor(h, s, d)
  {
    hide DemandFor, B.DemandOf, B.Days, StableSort;
    var le := (x: B.Shortfall, y: B.Shortfall) => B.ShortfallLe(x, y);
    var ordered, demands := StableSort(le, shortfalls), B.Demands(h, shortfalls);
    StableSortSorts(le, shortfalls);
    SameMembers(ordered, shortfalls);
    forall d | d in demands ensures exists s :: s in shortfalls && DemandFor(h, s, d) {
      var k :| 0 <= k < |demands| && demands[k] == d;
      DemandOfIs(h, ordered[k]);
      assert ordered[k] in shortfalls;
    }
    forall s | s in shortfalls ensures exists d :: d in demands && DemandFor(h, s, d) {
      assert s in ordered;
      var k :| 0 <= k < |ordered| && ordered[k] == s;
      DemandOfIs(h, s);
      assert demands[k] in demands;
    }
  }

  /** They are listed by refinery. */
  lemma DemandsAscend(h: B.Horizon, shortfalls: seq<B.Shortfall>)
    ensures |B.Demands(h, shortfalls)| == |shortfalls|
    ensures forall i, j :: 0 <= i < j < |shortfalls| ==>
              B.Demands(h, shortfalls)[i].refineryId <= B.Demands(h, shortfalls)[j].refineryId
  {
    hide B.Days, StableSort;
    var le := (x: B.Shortfall, y: B.Shortfall) => B.ShortfallLe(x, y);
    var ordered, demands := StableSort(le, shortfalls), B.Demands(h, shortfalls);
    StableSortSorts(le, shortfalls);
    forall i, j | 0 <= i < j < |demands| ensures demands[i].refineryId <= demands[j].refineryId {
      assert le(ordered[i], ordered[j]);
    }
  }

  /** The options are listed by identifier. */
  lemma BuiltOptionsAscend(c: B.Context, p: B.Policy, options: seq<ProcurementOption>)
    ensures var built := B.InputOf(c, options, p).options;
            && multiset(built) == multiset(options)
            && forall i, j :: 0 <= i < j < |built| ==> built[i].optionId <= built[j].optionId
  {
    var le := (x: ProcurementOption, y: ProcurementOption) => B.OptionLe(x, y);
    OptionLeIsPreorder();
    StableSortSorts(le, options);
    var built := B.ById(options);
    forall i, j | 0 <= i < j < |built| ensures built[i].optionId <= built[j].optionId {
      assert le(built[i], built[j]);
    }
  }

  function OptionId(): ProcurementOption -> Uuid {
    (o: ProcurementOption) => o.optionId
  }

  function RefineryOf(): B.Shortfall -> Uuid {
    (s: B.Shortfall) => s.refinery
  }

  lemma BuiltOptionsValid(
    c: B.Context, naming: B.Naming, p: B.Policy, options: seq<ProcurementOption>, excluded: seq<B.Exclusion>)
    requires B.ValidContext(c) && B.Split(c, naming, B.Ordered(c.flows), options, excluded)
    ensures var built := B.InputOf(c, options, p).options;
            && (forall o :: o in built ==> ValidOption(o))
            && (NoRepeats(KeysOf(built, OptionId())) <==> NoRepeats(KeysOf(options, OptionId())))
  {
    hide B.Split, B.Promises, ValidOption, StableSort;
    BuiltOptionsAscend(c, p, options);
    RepeatsIgnoreOrder(B.InputOf(c, options, p).options, options, OptionId());
    forall o | o in B.InputOf(c, options, p).options ensures ValidOption(o) {
      BuiltOptionPromises(c, naming, p, options, excluded, o);
      B.SplitPromises(c, naming, B.Ordered(c.flows), options, excluded, o);
    }
  }

  lemma DemandsRepeatRefineries(h: B.Horizon, shortfalls: seq<B.Shortfall>)
    ensures var demands := B.Demands(h, shortfalls);
            (forall i, j :: 0 <= i < j < |demands| ==>
               (demands[i].refineryId, demands[i].intervalStart)
               != (demands[j].refineryId, demands[j].intervalStart))
            <==> NoRepeats(KeysOf(shortfalls, RefineryOf()))
  {
    hide StableSort, B.Days;
    var le := (x: B.Shortfall, y: B.Shortfall) => B.ShortfallLe(x, y);
    var ordered, demands := StableSort(le, shortfalls), B.Demands(h, shortfalls);
    StableSortSorts(le, shortfalls);
    RepeatsIgnoreOrder(ordered, shortfalls, RefineryOf());
    assert forall k :: 0 <= k < |demands| ==> KeysOf(ordered, RefineryOf())[k] == demands[k].refineryId;
  }

  lemma DemandsKeepSigns(h: B.Horizon, shortfalls: seq<B.Shortfall>)
    requires h.start < h.end
    ensures (forall d :: d in B.Demands(h, shortfalls) ==> ValidDemand(d))
            <==> forall s :: s in shortfalls ==> s.value >= 0.0
  {
    hide ValidDemand, B.Demands, DemandFor;
    DemandsAreShortfalls(h, shortfalls);
    forall d, s | DemandFor(h, s, d) ensures ValidDemand(d) <==> s.value >= 0.0 {
      DemandKeepsSign(h, s, d);
    }
  }

  lemma DemandKeepsSign(h: B.Horizon, s: B.Shortfall, d: Demand)
    requires h.start < h.end && DemandFor(h, s, d)
    ensures ValidDemand(d) <==> s.value >= 0.0
  {
    SignKept(s.value, (h.end - h.start) as real / 86400.0);
  }

  lemma SignKept(x: real, days: real)
    requires days > 0.0
    ensures x * days >= 0.0 <==> x >= 0.0
  {
  }

  /** The contract types refuse the input of a split exactly for two options of one identifier, two
      shortfalls of one refinery, a negative shortfall, or limits out of their range. */
  lemma InputValidExactly(
    c: B.Context, naming: B.Naming, p: B.Policy, options: seq<ProcurementOption>, excluded: seq<B.Exclusion>)
    requires B.ValidContext(c) && B.Split(c, naming, B.Ordered(c.flows), options, excluded) && options != []
    ensures var limits := p.constraints.limits;
            ValidInput(B.InputOf(c, options, p)) <==>
              && (forall i, j :: 0 <= i < j < |options| ==> options[i].optionId != options[j].optionId)
              && (forall i, j :: 0 <= i < j < |p.shortfalls| ==> p.shortfalls[i].refinery != p.shortfalls[j].refinery)
              && (forall s :: s in p.shortfalls ==> s.value >= 0.0)
              && limits.budget >= 0.0 && limits.supplierShare >= 0.0 && limits.corridorShare >= 0.0
              && limits.supplierShare <= 1.0 && limits.corridorShare <= 1.0
  {
    hide B.Split, ValidOption, ValidDemand, B.Demands, StableSort;
    var built := B.InputOf(c, options, p).options;
    BuiltOptionsValid(c, naming, p, options, excluded);
    DemandsRepeatRefineries(c.horizon, p.shortfalls);
    DemandsKeepSigns(c.horizon, p.shortfalls);
    BuiltOptionsAscend(c, p, options);
    assert |built| == |multiset(built)| == |options|;
    assert forall k :: 0 <= k < |built| ==> KeysOf(built, OptionId())[k] == built[k].optionId;
    assert forall k :: 0 <= k < |options| ==> KeysOf(options, OptionId())[k] == options[k].optionId;
    assert forall k :: 0 <= k < |p.shortfalls| ==> KeysOf(p.shortfalls, RefineryOf())[k] == p.shortfalls[k].refinery;
  }

  lemma DemandsCoverTheHorizon(h: B.Horizon, shortfalls: seq<B.Shortfall>, d: Demand)
    requires d in B.Demands(h, shortfalls)
    ensures d.intervalStart == h.start && d.intervalEnd == h.end
  {
  }

  /** A built option is on time for every demand of the input. */
  lemma BuiltOptionsAreOnTime(
    c: B.Context, p: B.Policy, options: seq<ProcurementOption>, o: ProcurementOption)
    requires B.Promises(c, o)
    ensures !BreaksRule(o, 0.0, B.InputOf(c, options, p).demands, OnTime)
  {
    forall d | d in B.InputOf(c, options, p).demands
      ensures !(o.windowStart < d.intervalStart || o.windowEnd > d.intervalEnd)
    {
      DemandsCoverTheHorizon(c.horizon, p.shortfalls, d);
    }
  }

  lemma {:induction false} DemandedRefineries(demands: seq<Demand>, r: Uuid)
    ensures r in DemandMap(demands) <==> exists i :: 0 <= i < |demands| && demands[i].refineryId == r
  {
    if demands != [] {
      var init, last := demands[..|demands| - 1], demands[|demands| - 1];
      DemandedRefineries(init, r);
      if i :| 0 <= i < |init| && init[i].refineryId == r {
        assert demands[i].refineryId == r;
      }
      if i :| 0 <= i < |demands| && demands[i].refineryId == r {
        assert i < |init| ==> init[i].refineryId == r;
      }
    }
  }

  /** The refinery is among the shortfalls of the simulation, be its own zero, and no eligible flow
      leads to it. */
  ghost predicate ListedWithoutFlow(c: B.Context, naming: B.Naming, p: B.Policy, r: Uuid) {
    && (exists i :: 0 <= i < |p.shortfalls| && p.shortfalls[i].refinery == r)
    && !SomeLeadsTo(c, naming, c.flows, r)
  }

  /** A refinery is demanded by the built input exactly when it is among the shortfalls. */
  lemma ShortfallsAreDemanded(h: B.Horizon, shortfalls: seq<B.Shortfall>, r: Uuid)
    ensures r in DemandMap(B.Demands(h, shortfalls))
            <==> exists i :: 0 <= i < |shortfalls| && shortfalls[i].refinery == r
  {
    var le := (x: B.Shortfall, y: B.Shortfall) => B.ShortfallLe(x, y);
    var ordered, demands := StableSort(le, shortfalls), B.Demands(h, shortfalls);
    DemandedRefineries(demands, r);
    if i :| 0 <= i < |shortfalls| && shortfalls[i].refinery == r {
      MemberOfSort(le, shortfalls, shortfalls[i]);
      var k :| 0 <= k < |ordered| && ordered[k] == shortfalls[i];
      assert demands[k].refineryId == r;
    }
    if k :| 0 <= k < |demands| && demands[k].refineryId == r {
      MemberOfSort(le, shortfalls, ordered[k]);
    }
  }

  ghost predicate LeadsTo(c: B.Context, naming: B.Naming, f: B.Flow, r: Uuid) {
    B.EligibleFlow(c, naming, f) && B.Refinery(c, f) == r
  }

  ghost predicate SomeLeadsTo(c: B.Context, naming: B.Naming, flows: seq<B.Flow>, r: Uuid) {
    exists i :: 0 <= i < |flows| && LeadsTo(c, naming, flows[i], r)
  }

  lemma LeadsToPush(c: B.Context, naming: B.Naming, flows: seq<B.Flow>, r: Uuid)
    requires flows != []
    ensures var n := |flows| - 1;
            SomeLeadsTo(c, naming, flows, r)
            <==> SomeLeadsTo(c, naming, flows[..n], r) || LeadsTo(c, naming, flows[n], r)
  {
    hide LeadsTo;
    var init := flows[..|flows| - 1];
    assert forall i :: 0 <= i < |init| ==> init[i] == flows[i];
  }

  lemma OptionRefinery(c: B.Context, naming: B.Naming, f: B.Flow, o: ProcurementOption)
    requires B.OptionOf(c, naming, f, o)
    ensures o.refineryId == B.Refinery(c, f)
  {
  }

  /** An option serves a refinery exactly when an eligible flow leads to it. */
  lemma {:induction false} OptionsServe(
    c: B.Context, naming: B.Naming, flows: seq<B.Flow>, options: seq<ProcurementOption>,
    excluded: seq<B.Exclusion>, r: Uuid)
    requires B.Split(c, naming, flows, options, excluded)
    ensures Touched(options, Refinery, r) <==> SomeLeadsTo(c, naming, flows, r)
  {
    hide B.EligibleFlow, B.OptionOf, B.Refinery, Touched, SomeLeadsTo, B.ExclusionOf;
    if flows == [] {
      NothingServes(c, naming, r);
    } else {
      LeadsToPush(c, naming, flows, r);
      var init, f := flows[..|flows| - 1], flows[|flows| - 1];
      if B.EligibleFlow(c, naming, f) {
        var earlier, o := options[..|options| - 1], options[|options| - 1];
        OptionsServe(c, naming, init, earlier, excluded, r);
        OptionRefinery(c, naming, f, o);
        TouchedPush(earlier, o, Refinery, r);
        assert earlier + [o] == options;
      } else {
        OptionsServe(c, naming, init, options, excluded[..|excluded| - 1], r);
      }
    }
  }

  lemma NothingServes(c: B.Context, naming: B.Naming, r: Uuid)
    ensures !Touched([], Refinery, r) && !SomeLeadsTo(c, naming, [], r)
  {
  }

  /** Sorting changes neither the flows nor the options, so the flows as given decide which demanded
      refinery has no option. */
  lemma UnservedExactly(
    c: B.Context, naming: B.Naming, p: B.Policy, options: seq<ProcurementOption>, excluded: seq<B.Exclusion>)
    requires B.Split(c, naming, B.Ordered(c.flows), options, excluded)
    ensures Unserved(B.InputOf(c, options, p)) <==> exists r :: ListedWithoutFlow(c, naming, p, r)
  {
    var input := B.InputOf(c, options, p);
    forall r
      ensures ListedWithoutFlow(c, naming, p, r)
              <==> r in DemandMap(input.demands) && !Touched(input.options, Refinery, r)
    {
      ShortfallsAreDemanded(c.horizon, p.shortfalls, r);
      OptionsServe(c, naming, B.Ordered(c.flows), options, excluded, r);
      OrderedFlowsLead(c, naming, r);
      OrderedOptionsServe(options, r);
    }
  }

  lemma OrderedFlowsLead(c: B.Context, naming: B.Naming, r: Uuid)
    ensures SomeLeadsTo(c, naming, B.Ordered(c.flows), r) <==> SomeLeadsTo(c, naming, c.flows, r)
  {
    hide LeadsTo;
    var ordered := B.Ordered(c.flows);
    forall f ensures f in ordered <==> f in c.flows {
      MemberOfSort((x: B.Flow, y: B.Flow) => B.FlowLe(x, y), c.flows, f);
    }
    if i :| 0 <= i < |ordered| && LeadsTo(c, naming, ordered[i], r) {
      assert ordered[i] in c.flows;
    }
    if i :| 0 <= i < |c.flows| && LeadsTo(c, naming, c.flows[i], r) {
      assert c.flows[i] in ordered;
    }
  }

  lemma OrderedOptionsServe(options: seq<ProcurementOption>, r: Uuid)
    ensures Touched(B.ById(options), Refinery, r) <==> Touched(options, Refinery, r)
  {
    var ordered := B.ById(options);
    OptionLeIsPreorder();
    forall o ensures o in ordered <==> o in options {
      MemberOfSort((x: ProcurementOption, y: ProcurementOption) => B.OptionLe(x, y), options, o);
    }
    if i :| 0 <= i < |ordered| && r in Keys(ordered[i], Refinery) {
      assert ordered[i] in options;
    }
    if i :| 0 <= i < |options| && r in Keys(options[i], Refinery) {
      assert options[i] in ordered;
    }
  }

  /** On every built input, declaring the whole demand short with a truthful objective passes the
      check, unless a listed refinery has no eligible flow: then, and only then, the check raises. */
  lemma AllShortagePassesOnBuiltInputs(
    c: B.Context, naming: B.Naming, p: B.Policy, options: seq<ProcurementOption>, excluded: seq<B.Exclusion>,
    w: Components)
    requires B.ValidContext(c) && B.Split(c, naming, B.Ordered(c.flows), options, excluded)
    requires ValidInput(B.InputOf(c, options, p)) && NonNegative(w) && IgnoresOwnField(naming)
    ensures var input := B.InputOf(c, options, p);
            var s := DemandMap(input.demands);
            CheckOutcome(input, naming.fingerprint, w, map[], s, Objective(input, w, map[], s))
            == if exists r :: ListedWithoutFlow(c, naming, p, r) then Failure(UnservedRefinery) else Success(true)
  {
    hide B.Split, BreaksRule, Passes, Objective, Raw, ValidInput, Rejected, DemandMap, Unserved, ListedWithoutFlow;
    var input := B.InputOf(c, options, p);
    forall o | o in input.options
      ensures o.landedCost.Some? && o.fingerprint == Some(naming.fingerprint(o))
      ensures !BreaksRule(o, 0.0, input.demands, OnTime)
    {
      BuiltOptionPromises(c, naming, p, options, excluded, o);
      BuiltOptionsAreOnTime(c, p, options, o);
    }
    CheckerVerdicts.AllShortagePasses(input, w, naming.fingerprint);
    UnservedExactly(c, naming, p, options, excluded);
  }
}
