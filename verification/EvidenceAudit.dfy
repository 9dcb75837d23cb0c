/** The verdict of an evidence audit. Every failure that is collected is characterised by its
    cause, and the verdict is the conjunction of the obligations. */
module EvidenceAudit {
  import opened Wrappers
  import opened MetricTree

  datatype EvidenceRecord = EvidenceRecord(hash: string, parents: seq<Uuid>, truth: TruthClass)

  datatype EvidenceReference = EvidenceReference(evidenceId: Uuid, hash: string)

  datatype AssumptionStatus = Draft | Approved | Expired | Superseded

  datatype Assumption = Assumption(
    hash: string, status: AssumptionStatus, expiresAt: Option<int>, scenarioId: Option<Uuid>)

  datatype AssumptionReference = AssumptionReference(assumptionId: Uuid, hash: string)

  datatype Plan = Plan(
    root: Node, evidence: seq<EvidenceReference>, assumptions: seq<AssumptionReference>, scenarioId: Uuid,
    solverUsable: bool, checkerPassed: bool, sanctionsPassed: bool, compatibilityPassed: bool, reconciled: bool)

  /** The records of the plan's snapshot, by identifier. */
  datatype Records = Records(evidence: map<Uuid, EvidenceRecord>, assumptions: map<Uuid, Assumption>)

  datatype Code =
    | EvidenceMissing | EvidenceHashMismatch | EvidenceParentMissing
    | AssumptionMissing | AssumptionHashMismatch | AssumptionSuperseded | AssumptionNotApproved
    | AssumptionExpired | AssumptionScopeMismatch
    | ProvenanceMissing | SourceIncomplete | TransformationIncomplete | VersionMissing | MetricStale
    | TruthTransitionInvalid
    | SolverNotUsable | CheckerFailed | SanctionsFailed | CompatibilityFailed | RecomputationMismatch

  datatype Path = EvidencePath(id: Uuid) | AssumptionPath(id: Uuid) | MetricPath(path: string) | PlanPath

  /** What a message names besides its fixed text. */
  datatype Detail = Plain | About(id: Uuid) | Freshly(freshness: Freshness) | Between(from: TruthClass, to: TruthClass)

  datatype AuditFailure = AuditFailure(code: Code, path: Path, detail: Detail)

  datatype MetricVerdict = MetricVerdict(path: string, metric: Metric, passed: bool)

  datatype AuditResult = AuditResult(
    passed: bool, failures: seq<AuditFailure>, metrics: seq<MetricVerdict>, covered: nat, total: nat, coverage: real)

  datatype AuditError = StatusDisagreesWithFailures

  // ---------------------------------------------------------------- policies

  function Lower(s: string): string {
    seq(|s|, i requires 0 <= i < |s| => if 'A' <= s[i] <= 'Z' then s[i] - 'A' + 'a' else s[i])
  }

  predicate IsSpace(c: char) {
    c == ' ' || c == '\t' || c == '\n' || c == '\r'
  }

  predicate Blank(s: string) {
    forall i :: 0 <= i < |s| ==> IsSpace(s[i])
  }

  predicate TruthAllowed(metric: TruthClass, evidence: TruthClass) {
    match metric
    case Observed => evidence == Observed
    case Derived => evidence == Observed || evidence == Derived || evidence == Assumed
    case Inferred => evidence != Modeled
    case Modeled => true
    case Assumed => true
  }

  predicate Blocking(freshness: Freshness) {
    freshness == Stale || freshness == Unavailable
  }

  /** Which evidence may support which metric. Observed evidence supports everything; what was
      modelled supports models and assumptions only. */
  lemma TruthPolicy(metric: TruthClass, evidence: TruthClass)
    ensures TruthAllowed(metric, evidence) <==>
              evidence in (match metric
                           case Observed => {Observed}
                           case Derived => {Observed, Derived, Assumed}
                           case Inferred => {Observed, Derived, Inferred, Assumed}
                           case Modeled => {Observed, Derived, Inferred, Modeled, Assumed}
                           case Assumed => {Observed, Derived, Inferred, Modeled, Assumed})
  {
  }

  /** Hashes are compared without regard to the case of their letters. */
  lemma LowerIgnoresCase(a: string, b: string)
    ensures Lower(a) == Lower(b) <==>
              |a| == |b| && forall i :: 0 <= i < |a| ==> SameLetter(a[i], b[i])
  {
    var x, y := Lower(a), Lower(b);
    if x == y {
      forall i | 0 <= i < |a| ensures SameLetter(a[i], b[i]) {
        assert x[i] == y[i];
      }
    } else if |a| == |b| {
      var i :| 0 <= i < |a| && x[i] != y[i];
      assert !SameLetter(a[i], b[i]);
    }
  }

  ghost predicate SameLetter(a: char, b: char) {
    || a == b
    || ('A' <= a <= 'Z' && b as int == a as int + 32)
    || ('A' <= b <= 'Z' && a as int == b as int + 32)
  }

  /** Blank text holds nothing but white space. */
  lemma BlankExactly(s: string)
    ensures Blank(s) <==> forall c :: c in s ==> c in {' ', '\t', '\n', '\r'}
  {
    if Blank(s) {
      forall c | c in s ensures IsSpace(c) {
        var i :| 0 <= i < |s| && s[i] == c;
      }
    } else {
      var i :| 0 <= i < |s| && !IsSpace(s[i]);
      assert s[i] in s;
    }
  }

  lemma ReferencedExactly(plan: Plan, id: Uuid)
    ensures id in Referenced(plan) <==> exists ref :: ref in plan.evidence && ref.evidenceId == id
  {
    if id in Referenced(plan) {
      var i :| 0 <= i < |plan.evidence| && plan.evidence[i].evidenceId == id;
      assert plan.evidence[i] in plan.evidence;
    }
  }

  // ---------------------------------------------------------------- causes of failures

  /** The failures one evidence reference causes. */
  ghost predicate ReferenceFails(records: Records, ref: EvidenceReference, f: AuditFailure) {
    var id := ref.evidenceId;
    f.path == EvidencePath(id) &&
    match f.code
    case EvidenceMissing => id !in records.evidence && f.detail == Plain
    case EvidenceHashMismatch =>
      id in records.evidence && Lower(records.evidence[id].hash) != Lower(ref.hash) && f.detail == Plain
    case EvidenceParentMissing =>
      && id in records.evidence && f.detail.About?
      && f.detail.id in records.evidence[id].parents && f.detail.id !in records.evidence
    case _ => false
  }

  /** The failures one assumption reference causes. */
  ghost predicate AssumptionFails(
    records: Records, scenario: Uuid, at: int, ref: AssumptionReference, f: AuditFailure)
  {
    var id := ref.assumptionId;
    && f.path == AssumptionPath(id) && f.detail == Plain
    && if id !in records.assumptions then f.code == AssumptionMissing
       else
         var a := records.assumptions[id];
         match f.code
         case AssumptionHashMismatch => a.hash != ref.hash
         case AssumptionSuperseded => a.status == Superseded
         case AssumptionNotApproved => a.status != Superseded && a.status != Approved
         case AssumptionExpired => a.expiresAt.Some? && a.expiresAt.value <= at
         case AssumptionScopeMismatch => a.scenarioId.Some? && a.scenarioId.value != scenario
         case _ => false
  }

  /** The metric cites evidence that the plan does not bind. */
  predicate Unbound(records: Records, referenced: set<Uuid>, id: Uuid) {
    id !in records.evidence || id !in referenced
  }

  /** The failures of the envelope itself, apart from its citations. */
  ghost predicate OwnFailure(entry: (string, Metric), f: AuditFailure) {
    var m := entry.1;
    f.path == MetricPath(entry.0) &&
    match f.code
    case ProvenanceMissing => m.evidenceIds == [] && f.detail == Plain
    case SourceIncomplete => m.sourceRefs == [] && f.detail == Plain
    case TransformationIncomplete => Blank(m.transformation) && f.detail == Plain
    case VersionMissing => Blank(m.modelVersion) && f.detail == Plain
    case MetricStale => Blocking(m.freshness) && f.detail == Freshly(m.freshness)
    case _ => false
  }

  /** The failures of the first `n` citations. */
  ghost predicate CitationFailure(
    records: Records, referenced: set<Uuid>, entry: (string, Metric), n: nat, f: AuditFailure)
    requires n <= |entry.1.evidenceIds|
  {
    && f.path == MetricPath(entry.0)
    && match f.code
       case EvidenceMissing =>
         f.detail.About? && f.detail.id in entry.1.evidenceIds[..n] && Unbound(records, referenced, f.detail.id)
       case TruthTransitionInvalid => CitedWrongly(records, referenced, entry.1, n, f.detail)
       case _ => false
  }

  /** The failures one metric causes. */
  ghost predicate MetricFails(records: Records, referenced: set<Uuid>, entry: (string, Metric), f: AuditFailure) {
    OwnFailure(entry, f) || CitationFailure(records, referenced, entry, |entry.1.evidenceIds|, f)
  }

  /** One of the first `n` citations is bound, but of a class the metric's class may not rest on. */
  ghost predicate CitedWrongly(records: Records, referenced: set<Uuid>, m: Metric, n: nat, detail: Detail)
    requires n <= |m.evidenceIds|
  {
    exists k :: 0 <= k < n && Wrong(records, referenced, m, m.evidenceIds[k], detail)
  }

  ghost predicate Wrong(records: Records, referenced: set<Uuid>, m: Metric, id: Uuid, detail: Detail) {
    && !Unbound(records, referenced, id)
    && !TruthAllowed(m.truth, records.evidence[id].truth)
    && detail == Between(records.evidence[id].truth, m.truth)
  }

  /** The failures of the plan as a whole. */
  ghost predicate PlanFails(plan: Plan, f: AuditFailure) {
    && f.path == PlanPath && f.detail == Plain
    && match f.code
       case SolverNotUsable => !plan.solverUsable
       case CheckerFailed => !plan.checkerPassed
       case SanctionsFailed => !plan.sanctionsPassed
       case CompatibilityFailed => !plan.compatibilityPassed
       case RecomputationMismatch => !plan.reconciled
       case _ => false
  }

  function Referenced(plan: Plan): set<Uuid> {
    set i | 0 <= i < |plan.evidence| :: plan.evidence[i].evidenceId
  }

  function Metrics(plan: Plan): seq<(string, Metric)> {
    IterMetrics(plan.root, ROOT)
  }

  ghost predicate SomeReferenceFails(records: Records, refs: seq<EvidenceReference>, f: AuditFailure) {
    exists i :: 0 <= i < |refs| && ReferenceFails(records, refs[i], f)
  }

  ghost predicate SomeAssumptionFails(
    records: Records, scenario: Uuid, at: int, refs: seq<AssumptionReference>, f: AuditFailure)
  {
    exists i :: 0 <= i < |refs| && AssumptionFails(records, scenario, at, refs[i], f)
  }

  ghost predicate SomeMetricFails(
    records: Records, referenced: set<Uuid>, entries: seq<(string, Metric)>, f: AuditFailure)
  {
    exists i :: 0 <= i < |entries| && MetricFails(records, referenced, entries[i], f)
  }

  /** The failure has a cause somewhere. */
  ghost predicate Due(plan: Plan, records: Records, at: int, f: AuditFailure) {
    || SomeReferenceFails(records, plan.evidence, f)
    || SomeAssumptionFails(records, plan.scenarioId, at, plan.assumptions, f)
    || SomeMetricFails(records, Referenced(plan), Metrics(plan), f)
    || PlanFails(plan, f)
  }

  // ---------------------------------------------------------------- obligations

  ghost predicate ReferenceSound(records: Records, ref: EvidenceReference) {
    && ref.evidenceId in records.evidence
    && Lower(records.evidence[ref.evidenceId].hash) == Lower(ref.hash)
    && forall parent :: parent in records.evidence[ref.evidenceId].parents ==> parent in records.evidence
  }

  ghost predicate AssumptionSound(records: Records, scenario: Uuid, at: int, ref: AssumptionReference) {
    && ref.assumptionId in records.assumptions
    && var a := records.assumptions[ref.assumptionId];
       && a.hash == ref.hash && a.status == Approved
       && (a.expiresAt.None? || at < a.expiresAt.value)
       && (a.scenarioId.None? || a.scenarioId.value == scenario)
  }

  ghost predicate MetricSound(records: Records, referenced: set<Uuid>, m: Metric) {
    && m.evidenceIds != [] && m.sourceRefs != []
    && !Blank(m.transformation) && !Blank(m.modelVersion) && m.freshness != Stale && m.freshness != Unavailable
    && forall k :: 0 <= k < |m.evidenceIds| ==> Supports(records, referenced, m, m.evidenceIds[k])
  }

  ghost predicate Supports(records: Records, referenced: set<Uuid>, m: Metric, id: Uuid) {
    !Unbound(records, referenced, id) && TruthAllowed(m.truth, records.evidence[id].truth)
  }

  /** Everything an audit asks of a plan. */
  ghost predicate Sound(plan: Plan, records: Records, at: int) {
    && (forall i :: 0 <= i < |plan.evidence| ==> ReferenceSound(records, plan.evidence[i]))
    && (forall i :: 0 <= i < |plan.assumptions| ==>
          AssumptionSound(records, plan.scenarioId, at, plan.assumptions[i]))
    && (forall i :: 0 <= i < |Metrics(plan)| ==> MetricSound(records, Referenced(plan), Metrics(plan)[i].1))
    && plan.solverUsable && plan.checkerPassed && plan.sanctionsPassed && plan.compatibilityPassed
    && plan.reconciled
  }

  lemma ReferenceFailsIff(records: Records, ref: EvidenceReference)
    ensures ReferenceSound(records, ref) <==> forall f :: !ReferenceFails(records, ref, f)
  {
    var id, path := ref.evidenceId, EvidencePath(ref.evidenceId);
    if forall f :: !ReferenceFails(records, ref, f) {
      assert !ReferenceFails(records, ref, AuditFailure(EvidenceMissing, path, Plain));
      assert !ReferenceFails(records, ref, AuditFailure(EvidenceHashMismatch, path, Plain));
      forall parent | parent in records.evidence[id].parents ensures parent in records.evidence {
        assert !ReferenceFails(records, ref, AuditFailure(EvidenceParentMissing, path, About(parent)));
      }
    }
  }

  lemma AssumptionFailsIff(records: Records, scenario: Uuid, at: int, ref: AssumptionReference)
    ensures AssumptionSound(records, scenario, at, ref)
            <==> forall f :: !AssumptionFails(records, scenario, at, ref, f)
  {
    if forall f :: !AssumptionFails(records, scenario, at, ref, f) {
      var path := AssumptionPath(ref.assumptionId);
      assert !AssumptionFails(records, scenario, at, ref, AuditFailure(AssumptionMissing, path, Plain));
      assert !AssumptionFails(records, scenario, at, ref, AuditFailure(AssumptionHashMismatch, path, Plain));
      assert !AssumptionFails(records, scenario, at, ref, AuditFailure(AssumptionSuperseded, path, Plain));
      assert !AssumptionFails(records, scenario, at, ref, AuditFailure(AssumptionNotApproved, path, Plain));
      assert !AssumptionFails(records, scenario, at, ref, AuditFailure(AssumptionExpired, path, Plain));
      assert !AssumptionFails(records, scenario, at, ref, AuditFailure(AssumptionScopeMismatch, path, Plain));
    }
  }

  lemma MetricFailsIff(records: Records, referenced: set<Uuid>, entry: (string, Metric))
    ensures MetricSound(records, referenced, entry.1)
            <==> forall f :: !MetricFails(records, referenced, entry, f)
  {
    var m := entry.1;
    if MetricSound(records, referenced, m) {
      forall f ensures !MetricFails(records, referenced, entry, f) {
        forall k | 0 <= k < |m.evidenceIds|
          ensures !Unbound(records, referenced, m.evidenceIds[k])
          ensures !Wrong(records, referenced, m, m.evidenceIds[k], f.detail)
        {
          assert Supports(records, referenced, m, m.evidenceIds[k]);
        }
      }
    } else {
      var f := UnsoundMetricFails(records, referenced, entry);
    }
  }

  lemma UnsoundMetricFails(records: Records, referenced: set<Uuid>, entry: (string, Metric))
    returns (f: AuditFailure)
    requires !MetricSound(records, referenced, entry.1)
    ensures MetricFails(records, referenced, entry, f)
  {
    var m, path := entry.1, MetricPath(entry.0);
    if m.evidenceIds == [] {
      f := AuditFailure(ProvenanceMissing, path, Plain);
    } else if m.sourceRefs == [] {
      f := AuditFailure(SourceIncomplete, path, Plain);
    } else if Blank(m.transformation) {
      f := AuditFailure(TransformationIncomplete, path, Plain);
    } else if Blank(m.modelVersion) {
      f := AuditFailure(VersionMissing, path, Plain);
    } else if Blocking(m.freshness) {
      f := AuditFailure(MetricStale, path, Freshly(m.freshness));
    } else {
      var k :| 0 <= k < |m.evidenceIds| && !Supports(records, referenced, m, m.evidenceIds[k]);
      var id := m.evidenceIds[k];
      if Unbound(records, referenced, id) {
        f := AuditFailure(EvidenceMissing, path, About(id));
      } else {
        f := AuditFailure(TruthTransitionInvalid, path, Between(records.evidence[id].truth, m.truth));
        assert Wrong(records, referenced, m, id, f.detail);
      }
    }
  }

  lemma PlanFailsIff(plan: Plan)
    ensures (plan.solverUsable && plan.checkerPassed && plan.sanctionsPassed && plan.compatibilityPassed
             && plan.reconciled) <==> forall f :: !PlanFails(plan, f)
  {
    if forall f :: !PlanFails(plan, f) {
      assert !PlanFails(plan, AuditFailure(SolverNotUsable, PlanPath, Plain));
      assert !PlanFails(plan, AuditFailure(CheckerFailed, PlanPath, Plain));
      assert !PlanFails(plan, AuditFailure(SanctionsFailed, PlanPath, Plain));
      assert !PlanFails(plan, AuditFailure(CompatibilityFailed, PlanPath, Plain));
      assert !PlanFails(plan, AuditFailure(RecomputationMismatch, PlanPath, Plain));
    }
  }

  ghost predicate NothingDue(plan: Plan, records: Records, at: int) {
    forall f :: !Due(plan, records, at, f)
  }

  /** No failure has a cause exactly when every obligation holds. */
  lemma SoundIffNothingDue(plan: Plan, records: Records, at: int)
    ensures Sound(plan, records, at) <==> NothingDue(plan, records, at)
  {
    if NothingDue(plan, records, at) {
      NothingDueIsSound(plan, records, at);
    }
    if Sound(plan, records, at) {
      forall f ensures !Due(plan, records, at, f) {
        SoundHasNoFailure(plan, records, at, f);
      }
    }
  }

  lemma NothingDueIsSound(plan: Plan, records: Records, at: int)
    requires NothingDue(plan, records, at)
    ensures Sound(plan, records, at)
  {
    forall i | 0 <= i < |plan.evidence| ensures ReferenceSound(records, plan.evidence[i]) {
      ReferenceFailsIff(records, plan.evidence[i]);
      forall f ensures !ReferenceFails(records, plan.evidence[i], f) {
        assert !Due(plan, records, at, f);
      }
    }
    forall i | 0 <= i < |plan.assumptions|
      ensures AssumptionSound(records, plan.scenarioId, at, plan.assumptions[i])
    {
      AssumptionFailsIff(records, plan.scenarioId, at, plan.assumptions[i]);
      forall f ensures !AssumptionFails(records, plan.scenarioId, at, plan.assumptions[i], f) {
        assert !Due(plan, records, at, f);
      }
    }
    forall i | 0 <= i < |Metrics(plan)| ensures MetricSound(records, Referenced(plan), Metrics(plan)[i].1) {
      MetricFailsIff(records, Referenced(plan), Metrics(plan)[i]);
      forall f ensures !MetricFails(records, Referenced(plan), Metrics(plan)[i], f) {
        assert !Due(plan, records, at, f);
      }
    }
    PlanFailsIff(plan);
    forall f ensures !PlanFails(plan, f) {
      assert !Due(plan, records, at, f);
    }
  }

  lemma SoundHasNoFailure(plan: Plan, records: Records, at: int, f: AuditFailure)
    requires Sound(plan, records, at)
    ensures !Due(plan, records, at, f)
  {
    forall i | 0 <= i < |plan.evidence| ensures !ReferenceFails(records, plan.evidence[i], f) {
      ReferenceFailsIff(records, plan.evidence[i]);
    }
    forall i | 0 <= i < |plan.assumptions|
      ensures !AssumptionFails(records, plan.scenarioId, at, plan.assumptions[i], f)
    {
      AssumptionFailsIff(records, plan.scenarioId, at, plan.assumptions[i]);
    }
    forall i | 0 <= i < |Metrics(plan)| ensures !MetricFails(records, Referenced(plan), Metrics(plan)[i], f) {
      MetricFailsIff(records, Referenced(plan), Metrics(plan)[i]);
    }
    PlanFailsIff(plan);
  }

  // ---------------------------------------------------------------- collecting failures

  method CheckReference(records: Records, ref: EvidenceReference) returns (found: seq<AuditFailure>)
    ensures forall f :: f in found <==> ReferenceFails(records, ref, f)
  {
    var path := EvidencePath(ref.evidenceId);
    if ref.evidenceId !in records.evidence {
      return [AuditFailure(EvidenceMissing, path, Plain)];
    }
    var record := records.evidence[ref.evidenceId];
    found := [];
    if Lower(record.hash) != Lower(ref.hash) {
      found := [AuditFailure(EvidenceHashMismatch, path, Plain)];
    }
    ghost var first := found;
    for i := 0 to |record.parents|
      invariant forall f :: f in found <==> f in first || ParentMissing(records, path, record.parents[..i], f)
    {
      if record.parents[i] !in records.evidence {
        found := found + [AuditFailure(EvidenceParentMissing, path, About(record.parents[i]))];
      }
      assert record.parents[..i + 1] == record.parents[..i] + [record.parents[i]];
    }
    assert record.parents[..|record.parents|] == record.parents;
  }

  ghost predicate ParentMissing(records: Records, path: Path, parents: seq<Uuid>, f: AuditFailure) {
    && f.code == EvidenceParentMissing && f.path == path && f.detail.About?
    && f.detail.id in parents && f.detail.id !in records.evidence
  }

  method CheckReferences(records: Records, refs: seq<EvidenceReference>) returns (found: seq<AuditFailure>)
    ensures forall f :: f in found <==> SomeReferenceFails(records, refs, f)
  {
    found := [];
    for i := 0 to |refs|
      invariant forall f :: f in found <==> SomeReferenceFails(records, refs[..i], f)
    {
      var more := CheckReference(records, refs[i]);
      ghost var longer := refs[..i + 1];
      assert longer[..i] == refs[..i] && longer[i] == refs[i];
      forall f ensures SomeReferenceFails(records, longer, f)
                       <==> SomeReferenceFails(records, refs[..i], f) || ReferenceFails(records, refs[i], f) {
        ReferencesPush(records, longer, f);
      }
      found := found + more;
    }
    assert refs[..|refs|] == refs;
  }

  lemma ReferencesPush(records: Records, refs: seq<EvidenceReference>, f: AuditFailure)
    requires refs != []
    ensures SomeReferenceFails(records, refs, f)
            <==> SomeReferenceFails(records, refs[..|refs| - 1], f) || ReferenceFails(records, refs[|refs| - 1], f)
  {
    hide ReferenceFails;
    var init := refs[..|refs| - 1];
    if i :| 0 <= i < |init| && ReferenceFails(records, init[i], f) {
      assert ReferenceFails(records, refs[i], f);
    }
    if i :| 0 <= i < |refs| && ReferenceFails(records, refs[i], f) {
      assert i < |init| ==> ReferenceFails(records, init[i], f);
    }
  }

  method CheckAssumption(records: Records, scenario: Uuid, at: int, ref: AssumptionReference)
    returns (found: seq<AuditFailure>)
    ensures forall f :: f in found <==> AssumptionFails(records, scenario, at, ref, f)
  {
    var path := AssumptionPath(ref.assumptionId);
    if ref.assumptionId !in records.assumptions {
      return [AuditFailure(AssumptionMissing, path, Plain)];
    }
    var assumption := records.assumptions[ref.assumptionId];
    found := [];
    if assumption.hash != ref.hash {
      found := found + [AuditFailure(AssumptionHashMismatch, path, Plain)];
    }
    if assumption.status == Superseded {
      found := found + [AuditFailure(AssumptionSuperseded, path, Plain)];
    } else if assumption.status != Approved {
      found := found + [AuditFailure(AssumptionNotApproved, path, Plain)];
    }
    if assumption.expiresAt.Some? && assumption.expiresAt.value <= at {
      found := found + [AuditFailure(AssumptionExpired, path, Plain)];
    }
    if assumption.scenarioId.Some? && assumption.scenarioId.value != scenario {
      found := found + [AuditFailure(AssumptionScopeMismatch, path, Plain)];
    }
  }

  method CheckAssumptions(records: Records, scenario: Uuid, at: int, refs: seq<AssumptionReference>)
    returns (found: seq<AuditFailure>)
    ensures forall f :: f in found <==> SomeAssumptionFails(records, scenario, at, refs, f)
  {
    found := [];
    for i := 0 to |refs|
      invariant forall f :: f in found <==> SomeAssumptionFails(records, scenario, at, refs[..i], f)
    {
      var more := CheckAssumption(records, scenario, at, refs[i]);
      ghost var longer := refs[..i + 1];
      assert longer[..i] == refs[..i] && longer[i] == refs[i];
      forall f ensures SomeAssumptionFails(records, scenario, at, longer, f)
                       <==> || SomeAssumptionFails(records, scenario, at, refs[..i], f)
                            || AssumptionFails(records, scenario, at, refs[i], f) {
        AssumptionsPush(records, scenario, at, longer, f);
      }
      found := found + more;
    }
    assert refs[..|refs|] == refs;
  }

  lemma AssumptionsPush(
    records: Records, scenario: Uuid, at: int, refs: seq<AssumptionReference>, f: AuditFailure)
    requires refs != []
    ensures SomeAssumptionFails(records, scenario, at, refs, f)
            <==> || SomeAssumptionFails(records, scenario, at, refs[..|refs| - 1], f)
                 || AssumptionFails(records, scenario, at, refs[|refs| - 1], f)
  {
    hide AssumptionFails;
    var init := refs[..|refs| - 1];
    if i :| 0 <= i < |init| && AssumptionFails(records, scenario, at, init[i], f) {
      assert AssumptionFails(records, scenario, at, refs[i], f);
    }
    if i :| 0 <= i < |refs| && AssumptionFails(records, scenario, at, refs[i], f) {
      assert i < |init| ==> AssumptionFails(records, scenario, at, init[i], f);
    }
  }

  lemma CitationPush(records: Records, referenced: set<Uuid>, entry: (string, Metric), n: nat, f: AuditFailure)
    requires n < |entry.1.evidenceIds|
    ensures CitationFailure(records, referenced, entry, n + 1, f)
            <==> || CitationFailure(records, referenced, entry, n, f)
                 || (&& f.path == MetricPath(entry.0)
                     && var id := entry.1.evidenceIds[n];
                        || (f.code == EvidenceMissing && f.detail == About(id) && Unbound(records, referenced, id))
                        || (f.code == TruthTransitionInvalid && Wrong(records, referenced, entry.1, id, f.detail)))
  {
    assert entry.1.evidenceIds[..n + 1] == entry.1.evidenceIds[..n] + [entry.1.evidenceIds[n]];
  }

  method CheckEnvelope(entry: (string, Metric)) returns (found: seq<AuditFailure>)
    ensures forall f :: f in found <==> OwnFailure(entry, f)
  {
    var m, path := entry.1, MetricPath(entry.0);
    found := [];
    if m.evidenceIds == [] {
      found := found + [AuditFailure(ProvenanceMissing, path, Plain)];
    }
    if m.sourceRefs == [] {
      found := found + [AuditFailure(SourceIncomplete, path, Plain)];
    }
    if Blank(m.transformation) {
      found := found + [AuditFailure(TransformationIncomplete, path, Plain)];
    }
    if Blank(m.modelVersion) {
      found := found + [AuditFailure(VersionMissing, path, Plain)];
    }
    if Blocking(m.freshness) {
      found := found + [AuditFailure(MetricStale, path, Freshly(m.freshness))];
    }
  }

  method AuditMetric(records: Records, referenced: set<Uuid>, entry: (string, Metric))
    returns (found: seq<AuditFailure>)
    ensures forall f :: f in found <==> MetricFails(records, referenced, entry, f)
  {
    found := CheckEnvelope(entry);
    var m, path := entry.1, MetricPath(entry.0);
    for i := 0 to |m.evidenceIds|
      invariant forall f :: f in found <==> OwnFailure(entry, f) || CitationFailure(records, referenced, entry, i, f)
    {
      var id := m.evidenceIds[i];
      ghost var before := found;
      if id !in records.evidence || id !in referenced {
        found := found + [AuditFailure(EvidenceMissing, path, About(id))];
      } else if !TruthAllowed(m.truth, records.evidence[id].truth) {
        found := found + [AuditFailure(TruthTransitionInvalid, path, Between(records.evidence[id].truth, m.truth))];
      }
      forall f ensures f in found <==> OwnFailure(entry, f) || CitationFailure(records, referenced, entry, i + 1, f) {
        CitationPush(records, referenced, entry, i, f);
        assert f in before <==> OwnFailure(entry, f) || CitationFailure(records, referenced, entry, i, f);
      }
    }
    assert m.evidenceIds[..|m.evidenceIds|] == m.evidenceIds;
  }

  lemma MetricsPush(records: Records, referenced: set<Uuid>, entries: seq<(string, Metric)>, f: AuditFailure)
    requires entries != []
    ensures SomeMetricFails(records, referenced, entries, f)
            <==> || SomeMetricFails(records, referenced, entries[..|entries| - 1], f)
                 || MetricFails(records, referenced, entries[|entries| - 1], f)
  {
    hide MetricFails;
    var init := entries[..|entries| - 1];
    if i :| 0 <= i < |init| && MetricFails(records, referenced, init[i], f) {
      assert MetricFails(records, referenced, entries[i], f);
    }
    if i :| 0 <= i < |entries| && MetricFails(records, referenced, entries[i], f) {
      assert i < |init| ==> MetricFails(records, referenced, init[i], f);
    }
  }

  /** Every metric gets a verdict of its own, and its failures join the others. */
  method AuditMetrics(records: Records, referenced: set<Uuid>, entries: seq<(string, Metric)>)
    returns (verdicts: seq<MetricVerdict>, found: seq<AuditFailure>)
    ensures forall f :: f in found <==> SomeMetricFails(records, referenced, entries, f)
    ensures |verdicts| == |entries|
    ensures forall i :: 0 <= i < |entries| ==> VerdictAt(records, referenced, entries[i], verdicts[i])
  {
    verdicts, found := [], [];
    for i := 0 to |entries|
      invariant forall f :: f in found <==> SomeMetricFails(records, referenced, entries[..i], f)
      invariant |verdicts| == i
      invariant forall k :: 0 <= k < i ==> VerdictAt(records, referenced, entries[k], verdicts[k])
    {
      var more := AuditMetric(records, referenced, entries[i]);
      ghost var longer := entries[..i + 1];
      assert longer[..i] == entries[..i] && longer[i] == entries[i];
      forall f ensures SomeMetricFails(records, referenced, longer, f)
                       <==> || SomeMetricFails(records, referenced, entries[..i], f)
                            || MetricFails(records, referenced, entries[i], f) {
        MetricsPush(records, referenced, longer, f);
      }
      MetricFailsIff(records, referenced, entries[i]);
      assert more != [] ==> MetricFails(records, referenced, entries[i], more[0]);
      verdicts := verdicts + [MetricVerdict(entries[i].0, entries[i].1, more == [])];
      found := found + more;
    }
    assert entries[..|entries|] == entries;
  }

  ghost predicate VerdictAt(records: Records, referenced: set<Uuid>, entry: (string, Metric), v: MetricVerdict) {
    v.path == entry.0 && v.metric == entry.1 && (v.passed <==> MetricSound(records, referenced, entry.1))
  }

  // ---------------------------------------------------------------- the verdict

  function Covered(verdicts: seq<MetricVerdict>): (n: nat)
    ensures n <= |verdicts|
    ensures n == |verdicts| <==> forall i :: 0 <= i < |verdicts| ==> verdicts[i].passed
  {
    if verdicts == [] then 0
    else
      var last := verdicts[|verdicts| - 1];
      Covered(verdicts[..|verdicts| - 1]) + if last.passed then 1 else 0
  }

  ghost function PassedAt(verdicts: seq<MetricVerdict>): set<int> {
    set i | 0 <= i < |verdicts| && verdicts[i].passed
  }

  /** The loop's count is the number of metrics that passed. */
  lemma {:induction false} CoveredCounts(verdicts: seq<MetricVerdict>)
    ensures Covered(verdicts) == |PassedAt(verdicts)|
  {
    if verdicts == [] {
      assert PassedAt(verdicts) == {};
    } else {
      var n := |verdicts| - 1;
      CoveredCounts(verdicts[..n]);
      assert PassedAt(verdicts) == PassedAt(verdicts[..n]) + if verdicts[n].passed then {n} else {};
    }
  }

  /** The metrics of a plan that meet every obligation. */
  ghost function SoundMetrics(plan: Plan, records: Records): set<int> {
    set i | 0 <= i < |Metrics(plan)| && MetricSound(records, Referenced(plan), Metrics(plan)[i].1)
  }

  function Coverage(covered: nat, total: nat): real {
    if total == 0 then 0.0 else 100.0 * covered as real / total as real
  }

  /** The share in per cent, or zero of nothing. */
  ghost predicate IsShare(coverage: real, covered: nat, total: nat) {
    if total == 0 then coverage == 0.0 else coverage * total as real == 100.0 * covered as real
  }

  lemma CoverageIsShare(covered: nat, total: nat)
    ensures IsShare(Coverage(covered, total), covered, total)
  {
  }

  /** Full coverage, and nothing less, is a hundred percent. */
  lemma CoverageIsFull(covered: nat, total: nat)
    requires covered <= total
    ensures Coverage(covered, total) == 100.0 <==> total > 0 && covered == total
  {
    if total > 0 {
      CoverageIsShare(covered, total);
    }
  }

  /** Removes repeated failures and keeps the first of each. */
  method Unique(failures: seq<AuditFailure>) returns (unique: seq<AuditFailure>)
    ensures forall f :: f in unique <==> f in failures
    ensures forall i, j :: 0 <= i < j < |unique| ==> unique[i] != unique[j]
  {
    unique := [];
    for i := 0 to |failures|
      invariant forall f :: f in unique <==> f in failures[..i]
      invariant forall k, j :: 0 <= k < j < |unique| ==> unique[k] != unique[j]
    {
      assert failures[..i + 1] == failures[..i] + [failures[i]];
      if failures[i] !in unique {
        unique := unique + [failures[i]];
      }
    }
    assert failures[..|failures|] == failures;
  }

  method CheckPlan(plan: Plan) returns (found: seq<AuditFailure>)
    ensures forall f :: f in found <==> PlanFails(plan, f)
  {
    found := [];
    if !plan.solverUsable {
      found := found + [AuditFailure(SolverNotUsable, PlanPath, Plain)];
    }
    if !plan.checkerPassed {
      found := found + [AuditFailure(CheckerFailed, PlanPath, Plain)];
    }
    if !plan.sanctionsPassed {
      found := found + [AuditFailure(SanctionsFailed, PlanPath, Plain)];
    }
    if !plan.compatibilityPassed {
      found := found + [AuditFailure(CompatibilityFailed, PlanPath, Plain)];
    }
    if !plan.reconciled {
      found := found + [AuditFailure(RecomputationMismatch, PlanPath, Plain)];
    }
  }

  /** The audit of a plan: it passes exactly when the plan is sound, and its failures are exactly
      those with a cause, each once. A sound plan without any metric gets an error instead: its
      coverage of zero makes it fail, which the result type refuses without a failure. */
  method AuditPlan(plan: Plan, records: Records, at: int) returns (result: Result<AuditResult, AuditError>)
    ensures result.Failure? <==> Metrics(plan) == [] && Sound(plan, records, at)
    ensures result.Success? ==> Judges(plan, records, at, result.value)
  {
    hide Coverage, IsShare, SoundMetrics, Sound, VerdictAt, SomeReferenceFails, SomeAssumptionFails,
      SomeMetricFails, PlanFails, Metrics, Referenced;
    var failures := CheckReferences(records, plan.evidence);
    var more := CheckAssumptions(records, plan.scenarioId, at, plan.assumptions);
    failures := failures + more;
    var entries := Metrics(plan);
    var verdicts;
    verdicts, more := AuditMetrics(records, Referenced(plan), entries);
    failures := failures + more;
    more := CheckPlan(plan);
    failures := failures + more;
    var unique := Unique(failures);
    var covered := Covered(verdicts);
    var coverage := Coverage(covered, |verdicts|);
    var passed := unique == [] && coverage == 100.0;
    var consistent := unique == [] && covered == |verdicts|;
    Judgement(plan, records, at, unique, verdicts);
    CoverageIsShare(covered, |verdicts|);
    if passed != consistent {
      return Result.Failure(StatusDisagreesWithFailures);
    }
    result := Success(AuditResult(passed, unique, verdicts, covered, |verdicts|, coverage));
  }

  ghost predicate Judges(plan: Plan, records: Records, at: int, r: AuditResult) {
    && (r.passed <==> Sound(plan, records, at))
    && (forall f :: f in r.failures <==> Due(plan, records, at, f))
    && (forall i, j :: 0 <= i < j < |r.failures| ==> r.failures[i] != r.failures[j])
    && |r.metrics| == |Metrics(plan)| == r.total
    && (forall i :: 0 <= i < |r.metrics| ==>
          VerdictAt(records, Referenced(plan), Metrics(plan)[i], r.metrics[i]))
    && r.covered == |SoundMetrics(plan, records)|
    && IsShare(r.coverage, r.covered, r.total)
    && (r.coverage == 100.0 <==> r.metrics != [] && forall i :: 0 <= i < |r.metrics| ==> r.metrics[i].passed)
  }

  lemma SameCount(plan: Plan, records: Records, verdicts: seq<MetricVerdict>)
    requires |verdicts| == |Metrics(plan)|
    requires forall i :: 0 <= i < |verdicts| ==>
               VerdictAt(records, Referenced(plan), Metrics(plan)[i], verdicts[i])
    ensures PassedAt(verdicts) == SoundMetrics(plan, records)
  {
    hide MetricSound, Metrics, Referenced;
  }

  lemma Judgement(
    plan: Plan, records: Records, at: int, unique: seq<AuditFailure>, verdicts: seq<MetricVerdict>)
    requires forall f :: f in unique <==> Due(plan, records, at, f)
    requires |verdicts| == |Metrics(plan)|
    requires forall i :: 0 <= i < |verdicts| ==>
               VerdictAt(records, Referenced(plan), Metrics(plan)[i], verdicts[i])
    ensures unique == [] <==> Sound(plan, records, at)
    ensures unique == [] ==> Covered(verdicts) == |verdicts|
    ensures Covered(verdicts) == |SoundMetrics(plan, records)|
    ensures Coverage(Covered(verdicts), |verdicts|) == 100.0
            <==> verdicts != [] && Covered(verdicts) == |verdicts|
  {
    hide Coverage, Due, MetricSound, Metrics, Referenced;
    SoundIffNothingDue(plan, records, at);
    CoveredCounts(verdicts);
    SameCount(plan, records, verdicts);
    CoverageIsFull(Covered(verdicts), |verdicts|);
    if unique != [] {
      assert Due(plan, records, at, unique[0]);
    } else {
      forall f ensures !Due(plan, records, at, f) {
        assert f !in unique;
      }
    }
  }
}
