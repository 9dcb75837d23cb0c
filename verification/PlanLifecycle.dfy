/** The append-only review log of a plan, written by requests whose validation and commit
    interleave freely. Fingerprints are hashes of content and therefore modelled as the content. */
module PlanLifecycle {
  import opened Wrappers

  datatype Action = Submit | Review | Approve | Reject | Supersede

  datatype State = Recommended | UnderReview | Approved | Rejected | Superseded

  datatype Role = Operator | Reviewer | Approver | Administrator

  datatype PlanKind = Procurement | Reserve

  /** A fingerprint of a plan, or of its assumptions. */
  type Fingerprint = nat

  /** What an audit's fingerprint covers: everything but its identifier and time. */
  datatype AuditContent = AuditContent(planId: Uuid, assumptions: Fingerprint, approvalAllowed: bool, details: nat)

  datatype Audit = Audit(content: AuditContent, auditedAt: int)

  datatype PlanFacts = PlanFacts(kind: PlanKind, fingerprint: Fingerprint)

  /** The canonical hash of the client's key and the plan. */
  datatype IdempotencyFingerprint = IdempotencyFingerprint(key: string, planId: Uuid)

  datatype Request = Request(
    planId: Uuid, action: Action, actor: string, role: Role, key: string,
    planFingerprint: Fingerprint, assumptionFingerprint: Fingerprint, auditFingerprint: AuditContent,
    comment: Option<string>, superseding: Option<Uuid>)
  {
    function Idempotency(): IdempotencyFingerprint {
      IdempotencyFingerprint(key, planId)
    }
  }

  datatype Record = Record(
    planId: Uuid, kind: PlanKind, action: Action, previous: State, state: State, actor: string, role: Role,
    occurredAt: int, planFingerprint: Fingerprint, assumptionFingerprint: Fingerprint,
    auditFingerprint: AuditContent, comment: Option<string>, superseding: Option<Uuid>,
    idempotency: IdempotencyFingerprint)

  datatype Refusal =
    | PlanNotFound | RoleForbidden | StalePlan | StaleAssumptions | StaleAudit | AuditFailed
    | SupersedingPlanInvalid | InvalidTransition | IdempotencyKeyConflict

  // ---------------------------------------------------------------- the state machine

  function Transition(current: State, action: Action): Option<State> {
    match (current, action)
    case (Recommended, Submit) => Some(UnderReview)
    case (UnderReview, Review) => Some(UnderReview)
    case (UnderReview, Approve) => Some(Approved)
    case (UnderReview, Reject) => Some(Rejected)
    case (Approved, Supersede) => Some(Superseded)
    case _ => None
  }

  predicate Allowed(action: Action, role: Role) {
    match action
    case Submit => role == Operator || role == Reviewer || role == Administrator
    case Review => role == Reviewer || role == Administrator
    case Approve => role == Approver || role == Administrator
    case Reject => role == Approver || role == Administrator
    case Supersede => role == Approver || role == Administrator
  }

  /** Who may do what: plans are submitted by those who work on them, reviewed by reviewers, and
      decided on by approvers; an administrator may do everything. */
  lemma RolesExactly(action: Action, role: Role)
    ensures Allowed(action, role) <==>
              role in (match action
                       case Submit => {Operator, Reviewer, Administrator}
                       case Review => {Reviewer, Administrator}
                       case Approve => {Approver, Administrator}
                       case Reject => {Approver, Administrator}
                       case Supersede => {Approver, Administrator})
  {
  }

  /** Nobody but an administrator may both bring a plan into review and decide on it. */
  lemma DutiesAreSeparate(first: Action, second: Action, role: Role)
    requires first == Submit || first == Review
    requires second == Approve || second == Reject || second == Supersede
    ensures Allowed(first, role) && Allowed(second, role) <==> role == Administrator
  {
  }

  function CurrentState(records: seq<Record>): State {
    if records == [] then Recommended else records[|records| - 1].state
  }

  /** The state after a word of actions, if every step is allowed. */
  function After(word: seq<Action>): Option<State> {
    if word == [] then Some(Recommended)
    else
      var before := After(word[..|word| - 1]);
      if before.None? then None else Transition(before.value, word[|word| - 1])
  }

  /** From position `from` on there are only reviews, up to position `to`. */
  ghost predicate Reviews(word: seq<Action>, from: nat, to: nat)
    requires from <= to <= |word|
  {
    forall i :: from <= i < to ==> word[i] == Review
  }

  /** A submission, reviews up to position `k`, and then the decision, if any. */
  ghost predicate Decided(word: seq<Action>, k: nat) {
    && 1 <= k <= |word| && word[0] == Submit && Reviews(word, 1, k)
    && (word[k..] == [] || word[k..] == [Approve] || word[k..] == [Reject] || word[k..] == [Approve, Supersede])
  }

  /** A prefix of a word in SUBMIT REVIEW* (APPROVE SUPERSEDE | REJECT). */
  ghost predicate InLanguage(word: seq<Action>) {
    word == [] || exists k :: Decided(word, k)
  }

  function StateOf(rest: seq<Action>): State {
    if rest == [] then UnderReview
    else if rest == [Approve] then Approved
    else if rest == [Reject] then Rejected
    else Superseded
  }

  lemma {:induction false} DecidedRuns(word: seq<Action>, k: nat)
    requires Decided(word, k)
    ensures After(word) == Some(StateOf(word[k..]))
    decreases |word|
  {
    var n := |word|;
    var init := word[..n - 1];
    if n > 1 {
      if k == n {
        assert init[k - 1..] == [];
        assert Decided(init, k - 1);
        DecidedRuns(init, k - 1);
      } else {
        assert init[k..] == word[k..][..n - 1 - k];
        assert Decided(init, k);
        DecidedRuns(init, k);
      }
    }
  }

  lemma {:induction false} RunsAreDecided(word: seq<Action>) returns (k: nat)
    requires word != [] && After(word).Some?
    ensures Decided(word, k)
  {
    var n := |word|;
    var init, last := word[..n - 1], word[n - 1];
    if n == 1 {
      k := 1;
    } else {
      k := RunsAreDecided(init);
      DecidedRuns(init, k);
      assert word[k..] == init[k..] + [last];
      if last == Review {
        assert init[k..] == [];
        k := n;
      }
    }
  }

  /** The table of transitions accepts exactly this language. */
  lemma TransitionsSpellTheLanguage(word: seq<Action>)
    ensures After(word).Some? <==> InLanguage(word)
  {
    if word != [] {
      if After(word).Some? {
        var k := RunsAreDecided(word);
      }
      if k :| Decided(word, k) {
        DecidedRuns(word, k);
      }
    }
  }

  // ---------------------------------------------------------------- lawful logs

  ghost predicate DistinctKeys(records: seq<Record>) {
    forall i, j :: 0 <= i < j < |records| ==> records[i].idempotency != records[j].idempotency
  }

  /** Every record continues from the state the previous one left. */
  ghost predicate ChainedAt(records: seq<Record>, i: nat)
    requires i < |records|
  {
    && records[i].previous == CurrentState(records[..i])
    && Transition(records[i].previous, records[i].action) == Some(records[i].state)
  }

  /** The record was permitted: by role, by a passed audit where one is needed, and by a named
      other plan where one is needed. */
  ghost predicate Permitted(audits: map<AuditContent, Audit>, planId: Uuid, r: Record) {
    && r.planId == planId && r.idempotency.planId == planId
    && Allowed(r.action, r.role)
    && (r.action == Submit || r.action == Approve ==> PassedAudit(audits, planId, r.auditFingerprint))
    && (r.action == Supersede ==> r.superseding.Some? && r.superseding.value != planId)
  }

  ghost predicate PassedAudit(audits: map<AuditContent, Audit>, planId: Uuid, fingerprint: AuditContent) {
    && fingerprint in audits && audits[fingerprint].content == fingerprint
    && fingerprint.planId == planId && fingerprint.approvalAllowed
  }

  ghost predicate Lawful(audits: map<AuditContent, Audit>, planId: Uuid, records: seq<Record>) {
    && DistinctKeys(records)
    && (forall i :: 0 <= i < |records| ==> ChainedAt(records, i))
    && forall i :: 0 <= i < |records| ==> Permitted(audits, planId, records[i])
  }

  function Actions(records: seq<Record>): seq<Action> {
    seq(|records|, i requires 0 <= i < |records| => records[i].action)
  }

  lemma {:induction false} ChainRuns(records: seq<Record>)
    requires forall i :: 0 <= i < |records| ==> ChainedAt(records, i)
    ensures After(Actions(records)) == Some(CurrentState(records))
  {
    if records != [] {
      var n := |records|;
      var init := records[..n - 1];
      forall i | 0 <= i < |init| ensures ChainedAt(init, i) {
        assert ChainedAt(records, i) && init[..i] == records[..i];
      }
      ChainRuns(init);
      assert Actions(records)[..n - 1] == Actions(init);
      assert ChainedAt(records, n - 1);
    }
  }

  /** A lawful log spells a word of the language, and the word determines the plan's state. */
  lemma LawfulLogsSpellTheLanguage(audits: map<AuditContent, Audit>, planId: Uuid, records: seq<Record>)
    requires Lawful(audits, planId, records)
    ensures InLanguage(Actions(records)) && After(Actions(records)) == Some(CurrentState(records))
  {
    ChainRuns(records);
    TransitionsSpellTheLanguage(Actions(records));
  }

  // ---------------------------------------------------------------- requests

  /** A retry is the same request if all of this agrees; the role is not compared. */
  predicate Matches(r: Record, q: Request) {
    && r.action == q.action && r.actor == q.actor
    && r.planFingerprint == q.planFingerprint && r.assumptionFingerprint == q.assumptionFingerprint
    && r.auditFingerprint == q.auditFingerprint && r.comment == q.comment && r.superseding == q.superseding
  }

  function MakeRecord(q: Request, kind: PlanKind, previous: State, state: State, now: int): Record {
    Record(
      q.planId, kind, q.action, previous, state, q.actor, q.role, now, q.planFingerprint,
      q.assumptionFingerprint, q.auditFingerprint, q.comment, q.superseding, q.Idempotency())
  }

  /** The first record with the key. */
  function FirstWith(log: seq<Record>, key: IdempotencyFingerprint): (found: Option<Record>)
    ensures found.Some? <==> Used(log, key)
    ensures found.Some? ==> found.value in log && found.value.idempotency == key
  {
    if log == [] then None
    else if log[0].idempotency == key then Some(log[0])
    else
      UsedLater(log, key);
      FirstWith(log[1..], key)
  }

  lemma UsedLater(log: seq<Record>, key: IdempotencyFingerprint)
    requires log != [] && log[0].idempotency != key
    ensures Used(log, key) <==> Used(log[1..], key)
  {
    if i :| 0 <= i < |log| && log[i].idempotency == key {
      assert log[1..][i - 1].idempotency == key;
    }
    if i :| 0 <= i < |log| - 1 && log[1..][i].idempotency == key {
      assert log[i + 1].idempotency == key;
    }
  }

  ghost predicate Used(log: seq<Record>, key: IdempotencyFingerprint) {
    exists i :: 0 <= i < |log| && log[i].idempotency == key
  }

  /** How a commit ends: a used key answers with its record if the request matches it and with a
      conflict otherwise, and a new key makes a record if the state allows the action. */
  function Outcome(log: seq<Record>, q: Request, kind: PlanKind, now: int): Result<Record, Refusal> {
    match FirstWith(log, q.Idempotency())
    case Some(r) => if Matches(r, q) then Success(r) else Failure(IdempotencyKeyConflict)
    case None =>
      match Transition(CurrentState(log), q.action)
      case None => Failure(InvalidTransition)
      case Some(target) => Success(MakeRecord(q, kind, CurrentState(log), target, now))
  }

  /** The log grows by the record made, and only then. */
  function LogAfter(log: seq<Record>, q: Request, kind: PlanKind, now: int): seq<Record> {
    if FirstWith(log, q.Idempotency()).None? && Outcome(log, q, kind, now).Success?
    then log + [Outcome(log, q, kind, now).value] else log
  }

  lemma {:induction false} FirstStaysFirst(log: seq<Record>, later: seq<Record>, key: IdempotencyFingerprint)
    requires log <= later && FirstWith(log, key).Some?
    ensures FirstWith(later, key) == FirstWith(log, key)
  {
    if log[0].idempotency != key {
      FirstStaysFirst(log[1..], later[1..], key);
    }
  }

  lemma {:induction false} FirstIsLast(log: seq<Record>, r: Record)
    requires FirstWith(log, r.idempotency).None?
    ensures FirstWith(log + [r], r.idempotency) == Some(r)
  {
    if log != [] {
      FirstIsLast(log[1..], r);
      assert (log + [r])[1..] == log[1..] + [r];
      assert log[0].idempotency != r.idempotency;
    }
  }

  /** A record matches another request exactly when the two differ in nothing but role, key and plan. */
  lemma MatchesSameRequest(q: Request, again: Request, kind: PlanKind, previous: State, state: State, now: int)
    ensures Matches(MakeRecord(q, kind, previous, state, now), again)
            <==> again.(role := q.role, key := q.key, planId := q.planId) == q
  {
  }

  /** A new record says who did what to which plan, from which state to which. */
  lemma RecordTellsRequest(log: seq<Record>, q: Request, kind: PlanKind, now: int)
    requires FirstWith(log, q.Idempotency()).None? && Outcome(log, q, kind, now).Success?
    ensures var r := Outcome(log, q, kind, now).value;
            && r.planId == q.planId && r.kind == kind && r.action == q.action
            && r.actor == q.actor && r.role == q.role && r.occurredAt == now
            && r.previous == (if log == [] then Recommended else log[|log| - 1].state)
            && Transition(r.previous, q.action) == Some(r.state)
            && r.planFingerprint == q.planFingerprint && r.assumptionFingerprint == q.assumptionFingerprint
            && r.auditFingerprint == q.auditFingerprint && r.comment == q.comment
            && r.superseding == q.superseding && r.idempotency == IdempotencyFingerprint(q.key, q.planId)
  {
  }

  /** However much the log has grown in between, repeating a successful request returns the original
      record, and repeating its key with a request that does not match is a conflict; neither
      changes the log. */
  lemma RetryReturnsTheOriginal(
    log: seq<Record>, later: seq<Record>, q: Request, again: Request, kind: PlanKind, now: int, retriedAt: int)
    requires Outcome(log, q, kind, now).Success? && LogAfter(log, q, kind, now) <= later
    requires again.Idempotency() == q.Idempotency()
    ensures var original := Outcome(log, q, kind, now).value;
            && LogAfter(later, again, kind, retriedAt) == later
            && Outcome(later, again, kind, retriedAt)
               == if Matches(original, again) then Success(original) else Failure(IdempotencyKeyConflict)
    ensures Outcome(later, q, kind, retriedAt) == Outcome(log, q, kind, now)
  {
    var original := Outcome(log, q, kind, now).value;
    if FirstWith(log, q.Idempotency()).None? {
      FirstIsLast(log, original);
    }
    FirstStaysFirst(LogAfter(log, q, kind, now), later, q.Idempotency());
  }

  /** The first check of a request that fails, in the order of the checks. */
  function FirstFailing(q: Request, plans: map<Uuid, PlanFacts>, audit: AuditContent): Option<Refusal> {
    if q.planId !in plans then Some(PlanNotFound)
    else if !Allowed(q.action, q.role) then Some(RoleForbidden)
    else if q.planFingerprint != plans[q.planId].fingerprint then Some(StalePlan)
    else if q.assumptionFingerprint != audit.assumptions then Some(StaleAssumptions)
    else if q.auditFingerprint != audit then Some(StaleAudit)
    else if (q.action == Submit || q.action == Approve) && !audit.approvalAllowed then Some(AuditFailed)
    else if q.action == Supersede && (q.superseding.None? || q.superseding.value == q.planId) then
      Some(SupersedingPlanInvalid)
    else if q.action == Supersede && q.superseding.value !in plans then Some(PlanNotFound)
    else None
  }

  /** Everything the first half of a request establishes. */
  ghost predicate Validated(audits: map<AuditContent, Audit>, q: Request) {
    && Allowed(q.action, q.role)
    && (q.action == Submit || q.action == Approve ==> PassedAudit(audits, q.planId, q.auditFingerprint))
    && (q.action == Supersede ==> q.superseding.Some? && q.superseding.value != q.planId)
  }

  lemma LawfulPush(audits: map<AuditContent, Audit>, planId: Uuid, records: seq<Record>, r: Record)
    requires Lawful(audits, planId, records) && Permitted(audits, planId, r)
    requires r.previous == CurrentState(records) && Transition(r.previous, r.action) == Some(r.state)
    requires !Used(records, r.idempotency)
    ensures Lawful(audits, planId, records + [r])
  {
    var longer := records + [r];
    assert longer[..|records|] == records;
    forall i | 0 <= i < |longer| ensures ChainedAt(longer, i) {
      if i < |records| {
        assert ChainedAt(records, i) && longer[..i] == records[..i];
      }
    }
  }

  /** The record made of a pending request is one the log may grow by. */
  lemma RecordIsLawful(
    audits: map<AuditContent, Audit>, q: Request, kind: PlanKind, log: seq<Record>, target: State, now: int)
    requires Validated(audits, q) && Lawful(audits, q.planId, log) && !Used(log, q.Idempotency())
    requires Transition(CurrentState(log), q.action) == Some(target)
    ensures Lawful(audits, q.planId, log + [MakeRecord(q, kind, CurrentState(log), target, now)])
  {
    hide Lawful, Transition, CurrentState, Used;
    LawfulPush(audits, q.planId, log, MakeRecord(q, kind, CurrentState(log), target, now));
  }

  lemma EmptyIsLawful(audits: map<AuditContent, Audit>, planId: Uuid)
    ensures Lawful(audits, planId, [])
  {
  }

  /** Saving another audit takes no permission away. */
  lemma LawfulStays(
    audits: map<AuditContent, Audit>, more: map<AuditContent, Audit>, planId: Uuid, records: seq<Record>)
    requires Lawful(audits, planId, records)
    requires forall k :: k in audits ==> k in more && more[k] == audits[k]
    ensures Lawful(more, planId, records)
  {
    forall i | 0 <= i < |records| ensures Permitted(more, planId, records[i]) {
      assert Permitted(audits, planId, records[i]);
    }
  }

  class AuditService {
    var audits: map<AuditContent, Audit>
    var records: map<Uuid, seq<Record>>
    /** Requests between their validation and their commit; equal ones may be in flight twice. */
    ghost var pending: multiset<Request>

    ghost predicate Valid()
      reads this
    {
      && (forall k :: k in audits ==> audits[k].content == k)
      && (forall plan :: plan in records ==> Lawful(audits, plan, records[plan]))
      && (forall q :: q in pending ==> Validated(audits, q))
    }

    function Log(planId: Uuid): seq<Record>
      reads this
    {
      if planId in records then records[planId] else []
    }

    constructor ()
      ensures Valid() && pending == multiset{} && forall plan :: Log(plan) == []
    {
      audits, records, pending := map[], map[], multiset{};
    }

    /** Returns the stored audit with this content, or stores the new one. */
    method SaveAudit(audit: Audit) returns (stored: Audit)
      requires Valid()
      modifies this`audits
      ensures Valid() && stored.content == audit.content
      ensures audits == if audit.content in old(audits) then old(audits) else old(audits)[audit.content := audit]
      ensures audit.content in audits && audits[audit.content] == stored
    {
      if audit.content in audits {
        return audits[audit.content];
      }
      ghost var before := audits;
      audits := audits[audit.content := audit];
      stored := audit;
      forall plan | plan in records ensures Lawful(audits, plan, records[plan]) {
        LawfulStays(before, audits, plan, records[plan]);
      }
    }

    /** The first half of a request: the plan is looked up and audited afresh, then the checks run
        in a fixed order. Only a request that passes them all becomes pending. */
    method Prepare(q: Request, plans: map<Uuid, PlanFacts>, computed: Audit) returns (refusal: Option<Refusal>)
      requires Valid() && computed.content.planId == q.planId
      modifies this`audits, this`pending
      ensures Valid() && records == old(records)
      ensures pending == if refusal.None? then old(pending) + multiset{q} else old(pending)
      ensures refusal.None? <==>
              && q.planId in plans && plans[q.planId].fingerprint == q.planFingerprint
              && Allowed(q.action, q.role)
              && q.assumptionFingerprint == computed.content.assumptions && q.auditFingerprint == computed.content
              && (q.action == Submit || q.action == Approve ==> computed.content.approvalAllowed)
              && (q.action == Supersede ==>
                    q.superseding.Some? && q.superseding.value != q.planId && q.superseding.value in plans)
      ensures refusal == FirstFailing(q, plans, computed.content)
    {
      if q.planId !in plans {
        return Some(PlanNotFound);
      }
      var audit := SaveAudit(computed);
      if !Allowed(q.action, q.role) {
        return Some(RoleForbidden);
      }
      if q.planFingerprint != plans[q.planId].fingerprint {
        return Some(StalePlan);
      }
      if q.assumptionFingerprint != audit.content.assumptions {
        return Some(StaleAssumptions);
      }
      if q.auditFingerprint != audit.content {
        return Some(StaleAudit);
      }
      if (q.action == Submit || q.action == Approve) && !audit.content.approvalAllowed {
        return Some(AuditFailed);
      }
      if q.action == Supersede {
        if q.superseding.None? || q.superseding.value == q.planId {
          return Some(SupersedingPlanInvalid);
        }
        if q.superseding.value !in plans {
          return Some(PlanNotFound);
        }
      }
      pending := pending + multiset{q};
      refusal := None;
    }

    /** The record that already carries the key, if any. */
    static method Reused(log: seq<Record>, key: IdempotencyFingerprint) returns (found: Option<Record>)
      ensures found == FirstWith(log, key)
    {
      assert log[0..] == log;
      for i := 0 to |log|
        invariant FirstWith(log, key) == FirstWith(log[i..], key)
      {
        assert log[i..][1..] == log[i + 1..];
        if log[i].idempotency == key {
          return Some(log[i]);
        }
      }
      found := None;
    }

    /** The second half, under the repository's lock. */
    method Commit(q: Request, kind: PlanKind, now: int) returns (result: Result<Record, Refusal>)
      requires Valid() && q in pending
      modifies this`records, this`pending
      ensures Valid() && pending == old(pending) - multiset{q} && audits == old(audits)
      ensures forall plan :: plan != q.planId ==> Log(plan) == old(Log(plan))
      ensures result == Outcome(old(Log(q.planId)), q, kind, now)
      ensures Log(q.planId) == LogAfter(old(Log(q.planId)), q, kind, now)
    {
      hide Matches, Lawful, FirstWith, Used, Transition, CurrentState, Validated, MakeRecord;
      pending := pending - multiset{q};
      var log := Log(q.planId);
      var reused := Reused(log, q.Idempotency());
      if reused.Some? {
        return if Matches(reused.value, q) then Success(reused.value) else Failure(IdempotencyKeyConflict);
      }
      var target := Transition(CurrentState(log), q.action);
      if target.None? {
        return Failure(InvalidTransition);
      }
      var record := MakeRecord(q, kind, CurrentState(log), target.value, now);
      EmptyIsLawful(audits, q.planId);
      RecordIsLawful(audits, q, kind, log, target.value, now);
      records := records[q.planId := log + [record]];
      result := Success(record);
    }

    /** At any point of any interleaving: the log of every plan spells a word of the language, and a
        key was used at most once. */
    lemma EveryLogIsLawful(planId: Uuid)
      requires Valid()
      ensures Lawful(audits, planId, Log(planId)) && InLanguage(Actions(Log(planId)))
      ensures After(Actions(Log(planId))) == Some(CurrentState(Log(planId)))
    {
      assert planId !in records ==> Lawful(audits, planId, []);
      LawfulLogsSpellTheLanguage(audits, planId, Log(planId));
    }
  }
}
