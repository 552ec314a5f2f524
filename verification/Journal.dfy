/**
 The durable journal of domain-rule operations: seven phases, activation attempts, a daily budget and the
 ownership table. Tables are maps, each transaction is one step, and a digest stands for the text it digests.
 */
module Journal {
  import opened Wrappers

  const MAX_DATE := 8_640_000_000_000_000
  const DAY := 86_400_000
  const MAX_ATTEMPTS := 1_000_000
  const MAX_DELTA := 10_000
  const MAX_DAILY_RULES := 3

  /** SHA-256 of a text, and its 40-digit prefix: both taken to be injective. */
  datatype Digest = Sha256(text: string)
  datatype Revision = RevisionOf(text: string)

  datatype Action = AutomaticAdd | ManualAdd | ManualEdit | ManualDelete | Rollback
  datatype Phase = Prepared | Committed | Activating | Completed | Partial | Aborted | ReconciliationRequired
  datatype ActivationStatus = NotStarted | InProgress | Succeeded | Failed
  datatype ErrorCategory =
    | Shutdown
    | MaterializationFailure
    | ConfigReloadFailure
    | ProviderProofFailure
    | CoverageProofFailure
    | RouteProofFailure
    | InfrastructureFailure
  datatype Ownership = Automatic | Manual
  datatype Upsert = Upsert(rule: string, ownership: Ownership)
  datatype Delta = Delta(upserts: seq<Upsert>, deletes: seq<string>)

  /** The safety preferences; their fingerprint is the consent revision. */
  datatype Preferences = Preferences(maximumAutomaticRulesPerDay: DailyLimit, others: string)
  type DailyLimit = n: int | 1 <= n <= MAX_DAILY_RULES witness 1
  datatype Settings = Settings(enabled: bool, preferences: Preferences)
  datatype Consent = Consent(id: string, revision: Preferences)

  datatype Operation = Operation(
    id: string,
    idempotencyKey: string,
    action: Action,
    phase: Phase,
    rollbackTarget: Option<Revision>,
    candidate: Option<string>,
    expectedSource: Revision,
    intended: Digest,
    proposedRule: Option<string>,
    delta: Delta,
    consent: Option<Consent>,
    budgetDay: Option<int>,
    budgetSlots: int,
    resultingRevision: Option<Revision>,
    resultingDigest: Option<Digest>,
    activationStatus: ActivationStatus,
    attempts: int,
    lastAttemptAt: Option<int>,
    errorCategory: Option<ErrorCategory>,
    createdAt: int,
    updatedAt: int,
    completedAt: Option<int>)

  datatype Budget = Budget(reserved: int, consumed: int, updatedAt: int)
  datatype OwnedRule = OwnedRule(ownership: Ownership, operationId: string, revision: Revision, createdAt: int,
      updatedAt: int)
  datatype CandidateStatus = Observed | Inconclusive | Confirmed | Blocked
  datatype Candidate = Candidate(
    status: CandidateStatus, active: bool, proposedRule: Option<string>, leaseId: Option<string>,
    leaseUntil: Option<int>,
    nextValidationAt: int, lastValidationAt: Option<int>, failureStreak: int, updatedAt: int)
  datatype Decision = Decision(id: string, candidate: string, evaluatedAt: int, confirmed: bool,
      proposedRule: Option<string>)

  datatype Db = Db(
    operations: map<string, Operation>,
    byKey: map<string, string>,
    budgets: map<int, Budget>,
    ownership: map<string, OwnedRule>,
    candidates: map<string, Candidate>,
    decisions: seq<Decision>,
    settings: Option<Settings>,
    activeConsent: Option<Consent>,
    runningValidations: set<string>)

  datatype JournalError =
    | InvalidInput
    | IdempotencyConflict
    | IdConflict
    | Reconciliation
    | ManualOwnership
    | CandidateUnavailable
    | SettingsUnavailable
    | ConsentStale
    | RollbackTargetUnknown
    | BudgetExhausted
    | ReservationMissing
    | NotPrepared
    | NotFound
    | ContentMismatch
    | RevisionNotAdvanced
    | CannotFinalize
    | CannotBegin
    | CannotComplete
    | StaleAttempt
    | TerminalConflict
    | TerminalOperation
    | ClockMovedBackwards
    | ConstraintFailed

  /** The tables after a transaction, and what it returns. */
  datatype After<T> = After(db: Db, value: T)

  predicate Unfinished(phase: Phase) {
    phase.Prepared? || phase.Committed? || phase.Activating? || phase.Partial? || phase.ReconciliationRequired?
  }

  predicate Final(phase: Phase) {
    phase.Completed? || phase.Aborted? || phase.ReconciliationRequired?
  }

  predicate Attested(phase: Phase) {
    phase.Committed? || phase.Activating? || phase.Completed? || phase.Partial?
  }

  predicate ValidTime(now: int) {
    0 <= now <= MAX_DATE
  }

  function UtcDay(timestamp: int): int {
    timestamp / DAY
  }

  // ---------- Input ----------

  /** The library checks on single strings: operation identifiers, rules and candidate names. */
  datatype Text = Text(isId: string -> bool, isRule: string -> bool, isCandidate: string -> bool)

  datatype PrepareInput = PrepareInput(
    id: string,
    idempotencyKey: string,
    action: Action,
    rollbackTarget: Option<Revision>,
    candidate: Option<string>,
    expectedSource: Revision,
    intended: Digest,
    proposedRule: Option<string>,
    delta: Delta)

  predicate EndsWith(s: string, suffix: string) {
    |suffix| <= |s| && s[|s| - |suffix|..] == suffix
  }

  predicate Covers(rule: string, candidate: string) {
    if |rule| >= 2 && rule[..2] == "+." then candidate == rule[2..] || EndsWith(candidate, "." + rule[2..])
    else rule == candidate
  }

  predicate ValidDelta(text: Text, delta: Delta) {
    && |delta.upserts| <= MAX_DELTA && |delta.deletes| <= MAX_DELTA
    && |delta.upserts| + |delta.deletes| > 0
    && (forall k :: 0 <= k < |delta.upserts| ==> text.isRule(delta.upserts[k].rule))
    && (forall k :: 0 <= k < |delta.deletes| ==> text.isRule(delta.deletes[k]))
    && (forall j, k :: 0 <= j < k < |delta.upserts| ==> delta.upserts[j].rule != delta.upserts[k].rule)
    && (forall j, k :: 0 <= j < k < |delta.deletes| ==> delta.deletes[j] != delta.deletes[k])
    && (forall k :: 0 <= k < |delta.upserts| ==> delta.upserts[k].rule !in delta.deletes)
  }

  predicate SoleUpsert(input: PrepareInput, ownership: Ownership) {
    input.proposedRule.Some? && input.delta.upserts == [Upsert(input.proposedRule.value, ownership)]
  }

  predicate ValidInput(text: Text, input: PrepareInput) {
    && text.isId(input.id) && text.isId(input.idempotencyKey)
    && ValidDelta(text, input.delta)
    && (input.candidate.Some? ==> text.isCandidate(input.candidate.value))
    && (input.proposedRule.Some? ==> text.isRule(input.proposedRule.value))
    && (input.rollbackTarget.Some? <==> input.action.Rollback?)
    && (input.candidate.Some? && input.proposedRule.Some? ==> Covers(input.proposedRule.value, input.candidate.value))
    && match input.action
       case AutomaticAdd => input.candidate.Some? && input.delta.deletes == [] && SoleUpsert(input, Automatic)
       case ManualAdd => input.delta.deletes == [] && SoleUpsert(input, Manual)
       case ManualEdit => SoleUpsert(input, Manual)
       case ManualDelete => input.delta.upserts == [] && |input.delta.deletes| == 1 && input.proposedRule.None?
       case Rollback => true
  }

  // ---------- Prepare ----------

  predicate OwnedManually(ownership: map<string, OwnedRule>, rule: string) {
    rule in ownership && ownership[rule].ownership.Manual?
  }

  predicate ReplacesManual(ownership: map<string, OwnedRule>, upserts: seq<Upsert>) {
    exists k :: 0 <= k < |upserts| && OwnedManually(ownership, upserts[k].rule)
  }

  predicate NeedsReconciliation(operations: map<string, Operation>) {
    exists id :: id in operations && operations[id].phase.ReconciliationRequired?
  }

  predicate UnfinishedFor(operations: map<string, Operation>, candidate: string) {
    exists id :: id in operations && operations[id].candidate == Some(candidate) && Unfinished(operations[id].phase)
  }

  predicate CandidateReady(candidates: map<string, Candidate>, fqdn: string, proposedRule: Option<string>) {
    && fqdn in candidates
    && candidates[fqdn].status.Confirmed? && candidates[fqdn].active && candidates[fqdn].proposedRule == proposedRule
    && candidates[fqdn].leaseId.None? && candidates[fqdn].leaseUntil.None?
  }

  predicate CandidateAvailable(db: Db, input: PrepareInput) {
    input.candidate.Some? ==>
      (&& CandidateReady(db.candidates, input.candidate.value, input.proposedRule)
       && input.candidate.value !in db.runningValidations
       && !UnfinishedFor(db.operations, input.candidate.value))
  }

  /** The consent that authorizes automatic operations right now. */
  function CurrentConsent(settings: Option<Settings>, activeConsent: Option<Consent>): Result<Consent, JournalError> {
    if settings.None? || !settings.value.enabled then Err(SettingsUnavailable)
    else if activeConsent.None? || activeConsent.value.revision != settings.value.preferences then Err(ConsentStale)
    else Ok(activeConsent.value)
  }

  predicate RollbackAttested(operations: map<string, Operation>, target: Option<Revision>) {
    exists id :: id in operations && operations[id].resultingRevision == target && Attested(operations[id].phase)
  }

  /**
   The source sorts both lists of a delta before storing and comparing them. They hold no entry twice, so their sorted
   forms agree exactly when they hold the same entries.
   */
  predicate SameDelta(a: Delta, b: Delta) {
    multiset(a.upserts) == multiset(b.upserts) && multiset(a.deletes) == multiset(b.deletes)
  }

  predicate IntentMatches(stored: Operation, input: PrepareInput) {
    && stored.id == input.id && stored.action == input.action && stored.rollbackTarget == input.rollbackTarget
    && stored.candidate == input.candidate && stored.expectedSource == input.expectedSource
    && stored.intended == input.intended && stored.proposedRule == input.proposedRule
    && SameDelta(stored.delta, input.delta)
  }

  /** The unique index on idempotency keys points at existing rows. */
  predicate Indexed(db: Db) {
    forall key :: key in db.byKey ==>
      db.byKey[key] in db.operations && db.operations[db.byKey[key]].idempotencyKey == key
  }

  function Reserved(budgets: map<int, Budget>, day: int): int {
    if day in budgets then budgets[day].reserved else 0
  }

  function Consumed(budgets: map<int, Budget>, day: int): int {
    if day in budgets then budgets[day].consumed else 0
  }

  /** What a stored prepared operation must still satisfy when it is submitted again. */
  function Recheck(db: Db, existing: Operation): Result<bool, JournalError> {
    if NeedsReconciliation(db.operations) then Err(Reconciliation)
    else if !existing.action.AutomaticAdd? then Ok(true)
    else if ReplacesManual(db.ownership, existing.delta.upserts) then Err(ManualOwnership)
    else
      var consent :- CurrentConsent(db.settings, db.activeConsent);
      if existing.consent != Some(consent) then Err(ConsentStale) else Ok(true)
  }

  function NewOperation(input: PrepareInput, consent: Option<Consent>, now: int): Operation {
    Operation(
      input.id, input.idempotencyKey, input.action, Prepared, input.rollbackTarget, input.candidate,
          input.expectedSource,
      input.intended, input.proposedRule, input.delta, consent,
      if input.action.AutomaticAdd? then Some(UtcDay(now)) else None, if input.action.AutomaticAdd? then 1 else 0,
      None, None, NotStarted, 0, None, None, now, now, None)
  }

  function Reserve(budgets: map<int, Budget>, day: int, now: int): map<int, Budget> {
    budgets[day := Budget(Reserved(budgets, day) + 1, Consumed(budgets, day), now)]
  }

  function Insert(db: Db, operation: Operation): Db {
    db.(operations := db.operations[operation.id := operation],
        byKey := db.byKey[operation.idempotencyKey := operation.id])
  }

  datatype PrepareOutcome = PreparedOperation(operation: Operation, created: bool)

  /** A repeated submission under a known key. */
  function Resubmit(db: Db, existing: Operation, input: PrepareInput): Result<After<PrepareOutcome>, JournalError> {
    if !IntentMatches(existing, input) then Err(IdempotencyConflict)
    else if existing.phase.Prepared? && Recheck(db, existing).Err? then Err(Recheck(db, existing).error)
    else Ok(After(db, PreparedOperation(existing, false)))
  }

  function PrepareAutomatic(db: Db, input: PrepareInput, now: int): Result<After<PrepareOutcome>, JournalError> {
    var consent :- CurrentConsent(db.settings, db.activeConsent);
    var day := UtcDay(now);
    if Reserved(db.budgets, day) + Consumed(db.budgets, day) + 1 > db.settings.value.preferences.maximumAutomaticRulesPerDay
    then Err(BudgetExhausted)
    else
      var operation := NewOperation(input, Some(consent), now);
      Ok(After(Insert(db.(budgets := Reserve(db.budgets, day, now)), operation), PreparedOperation(operation, true)))
  }

  function PrepareNew(db: Db, input: PrepareInput, now: int): Result<After<PrepareOutcome>, JournalError> {
    if NeedsReconciliation(db.operations) then Err(Reconciliation)
    else if input.action.AutomaticAdd? && ReplacesManual(db.ownership, input.delta.upserts) then Err(ManualOwnership)
    else if !CandidateAvailable(db, input) then Err(CandidateUnavailable)
    else if input.action.AutomaticAdd? then PrepareAutomatic(db, input, now)
    else if input.action.Rollback? && !RollbackAttested(db.operations, input.rollbackTarget) then Err(RollbackTargetUnknown)
    else
      var operation := NewOperation(input, None, now);
      Ok(After(Insert(db, operation), PreparedOperation(operation, true)))
  }

  function Prepare(db: Db, text: Text, input: PrepareInput, now: int): Result<After<PrepareOutcome>, JournalError>
    requires Indexed(db)
  {
    if !ValidInput(text, input) || !ValidTime(now) then Err(InvalidInput)
    else if input.idempotencyKey in db.byKey then Resubmit(db, db.operations[db.byKey[input.idempotencyKey]], input)
    else if input.id in db.operations then Err(IdConflict)
    else PrepareNew(db, input, now)
  }

  /** The last authorization check before the file is written; every error but the first two is a veto. */
  function AssertAuthorized(db: Db, id: string): Result<Consent, JournalError> {
    if id !in db.operations || !db.operations[id].action.AutomaticAdd? || !db.operations[id].phase.Prepared? then Err(NotPrepared)
    else if NeedsReconciliation(db.operations) then Err(Reconciliation)
    else if ReplacesManual(db.ownership, db.operations[id].delta.upserts) then Err(ManualOwnership)
    else
      var consent :- CurrentConsent(db.settings, db.activeConsent);
      if db.operations[id].consent != Some(consent) then Err(ConsentStale) else Ok(consent)
  }

  predicate IsVeto(error: JournalError) {
    !error.NotPrepared? && !error.Reconciliation?
  }

  // ---------- Finalize ----------

  function DeleteRules(ownership: map<string, OwnedRule>, deletes: seq<string>): map<string, OwnedRule>
    decreases |deletes|
  {
    if deletes == [] then ownership else DeleteRules(ownership - {deletes[0]}, deletes[1..])
  }

  function UpsertRule(ownership: map<string, OwnedRule>, entry: Upsert, id: string, revision: Revision,
      now: int): map<string, OwnedRule> {
    var createdAt := if entry.rule in ownership then ownership[entry.rule].createdAt else now;
    ownership[entry.rule := OwnedRule(entry.ownership, id, revision, createdAt, now)]
  }

  function UpsertRules(ownership: map<string, OwnedRule>, upserts: seq<Upsert>, id: string, revision: Revision,
      now: int): map<string, OwnedRule>
    decreases |upserts|
  {
    if upserts == [] then ownership
    else UpsertRules(UpsertRule(ownership, upserts[0], id, revision, now), upserts[1..], id, revision, now)
  }

  /** The row that `order by evaluated_at desc, id desc` puts first. */
  function LatestDecision(decisions: seq<Decision>, candidate: string): Option<Decision>
    decreases |decisions|
  {
    if decisions == [] then None
    else
      var rest := LatestDecision(decisions[1..], candidate);
      if decisions[0].candidate != candidate then rest
      else if rest.None? || Later(decisions[0], rest.value) then Some(decisions[0])
      else rest
  }

  predicate Later(a: Decision, b: Decision) {
    a.evaluatedAt > b.evaluatedAt || (a.evaluatedAt == b.evaluatedAt && TextAfter(a.id, b.id))
  }

  predicate TextAfter(a: string, b: string) {
    a != "" && (b == "" || a[0] > b[0] || (a[0] == b[0] && TextAfter(a[1..], b[1..])))
  }

  predicate CommitAuthorized(db: Db, operation: Operation) {
    operation.candidate.Some? ==>
      var latest := LatestDecision(db.decisions, operation.candidate.value);
      && CandidateReady(db.candidates, operation.candidate.value, operation.proposedRule)
      && latest.Some? && latest.value.confirmed && latest.value.proposedRule == operation.proposedRule
  }

  /** The applied candidate is blocked and gets a decision saying so. */
  function CandidatesAfter(db: Db, operation: Operation, now: int): map<string, Candidate>
    requires operation.candidate.Some? ==> operation.candidate.value in db.candidates
  {
    if operation.candidate.None? then db.candidates
    else
      var fqdn := operation.candidate.value;
      db.candidates[fqdn := db.candidates[fqdn].(
        status := Blocked, nextValidationAt := MAX_DATE, lastValidationAt := Some(now), failureStreak := 0,
        leaseId := None, leaseUntil := None, updatedAt := now)]
  }

  function DecisionsAfter(db: Db, operation: Operation, now: int): seq<Decision> {
    if operation.candidate.None? then db.decisions
    else db.decisions + [Decision("applied-" + operation.id, operation.candidate.value, now, false,
        operation.proposedRule)]
  }

  function ConsumeSlot(budgets: map<int, Budget>, day: int, slots: int, now: int): map<int, Budget>
    requires day in budgets
  {
    budgets[day := Budget(budgets[day].reserved - slots, budgets[day].consumed + slots, now)]
  }

  function ReleaseSlot(budgets: map<int, Budget>, day: int, slots: int, now: int): map<int, Budget>
    requires day in budgets
  {
    budgets[day := Budget(budgets[day].reserved - slots, budgets[day].consumed, now)]
  }

  predicate ReservationPresent(db: Db, operation: Operation) {
    operation.budgetDay.Some? ==>
      operation.budgetDay.value in db.budgets && db.budgets[operation.budgetDay.value].reserved >= operation.budgetSlots
  }

  function Written(operation: Operation, revision: Revision, digest: Digest, now: int): Operation {
    operation.(phase := Committed, resultingRevision := Some(revision), resultingDigest := Some(digest),
        updatedAt := now)
  }

  function OwnershipAfter(db: Db, operation: Operation, revision: Revision, now: int): map<string, OwnedRule> {
    UpsertRules(DeleteRules(db.ownership, operation.delta.deletes), operation.delta.upserts, operation.id, revision,
        now)
  }

  datatype Transition = Transition(changed: bool, phase: Phase, attempt: int)

  function Finalize(db: Db, id: string, revision: Revision, digest: Digest,
      now: int): Result<After<Transition>, JournalError> {
    if !ValidTime(now) then Err(InvalidInput)
    else if id !in db.operations then Err(NotFound)
    else
      var operation := db.operations[id];
      if operation.intended != digest then Err(ContentMismatch)
      else if operation.expectedSource == revision then Err(RevisionNotAdvanced)
      else if !operation.phase.Prepared? then
        if Attested(operation.phase) && operation.resultingRevision == Some(revision) && operation.resultingDigest == Some(digest)
        then Ok(After(db, Transition(false, operation.phase, operation.attempts)))
        else Err(CannotFinalize)
      else if operation.action.AutomaticAdd? && ReplacesManual(db.ownership, operation.delta.upserts) then Err(ManualOwnership)
      else if !ReservationPresent(db, operation) then Err(ReservationMissing)
      else if !CommitAuthorized(db, operation) then Err(CandidateUnavailable)
      else Ok(After(FinalizedDb(db, operation, revision, digest, now), Transition(true, Committed, operation.attempts)))
  }

  function FinalizedDb(db: Db, operation: Operation, revision: Revision, digest: Digest, now: int): Db
    requires ReservationPresent(db, operation) && CommitAuthorized(db, operation)
  {
    db.(
      operations := db.operations[operation.id := Written(operation, revision, digest, now)],
      budgets := if operation.budgetDay.Some? then ConsumeSlot(db.budgets, operation.budgetDay.value, operation.budgetSlots, now) else db.budgets,
      ownership := OwnershipAfter(db, operation, revision, now),
      candidates := CandidatesAfter(db, operation, now),
      decisions := DecisionsAfter(db, operation, now))
  }

  // ---------- Activation ----------

  function Begun(operation: Operation, now: int): Operation {
    operation.(
      phase := Activating, activationStatus := InProgress, attempts := operation.attempts + 1, lastAttemptAt :=
          Some(now),
      errorCategory := None, updatedAt := now, completedAt := None)
  }

  /** The row constraint refuses attempt 1,000,001, which undoes the transaction. */
  function Begin(db: Db, id: string, now: int): Result<After<Transition>, JournalError> {
    if !ValidTime(now) then Err(InvalidInput)
    else if id !in db.operations then Err(NotFound)
    else
      var operation := db.operations[id];
      if operation.phase.Activating? || operation.phase.Completed? then
        Ok(After(db, Transition(false, operation.phase, operation.attempts)))
      else if !operation.phase.Committed? && !operation.phase.Partial? then Err(CannotBegin)
      else if now < operation.updatedAt then Err(ClockMovedBackwards)
      else if operation.attempts >= MAX_ATTEMPTS then Err(ConstraintFailed)
      else
        var begun := Begun(operation, now);
        Ok(After(db.(operations := db.operations[id := begun]), Transition(true, Activating, begun.attempts)))
  }

  datatype Outcome = Succeeds | Fails(category: ErrorCategory)

  function Ended(operation: Operation, outcome: Outcome, now: int): Operation {
    match outcome
    case Succeeds =>
      operation.(phase := Completed, activationStatus := Succeeded, errorCategory := None, updatedAt := now,
          completedAt := Some(now))
    case Fails(category) =>
      operation.(phase := Partial, activationStatus := Failed, errorCategory := Some(category), updatedAt := now,
          completedAt := None)
  }

  /** Whether a repeated completion says what the row already says. */
  predicate MatchesTerminal(operation: Operation, outcome: Outcome) {
    match outcome
    case Succeeds => operation.phase.Completed?
    case Fails(category) => operation.phase.Partial? && operation.errorCategory == Some(category)
  }

  function Complete(db: Db, id: string, attempt: int, outcome: Outcome,
      now: int): Result<After<Transition>, JournalError> {
    if !ValidTime(now) || !(1 <= attempt <= MAX_ATTEMPTS) then Err(InvalidInput)
    else if id !in db.operations then Err(NotFound)
    else
      var operation := db.operations[id];
      if operation.phase.Completed? || operation.phase.Partial? then
        if operation.attempts != attempt then Err(StaleAttempt)
        else if !MatchesTerminal(operation, outcome) then Err(TerminalConflict)
        else Ok(After(db, Transition(false, operation.phase, operation.attempts)))
      else if !operation.phase.Activating? || operation.attempts < 1 then Err(CannotComplete)
      else if operation.attempts != attempt then Err(StaleAttempt)
      else if now < operation.updatedAt then Err(ClockMovedBackwards)
      else
        var ended := Ended(operation, outcome, now);
        Ok(After(db.(operations := db.operations[id := ended]), Transition(true, ended.phase, ended.attempts)))
  }

  // ---------- Reconciliation and abort ----------

  function Marked(operation: Operation, now: int): Operation {
    var stopped :=
      if operation.phase.Activating? then operation.(activationStatus := Failed,
          errorCategory := Some(InfrastructureFailure))
      else operation;
    stopped.(phase := ReconciliationRequired, updatedAt := now, completedAt := Some(now))
  }

  function Mark(db: Db, id: string, now: int): Result<After<bool>, JournalError> {
    if !ValidTime(now) then Err(InvalidInput)
    else if id !in db.operations then Err(NotFound)
    else
      var operation := db.operations[id];
      if operation.phase.ReconciliationRequired? then Ok(After(db, false))
      else if operation.phase.Completed? || operation.phase.Aborted? then Err(TerminalOperation)
      else if now < operation.updatedAt then Err(ClockMovedBackwards)
      else Ok(After(db.(operations := db.operations[id := Marked(operation, now)]), true))
  }

  function AbortedOperation(operation: Operation, now: int): Operation {
    operation.(phase := Aborted, updatedAt := now, completedAt := Some(now))
  }

  /**
   The transaction of an abort, after `expectedSource` and `intended` were read and the pre-write state was attested.
   */
  function Abort(db: Db, id: string, expectedSource: Revision, intended: Digest,
      now: int): Result<After<bool>, JournalError> {
    if !ValidTime(now) then Err(InvalidInput)
    else if id !in db.operations || !db.operations[id].phase.Prepared? || db.operations[id].expectedSource != expectedSource
            || db.operations[id].intended != intended
    then Ok(After(db, false))
    else if !ReservationPresent(db, db.operations[id]) then Err(ReservationMissing)
    else
      var operation := db.operations[id];
      var budgets := if operation.budgetDay.Some? then ReleaseSlot(db.budgets, operation.budgetDay.value, operation.budgetSlots, now) else db.budgets;
      Ok(After(db.(budgets := budgets, operations := db.operations[id := AbortedOperation(operation, now)]), true))
  }
}
