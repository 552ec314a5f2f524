/**
 What every run of journal transactions keeps: the row CHECKs, the daily budget, one unfinished operation per
 candidate, the immutable intent, final phases, and manual ownership.
 */
module JournalTheorems {
  import opened Wrappers
  import opened Journal

  // ---------- The CHECK constraints of an operation row ----------

  predicate ActionChecks(op: Operation) {
    && (op.rollbackTarget.Some? <==> op.action.Rollback?)
    && (if op.action.AutomaticAdd? then op.budgetDay.Some? && op.budgetSlots == 1 && op.consent.Some?
        else op.budgetDay.None? && op.budgetSlots == 0 && op.consent.None?)
  }

  predicate CommitChecks(op: Operation) {
    && (op.resultingRevision.Some? <==> op.resultingDigest.Some?)
    && (op.phase.Prepared? || op.phase.Aborted? ==> op.resultingRevision.None?)
    && (Attested(op.phase) ==> op.resultingRevision.Some?)
  }

  predicate ActivationShape(op: Operation) {
    match op.activationStatus
    case NotStarted => op.attempts == 0 && op.lastAttemptAt.None? && op.errorCategory.None?
    case InProgress => 1 <= op.attempts <= MAX_ATTEMPTS && op.lastAttemptAt.Some? && op.errorCategory.None?
    case Succeeded => 1 <= op.attempts <= MAX_ATTEMPTS && op.lastAttemptAt.Some? && op.errorCategory.None?
    case Failed => 1 <= op.attempts <= MAX_ATTEMPTS && op.lastAttemptAt.Some? && op.errorCategory.Some?
  }

  predicate PhaseActivation(op: Operation) {
    match op.phase
    case Prepared => op.activationStatus.NotStarted?
    case Committed => op.activationStatus.NotStarted?
    case Aborted => op.activationStatus.NotStarted?
    case Activating => op.activationStatus.InProgress?
    case Completed => op.activationStatus.Succeeded?
    case Partial => op.activationStatus.Failed?
    case ReconciliationRequired => op.activationStatus.NotStarted? || op.activationStatus.Failed?
  }

  predicate Timestamps(op: Operation) {
    && 0 <= op.createdAt <= op.updatedAt <= MAX_DATE
    && (op.lastAttemptAt.Some? ==> op.createdAt <= op.lastAttemptAt.value <= op.updatedAt)
    && (op.completedAt.Some? ==> op.createdAt <= op.completedAt.value <= op.updatedAt)
  }

  predicate Checks(op: Operation) {
    && ActionChecks(op) && CommitChecks(op) && ActivationShape(op) && PhaseActivation(op) && Timestamps(op)
    && (op.completedAt.Some? <==> Final(op.phase))
  }

  /** A fresh row satisfies the constraints. */
  lemma NewOperationChecks(text: Text, input: PrepareInput, consent: Option<Consent>, now: int)
    requires ValidInput(text, input) && ValidTime(now) && (consent.Some? <==> input.action.AutomaticAdd?)
    ensures Checks(NewOperation(input, consent, now))
  {
  }

  /** Finalizing does not compare clocks: the row stays acceptable exactly when the clock is not before its creation. */
  lemma WrittenChecks(op: Operation, revision: Revision, digest: Digest, now: int)
    requires Checks(op) && op.phase.Prepared? && ValidTime(now)
    ensures Checks(Written(op, revision, digest, now)) <==> op.createdAt <= now
  {
  }

  /** Beginning an attempt keeps the constraints exactly while attempts remain. */
  lemma BegunChecks(op: Operation, now: int)
    requires Checks(op) && (op.phase.Committed? || op.phase.Partial?) && op.updatedAt <= now && ValidTime(now)
    ensures Checks(Begun(op, now)) <==> op.attempts < MAX_ATTEMPTS
  {
  }

  lemma EndedChecks(op: Operation, outcome: Outcome, now: int)
    requires Checks(op) && op.phase.Activating? && op.updatedAt <= now && ValidTime(now)
    ensures Checks(Ended(op, outcome, now))
  {
  }

  lemma MarkedChecks(op: Operation, now: int)
    requires Checks(op) && !Final(op.phase) && op.updatedAt <= now && ValidTime(now)
    ensures Checks(Marked(op, now))
  {
  }

  lemma AbortedChecks(op: Operation, now: int)
    requires Checks(op) && op.phase.Prepared? && ValidTime(now)
    ensures Checks(AbortedOperation(op, now)) <==> op.createdAt <= now
  {
  }

  // ---------- How one row may evolve ----------

  predicate SameIntent(before: Operation, after: Operation) {
    && after.id == before.id && after.idempotencyKey == before.idempotencyKey && after.action == before.action
    && after.rollbackTarget == before.rollbackTarget && after.candidate == before.candidate
    && after.expectedSource == before.expectedSource && after.intended == before.intended
    && after.proposedRule == before.proposedRule && after.delta == before.delta && after.consent == before.consent
    && after.budgetDay == before.budgetDay && after.budgetSlots == before.budgetSlots
    && after.createdAt == before.createdAt
  }

  /** The phases reachable from a phase, in any number of steps. */
  predicate Reaches(before: Phase, after: Phase) {
    before == after ||
    match before
    case Prepared => true
    case Committed => after.Activating? || after.Completed? || after.Partial? || after.ReconciliationRequired?
    case Activating => after.Completed? || after.Partial? || after.ReconciliationRequired?
    case Partial => after.Activating? || after.Completed? || after.ReconciliationRequired?
    case Completed => false
    case Aborted => false
    case ReconciliationRequired => false
  }

  /** Intent and written result never change once set, attempts only grow, final rows are frozen. */
  predicate Evolves(before: Operation, after: Operation) {
    && SameIntent(before, after)
    && Reaches(before.phase, after.phase)
    && (before.resultingRevision.Some? ==>
          after.resultingRevision == before.resultingRevision && after.resultingDigest == before.resultingDigest)
    && before.attempts <= after.attempts
    && (Final(before.phase) ==> after == before)
  }

  lemma EvolvesTransitively(a: Operation, b: Operation, c: Operation)
    requires Evolves(a, b) && Evolves(b, c)
    ensures Evolves(a, c)
  {
  }

  // ---------- Events and runs ----------

  datatype Event =
    | PrepareEvent(input: PrepareInput, now: int)
    | FinalizeEvent(id: string, revision: Revision, digest: Digest, now: int)
    | BeginEvent(id: string, now: int)
    | CompleteEvent(id: string, attempt: int, outcome: Outcome, now: int)
    | MarkEvent(id: string, now: int)
    | AbortEvent(id: string, expectedSource: Revision, intended: Digest, now: int)
    | EnvironmentEvent(candidates: map<string, Candidate>, decisions: seq<Decision>, settings: Option<Settings>,
        activeConsent: Option<Consent>, runningValidations: set<string>, now: int)

  function AfterOr<T>(db: Db, result: Result<After<T>, JournalError>): Db {
    if result.Ok? then result.value.db else db
  }

  /** The tables after one transaction: a failed transaction changes nothing. */
  function Apply(db: Db, text: Text, event: Event): Db
    requires Indexed(db)
  {
    match event
    case PrepareEvent(input, now) => AfterOr(db, Prepare(db, text, input, now))
    case FinalizeEvent(id, revision, digest, now) => AfterOr(db, Finalize(db, id, revision, digest, now))
    case BeginEvent(id, now) => AfterOr(db, Begin(db, id, now))
    case CompleteEvent(id, attempt, outcome, now) => AfterOr(db, Complete(db, id, attempt, outcome, now))
    case MarkEvent(id, now) => AfterOr(db, Mark(db, id, now))
    case AbortEvent(id, expectedSource, intended, now) => AfterOr(db, Abort(db, id, expectedSource, intended, now))
    case EnvironmentEvent(candidates, decisions, settings, activeConsent, runningValidations, now) =>
      db.(candidates := candidates, decisions := decisions, settings := settings, activeConsent := activeConsent,
          runningValidations := runningValidations)
  }

  // ---------- What one transaction does to the rows ----------

  /** One of the five ways a transaction at `now` rewrites a row. */
  predicate Moves(before: Operation, after: Operation, now: int) {
    || (&& before.phase.Prepared? && after.resultingRevision.Some? && after.resultingDigest == Some(before.intended)
        && after.resultingRevision.value != before.expectedSource
        && after == Written(before, after.resultingRevision.value, after.resultingDigest.value, now))
    || ((before.phase.Committed? || before.phase.Partial?) && before.updatedAt <= now && before.attempts < MAX_ATTEMPTS
        && after == Begun(before, now))
    || (before.phase.Activating? && before.updatedAt <= now && after == Ended(before, OutcomeOf(after), now))
    || (!Final(before.phase) && before.updatedAt <= now && after == Marked(before, now))
    || (before.phase.Prepared? && after == AbortedOperation(before, now))
  }

  function OutcomeOf(op: Operation): Outcome {
    if op.errorCategory.Some? then Fails(op.errorCategory.value) else Succeeds
  }

  predicate Unchanged(db: Db, after: Db) {
    after.operations == db.operations && after.byKey == db.byKey && after.budgets == db.budgets && after.ownership == db.ownership
  }

  predicate Inserts(db: Db, after: Db, text: Text, event: Event) {
    && event.PrepareEvent? && ValidInput(text, event.input) && ValidTime(event.now)
    && event.input.id !in db.operations && event.input.idempotencyKey !in db.byKey
    && !NeedsReconciliation(db.operations) && CandidateAvailable(db, event.input)
    && after.operations.Keys == db.operations.Keys + {event.input.id}
    && var op := after.operations[event.input.id];
    && (op.consent.Some? <==> event.input.action.AutomaticAdd?)
    && op == NewOperation(event.input, op.consent, event.now)
    && after.operations == db.operations[event.input.id := op]
    && after.byKey == db.byKey[event.input.idempotencyKey := event.input.id]
    && after.ownership == db.ownership
    && after.budgets == (if op.budgetDay.Some? then Reserve(db.budgets, op.budgetDay.value, event.now) else db.budgets)
    && (op.budgetDay.Some? ==>
      Reserved(db.budgets, op.budgetDay.value) + Consumed(db.budgets, op.budgetDay.value) < MAX_DAILY_RULES)
  }

  predicate Replaces(db: Db, after: Db, event: Event) {
    && !event.PrepareEvent? && !event.EnvironmentEvent? && ValidTime(event.now)
    && event.id in db.operations && event.id in after.operations && after.byKey == db.byKey
    && after.operations == db.operations[event.id := after.operations[event.id]]
    && Moves(db.operations[event.id], after.operations[event.id], event.now)
    && after.budgets == BudgetsAfter(db, db.operations[event.id], after.operations[event.id], event.now)
  }

  /** The budget row follows the slot of the operation. */
  function BudgetsAfter(db: Db, before: Operation, after: Operation, now: int): map<int, Budget> {
    if before.budgetDay.None? || before.budgetDay.value !in db.budgets || !before.phase.Prepared? then db.budgets
    else if after.phase.Committed? then ConsumeSlot(db.budgets, before.budgetDay.value, before.budgetSlots, now)
    else if after.phase.Aborted? then ReleaseSlot(db.budgets, before.budgetDay.value, before.budgetSlots, now)
    else db.budgets
  }

  /** Rows are stored under their identifier, and the key index and the rows point at each other. */
  predicate KeysOk(db: Db) {
    && Indexed(db)
    && (forall id :: id in db.operations ==> KeyOk(db, id, db.operations[id]))
  }

  predicate KeyOk(db: Db, id: string, op: Operation) {
    op.id == id && op.idempotencyKey in db.byKey && db.byKey[op.idempotencyKey] == id
  }

  predicate AllChecks(operations: map<string, Operation>) {
    forall id :: id in operations ==> Checks(operations[id])
  }

  predicate RowsOk(db: Db) {
    KeysOk(db) && AllChecks(db.operations)
  }

  lemma InsertedRow(db: Db, text: Text, event: Event, consent: Option<Consent>)
    requires event.PrepareEvent? && ValidInput(text, event.input) && ValidTime(event.now)
    requires event.input.id !in db.operations && event.input.idempotencyKey !in db.byKey
    requires !NeedsReconciliation(db.operations) && CandidateAvailable(db, event.input)
    requires consent.Some? <==> event.input.action.AutomaticAdd?
    requires consent.Some? ==>
      Reserved(db.budgets, UtcDay(event.now)) + Consumed(db.budgets, UtcDay(event.now)) < MAX_DAILY_RULES
    ensures var budgets := if consent.Some? then Reserve(db.budgets, UtcDay(event.now), event.now) else db.budgets;
      Inserts(db, Insert(db.(budgets := budgets), NewOperation(event.input, consent, event.now)), text, event)
  {
    hide ValidInput, NeedsReconciliation, CandidateAvailable, Reserve, Reserved, Consumed, UtcDay;
    var op := NewOperation(event.input, consent, event.now);
    assert db.operations[op.id := op].Keys == db.operations.Keys + {op.id};
  }

  lemma PrepareRows(db: Db, text: Text, event: Event)
    requires Indexed(db) && event.PrepareEvent?
    ensures Unchanged(db, Apply(db, text, event)) || Inserts(db, Apply(db, text, event), text, event)
  {
    hide ValidInput, IntentMatches, Recheck, NeedsReconciliation, ReplacesManual, CandidateAvailable, RollbackAttested,
      Inserts, Reserve, Reserved, Consumed, UtcDay, NewOperation, Insert;
    var input, now := event.input, event.now;
    var result := Prepare(db, text, input, now);
    if result.Ok? && result.value.value.created {
      if input.action.AutomaticAdd? {
        InsertedRow(db, text, event, Some(CurrentConsent(db.settings, db.activeConsent).value));
      } else {
        InsertedRow(db, text, event, None);
        assert db.(budgets := db.budgets) == db;
      }
    }
  }

  lemma FinalizeRows(db: Db, text: Text, event: Event)
    requires RowsOk(db) && event.FinalizeEvent?
    ensures Unchanged(db, Apply(db, text, event)) || Replaces(db, Apply(db, text, event), event)
  {
    hide ReplacesManual, CommitAuthorized, CandidatesAfter, DecisionsAfter, OwnershipAfter, Checks;
  }

  lemma BeginRows(db: Db, text: Text, event: Event)
    requires Indexed(db) && event.BeginEvent?
    ensures Unchanged(db, Apply(db, text, event)) || Replaces(db, Apply(db, text, event), event)
  {
  }

  lemma CompleteRows(db: Db, text: Text, event: Event)
    requires Indexed(db) && event.CompleteEvent?
    ensures Unchanged(db, Apply(db, text, event)) || Replaces(db, Apply(db, text, event), event)
  {
  }

  lemma MarkRows(db: Db, text: Text, event: Event)
    requires Indexed(db) && event.MarkEvent?
    ensures Unchanged(db, Apply(db, text, event)) || Replaces(db, Apply(db, text, event), event)
  {
  }

  lemma AbortRows(db: Db, text: Text, event: Event)
    requires Indexed(db) && event.AbortEvent?
    ensures Unchanged(db, Apply(db, text, event)) || Replaces(db, Apply(db, text, event), event)
  {
  }

  /** Every event leaves the rows alone, inserts one prepared row, or moves one row. */
  lemma EventRows(db: Db, text: Text, event: Event)
    requires RowsOk(db)
    ensures var after := Apply(db, text, event);
      Unchanged(db, after) || Inserts(db, after, text, event) || Replaces(db, after, event)
  {
    hide Inserts, Replaces, Checks;
    match event
    case PrepareEvent(_, _) => PrepareRows(db, text, event);
    case FinalizeEvent(_, _, _, _) => FinalizeRows(db, text, event);
    case BeginEvent(_, _) => BeginRows(db, text, event);
    case CompleteEvent(_, _, _, _) => CompleteRows(db, text, event);
    case MarkEvent(_, _) => MarkRows(db, text, event);
    case AbortEvent(_, _, _, _) => AbortRows(db, text, event);
    case EnvironmentEvent(_, _, _, _, _, _) =>
  }

  // ---------- Rows evolve ----------

  lemma MovesEvolve(before: Operation, after: Operation, now: int)
    requires Moves(before, after, now) && CommitChecks(before)
    ensures Evolves(before, after)
  {
  }

  /** No row disappears, and every row evolves. */
  predicate AllEvolve(before: map<string, Operation>, after: map<string, Operation>) {
    forall id :: id in before ==> id in after && Evolves(before[id], after[id])
  }

  lemma EventEvolves(db: Db, text: Text, event: Event)
    requires RowsOk(db)
    ensures AllEvolve(db.operations, Apply(db, text, event).operations)
  {
    hide Evolves, Moves, Checks, ActionChecks, ActivationShape, PhaseActivation, Timestamps, Apply, ValidInput,
      CandidateAvailable;
    var after := Apply(db, text, event);
    EventRows(db, text, event);
    forall id | id in db.operations ensures id in after.operations && Evolves(db.operations[id], after.operations[id]) {
      EvolvesReflexively(db.operations[id]);
      if Replaces(db, after, event) && id == event.id {
        ChecksGiveCommitChecks(db.operations[id]);
        MovesEvolve(db.operations[id], after.operations[id], event.now);
      }
    }
  }

  lemma EvolvesReflexively(op: Operation)
    ensures Evolves(op, op)
  {
  }

  lemma ChecksGiveCommitChecks(op: Operation)
    requires Checks(op)
    ensures CommitChecks(op)
  {
  }

  // ---------- One unfinished operation per candidate ----------

  predicate SoleUnfinished(operations: map<string, Operation>) {
    forall a, b | a in operations && b in operations && SharesCandidate(operations[a], operations[b]) :: a == b
  }

  predicate SharesCandidate(a: Operation, b: Operation) {
    a.candidate.Some? && a.candidate == b.candidate && Unfinished(a.phase) && Unfinished(b.phase)
  }

  lemma MovesFromUnfinished(before: Operation, after: Operation, now: int)
    requires Moves(before, after, now)
    ensures Unfinished(before.phase) && after.candidate == before.candidate && !before.phase.ReconciliationRequired?
  {
  }

  lemma EventKeepsSoleUnfinished(db: Db, text: Text, event: Event)
    requires RowsOk(db) && SoleUnfinished(db.operations)
    ensures SoleUnfinished(Apply(db, text, event).operations)
  {
    hide Moves, Checks, Apply, ValidInput, CandidateReady, Reserve;
    var after := Apply(db, text, event);
    EventRows(db, text, event);
    if Replaces(db, after, event) {
      MovesFromUnfinished(db.operations[event.id], after.operations[event.id], event.now);
    }
  }

  // ---------- The daily budget ----------

  /** A slot is held until the write, or for ever by an unwritten operation left for reconciliation. */
  predicate HoldsSlot(op: Operation, day: int) {
    op.budgetDay == Some(day) && (op.phase.Prepared? || (op.phase.ReconciliationRequired? && op.resultingRevision.None?))
  }

  predicate SpentSlot(op: Operation, day: int) {
    op.budgetDay == Some(day) && op.resultingRevision.Some?
  }

  function Holding(operations: map<string, Operation>, day: int): set<string> {
    set id | id in operations && HoldsSlot(operations[id], day)
  }

  function Spent(operations: map<string, Operation>, day: int): set<string> {
    set id | id in operations && SpentSlot(operations[id], day)
  }

  predicate DayAgrees(operations: map<string, Operation>, budgets: map<int, Budget>, day: int) {
    && Reserved(budgets, day) == |Holding(operations, day)|
    && Consumed(budgets, day) == |Spent(operations, day)|
    && Reserved(budgets, day) + Consumed(budgets, day) <= MAX_DAILY_RULES
  }

  /** Every day's counters are the operations that hold and that spent a slot, at most three together. */
  ghost predicate BudgetsAgree(db: Db) {
    forall day: int :: DayAgrees(db.operations, db.budgets, day)
  }

  lemma SlotsAfter(operations: map<string, Operation>, id: string, op: Operation, day: int)
    ensures Holding(operations[id := op], day) == Holding(operations, day) - {id} + if HoldsSlot(op, day) then {id}
        else {}
    ensures Spent(operations[id := op], day) == Spent(operations, day) - {id} + if SpentSlot(op, day) then {id} else {}
  {
  }

  /** How the two counts of a day move when one row is written. */
  lemma CountsAfter(operations: map<string, Operation>, id: string, op: Operation, day: int)
    ensures |Holding(operations[id := op], day)| ==
      |Holding(operations, day)| - (if id in Holding(operations, day) then 1 else 0) + if HoldsSlot(op, day) then 1
          else 0
    ensures |Spent(operations[id := op], day)| ==
      |Spent(operations, day)| - (if id in Spent(operations, day) then 1 else 0) + if SpentSlot(op, day) then 1 else 0
  {
    hide Holding, Spent, HoldsSlot, SpentSlot;
    SlotsAfter(operations, id, op, day);
    RemoveOne(Holding(operations, day), id);
    RemoveOne(Spent(operations, day), id);
  }

  lemma RemoveOne(s: set<string>, id: string)
    ensures |s - {id}| == |s| - if id in s then 1 else 0
    ensures |s - {id} + {id}| == |s - {id}| + 1
    ensures s - {id} + {} == s - {id}
  {
    if id !in s {
      assert s - {id} == s;
    }
  }

  lemma InsertKeepsDay(operations: map<string, Operation>, budgets: map<int, Budget>, op: Operation, now: int, day: int)
    requires op.id !in operations && op.phase.Prepared? && op.resultingRevision.None?
    requires DayAgrees(operations, budgets, day)
    requires op.budgetDay.Some? ==>
      Reserved(budgets, op.budgetDay.value) + Consumed(budgets, op.budgetDay.value) < MAX_DAILY_RULES
    ensures DayAgrees(operations[op.id := op], if op.budgetDay.Some? then Reserve(budgets, op.budgetDay.value, now)
        else budgets, day)
  {
    CountsAfter(operations, op.id, op, day);
  }

  /** A prepared row's own slot is always among those counted. */
  lemma SlotIsReserved(operations: map<string, Operation>, budgets: map<int, Budget>, id: string)
    requires id in operations && operations[id].phase.Prepared? && operations[id].budgetDay.Some?
    requires DayAgrees(operations, budgets, operations[id].budgetDay.value)
    ensures operations[id].budgetDay.value in budgets && budgets[operations[id].budgetDay.value].reserved >= 1
  {
    var held := Holding(operations, operations[id].budgetDay.value);
    assert id in held;
    assert |held| > 0;
  }

  lemma MovesKeepDay(db: Db, id: string, op: Operation, now: int, day: int)
    requires id in db.operations && Checks(db.operations[id]) && Moves(db.operations[id], op, now)
    requires DayAgrees(db.operations, db.budgets, day)
    requires db.operations[id].budgetDay.Some? && db.operations[id].phase.Prepared? ==>
      db.operations[id].budgetDay.value in db.budgets
    ensures DayAgrees(db.operations[id := op], BudgetsAfter(db, db.operations[id], op, now), day)
  {
    hide Moves, Checks, Holding, Spent;
    CountsAfter(db.operations, id, op, day);
    MovesSlots(db.operations[id], op, now, day);
    HoldingMember(db.operations, id, day);
  }

  lemma HoldingMember(operations: map<string, Operation>, id: string, day: int)
    requires id in operations
    ensures id in Holding(operations, day) <==> HoldsSlot(operations[id], day)
    ensures id in Spent(operations, day) <==> SpentSlot(operations[id], day)
  {
  }

  lemma MovesSlots(before: Operation, after: Operation, now: int, day: int)
    requires Checks(before) && Moves(before, after, now)
    ensures before.phase.Prepared? && before.budgetDay.Some? ==> before.budgetSlots == 1 && !SpentSlot(before, day)
    ensures before.phase.Prepared? && after.phase.Committed? ==>
      !HoldsSlot(after, day) && (SpentSlot(after, day) <==> HoldsSlot(before, day))
    ensures before.phase.Prepared? && after.phase.Aborted? ==> !HoldsSlot(after, day) && !SpentSlot(after, day)
    ensures before.phase.Prepared? && !after.phase.Committed? && !after.phase.Aborted? ==>
      HoldsSlot(after, day) == HoldsSlot(before, day)
    ensures before.phase.Prepared? && !after.phase.Committed? && !after.phase.Aborted? ==>
      !SpentSlot(after, day) && !SpentSlot(before, day)
    ensures !before.phase.Prepared? ==>
      HoldsSlot(after, day) == HoldsSlot(before, day) && SpentSlot(after, day) == SpentSlot(before, day)
  {
  }

  lemma EventKeepsBudgets(db: Db, text: Text, event: Event)
    requires RowsOk(db) && BudgetsAgree(db)
    ensures BudgetsAgree(Apply(db, text, event))
  {
    hide Moves, Checks, Apply, ValidInput, CandidateReady, Reserve, DayAgrees, BudgetsAfter, CandidateAvailable,
      Reserved, Consumed, NeedsReconciliation;
    var after := Apply(db, text, event);
    EventRows(db, text, event);
    forall day: int ensures DayAgrees(after.operations, after.budgets, day) {
      assert DayAgrees(db.operations, db.budgets, day);
      if Inserts(db, after, text, event) {
        InsertKeepsDay(db.operations, db.budgets, after.operations[event.input.id], event.now, day);
      } else if Replaces(db, after, event) {
        var op := db.operations[event.id];
        if op.phase.Prepared? && op.budgetDay.Some? {
          assert DayAgrees(db.operations, db.budgets, op.budgetDay.value);
          SlotIsReserved(db.operations, db.budgets, event.id);
        }
        MovesKeepDay(db, event.id, after.operations[event.id], event.now, day);
      }
    }
  }

  /** The "reservation is missing" error cannot happen. */
  lemma ReservationNeverMissing(db: Db, id: string, revision: Revision, digest: Digest, now: int)
    requires RowsOk(db) && BudgetsAgree(db)
    ensures Finalize(db, id, revision, digest, now) != Err(ReservationMissing)
    ensures forall source, intended :: Abort(db, id, source, intended, now) != Err(ReservationMissing)
  {
    hide DayAgrees, ReplacesManual, CommitAuthorized, FinalizedDb, AbortedOperation, ReleaseSlot;
    if id in db.operations && db.operations[id].phase.Prepared? && db.operations[id].budgetDay.Some? {
      assert DayAgrees(db.operations, db.budgets, db.operations[id].budgetDay.value);
      SlotIsReserved(db.operations, db.budgets, id);
      assert Checks(db.operations[id]);
    }
  }

  // ---------- The constraints over a run ----------

  predicate ActionIntent(op: Operation) {
    op.action.AutomaticAdd? ==> op.delta.deletes == [] && forall k :: 0 <= k < |op.delta.upserts| ==>
      op.delta.upserts[k].ownership.Automatic?
  }

  lemma MovesKeepChecks(before: Operation, after: Operation, now: int)
    requires Checks(before) && Moves(before, after, now) && before.updatedAt <= now && ValidTime(now)
    ensures Checks(after) && after.updatedAt == now
  {
    hide Checks;
    ChecksGiveCommitChecks(before);
    if after.phase.Committed? {
      WrittenByMove(before, after, now);
    } else if after.phase.Activating? {
      BegunChecks(before, now);
    } else if after.phase.Completed? || after.phase.Partial? {
      EndedChecks(before, OutcomeOf(after), now);
    } else if after.phase.ReconciliationRequired? {
      MarkedChecks(before, now);
    } else {
      CreatedBeforeUpdate(before);
      AbortedChecks(before, now);
    }
  }

  lemma CreatedBeforeUpdate(op: Operation)
    requires Checks(op)
    ensures op.createdAt <= op.updatedAt
  {
  }

  lemma WrittenByMove(before: Operation, after: Operation, now: int)
    requires Checks(before) && Moves(before, after, now) && before.updatedAt <= now && ValidTime(now)
    requires after.phase.Committed?
    ensures Checks(after)
  {
    hide Checks;
    CreatedBeforeUpdate(before);
    WrittenChecks(before, after.resultingRevision.value, after.resultingDigest.value, now);
  }

  lemma MovesAttempts(before: Operation, after: Operation, now: int)
    requires Moves(before, after, now)
    ensures after.attempts == if after.phase.Activating? then before.attempts + 1 else before.attempts
    ensures ActionIntent(before) ==> ActionIntent(after)
    ensures after.id == before.id && after.idempotencyKey == before.idempotencyKey
  {
  }

  /** A row within the constraints that was not written later than `now`. */
  predicate RowOk(op: Operation, now: int) {
    Checks(op) && ActionIntent(op) && op.updatedAt <= now
  }

  predicate AllRowsOk(operations: map<string, Operation>, now: int) {
    forall id :: id in operations ==> RowOk(operations[id], now)
  }

  lemma InsertedRowOk(text: Text, input: PrepareInput, consent: Option<Consent>, now: int)
    requires ValidInput(text, input) && ValidTime(now) && (consent.Some? <==> input.action.AutomaticAdd?)
    ensures RowOk(NewOperation(input, consent, now), now)
  {
    NewOperationChecks(text, input, consent, now);
  }

  lemma MovedRowOk(before: Operation, after: Operation, now: int)
    requires RowOk(before, now) && Moves(before, after, now) && ValidTime(now)
    ensures RowOk(after, now)
  {
    hide Moves, Checks;
    MovesAttempts(before, after, now);
    MovesKeepChecks(before, after, now);
  }

  lemma EventKeepsRows(db: Db, text: Text, event: Event)
    requires RowsOk(db) && AllRowsOk(db.operations, event.now)
    ensures AllRowsOk(Apply(db, text, event).operations, event.now)
  {
    hide Moves, RowOk, Apply, ValidInput, CandidateAvailable, Reserve, BudgetsAfter, Checks, KeyOk, NeedsReconciliation;
    var after := Apply(db, text, event);
    EventRows(db, text, event);
    forall id | id in after.operations ensures RowOk(after.operations[id], event.now) {
      if Inserts(db, after, text, event) && id == event.input.id {
        InsertedRowOk(text, event.input, after.operations[id].consent, event.now);
      } else if Replaces(db, after, event) && id == event.id {
        MovedRowOk(db.operations[id], after.operations[id], event.now);
      } else {
        assert RowOk(db.operations[id], event.now);
      }
    }
  }

  lemma SameKeys(db: Db, after: Db, id: string)
    requires KeysOk(db) && id in db.operations && id in after.operations
    requires after.byKey == db.byKey && after.operations == db.operations[id := after.operations[id]]
    requires after.operations[id].id == db.operations[id].id
    requires after.operations[id].idempotencyKey == db.operations[id].idempotencyKey
    ensures KeysOk(after)
  {
  }

  lemma InsertKeys(db: Db, after: Db, id: string, op: Operation)
    requires KeysOk(db) && id !in db.operations && op.id == id && op.idempotencyKey !in db.byKey
    requires after.operations == db.operations[id := op] && after.byKey == db.byKey[op.idempotencyKey := id]
    ensures KeysOk(after)
  {
  }

  lemma EventKeepsKeys(db: Db, text: Text, event: Event)
    requires RowsOk(db)
    ensures KeysOk(Apply(db, text, event))
  {
    hide Moves, Apply, ValidInput, CandidateAvailable, Reserve, BudgetsAfter, Checks, NeedsReconciliation, KeyOk,
      NewOperation, Indexed;
    var after := Apply(db, text, event);
    EventRows(db, text, event);
    if Replaces(db, after, event) {
      MovesAttempts(db.operations[event.id], after.operations[event.id], event.now);
      SameKeys(db, after, event.id);
    } else if Inserts(db, after, text, event) {
      NewOperationKeys(event.input, after.operations[event.input.id].consent, event.now);
      InsertKeys(db, after, event.input.id, after.operations[event.input.id]);
    } else {
      SameTables(db, after);
    }
  }

  lemma NewOperationKeys(input: PrepareInput, consent: Option<Consent>, now: int)
    ensures NewOperation(input, consent, now).id == input.id
    ensures NewOperation(input, consent, now).idempotencyKey == input.idempotencyKey
  {
  }

  lemma SameTables(db: Db, after: Db)
    requires KeysOk(db) && after.operations == db.operations && after.byKey == db.byKey
    ensures KeysOk(after)
  {
  }

  // ---------- Runs ----------

  /** What every reachable journal satisfies at time `now`. */
  ghost predicate JournalOk(db: Db, now: int) {
    KeysOk(db) && AllRowsOk(db.operations, now) && SoleUnfinished(db.operations) && BudgetsAgree(db)
  }

  const EMPTY := Db(map[], map[], map[], map[], map[], [], None, None, {})

  lemma EmptyIsOk(now: int)
    ensures JournalOk(EMPTY, now)
  {
    forall day: int ensures DayAgrees(EMPTY.operations, EMPTY.budgets, day) {
      assert Holding(EMPTY.operations, day) == {};
      assert Spent(EMPTY.operations, day) == {};
    }
  }

  lemma RowsOkFrom(db: Db, now: int)
    requires KeysOk(db) && AllRowsOk(db.operations, now)
    ensures RowsOk(db)
  {
    hide Checks, KeysOk, ActionIntent;
    forall id | id in db.operations ensures Checks(db.operations[id]) {
      assert RowOk(db.operations[id], now);
    }
  }

  lemma LaterRowsOk(operations: map<string, Operation>, now: int, later: int)
    requires AllRowsOk(operations, now) && now <= later
    ensures AllRowsOk(operations, later)
  {
    hide Checks, ActionIntent;
  }

  /** Every transaction keeps the journal's invariant. */
  lemma EventKeepsJournal(db: Db, text: Text, event: Event, now: int)
    requires JournalOk(db, now) && now <= event.now
    ensures JournalOk(Apply(db, text, event), event.now)
  {
    hide KeysOk, AllRowsOk, SoleUnfinished, BudgetsAgree, Apply;
    KeysGiveIndex(db);
    RowsOkFrom(db, now);
    LaterRowsOk(db.operations, now, event.now);
    EventKeepsRows(db, text, event);
    EventKeepsKeys(db, text, event);
    EventKeepsSoleUnfinished(db, text, event);
    EventKeepsBudgets(db, text, event);
  }

  lemma KeysGiveIndex(db: Db)
    requires KeysOk(db)
    ensures Indexed(db)
  {
  }

  predicate NonDecreasing(events: seq<Event>, now: int)
    decreases |events|
  {
    events == [] || (now <= events[0].now && NonDecreasing(events[1..], events[0].now))
  }

  /** The tables after a run. The invariant makes every application defined. */
  ghost function Run(db: Db, text: Text, events: seq<Event>, now: int): (after: Db)
    requires JournalOk(db, now) && NonDecreasing(events, now)
    ensures exists later :: now <= later && JournalOk(after, later)
    decreases |events|
  {
    KeysGiveIndex(db);
    if events == [] then db
    else
      EventKeepsJournal(db, text, events[0], now);
      Run(Apply(db, text, events[0]), text, events[1..], events[0].now)
  }

  /** Every run with a non-decreasing clock keeps the constraints, the candidates and the budget. */
  lemma RunKeepsJournal(db: Db, text: Text, events: seq<Event>, now: int)
    requires JournalOk(db, now) && NonDecreasing(events, now)
    ensures var after := Run(db, text, events, now);
      RowsOk(after) && SoleUnfinished(after.operations) && BudgetsAgree(after)
  {
    hide JournalOk, Run, KeysOk, RowsOk;
    var after := Run(db, text, events, now);
    var later :| now <= later && JournalOk(after, later);
    JournalParts(after, later);
  }

  lemma JournalParts(db: Db, now: int)
    requires JournalOk(db, now)
    ensures RowsOk(db) && SoleUnfinished(db.operations) && BudgetsAgree(db)
  {
    hide RowsOk, KeysOk, AllRowsOk, SoleUnfinished, BudgetsAgree;
    RowsOkFrom(db, now);
  }

  /** Over every run rows keep their intent and their written result, and final rows never change. */
  lemma {:induction false} RunEvolves(db: Db, text: Text, events: seq<Event>, now: int)
    requires JournalOk(db, now) && NonDecreasing(events, now)
    ensures AllEvolve(db.operations, Run(db, text, events, now).operations)
    decreases |events|
  {
    hide Apply, JournalOk, Evolves;
    if events == [] {
      forall id | id in db.operations ensures Evolves(db.operations[id], db.operations[id]) {
        EvolvesReflexively(db.operations[id]);
      }
    } else {
      JournalGivesRows(db, now);
      EventKeepsJournal(db, text, events[0], now);
      var next := Apply(db, text, events[0]);
      EventEvolves(db, text, events[0]);
      RunEvolves(next, text, events[1..], events[0].now);
      AllEvolveTransitively(db.operations, next.operations, Run(next, text, events[1..], events[0].now).operations);
    }
  }

  lemma JournalGivesRows(db: Db, now: int)
    requires JournalOk(db, now)
    ensures RowsOk(db) && Indexed(db)
  {
    hide Checks, RowOk;
    RowsOkFrom(db, now);
  }

  lemma AllEvolveTransitively(a: map<string, Operation>, b: map<string, Operation>, c: map<string, Operation>)
    requires AllEvolve(a, b) && AllEvolve(b, c)
    ensures AllEvolve(a, c)
  {
    hide Evolves;
    forall id | id in a ensures id in c && Evolves(a[id], c[id]) {
      EvolvesTransitively(a[id], b[id], c[id]);
    }
  }

  // ---------- Stale completions ----------

  /** A completion for another attempt than the current one changes nothing. */
  lemma StaleCompletionRefused(db: Db, id: string, attempt: int, outcome: Outcome, now: int)
    requires id in db.operations && attempt != db.operations[id].attempts
    ensures Complete(db, id, attempt, outcome, now).Err?
  {
  }

  /** Once a retry began, a completion for an older attempt is refused in every later state. */
  lemma StaleForEver(db: Db, text: Text, events: seq<Event>, now: int, id: string, attempt: int, outcome: Outcome,
      later: int)
    requires JournalOk(db, now) && NonDecreasing(events, now)
    requires id in db.operations && attempt < db.operations[id].attempts
    ensures Complete(Run(db, text, events, now), id, attempt, outcome, later).Err?
  {
    hide JournalOk, Complete, Run;
    RunEvolves(db, text, events, now);
    var after := Run(db, text, events, now);
    assert Evolves(db.operations[id], after.operations[id]);
    StaleCompletionRefused(after, id, attempt, outcome, later);
  }

  /** Beginning a retry makes every completion of an earlier attempt stale. */
  lemma RetrySupersedesEarlierAttempts(db: Db, id: string, now: int, attempt: int, outcome: Outcome, later: int)
    requires Begin(db, id, now).Ok? && Begin(db, id, now).value.value.changed && attempt <= db.operations[id].attempts
    ensures Complete(Begin(db, id, now).value.db, id, attempt, outcome, later).Err?
    ensures Begin(db, id, now).value.value.attempt > db.operations[id].attempts
  {
  }

  // ---------- Consequences for a day and for a candidate ----------

  /** In every reachable state a day has at most three automatic operations written or still able to be. */
  lemma AtMostThreeAutomaticRulesPerDay(db: Db, text: Text, events: seq<Event>, now: int, day: int)
    requires JournalOk(db, now) && NonDecreasing(events, now)
    ensures var after := Run(db, text, events, now);
      |Spent(after.operations, day)| + |Holding(after.operations, day)| <= MAX_DAILY_RULES
  {
    hide JournalOk, Run, RowsOk, SoleUnfinished, Spent, Holding;
    RunKeepsJournal(db, text, events, now);
    var after := Run(db, text, events, now);
    assert DayAgrees(after.operations, after.budgets, day);
  }

  /** Committing an operation blocks its candidate: no operation can be prepared for it until it is confirmed again. */
  lemma AppliedCandidateIsBlocked(db: Db, id: string, revision: Revision, digest: Digest, now: int, input: PrepareInput)
    requires Finalize(db, id, revision, digest, now).Ok? && Finalize(db, id, revision, digest, now).value.value.changed
    requires db.operations[id].candidate.Some? && input.candidate == db.operations[id].candidate
    ensures !CandidateAvailable(Finalize(db, id, revision, digest, now).value.db, input)
  {
    hide ReplacesManual, LatestDecision, DecisionsAfter, OwnershipAfter, ReservationPresent, ConsumeSlot, UnfinishedFor;
  }

  // ---------- Ownership ----------

  function UpsertedRules(upserts: seq<Upsert>): set<string> {
    set k | 0 <= k < |upserts| :: upserts[k].rule
  }

  function DeletedRules(deletes: seq<string>): set<string> {
    set rule | rule in deletes
  }

  lemma {:induction false} DeleteRulesKeys(ownership: map<string, OwnedRule>, deletes: seq<string>)
    ensures DeleteRules(ownership, deletes).Keys == ownership.Keys - DeletedRules(deletes)
    ensures forall rule :: rule in DeleteRules(ownership, deletes) ==>
      DeleteRules(ownership, deletes)[rule] == ownership[rule]
    decreases |deletes|
  {
    if deletes != [] {
      DeleteRulesKeys(ownership - {deletes[0]}, deletes[1..]);
      assert deletes == [deletes[0]] + deletes[1..];
    }
  }

  lemma {:induction false} UpsertRulesKeys(ownership: map<string, OwnedRule>, upserts: seq<Upsert>, id: string,
      revision: Revision, now: int)
    ensures UpsertRules(ownership, upserts, id, revision, now).Keys == ownership.Keys + UpsertedRules(upserts)
    ensures forall rule :: rule in ownership && rule !in UpsertedRules(upserts) ==>
      UpsertRules(ownership, upserts, id, revision, now)[rule] == ownership[rule]
    decreases |upserts|
  {
    if upserts != [] {
      var next := UpsertRule(ownership, upserts[0], id, revision, now);
      UpsertRulesKeys(next, upserts[1..], id, revision, now);
      assert next.Keys == ownership.Keys + {upserts[0].rule};
      UpsertedHead(upserts);
    }
  }

  lemma UpsertedHead(upserts: seq<Upsert>)
    requires upserts != []
    ensures UpsertedRules(upserts) == {upserts[0].rule} + UpsertedRules(upserts[1..])
  {
    assert upserts == [upserts[0]] + upserts[1..];
    forall rule | rule in UpsertedRules(upserts) ensures rule in {upserts[0].rule} + UpsertedRules(upserts[1..]) {
      var k :| 0 <= k < |upserts| && upserts[k].rule == rule;
      if k > 0 {
        assert upserts[1..][k - 1].rule == rule;
      }
    }
    forall rule | rule in UpsertedRules(upserts[1..]) ensures rule in UpsertedRules(upserts) {
      var k :| 0 <= k < |upserts[1..]| && upserts[1..][k].rule == rule;
      assert upserts[k + 1].rule == rule;
    }
  }

  /** The owned rules after a commit: the old ones without the deletes and with the upserts. */
  lemma OwnershipKeys(db: Db, op: Operation, revision: Revision, now: int)
    ensures OwnershipAfter(db, op, revision, now).Keys ==
      db.ownership.Keys - DeletedRules(op.delta.deletes) + UpsertedRules(op.delta.upserts)
  {
    DeleteRulesKeys(db.ownership, op.delta.deletes);
    UpsertRulesKeys(DeleteRules(db.ownership, op.delta.deletes), op.delta.upserts, op.id, revision, now);
  }

  /** An automatic operation never touches a rule that is owned manually. */
  lemma AutomaticKeepsManual(db: Db, id: string, revision: Revision, digest: Digest, now: int, rule: string)
    requires id in db.operations && ActionIntent(db.operations[id]) && db.operations[id].action.AutomaticAdd?
    requires Finalize(db, id, revision, digest, now).Ok? && OwnedManually(db.ownership, rule)
    ensures rule in Finalize(db, id, revision, digest, now).value.db.ownership
    ensures Finalize(db, id, revision, digest, now).value.db.ownership[rule] == db.ownership[rule]
  {
    hide CommitAuthorized, CandidatesAfter, DecisionsAfter, UpsertRules, DeleteRules;
    var op := db.operations[id];
    DeleteRulesKeys(db.ownership, op.delta.deletes);
    UpsertRulesKeys(DeleteRules(db.ownership, op.delta.deletes), op.delta.upserts, op.id, revision, now);
  }

  /** Only a commit changes ownership. */
  lemma OwnershipChangesOnCommit(db: Db, text: Text, event: Event)
    requires RowsOk(db) && Apply(db, text, event).ownership != db.ownership
    ensures event.FinalizeEvent? && event.id in db.operations && db.operations[event.id].phase.Prepared?
    ensures Apply(db, text, event).operations[event.id].phase.Committed?
    ensures Apply(db, text, event).ownership == OwnershipAfter(db, db.operations[event.id], event.revision, event.now)
  {
    hide Checks, CommitAuthorized, CandidatesAfter, DecisionsAfter, OwnershipAfter, ReplacesManual, NewOperation,
      Insert, PrepareNew, Resubmit, ValidInput;
    if event.PrepareEvent? {
      PrepareRows(db, text, event);
    }
  }

  lemma {:induction false} UpsertRulesRow(ownership: map<string, OwnedRule>, upserts: seq<Upsert>, id: string,
      revision: Revision, now: int, k: nat)
    requires k < |upserts| && forall i, j :: 0 <= i < j < |upserts| ==> upserts[i].rule != upserts[j].rule
    ensures var after := UpsertRules(ownership, upserts, id, revision, now);
      upserts[k].rule in after && after[upserts[k].rule] == UpsertRule(ownership, upserts[k], id, revision, now)[upserts[k].rule]
    decreases |upserts|
  {
    var next := UpsertRule(ownership, upserts[0], id, revision, now);
    if k == 0 {
      UpsertRulesKeys(next, upserts[1..], id, revision, now);
      NotAmong(upserts[1..], upserts[0].rule);
    } else {
      UpsertRulesRow(next, upserts[1..], id, revision, now, k - 1);
    }
  }

  lemma NotAmong(upserts: seq<Upsert>, rule: string)
    requires forall k :: 0 <= k < |upserts| ==> upserts[k].rule != rule
    ensures rule !in UpsertedRules(upserts)
  {
  }

  /** What a commit writes for a rule it adds: the delta's owner, and the creation time of the row it replaces. */
  lemma CommittedRow(db: Db, op: Operation, text: Text, revision: Revision, now: int, k: nat)
    requires ValidDelta(text, op.delta) && k < |op.delta.upserts|
    ensures var rule := op.delta.upserts[k].rule;
      && rule in OwnershipAfter(db, op, revision, now)
      && OwnershipAfter(db, op, revision, now)[rule] == OwnedRule(
           op.delta.upserts[k].ownership, op.id, revision, if rule in db.ownership then db.ownership[rule].createdAt
               else now, now)
  {
    hide DeleteRules, UpsertRules;
    DeleteRulesKeys(db.ownership, op.delta.deletes);
    UpsertRulesRow(DeleteRules(db.ownership, op.delta.deletes), op.delta.upserts, op.id, revision, now, k);
  }

  // ---------- The order of a delta ----------

  lemma SameEntries(a: Delta, b: Delta)
    requires SameDelta(a, b)
    ensures forall entry :: entry in a.upserts <==> entry in b.upserts
    ensures forall rule :: rule in a.deletes <==> rule in b.deletes
    ensures UpsertedRules(a.upserts) == UpsertedRules(b.upserts) && DeletedRules(a.deletes) == DeletedRules(b.deletes)
  {
    forall entry ensures entry in a.upserts <==> entry in b.upserts {
      assert entry in multiset(a.upserts) <==> entry in multiset(b.upserts);
    }
    forall rule ensures rule in a.deletes <==> rule in b.deletes {
      assert rule in multiset(a.deletes) <==> rule in multiset(b.deletes);
    }
    UpsertedOf(a.upserts);
    UpsertedOf(b.upserts);
  }

  lemma UpsertedOf(upserts: seq<Upsert>)
    ensures UpsertedRules(upserts) == set entry | entry in upserts :: entry.rule
  {
  }

  /** Committing a delta writes the same ownership rows in whatever order its entries come. */
  lemma OwnershipIgnoresOrder(db: Db, op: Operation, text: Text, other: Delta, revision: Revision, now: int)
    requires ValidDelta(text, op.delta) && ValidDelta(text, other) && SameDelta(op.delta, other)
    ensures OwnershipAfter(db, op, revision, now) == OwnershipAfter(db, op.(delta := other), revision, now)
  {
    hide OwnershipAfter, ValidDelta, SameDelta;
    var a, b := OwnershipAfter(db, op, revision, now), OwnershipAfter(db, op.(delta := other), revision, now);
    SameEntries(op.delta, other);
    OwnershipKeys(db, op, revision, now);
    OwnershipKeys(db, op.(delta := other), revision, now);
    forall rule | rule in a ensures a[rule] == b[rule] {
      if rule in UpsertedRules(op.delta.upserts) {
        var k :| 0 <= k < |op.delta.upserts| && op.delta.upserts[k].rule == rule;
        assert op.delta.upserts[k] in other.upserts;
        var j :| 0 <= j < |other.upserts| && other.upserts[j] == op.delta.upserts[k];
        CommittedRow(db, op, text, revision, now, k);
        CommittedRow(db, op.(delta := other), text, revision, now, j);
      } else {
        UntouchedRow(db, op, revision, now, rule);
        UntouchedRow(db, op.(delta := other), revision, now, rule);
      }
    }
  }

  /** A rule that a delta does not add keeps its row. */
  lemma UntouchedRow(db: Db, op: Operation, revision: Revision, now: int, rule: string)
    requires rule in OwnershipAfter(db, op, revision, now) && rule !in UpsertedRules(op.delta.upserts)
    ensures rule in db.ownership && OwnershipAfter(db, op, revision, now)[rule] == db.ownership[rule]
  {
    hide DeleteRules, UpsertRules;
    DeleteRulesKeys(db.ownership, op.delta.deletes);
    UpsertRulesKeys(DeleteRules(db.ownership, op.delta.deletes), op.delta.upserts, op.id, revision, now);
  }
}
