/**
 The journal's tables as they are updated in place, each method one database transaction. A transaction that
 fails leaves every table as it was.
 */
module JournalStore {
  import opened Wrappers
  import opened Journal

  /** The transaction returned what the specification returns, and left the tables it leaves. */
  ghost predicate Performed<T(!new)>(before: Db, after: Db, returned: Result<T, JournalError>,
      specified: Result<After<T>, JournalError>) {
    match specified
    case Ok(done) => returned == Ok(done.value) && after == done.db
    case Err(error) => returned == Err(error) && after == before
  }

  class Tables {
    var operations: map<string, Operation>
    var byKey: map<string, string>
    var budgets: map<int, Budget>
    var ownership: map<string, OwnedRule>
    var candidates: map<string, Candidate>
    var decisions: seq<Decision>
    var settings: Option<Settings>
    var activeConsent: Option<Consent>
    var runningValidations: set<string>

    constructor ()
      ensures View() == Db(map[], map[], map[], map[], map[], [], None, None, {})
    {
      operations, byKey, budgets, ownership, candidates := map[], map[], map[], map[], map[];
      decisions, settings, activeConsent, runningValidations := [], None, None, {};
    }

    function View(): Db
      reads this
    {
      Db(operations, byKey, budgets, ownership, candidates, decisions, settings, activeConsent, runningValidations)
    }

    method AutomaticOwnershipAvailable(upserts: seq<Upsert>) returns (available: bool)
      ensures available <==> !ReplacesManual(ownership, upserts)
    {
      for k := 0 to |upserts|
        invariant forall j :: 0 <= j < k ==> !OwnedManually(ownership, upserts[j].rule)
      {
        if upserts[k].rule in ownership && ownership[upserts[k].rule].ownership.Manual? {
          return false;
        }
      }
      available := true;
    }

    method PrepareDomainRuleOperation(text: Text, input: PrepareInput, now: int) returns (r: Result<PrepareOutcome,
        JournalError>)
      requires Indexed(View())
      modifies this`operations, this`byKey, this`budgets
      ensures Performed(old(View()), View(), r, Prepare(old(View()), text, input, now))
    {
      hide ValidInput, NeedsReconciliation, ReplacesManual, CandidateAvailable, RollbackAttested, UtcDay, Recheck;
      if !ValidInput(text, input) || !ValidTime(now) {
        return Err(InvalidInput);
      }
      if input.idempotencyKey in byKey {
        var existing := operations[byKey[input.idempotencyKey]];
        if !IntentMatches(existing, input) {
          return Err(IdempotencyConflict);
        }
        if existing.phase.Prepared? {
          var authorized := Recheck(View(), existing);
          if authorized.Err? {
            return Err(authorized.error);
          }
        }
        return Ok(PreparedOperation(existing, false));
      }
      if input.id in operations {
        return Err(IdConflict);
      }
      if NeedsReconciliation(operations) {
        return Err(Reconciliation);
      }
      if input.action.AutomaticAdd? {
        var available := AutomaticOwnershipAvailable(input.delta.upserts);
        if !available {
          return Err(ManualOwnership);
        }
      }
      if !CandidateAvailable(View(), input) {
        return Err(CandidateUnavailable);
      }
      var consent: Option<Consent> := None;
      if input.action.AutomaticAdd? {
        var current := CurrentConsent(settings, activeConsent);
        if current.Err? {
          return Err(current.error);
        }
        consent := Some(current.value);
        var day := UtcDay(now);
        var reservedSlots, consumedSlots := Reserved(budgets, day), Consumed(budgets, day);
        if reservedSlots + consumedSlots + 1 > settings.value.preferences.maximumAutomaticRulesPerDay {
          return Err(BudgetExhausted);
        }
        budgets := budgets[day := Budget(reservedSlots + 1, consumedSlots, now)];
      } else if input.action.Rollback? && !RollbackAttested(operations, input.rollbackTarget) {
        return Err(RollbackTargetUnknown);
      }
      var operation := NewOperation(input, consent, now);
      operations := operations[input.id := operation];
      byKey := byKey[input.idempotencyKey := input.id];
      r := Ok(PreparedOperation(operation, true));
    }

    method ApplyDelta(operation: Operation, revision: Revision, now: int)
      modifies this`ownership
      ensures ownership == OwnershipAfter(old(View()), operation, revision, now)
    {
      ghost var deleted := DeleteRules(ownership, operation.delta.deletes);
      for k := 0 to |operation.delta.deletes|
        invariant DeleteRules(ownership, operation.delta.deletes[k..]) == deleted
      {
        assert operation.delta.deletes[k..][1..] == operation.delta.deletes[k + 1..];
        ownership := ownership - {operation.delta.deletes[k]};
      }
      var upserts := operation.delta.upserts;
      for k := 0 to |upserts|
        invariant UpsertRules(ownership, upserts[k..], operation.id, revision, now)
               == UpsertRules(deleted, upserts, operation.id, revision, now)
      {
        assert upserts[k..][1..] == upserts[k + 1..];
        var createdAt := now;
        if upserts[k].rule in ownership {
          createdAt := ownership[upserts[k].rule].createdAt;
        }
        ownership := ownership[upserts[k].rule := OwnedRule(upserts[k].ownership, operation.id, revision, createdAt,
            now)];
      }
    }

    method FinalizeDomainRuleWrite(id: string, revision: Revision, digest: Digest,
        now: int) returns (r: Result<Transition, JournalError>)
      requires forall id :: id in operations ==> operations[id].id == id
      modifies this`operations, this`budgets, this`ownership, this`candidates, this`decisions
      ensures Performed(old(View()), View(), r, Finalize(old(View()), id, revision, digest, now))
    {
      hide ReplacesManual, LatestDecision, DeleteRules, UpsertRules;
      if !ValidTime(now) {
        return Err(InvalidInput);
      }
      if id !in operations {
        return Err(NotFound);
      }
      var operation := operations[id];
      if operation.intended != digest {
        return Err(ContentMismatch);
      }
      if operation.expectedSource == revision {
        return Err(RevisionNotAdvanced);
      }
      if !operation.phase.Prepared? {
        if Attested(operation.phase) && operation.resultingRevision == Some(revision) && operation.resultingDigest == Some(digest) {
          return Ok(Transition(false, operation.phase, operation.attempts));
        }
        return Err(CannotFinalize);
      }
      if operation.action.AutomaticAdd? {
        var available := AutomaticOwnershipAvailable(operation.delta.upserts);
        if !available {
          return Err(ManualOwnership);
        }
      }
      if !ReservationPresent(View(), operation) {
        return Err(ReservationMissing);
      }
      if !CommitAuthorized(View(), operation) {
        return Err(CandidateUnavailable);
      }
      ghost var before := View();
      if operation.budgetDay.Some? {
        var day := operation.budgetDay.value;
        budgets := budgets[day := Budget(
          budgets[day].reserved - operation.budgetSlots, budgets[day].consumed + operation.budgetSlots, now)];
      }
      ApplyDelta(operation, revision, now);
      if operation.candidate.Some? {
        var fqdn := operation.candidate.value;
        decisions := decisions + [Decision("applied-" + operation.id, fqdn, now, false, operation.proposedRule)];
        candidates := candidates[fqdn := candidates[fqdn].(
          status := Blocked, nextValidationAt := MAX_DATE, lastValidationAt := Some(now), failureStreak := 0,
          leaseId := None, leaseUntil := None, updatedAt := now)];
      }
      operations := operations[id := operation.(
        phase := Committed, resultingRevision := Some(revision), resultingDigest := Some(digest), updatedAt := now)];
      r := Ok(Transition(true, Committed, operation.attempts));
    }

    method BeginDomainRuleActivation(id: string, now: int) returns (r: Result<Transition, JournalError>)
      modifies this`operations
      ensures Performed(old(View()), View(), r, Begin(old(View()), id, now))
    {
      if !ValidTime(now) {
        return Err(InvalidInput);
      }
      if id !in operations {
        return Err(NotFound);
      }
      var operation := operations[id];
      if operation.phase.Activating? || operation.phase.Completed? {
        return Ok(Transition(false, operation.phase, operation.attempts));
      }
      if !operation.phase.Committed? && !operation.phase.Partial? {
        return Err(CannotBegin);
      }
      if now < operation.updatedAt {
        return Err(ClockMovedBackwards);
      }
      if operation.attempts >= MAX_ATTEMPTS {
        return Err(ConstraintFailed);
      }
      var attempt := operation.attempts + 1;
      operations := operations[id := operation.(
        phase := Activating, activationStatus := InProgress, attempts := attempt, lastAttemptAt := Some(now),
        errorCategory := None, updatedAt := now, completedAt := None)];
      r := Ok(Transition(true, Activating, attempt));
    }

    method CompleteDomainRuleActivation(id: string, attempt: int, outcome: Outcome,
        now: int) returns (r: Result<Transition, JournalError>)
      modifies this`operations
      ensures Performed(old(View()), View(), r, Complete(old(View()), id, attempt, outcome, now))
    {
      if !ValidTime(now) || attempt < 1 || attempt > MAX_ATTEMPTS {
        return Err(InvalidInput);
      }
      if id !in operations {
        return Err(NotFound);
      }
      var operation := operations[id];
      if operation.phase.Completed? || operation.phase.Partial? {
        if operation.attempts != attempt {
          return Err(StaleAttempt);
        }
        if !MatchesTerminal(operation, outcome) {
          return Err(TerminalConflict);
        }
        return Ok(Transition(false, operation.phase, operation.attempts));
      }
      if !operation.phase.Activating? || operation.attempts < 1 {
        return Err(CannotComplete);
      }
      if operation.attempts != attempt {
        return Err(StaleAttempt);
      }
      if now < operation.updatedAt {
        return Err(ClockMovedBackwards);
      }
      match outcome {
        case Succeeds =>
          operations := operations[id := operation.(
            phase := Completed, activationStatus := Succeeded, errorCategory := None, updatedAt := now, completedAt :=
                Some(now))];
          r := Ok(Transition(true, Completed, attempt));
        case Fails(category) =>
          operations := operations[id := operation.(
            phase := Partial, activationStatus := Failed, errorCategory := Some(category), updatedAt :=
                now, completedAt := None)];
          r := Ok(Transition(true, Partial, attempt));
      }
    }

    method MarkReconciliationRequired(id: string, now: int) returns (r: Result<bool, JournalError>)
      modifies this`operations
      ensures Performed(old(View()), View(), r, Mark(old(View()), id, now))
    {
      if !ValidTime(now) {
        return Err(InvalidInput);
      }
      if id !in operations {
        return Err(NotFound);
      }
      var operation := operations[id];
      if operation.phase.ReconciliationRequired? {
        return Ok(false);
      }
      if operation.phase.Completed? || operation.phase.Aborted? {
        return Err(TerminalOperation);
      }
      if now < operation.updatedAt {
        return Err(ClockMovedBackwards);
      }
      if operation.phase.Activating? {
        operation := operation.(activationStatus := Failed, errorCategory := Some(InfrastructureFailure));
      }
      operations := operations[id := operation.(phase := ReconciliationRequired, updatedAt := now,
          completedAt := Some(now))];
      r := Ok(true);
    }

    /** The final transaction of an abort; `expectedSource` and `intended` were read before the file was attested. */
    method AbortPreparedOperation(id: string, expectedSource: Revision, intended: Digest,
        now: int) returns (r: Result<bool, JournalError>)
      modifies this`operations, this`budgets
      ensures Performed(old(View()), View(), r, Abort(old(View()), id, expectedSource, intended, now))
    {
      if !ValidTime(now) {
        return Err(InvalidInput);
      }
      if id !in operations {
        return Ok(false);
      }
      var operation := operations[id];
      if !operation.phase.Prepared? || operation.expectedSource != expectedSource || operation.intended != intended {
        return Ok(false);
      }
      if operation.budgetDay.Some? {
        var day := operation.budgetDay.value;
        if day !in budgets || budgets[day].reserved < operation.budgetSlots {
          return Err(ReservationMissing);
        }
        budgets := budgets[day := Budget(budgets[day].reserved - operation.budgetSlots, budgets[day].consumed, now)];
      }
      operations := operations[id := operation.(phase := Aborted, updatedAt := now, completedAt := Some(now))];
      r := Ok(true);
    }
  }
}
