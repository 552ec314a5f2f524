/**
 When each journal transaction takes effect, and on which rows: conditions a reader can check in the tables before the
 call, one if-and-only-if for each transaction.
 */
module JournalGuards {
  import opened Wrappers
  import opened Journal
  import opened JournalTheorems

  // ---------- What the tables say ----------

  /** The consent is the active one, for the settings in force, and those are enabled. */
  predicate ConsentIsCurrent(db: Db, consent: Option<Consent>) {
    && consent.Some? && db.activeConsent == consent
    && db.settings.Some? && db.settings.value.enabled && consent.value.revision == db.settings.value.preferences
  }

  /** Some rule to be added is owned manually. */
  predicate ManualRuleAmong(ownership: map<string, OwnedRule>, upserts: seq<Upsert>) {
    exists entry :: entry in upserts && entry.rule in ownership && ownership[entry.rule].ownership == Manual
  }

  /** `a` comes after `b` where they first differ, or goes on where `b` ends. */
  predicate SortsAfter(a: string, b: string) {
    exists k :: 0 <= k < |a| && k <= |b| && a[..k] == b[..k] && (k == |b| || a[k] > b[k])
  }

  /** The newest decision on the candidate; of several at one time, the one whose identifier sorts last. */
  predicate IsNewest(decisions: seq<Decision>, candidate: string, newest: Decision) {
    && newest in decisions && newest.candidate == candidate
    && forall other :: other in decisions && other.candidate == candidate ==>
         other.evaluatedAt < newest.evaluatedAt
         || (other.evaluatedAt == newest.evaluatedAt && (other.id == newest.id || SortsAfter(newest.id, other.id)))
  }

  /** The candidate is confirmed for this rule, active, and not leased to a validation. */
  predicate CandidateStands(db: Db, candidate: string, rule: Option<string>) {
    && candidate in db.candidates
    && db.candidates[candidate].status == CandidateStatus.Confirmed && db.candidates[candidate].active
    && db.candidates[candidate].proposedRule == rule
    && db.candidates[candidate].leaseId == None && db.candidates[candidate].leaseUntil == None
  }

  /** Every newest decision on the candidate confirms it for this rule, and there is one. */
  ghost predicate DecisionStands(db: Db, candidate: string, rule: Option<string>) {
    exists newest :: IsNewest(db.decisions, candidate, newest) && newest.confirmed && newest.proposedRule == rule
  }

  /** A suffix rule covers its domain and everything below it, any other rule only itself. */
  ghost predicate IsCovered(rule: string, candidate: string) {
    if exists domain :: rule == "+." + domain then
      exists domain :: rule == "+." + domain && (candidate == domain || exists labels :: candidate == labels + "." + domain)
    else candidate == rule
  }

  // ---------- The helpers in these terms ----------

  lemma CoversIff(rule: string, candidate: string)
    ensures Covers(rule, candidate) <==> IsCovered(rule, candidate)
  {
    if |rule| >= 2 && rule[..2] == "+." {
      assert rule == "+." + rule[2..];
      if EndsWith(candidate, "." + rule[2..]) {
        var labels := candidate[..|candidate| - |"." + rule[2..]|];
        assert candidate == labels + "." + rule[2..];
      }
    }
    forall domain | rule == "+." + domain ensures rule[..2] == "+." && rule[2..] == domain {
    }
    forall labels, domain | rule == "+." + domain && candidate == labels + "." + domain
        ensures EndsWith(candidate, "." + domain) {
      assert candidate == labels + ("." + domain);
    }
  }

  lemma ClashIff(ownership: map<string, OwnedRule>, upserts: seq<Upsert>)
    ensures ReplacesManual(ownership, upserts) <==> ManualRuleAmong(ownership, upserts)
  {
    if ReplacesManual(ownership, upserts) {
      var k :| 0 <= k < |upserts| && OwnedManually(ownership, upserts[k].rule);
      assert upserts[k] in upserts;
    }
    if ManualRuleAmong(ownership, upserts) {
      var entry :| entry in upserts && entry.rule in ownership && ownership[entry.rule].ownership == Manual;
      var k :| 0 <= k < |upserts| && upserts[k] == entry;
      assert OwnedManually(ownership, upserts[k].rule);
    }
  }

  lemma ConsentIff(db: Db, consent: Option<Consent>)
    ensures ConsentIsCurrent(db, consent) <==>
      CurrentConsent(db.settings, db.activeConsent).Ok? && consent == Some(CurrentConsent(db.settings, db.activeConsent).value)
  {
  }

  lemma {:induction false} TextAfterIff(a: string, b: string)
    ensures TextAfter(a, b) <==> SortsAfter(a, b)
    decreases |a|
  {
    if a != "" && b != "" && a[0] == b[0] {
      TextAfterIff(a[1..], b[1..]);
      if SortsAfter(a[1..], b[1..]) {
        var k :| 0 <= k < |a[1..]| && k <= |b[1..]| && a[1..][..k] == b[1..][..k] && (k == |b[1..]| || a[1..][k] > b[1..][k]);
        SharedPrefix(a, b, k);
        assert k + 1 == |b| || a[k + 1] > b[k + 1];
      }
      if SortsAfter(a, b) {
        var k :| 0 <= k < |a| && k <= |b| && a[..k] == b[..k] && (k == |b| || a[k] > b[k]);
        assert k > 0;
        SharedPrefix(a, b, k - 1);
        assert k - 1 == |b[1..]| || a[1..][k - 1] > b[1..][k - 1];
      }
    } else if a != "" {
      assert a[..0] == b[..0];
      if SortsAfter(a, b) {
        var k :| 0 <= k < |a| && k <= |b| && a[..k] == b[..k] && (k == |b| || a[k] > b[k]);
        HeadsInPrefix(a, b, k);
      }
    }
  }

  lemma HeadsInPrefix(a: string, b: string, k: nat)
    requires k <= |a| && k <= |b| && a[..k] == b[..k]
    ensures k == 0 || a[0] == b[0]
  {
    if k > 0 {
      assert a[..k][0] == a[0] && b[..k][0] == b[0];
    }
  }

  lemma SharedPrefix(a: string, b: string, k: nat)
    requires a != "" && b != "" && a[0] == b[0] && k < |a| && k < |b|
    ensures a[..k + 1] == b[..k + 1] <==> a[1..][..k] == b[1..][..k]
  {
    assert a[..k + 1] == [a[0]] + a[1..][..k];
    assert b[..k + 1] == [b[0]] + b[1..][..k];
  }

  // ---------- The newest decision ----------

  /** No two rows share an identifier: it is the primary key. */
  predicate DistinctIds(decisions: seq<Decision>) {
    forall a, b | a in decisions && b in decisions && a.id == b.id :: a == b
  }

  predicate Outranks(a: Decision, b: Decision) {
    b.evaluatedAt < a.evaluatedAt || (b.evaluatedAt == a.evaluatedAt && (b.id == a.id || SortsAfter(a.id, b.id)))
  }

  lemma LaterIff(a: Decision, b: Decision)
    ensures Later(a, b) <==> a.evaluatedAt > b.evaluatedAt || (a.evaluatedAt == b.evaluatedAt && SortsAfter(a.id, b.id))
  {
    TextAfterIff(a.id, b.id);
  }

  lemma {:induction false} TextAfterTotal(a: string, b: string)
    ensures TextAfter(a, b) || TextAfter(b, a) || a == b
    ensures !(TextAfter(a, b) && TextAfter(b, a))
    decreases |a|
  {
    if a != "" && b != "" {
      TextAfterTotal(a[1..], b[1..]);
      if a[0] == b[0] && a[1..] == b[1..] {
        assert a == [a[0]] + a[1..] && b == [b[0]] + b[1..];
      }
    }
  }

  lemma {:induction false} TextAfterTransitive(a: string, b: string, c: string)
    requires TextAfter(a, b) && TextAfter(b, c)
    ensures TextAfter(a, c)
    decreases |a|
  {
    if c != "" && a[0] == b[0] && b[0] == c[0] {
      TextAfterTransitive(a[1..], b[1..], c[1..]);
    }
  }

  lemma OutranksIff(a: Decision, b: Decision)
    ensures Outranks(a, b) <==> !Later(b, a)
  {
    LaterIff(a, b);
    LaterIff(b, a);
    TextAfterTotal(a.id, b.id);
    TextAfterIff(a.id, b.id);
    TextAfterIff(b.id, a.id);
  }

  lemma NotLaterTransitive(a: Decision, b: Decision, c: Decision)
    requires !Later(b, a) && !Later(c, b)
    ensures !Later(c, a)
  {
    TextAfterTotal(a.id, b.id);
    TextAfterTotal(b.id, c.id);
    TextAfterTotal(a.id, c.id);
    if TextAfter(a.id, b.id) && TextAfter(b.id, c.id) {
      TextAfterTransitive(a.id, b.id, c.id);
    }
  }

  /** What the query returns: nothing without a decision on the candidate, otherwise its newest. */
  lemma {:induction false} LatestIsNewest(decisions: seq<Decision>, candidate: string)
    ensures LatestDecision(decisions, candidate).None? <==> forall d :: d in decisions ==> d.candidate != candidate
    ensures LatestDecision(decisions, candidate).Some? ==>
      IsNewest(decisions, candidate, LatestDecision(decisions, candidate).value)
    decreases |decisions|
  {
    if decisions != [] {
      LatestIsNewest(decisions[1..], candidate);
      assert decisions == [decisions[0]] + decisions[1..];
      var latest := LatestDecision(decisions, candidate);
      if latest.Some? {
        forall other | other in decisions && other.candidate == candidate ensures Outranks(latest.value, other) {
          HeadOrRest(decisions, candidate, other);
        }
      }
    }
  }

  lemma HeadOrRest(decisions: seq<Decision>, candidate: string, other: Decision)
    requires decisions != [] && other in decisions && other.candidate == candidate
    requires LatestDecision(decisions, candidate).Some?
    requires LatestDecision(decisions[1..], candidate).None? ==> forall d :: d in decisions[1..] ==>
      d.candidate != candidate
    requires LatestDecision(decisions[1..], candidate).Some? ==>
      IsNewest(decisions[1..], candidate, LatestDecision(decisions[1..], candidate).value)
    ensures Outranks(LatestDecision(decisions, candidate).value, other)
  {
    var latest, rest := LatestDecision(decisions, candidate).value, LatestDecision(decisions[1..], candidate);
    OutranksIff(latest, other);
    TextAfterTotal(latest.id, latest.id);
    if other in decisions[1..] {
      assert Outranks(rest.value, other);
      OutranksIff(rest.value, other);
      TextAfterTotal(decisions[0].id, rest.value.id);
      NotLaterTransitive(latest, rest.value, other);
    } else {
      assert other == decisions[0];
    }
  }

  /** A commit for a candidate is authorized exactly when the candidate stands and its newest decision confirms the rule. */
  lemma CommitAuthorizedIff(db: Db, op: Operation)
    requires DistinctIds(db.decisions)
    ensures CommitAuthorized(db, op) <==>
      (op.candidate.Some? ==>
        CandidateStands(db, op.candidate.value, op.proposedRule) && DecisionStands(db, op.candidate.value, op.proposedRule))
  {
    hide TextAfter, SortsAfter;
    if op.candidate.Some? {
      var candidate := op.candidate.value;
      LatestIsNewest(db.decisions, candidate);
      if DecisionStands(db, candidate, op.proposedRule) {
        var newest :| IsNewest(db.decisions, candidate, newest) && newest.confirmed && newest.proposedRule == op.proposedRule;
        NewestIsUnique(db.decisions, candidate, newest, LatestDecision(db.decisions, candidate).value);
      }
    }
  }

  lemma NewestIsUnique(decisions: seq<Decision>, candidate: string, a: Decision, b: Decision)
    requires DistinctIds(decisions) && IsNewest(decisions, candidate, a) && IsNewest(decisions, candidate, b)
    ensures a == b
  {
    hide SortsAfter;
    assert Outranks(a, b) && Outranks(b, a);
    TextAfterTotal(a.id, b.id);
    TextAfterIff(a.id, b.id);
    TextAfterIff(b.id, a.id);
  }

  // ---------- Preparing ----------

  predicate Acceptable(text: Text, input: PrepareInput, now: int) {
    ValidInput(text, input) && 0 <= now <= 8_640_000_000_000_000
  }

  predicate NoneNeedsReconciling(operations: map<string, Operation>) {
    forall id :: id in operations ==> operations[id].phase != ReconciliationRequired
  }

  /** A rollback goes back to a revision that some operation wrote and that was not given up. */
  predicate WasWritten(operations: map<string, Operation>, revision: Option<Revision>) {
    exists id :: id in operations && operations[id].resultingRevision == revision
      && operations[id].phase in {Committed, Activating, Completed, Partial}
  }

  /** Nobody else is at work on the candidate. */
  predicate CandidateIsFree(db: Db, candidate: string) {
    && candidate !in db.runningValidations
    && forall id :: id in db.operations && db.operations[id].candidate == Some(candidate) ==>
         db.operations[id].phase in {Completed, Aborted}
  }

  /** The operations of the day that hold or spent a slot are fewer than the configured limit. */
  predicate HasRoom(db: Db, day: int) {
    && db.settings.Some?
    && |Holding(db.operations, day)| + |Spent(db.operations, day)| < db.settings.value.preferences.maximumAutomaticRulesPerDay
  }

  /** What the tables must say for a new operation. */
  predicate MayEnter(db: Db, input: PrepareInput, now: int) {
    && NoneNeedsReconciling(db.operations)
    && (input.candidate.Some? ==>
          CandidateStands(db, input.candidate.value, input.proposedRule) && CandidateIsFree(db, input.candidate.value))
    && (input.action.AutomaticAdd? ==>
          && !ManualRuleAmong(db.ownership, input.delta.upserts)
          && ConsentIsCurrent(db, db.activeConsent) && HasRoom(db, now / 86_400_000))
    && (input.action.Rollback? ==> WasWritten(db.operations, input.rollbackTarget))
  }

  predicate Creates(db: Db, text: Text, input: PrepareInput, now: int)
    requires Indexed(db)
  {
    Prepare(db, text, input, now).Ok? && Prepare(db, text, input, now).value.value.created
  }

  lemma AvailableIff(db: Db, input: PrepareInput)
    ensures CandidateAvailable(db, input) <==>
      (input.candidate.Some? ==>
        CandidateStands(db, input.candidate.value, input.proposedRule) && CandidateIsFree(db, input.candidate.value))
  {
  }

  lemma RoomIff(db: Db, day: int)
    requires BudgetsAgree(db) && db.settings.Some?
    ensures HasRoom(db, day) <==>
      Reserved(db.budgets, day) + Consumed(db.budgets, day) + 1 <= db.settings.value.preferences.maximumAutomaticRulesPerDay
  {
    hide Holding, Spent;
    assert DayAgrees(db.operations, db.budgets, day);
  }

  lemma AutomaticIff(db: Db, input: PrepareInput, now: int)
    requires BudgetsAgree(db)
    ensures PrepareAutomatic(db, input, now).Ok? <==>
      ConsentIsCurrent(db, db.activeConsent) && HasRoom(db, now / 86_400_000)
    ensures PrepareAutomatic(db, input, now).Ok? ==> PrepareAutomatic(db, input, now).value.value.created
  {
    hide BudgetsAgree, HasRoom, Reserved, Consumed;
    if db.settings.Some? {
      RoomIff(db, now / 86_400_000);
    }
  }

  lemma EntersIff(db: Db, input: PrepareInput, now: int)
    requires BudgetsAgree(db)
    ensures PrepareNew(db, input, now).Ok? <==> MayEnter(db, input, now)
    ensures PrepareNew(db, input, now).Ok? ==> PrepareNew(db, input, now).value.value.created
  {
    hide BudgetsAgree, CandidateAvailable, CandidateStands, CandidateIsFree, ReplacesManual, ManualRuleAmong,
        PrepareAutomatic,
      ConsentIsCurrent, HasRoom;
    AvailableIff(db, input);
    ClashIff(db.ownership, input.delta.upserts);
    AutomaticIff(db, input, now);
  }

  /** A new operation enters the journal exactly when its key and identifier are new and the tables allow it. */
  lemma PrepareCreatesIff(db: Db, text: Text, input: PrepareInput, now: int)
    requires KeysOk(db) && BudgetsAgree(db)
    ensures Indexed(db)
    ensures Creates(db, text, input, now) <==>
      && Acceptable(text, input, now) && input.id !in db.operations
      && (forall id :: id in db.operations ==> db.operations[id].idempotencyKey != input.idempotencyKey)
      && MayEnter(db, input, now)
  {
    hide ValidInput, BudgetsAgree, MayEnter, PrepareNew, IntentMatches, Recheck;
    KeysGiveIndex(db);
    EntersIff(db, input, now);
    KeyIsKnownIff(db, input.idempotencyKey);
  }

  lemma KeyIsKnownIff(db: Db, key: string)
    requires KeysOk(db)
    ensures key in db.byKey <==> exists id :: id in db.operations && db.operations[id].idempotencyKey == key
    ensures forall id :: id in db.operations && db.operations[id].idempotencyKey == key ==>
      key in db.byKey && db.byKey[key] == id
  {
    if key in db.byKey {
      assert db.byKey[key] in db.operations;
    }
    forall id | id in db.operations && db.operations[id].idempotencyKey == key
        ensures key in db.byKey && db.byKey[key] == id {
      assert KeyOk(db, id, db.operations[id]);
    }
  }

  /** The stored request and the submitted one ask for the same. */
  predicate SameRequest(stored: Operation, input: PrepareInput) {
    && stored.id == input.id && stored.action == input.action && stored.rollbackTarget == input.rollbackTarget
    && stored.candidate == input.candidate && stored.expectedSource == input.expectedSource
    && stored.intended == input.intended && stored.proposedRule == input.proposedRule
    && multiset(stored.delta.upserts) == multiset(input.delta.upserts)
    && multiset(stored.delta.deletes) == multiset(input.delta.deletes)
  }

  /** A prepared row must still be allowed when it is submitted again. */
  predicate StillAllowed(db: Db, stored: Operation) {
    stored.phase == Prepared ==>
      && NoneNeedsReconciling(db.operations)
      && (stored.action.AutomaticAdd? ==>
            !ManualRuleAmong(db.ownership, stored.delta.upserts) && ConsentIsCurrent(db, stored.consent))
  }

  lemma RecheckIff(db: Db, stored: Operation)
    requires stored.phase.Prepared?
    ensures Recheck(db, stored).Ok? <==> StillAllowed(db, stored)
  {
    hide ReplacesManual, ManualRuleAmong, ConsentIsCurrent, CurrentConsent;
    ClashIff(db.ownership, stored.delta.upserts);
    ConsentIff(db, stored.consent);
  }

  /** A submission under a known key is answered with the stored row exactly when it asks for the same and is still allowed. */
  lemma PrepareReturnsIff(db: Db, text: Text, input: PrepareInput, now: int)
    requires KeysOk(db)
    ensures Indexed(db)
    ensures Prepare(db, text, input, now).Ok? && !Prepare(db, text, input, now).value.value.created <==>
      Acceptable(text, input, now) && exists id :: id in db.operations && IsAnsweredBy(db, db.operations[id], input)
    ensures forall id :: id in db.operations && Acceptable(text, input, now) && IsAnsweredBy(db, db.operations[id], input) ==>
      Prepare(db, text, input, now) == Ok(After(db, PreparedOperation(db.operations[id], false)))
  {
    hide ValidInput, PrepareNew, Recheck, StillAllowed, SameRequest, IntentMatches;
    KeysGiveIndex(db);
    KeyIsKnownIff(db, input.idempotencyKey);
    CreatesNew(db, input, now);
    if input.idempotencyKey in db.byKey {
      var stored := db.operations[db.byKey[input.idempotencyKey]];
      MatchesIff(stored, input);
      if stored.phase.Prepared? {
        RecheckIff(db, stored);
      } else {
        OnlyPreparedIsRechecked(db, stored);
      }
      assert Acceptable(text, input, now) && IsAnsweredBy(db, stored, input) ==> Prepare(db, text, input, now).Ok?;
    }
  }

  predicate IsAnsweredBy(db: Db, stored: Operation, input: PrepareInput) {
    stored.idempotencyKey == input.idempotencyKey && SameRequest(stored, input) && StillAllowed(db, stored)
  }

  lemma MatchesIff(stored: Operation, input: PrepareInput)
    ensures IntentMatches(stored, input) <==> SameRequest(stored, input)
  {
  }

  lemma OnlyPreparedIsRechecked(db: Db, stored: Operation)
    requires !stored.phase.Prepared?
    ensures StillAllowed(db, stored)
  {
  }

  lemma CreatesNew(db: Db, input: PrepareInput, now: int)
    ensures PrepareNew(db, input, now).Ok? ==> PrepareNew(db, input, now).value.value.created
  {
    hide NeedsReconciliation, ReplacesManual, CandidateAvailable, RollbackAttested;
  }

  /** The row of a new operation: what was asked for, prepared, and for an automatic one a slot of the current day. */
  lemma CreatedRow(db: Db, text: Text, input: PrepareInput, now: int)
    requires Indexed(db) && Creates(db, text, input, now)
    ensures var after, row := Prepare(db, text, input, now).value.db, Prepare(db, text, input, now).value.value.operation;
      && after.operations == db.operations[input.id := row] && after.byKey == db.byKey[input.idempotencyKey := input.id]
      && row.id == input.id && row.idempotencyKey == input.idempotencyKey && SameRequest(row, input) && row.phase == Prepared
      && row.consent == (if input.action.AutomaticAdd? then db.activeConsent else None)
      && row.budgetDay == (if input.action.AutomaticAdd? then Some(now / 86_400_000) else None)
      && row.createdAt == now && row.updatedAt == now && row.completedAt == None && row.resultingRevision == None
      && after.ownership == db.ownership && after.candidates == db.candidates && after.decisions == db.decisions
  {
    hide ValidInput, NeedsReconciliation, ReplacesManual, CandidateAvailable, RollbackAttested, Reserve, Reserved,
        Consumed, Recheck, IntentMatches;
    CreatedIsNew(db, text, input, now);
  }

  lemma CreatedIsNew(db: Db, text: Text, input: PrepareInput, now: int)
    requires Indexed(db) && Creates(db, text, input, now)
    ensures Prepare(db, text, input, now) == PrepareNew(db, input, now)
  {
    hide ValidInput, PrepareNew, Recheck, IntentMatches;
  }

  // ---------- The later transactions ----------

  predicate IsDate(now: int) {
    0 <= now <= 8_640_000_000_000_000
  }

  predicate Leaves(db: Db, after: Db, id: string, row: Operation) {
    && after.operations == db.operations[id := row] && after.byKey == db.byKey && after.candidates == db.candidates
    && after.decisions == db.decisions && after.ownership == db.ownership
  }

  /** Beginning an attempt: when it takes effect, what it writes, and when it reports the running attempt. */
  lemma BeginIff(db: Db, id: string, now: int)
    ensures var begun := Begin(db, id, now);
      && (begun.Ok? && begun.value.value.changed <==>
            IsDate(now) && id in db.operations && db.operations[id].phase in {Committed, Partial}
            && db.operations[id].updatedAt <= now && db.operations[id].attempts < 1_000_000)
      && (begun.Ok? && !begun.value.value.changed <==>
            IsDate(now) && id in db.operations && db.operations[id].phase in {Activating, Completed})
    ensures var begun := Begin(db, id, now);
      begun.Ok? && begun.value.value.changed ==>
        && begun.value.value.attempt == db.operations[id].attempts + 1
        && Leaves(db, begun.value.db, id, db.operations[id].(
             phase := Activating, activationStatus := InProgress, attempts := db.operations[id].attempts + 1,
             lastAttemptAt := Some(now), errorCategory := None, updatedAt := now, completedAt := None))
        && begun.value.db.budgets == db.budgets
    ensures var begun := Begin(db, id, now);
      begun.Ok? && !begun.value.value.changed ==>
          begun.value.db == db && begun.value.value.attempt == db.operations[id].attempts
  {
  }

  /** Completing: only the running attempt, and only once; a repetition is answered when it says what the row says. */
  lemma CompleteIff(db: Db, id: string, attempt: int, outcome: Outcome, now: int)
    ensures var ended := Complete(db, id, attempt, outcome, now);
      && (ended.Ok? && ended.value.value.changed <==>
            IsDate(now) && 1 <= attempt <= 1_000_000 && id in db.operations && db.operations[id].phase == Activating
            && db.operations[id].attempts == attempt && db.operations[id].updatedAt <= now)
      && (ended.Ok? && !ended.value.value.changed <==>
            IsDate(now) && 1 <= attempt <= 1_000_000 && id in db.operations && db.operations[id].attempts == attempt
            && ((db.operations[id].phase == Completed && outcome == Succeeds)
                || (db.operations[id].phase == Partial && outcome.Fails? && db.operations[id].errorCategory == Some(outcome.category))))
    ensures var ended := Complete(db, id, attempt, outcome, now);
      ended.Ok? && ended.value.value.changed ==>
        && Leaves(db, ended.value.db, id, db.operations[id].(
             phase := if outcome == Succeeds then Completed else Partial,
             activationStatus := if outcome == Succeeds then Succeeded else Failed,
             errorCategory := if outcome.Fails? then Some(outcome.category) else None,
             updatedAt := now, completedAt := if outcome == Succeeds then Some(now) else None))
        && ended.value.db.budgets == db.budgets
    ensures var ended := Complete(db, id, attempt, outcome, now);
      ended.Ok? && !ended.value.value.changed ==> ended.value.db == db
  {
  }

  /** Marking for reconciliation stops any operation that is not closed. */
  lemma MarkIff(db: Db, id: string, now: int)
    ensures var marked := Mark(db, id, now);
      && (marked.Ok? && marked.value.value <==>
            IsDate(now) && id in db.operations && db.operations[id].phase in {Prepared, Committed, Activating, Partial}
            && db.operations[id].updatedAt <= now)
      && (marked.Ok? && !marked.value.value <==>
          IsDate(now) && id in db.operations && db.operations[id].phase == ReconciliationRequired)
    ensures var marked := Mark(db, id, now);
      marked.Ok? && marked.value.value ==>
        id in marked.value.db.operations
        && var row, before := marked.value.db.operations[id], db.operations[id];
        && Leaves(db, marked.value.db, id, row) && row.phase == ReconciliationRequired && row.completedAt == Some(now)
        && row.updatedAt == now && row.resultingRevision == before.resultingRevision && row.attempts == before.attempts
        && marked.value.db.budgets == db.budgets
    ensures var marked := Mark(db, id, now);
      marked.Ok? && !marked.value.value ==> marked.value.db == db
  {
  }

  /** Aborting takes effect exactly on a prepared operation with the attested intent, and gives its slot back. */
  lemma AbortIff(db: Db, id: string, source: Revision, intended: Digest, now: int, t: int)
    requires JournalOk(db, t)
    ensures var aborted := Abort(db, id, source, intended, now);
      && (aborted.Ok? <==> IsDate(now))
      && (aborted.Ok? && aborted.value.value <==>
            IsDate(now) && id in db.operations && db.operations[id].phase == Prepared
            && db.operations[id].expectedSource == source && db.operations[id].intended == intended)
    ensures var aborted := Abort(db, id, source, intended, now);
      aborted.Ok? && aborted.value.value ==>
        && Leaves(db, aborted.value.db, id, db.operations[id].(phase := Aborted, updatedAt := now, completedAt := Some(now)))
        && forall day: int :: SlotsGivenBack(db, aborted.value.db, db.operations[id], day)
    ensures var aborted := Abort(db, id, source, intended, now);
      aborted.Ok? && !aborted.value.value ==> aborted.value.db == db
  {
    hide KeysOk, AllRowsOk, SoleUnfinished, BudgetsAgree;
    if id in db.operations && db.operations[id].phase.Prepared? {
      PreparedSlot(db, id, t);
    }
  }

  /** The day of an automatic operation has one reserved slot less, and nothing else changed. */
  predicate SlotsGivenBack(db: Db, after: Db, op: Operation, day: int) {
    && Consumed(after.budgets, day) == Consumed(db.budgets, day)
    && Reserved(after.budgets, day) == Reserved(db.budgets, day) - if op.action.AutomaticAdd? && op.budgetDay == Some(day) then 1 else 0
  }

  lemma PreparedSlot(db: Db, id: string, t: int)
    requires JournalOk(db, t) && id in db.operations && db.operations[id].phase.Prepared?
    ensures ReservationPresent(db, db.operations[id])
    ensures db.operations[id].budgetDay.Some? <==> db.operations[id].action.AutomaticAdd?
    ensures db.operations[id].budgetDay.Some? ==> db.operations[id].budgetSlots == 1
  {
    hide DayAgrees, KeysOk, SoleUnfinished;
    var op := db.operations[id];
    assert RowOk(op, t);
    if op.budgetDay.Some? {
      assert DayAgrees(db.operations, db.budgets, op.budgetDay.value);
      SlotIsReserved(db.operations, db.budgets, id);
    }
  }

  /** What finalizing asks of the tables. */
  ghost predicate MayFinalize(db: Db, op: Operation) {
    && !(op.action.AutomaticAdd? && ManualRuleAmong(db.ownership, op.delta.upserts))
    && (op.candidate.Some? ==>
          CandidateStands(db, op.candidate.value, op.proposedRule) && DecisionStands(db, op.candidate.value, op.proposedRule))
  }

  /**
   Finalizing takes effect exactly on a prepared operation with the intended content at a new revision that the tables
   still allow. It blocks the candidate and adds a decision that does not confirm it.
   */
  lemma FinalizeIff(db: Db, id: string, revision: Revision, digest: Digest, now: int, t: int)
    requires JournalOk(db, t) && DistinctIds(db.decisions)
    ensures var finalized := Finalize(db, id, revision, digest, now);
      && (finalized.Ok? && finalized.value.value.changed <==>
            IsDate(now) && id in db.operations && db.operations[id].phase == Prepared && db.operations[id].intended == digest
            && db.operations[id].expectedSource != revision && MayFinalize(db, db.operations[id]))
      && (finalized.Ok? && !finalized.value.value.changed <==>
            IsDate(now) && id in db.operations && db.operations[id].phase in {Committed, Activating, Completed, Partial}
            && db.operations[id].intended == digest && db.operations[id].expectedSource != revision
            && db.operations[id].resultingRevision == Some(revision) && db.operations[id].resultingDigest == Some(digest))
  {
    hide KeysOk, AllRowsOk, SoleUnfinished, BudgetsAgree, CommitAuthorized, ReplacesManual, ManualRuleAmong,
        ReservationPresent,
      FinalizedDb, CandidateStands, DecisionStands;
    if id in db.operations && db.operations[id].phase.Prepared? {
      PreparedSlot(db, id, t);
      ClashIff(db.ownership, db.operations[id].delta.upserts);
      CommitAuthorizedIff(db, db.operations[id]);
    }
  }

  lemma FinalizedTables(db: Db, id: string, revision: Revision, digest: Digest, now: int, t: int)
    requires JournalOk(db, t) && Finalize(db, id, revision, digest, now).Ok? && Finalize(db, id, revision, digest, now).value.value.changed
    ensures var after, op := Finalize(db, id, revision, digest, now).value.db, db.operations[id];
      && after.operations == db.operations[id := op.(
           phase := Committed, resultingRevision := Some(revision), resultingDigest := Some(digest), updatedAt := now)]
      && (op.candidate.None? ==> after.candidates == db.candidates && after.decisions == db.decisions)
      && (op.candidate.Some? ==>
            && after.candidates.Keys == db.candidates.Keys
            && after.candidates[op.candidate.value].status == CandidateStatus.Blocked
            && after.candidates[op.candidate.value].nextValidationAt == 8_640_000_000_000_000
            && (forall other :: other in db.candidates && other != op.candidate.value ==>
                after.candidates[other] == db.candidates[other])
            && |after.decisions| == |db.decisions| + 1 && after.decisions[..|db.decisions|] == db.decisions
            && after.decisions[|db.decisions|].candidate == op.candidate.value && !after.decisions[|db.decisions|].confirmed
            && after.decisions[|db.decisions|].evaluatedAt == now)
  {
    hide ReplacesManual, LatestDecision, OwnershipAfter, ReservationPresent, ConsumeSlot, AllRowsOk, SoleUnfinished,
        BudgetsAgree;
    assert KeyOk(db, id, db.operations[id]);
  }
}
