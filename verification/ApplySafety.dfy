/**
 Safety of the apply protocol over every run: the file is written at most once per operation, the journaled
 revision and digest are those of the intended content, and the file and the ownership table stay in step.
 */
module ApplySafety {
  import opened Wrappers
  import RuleText
  import RuleTextTheorems
  import opened Journal
  import opened JournalTheorems
  import opened ApplyProtocol

  type Check = RuleText.RuleCheck

  function Managed(check: Check, content: string): set<string> {
    RuleTextTheorems.ManagedSet(check, content)
  }

  // ---------- The invariant ----------

  /** The intent was computed from the source: the delta applied to it gives other content, the intended one. */
  predicate IntentOk(check: Check, op: Operation) {
    RuleText.DeltaUpdate(check, op.expectedSource.text, op.delta.deletes, RulesOf(op.delta.upserts))
      == Ok(RuleText.RulesUpdate(op.intended.text, true))
  }

  /** A journaled write is of the intended content; an aborted operation has none, a completed one has. */
  predicate Journaled(op: Operation) {
    && (op.resultingRevision.Some? ==>
          op.resultingRevision == Some(RevisionOf(op.intended.text)) && op.resultingDigest == Some(op.intended))
    && (op.phase.Aborted? ==> op.resultingRevision.None?)
    && (op.phase.Completed? ==> op.resultingRevision.Some?)
  }

  /** Where the file and the owned rules stand while an operation is open. */
  predicate OpFile(check: Check, content: string, keys: set<string>, op: Operation) {
    && IntentOk(check, op)
    && (if op.resultingRevision.Some? then
          && content == op.intended.text && keys == Managed(check, content)
          && (op.phase.Committed? || op.phase.Activating? || op.phase.Partial? || op.phase.ReconciliationRequired?)
        else
          && (content == op.expectedSource.text || content == op.intended.text)
          && keys == Managed(check, op.expectedSource.text)
          && (op.phase.Prepared? || op.phase.ReconciliationRequired?))
  }

  predicate SoleOpen(operations: map<string, Operation>) {
    forall a, b | a in operations && b in operations && Open(operations[a]) && Open(operations[b]) :: a == b
  }

  /** The file already holds what the operation wrote. */
  predicate Moved(content: string, op: Operation) {
    op.resultingRevision.Some? || (Open(op) && content == op.intended.text)
  }

  predicate RowFits(check: Check, content: string, keys: set<string>, op: Operation) {
    Journaled(op) && (Open(op) ==> OpFile(check, content, keys, op))
  }

  predicate WritesOf(operations: map<string, Operation>, content: string, writes: map<string, int>, id: string) {
    Count(writes, id) == if id in operations && Moved(content, operations[id]) then 1 else 0
  }

  ghost predicate FileInv(check: Check, operations: map<string, Operation>, keys: set<string>, content: string,
      writes: map<string, int>) {
    && SoleOpen(operations)
    && (NoneOpen(operations) ==> keys == Managed(check, content))
    && (forall id :: id in operations ==> RowFits(check, content, keys, operations[id]))
    && (forall id: string :: WritesOf(operations, content, writes, id))
  }

  predicate StageOk(disk: Disk, op: Operation, stage: Stage) {
    match stage
    case Starting => true
    case Attesting => op.phase.Prepared?
    case Vetoed => op.phase.Prepared? && disk.content == op.expectedSource.text
    case Preflighting => op.phase.Prepared? && disk.content == op.expectedSource.text
    case Aborting => op.phase.Prepared? && disk.content == op.expectedSource.text
    case Committing => op.phase.Prepared? && disk.content == op.expectedSource.text
    case Writing(content) => op.phase.Prepared? && disk.content == op.expectedSource.text && content == op.intended.text
    case Renaming(content) => op.phase.Prepared? && disk.content == op.expectedSource.text && content == op.intended.text
    case Renamed => op.phase.Prepared? && disk.content == op.intended.text
    case Finalizing(revision, digest) =>
      op.phase.Prepared? && disk.content == op.intended.text && revision == RevisionOf(op.intended.text) && digest == op.intended
    case Beginning => op.phase.Committed? || op.phase.Activating? || op.phase.Partial?
    case Checking(attempt) => op.phase.Activating? && op.attempts == attempt
    case Activation(attempt) => op.phase.Activating? && op.attempts == attempt
    case Rechecking(attempt, _) => op.phase.Activating? && op.attempts == attempt
    case Ending(attempt, _) => op.phase.Activating? && op.attempts == attempt
  }

  predicate ProcessOk(w: World) {
    w.process.Running? ==>
      w.process.id in w.db.operations && StageOk(w.disk, w.db.operations[w.process.id], w.process.stage)
  }

  ghost predicate Inv(check: Check, w: World) {
    && KeysOk(w.db)
    && FileInv(check, w.db.operations, w.db.ownership.Keys, w.disk.content, w.writes)
    && ProcessOk(w)
  }

  // ---------- How the invariant moves with one row or the file ----------

  lemma ReplaceRow(check: Check, operations: map<string, Operation>, keys: set<string>, content: string,
      writes: map<string, int>,
                   id: string, op: Operation, newKeys: set<string>)
    requires FileInv(check, operations, keys, content, writes)
    requires id in operations && Open(operations[id])
    requires RowFits(check, content, newKeys, op)
    requires !Open(op) ==> newKeys == Managed(check, content)
    requires Moved(content, op) == Moved(content, operations[id])
    ensures FileInv(check, operations[id := op], newKeys, content, writes)
  {
    hide OpFile, Moved, Open, Count;
    var after := operations[id := op];
    forall other | other in after ensures RowFits(check, content, newKeys, after[other]) {
      if other != id {
        assert RowFits(check, content, keys, operations[other]);
        assert !Open(operations[other]);
      }
    }
    forall other: string ensures WritesOf(after, content, writes, other) {
      assert WritesOf(operations, content, writes, other);
    }
    assert after[id] == op;
  }

  lemma InsertRow(check: Check, operations: map<string, Operation>, keys: set<string>, content: string,
      writes: map<string, int>,
                  id: string, op: Operation)
    requires FileInv(check, operations, keys, content, writes) && NoneOpen(operations)
    requires id !in operations && RowFits(check, content, keys, op) && Open(op) && !Moved(content, op)
    ensures FileInv(check, operations[id := op], keys, content, writes)
  {
    hide OpFile, Moved, Open, Count, Journaled;
    var after := operations[id := op];
    forall other | other in after ensures RowFits(check, content, keys, after[other]) {
      if other != id {
        assert RowFits(check, content, keys, operations[other]);
      }
    }
    forall other: string ensures WritesOf(after, content, writes, other) {
      assert WritesOf(operations, content, writes, other);
    }
  }

  lemma RenamedFile(check: Check, operations: map<string, Operation>, keys: set<string>, content: string,
      writes: map<string, int>, id: string)
    requires FileInv(check, operations, keys, content, writes)
    requires id in operations && operations[id].phase.Prepared? && content == operations[id].expectedSource.text
    ensures FileInv(check, operations, keys, operations[id].intended.text, writes[id := Count(writes, id) + 1])
  {
    hide IntentOk, Journaled;
    var op := operations[id];
    assert RowFits(check, content, keys, op);
    IntentDiffers(check, op);
    var after := writes[id := Count(writes, id) + 1];
    forall other | other in operations ensures RowFits(check, op.intended.text, keys, operations[other]) {
      assert RowFits(check, content, keys, operations[other]);
    }
    forall other: string ensures WritesOf(operations, op.intended.text, after, other) {
      assert WritesOf(operations, content, writes, other);
    }
  }

  lemma IntentDiffers(check: Check, op: Operation)
    requires IntentOk(check, op)
    ensures op.intended.text != op.expectedSource.text
  {
    hide RuleText.ManagedRules, RuleText.ValidRules, RuleText.MarkersOk, RuleText.Before, RuleText.After,
      RuleText.Block,
      RuleText.ValidateComplete, RuleText.AfterDelta;
  }

  lemma ElementsOfUpserts(upserts: seq<Upsert>)
    ensures RuleTextTheorems.Elements(RulesOf(upserts)) == UpsertedRules(upserts)
  {
    var rules := RulesOf(upserts);
    forall rule | rule in UpsertedRules(upserts) ensures rule in RuleTextTheorems.Elements(rules) {
      var k :| 0 <= k < |upserts| && upserts[k].rule == rule;
      assert rules[k] == rule;
    }
  }

  /** What the intended file holds: the rules of the source without the deletes and with the upserts. */
  lemma ManagedIntent(check: Check, op: Operation)
    requires IntentOk(check, op)
    ensures Managed(check, op.intended.text)
         == Managed(check, op.expectedSource.text) - DeletedRules(op.delta.deletes) + UpsertedRules(op.delta.upserts)
  {
    hide RuleText.DeltaUpdate, RuleTextTheorems.ManagedSet, RulesOf;
    RuleTextTheorems.DeltaThenParse(check, op.expectedSource.text, op.delta.deletes, RulesOf(op.delta.upserts));
    ElementsOfUpserts(op.delta.upserts);
  }

  // ---------- Rows after each transaction ----------

  lemma MarkedFits(check: Check, content: string, keys: set<string>, op: Operation, now: int)
    requires RowFits(check, content, keys, op) && Open(op)
    ensures RowFits(check, content, keys, Marked(op, now)) && Open(Marked(op, now))
    ensures Moved(content, Marked(op, now)) == Moved(content, op)
  {
    hide RuleText.DeltaUpdate, RuleTextTheorems.ManagedSet;
  }

  lemma WrittenFits(check: Check, db: Db, op: Operation, now: int)
    requires RowFits(check, op.intended.text, db.ownership.Keys, op) && op.phase.Prepared?
    ensures var written := Written(op, RevisionOf(op.intended.text), op.intended, now);
      && RowFits(check, op.intended.text, OwnershipAfter(db, op, RevisionOf(op.intended.text), now).Keys, written)
      && Moved(op.intended.text, written) == Moved(op.intended.text, op)
  {
    hide OwnershipAfter, RuleText.DeltaUpdate, RuleTextTheorems.ManagedSet;
    OwnershipKeys(db, op, RevisionOf(op.intended.text), now);
    ManagedIntent(check, op);
  }

  lemma BegunFits(check: Check, content: string, keys: set<string>, op: Operation, now: int)
    requires RowFits(check, content, keys, op) && (op.phase.Committed? || op.phase.Partial?)
    ensures RowFits(check, content, keys, Begun(op, now)) && Open(Begun(op, now))
    ensures Moved(content, Begun(op, now)) == Moved(content, op)
  {
    hide RuleText.DeltaUpdate, RuleTextTheorems.ManagedSet;
  }

  lemma EndedFits(check: Check, content: string, keys: set<string>, op: Operation, outcome: Outcome, now: int)
    requires RowFits(check, content, keys, op) && op.phase.Activating?
    ensures RowFits(check, content, keys, Ended(op, outcome, now)) && keys == Managed(check, content)
    ensures Moved(content, Ended(op, outcome, now)) == Moved(content, op)
  {
    hide RuleText.DeltaUpdate, RuleTextTheorems.ManagedSet;
  }

  lemma AbortedFits(check: Check, content: string, keys: set<string>, op: Operation, now: int)
    requires RowFits(check, content, keys, op) && op.phase.Prepared? && content == op.expectedSource.text
    ensures RowFits(check, content, keys, AbortedOperation(op, now)) && keys == Managed(check, content)
    ensures Moved(content, AbortedOperation(op, now)) == Moved(content, op)
  {
    hide RuleText.DeltaUpdate, RuleTextTheorems.ManagedSet;
    IntentDiffers(check, op);
  }

  // ---------- The steps ----------

  /** Marking an operation for reconciliation, or leaving the tables as they are, after a failed session. */
  lemma FailSessionKeeps(check: Check, w: World, id: string, error: RuleText.StoreError)
    requires KeysOk(w.db) && FileInv(check, w.db.operations, w.db.ownership.Keys, w.disk.content, w.writes)
    requires id in w.db.operations && Open(w.db.operations[id])
    ensures Inv(check, FailSession(w, id, error))
  {
    hide KeysOk, RowFits, SoleOpen, Moved, WritesOf, Marked;
    var marked := Mark(w.db, id, w.clock);
    if error.ReconciliationRequired? && marked.Ok? && marked.value.value {
      var op := w.db.operations[id];
      assert RowFits(check, w.disk.content, w.db.ownership.Keys, op);
      MarkedFits(check, w.disk.content, w.db.ownership.Keys, op, w.clock);
      ReplaceRow(check, w.db.operations, w.db.ownership.Keys, w.disk.content, w.writes, id, Marked(op, w.clock),
          w.db.ownership.Keys);
      MarkedKeys(op, w.clock);
      SameKeys(w.db, marked.value.db, id);
    }
  }

  lemma MarkedKeys(op: Operation, now: int)
    ensures Marked(op, now).id == op.id && Marked(op, now).idempotencyKey == op.idempotencyKey
  {
  }

  lemma AttestKeeps(check: Check, w: World, choice: Choice)
    requires Inv(check, w) && w.process.Running? && (w.process.stage.Attesting? || w.process.stage.Vetoed?)
    ensures Inv(check, Advance(check, w, choice))
  {
    hide KeysOk, FileInv, Session, RuleText.ValidateComplete, FailSession;
    var id, op := w.process.id, w.db.operations[w.process.id];
    var next := w.(disk := DiskAfter(w.disk, choice.faults));
    var attested := Session(w.disk, choice.faults, Attest(check, w.disk, op));
    SessionBody(w.disk, choice.faults, Attest(check, w.disk, op));
    if attested.Err? {
      FailSessionKeeps(check, next, id, attested.error);
    } else if attested.value.AtIntent? && w.process.stage.Vetoed? {
      FailSessionKeeps(check, next, id, RuleText.ReconciliationRequired);
    }
  }

  /** A session that succeeds returns its body. */
  lemma SessionBody<T>(disk: Disk, faults: Faults, body: Result<T, RuleText.StoreError>)
    ensures Session(disk, faults, body).Ok? ==> body.Ok? && body.value == Session(disk, faults, body).value
    ensures Session(disk, faults, body).Ok? ==> !disk.locked && disk.temporary.None?
  {
  }

  lemma CommitKeeps(check: Check, w: World, choice: Choice)
    requires Inv(check, w) && w.process.Running? && w.process.stage.Committing?
    ensures Inv(check, Advance(check, w, choice))
  {
    hide KeysOk, FileInv, Session, RuleText.ValidateComplete, FailSession, Intent;
    var id, op := w.process.id, w.db.operations[w.process.id];
    var next := w.(disk := DiskAfter(w.disk, choice.faults));
    var begun := Session(w.disk, choice.faults.(release := Released), Commit(check, w.disk, op));
    SessionBody(w.disk, choice.faults.(release := Released), Commit(check, w.disk, op));
    if begun.Err? {
      FailSessionKeeps(check, next, id, begun.error);
    }
  }

  lemma RenameKeeps(check: Check, w: World, choice: Choice)
    requires Inv(check, w) && w.process.Running? && w.process.stage.Renaming?
    ensures Inv(check, Advance(check, w, choice))
  {
    hide KeysOk, FileInv;
    RenamedFile(check, w.db.operations, w.db.ownership.Keys, w.disk.content, w.writes, w.process.id);
  }

  lemma PublishKeeps(check: Check, w: World, choice: Choice)
    requires Inv(check, w) && w.process.Running? && w.process.stage.Renamed?
    ensures Inv(check, Advance(check, w, choice))
  {
    hide KeysOk, FileInv, RuleText.ValidateComplete, FailSession;
    FailSessionKeeps(check, w.(disk := Unlock(w.disk, choice.faults)), w.process.id, RuleText.ReconciliationRequired);
  }

  lemma AbortKeeps(check: Check, w: World, choice: Choice)
    requires Inv(check, w) && w.process.Running? && w.process.stage.Aborting?
    ensures Inv(check, Advance(check, w, choice))
  {
    hide KeysOk, RowFits, SoleOpen, Moved, WritesOf, ReleaseSlot, NoneOpen;
    var id, op := w.process.id, w.db.operations[w.process.id];
    var aborted := Abort(w.db, id, op.expectedSource, op.intended, w.clock);
    if aborted.Ok? && aborted.value.value {
      assert RowFits(check, w.disk.content, w.db.ownership.Keys, op);
      AbortedFits(check, w.disk.content, w.db.ownership.Keys, op, w.clock);
      ReplaceRow(check, w.db.operations, w.db.ownership.Keys, w.disk.content, w.writes, id,
          AbortedOperation(op, w.clock), w.db.ownership.Keys);
      SameKeys(w.db, aborted.value.db, id);
    }
  }

  lemma FinalizeKeeps(check: Check, w: World, choice: Choice)
    requires Inv(check, w) && w.process.Running? && w.process.stage.Finalizing?
    ensures Inv(check, Advance(check, w, choice))
  {
    hide KeysOk, RowFits, SoleOpen, Moved, WritesOf, NoneOpen, ReplacesManual, CommitAuthorized, ReservationPresent,
      CandidatesAfter, DecisionsAfter,
      OwnershipAfter, ConsumeSlot;
    var id, op := w.process.id, w.db.operations[w.process.id];
    var stage := w.process.stage;
    var finalized := Finalize(w.db, id, stage.revision, stage.digest, w.clock);
    if finalized.Ok? {
      assert RowFits(check, w.disk.content, w.db.ownership.Keys, op);
      WrittenFits(check, w.db, op, w.clock);
      KeysOfRow(w.db, id);
      var after := finalized.value.db;
      ReplaceRow(check, w.db.operations, w.db.ownership.Keys, w.disk.content, w.writes, id, after.operations[id],
          after.ownership.Keys);
      SameKeys(w.db, after, id);
    }
  }

  lemma KeysOfRow(db: Db, id: string)
    requires KeysOk(db) && id in db.operations
    ensures db.operations[id].id == id
  {
  }

  lemma BeginKeeps(check: Check, w: World, choice: Choice)
    requires Inv(check, w) && w.process.Running? && w.process.stage.Beginning?
    ensures Inv(check, Advance(check, w, choice))
  {
    hide KeysOk, RowFits, SoleOpen, Moved, WritesOf, NoneOpen;
    var id, op := w.process.id, w.db.operations[w.process.id];
    if op.phase.Activating? {
    } else if op.updatedAt <= w.clock && ValidTime(w.clock) {
      assert RowFits(check, w.disk.content, w.db.ownership.Keys, op);
      BegunFits(check, w.disk.content, w.db.ownership.Keys, op, w.clock);
      ReplaceRow(check, w.db.operations, w.db.ownership.Keys, w.disk.content, w.writes, id, Begun(op, w.clock),
          w.db.ownership.Keys);
      SameKeys(w.db, w.db.(operations := w.db.operations[id := Begun(op, w.clock)]), id);
    }
  }

  lemma EndKeeps(check: Check, w: World, choice: Choice)
    requires Inv(check, w) && w.process.Running? && w.process.stage.Ending?
    ensures Inv(check, Advance(check, w, choice))
  {
    hide KeysOk, RowFits, SoleOpen, Moved, WritesOf, NoneOpen;
    var id, op := w.process.id, w.db.operations[w.process.id];
    var stage := w.process.stage;
    var ended := Complete(w.db, id, stage.attempt, stage.outcome, w.clock);
    if ended.Ok? {
      assert RowFits(check, w.disk.content, w.db.ownership.Keys, op);
      EndedFits(check, w.disk.content, w.db.ownership.Keys, op, stage.outcome, w.clock);
      ReplaceRow(check, w.db.operations, w.db.ownership.Keys, w.disk.content, w.writes, id,
          Ended(op, stage.outcome, w.clock), w.db.ownership.Keys);
      SameKeys(w.db, ended.value.db, id);
    }
  }

  lemma CheckKeeps(check: Check, w: World, choice: Choice)
    requires Inv(check, w) && w.process.Running? && (w.process.stage.Checking? || w.process.stage.Rechecking?)
    ensures Inv(check, Advance(check, w, choice))
  {
    hide KeysOk, FileInv, Session, RuleText.ValidateComplete, FailSession, AttestWritten;
    var id, op := w.process.id, w.db.operations[w.process.id];
    var next := w.(disk := DiskAfter(w.disk, choice.faults));
    var attested := Session(w.disk, choice.faults, AttestWritten(check, w.disk, op));
    if attested.Err? && attested.error.ReconciliationRequired? {
      FailSessionKeeps(check, next, id, attested.error);
    }
  }

  lemma AdvanceKeeps(check: Check, w: World, choice: Choice)
    requires Inv(check, w)
    ensures Inv(check, Advance(check, w, choice))
  {
    if w.process.Running? {
      var stage := w.process.stage;
      if stage.Attesting? || stage.Vetoed? {
        AttestKeeps(check, w, choice);
      } else if stage.Committing? {
        CommitKeeps(check, w, choice);
      } else if stage.Renaming? {
        RenameKeeps(check, w, choice);
      } else if stage.Renamed? {
        PublishKeeps(check, w, choice);
      } else if stage.Aborting? {
        AbortKeeps(check, w, choice);
      } else if stage.Finalizing? {
        FinalizeKeeps(check, w, choice);
      } else if stage.Beginning? {
        BeginKeeps(check, w, choice);
      } else if stage.Ending? {
        EndKeeps(check, w, choice);
      } else if stage.Checking? || stage.Rechecking? {
        CheckKeeps(check, w, choice);
      } else {
        QuietKeeps(check, w, choice);
      }
    }
  }

  /** The stages that touch neither the tables nor the rule file. */
  lemma QuietKeeps(check: Check, w: World, choice: Choice)
    requires Inv(check, w) && w.process.Running?
    requires w.process.stage.Starting? || w.process.stage.Preflighting? || w.process.stage.Writing?
      || w.process.stage.Activation?
    ensures Inv(check, Advance(check, w, choice))
  {
    hide KeysOk, FileInv, AssertAuthorized;
  }

  lemma PreparedFits(check: Check, disk: Disk, keys: set<string>, input: PrepareInput, consent: Option<Consent>,
      now: int)
    requires Intent(check, disk, input.delta).Ok? && keys == Managed(check, disk.content)
    requires input.expectedSource == RevisionOf(disk.content)
    requires input.intended == Sha256(Intent(check, disk, input.delta).value)
    ensures var op := NewOperation(input, consent, now);
      RowFits(check, disk.content, keys, op) && Open(op) && !Moved(disk.content, op)
  {
    hide RuleText.DeltaUpdate, RuleTextTheorems.ManagedSet, RuleText.ValidateComplete;
    IntentDiffers(check, NewOperation(input, consent, now));
  }

  lemma SubmitKeeps(check: Check, w: World, text: Text, input: PrepareInput, faults: Faults)
    requires Inv(check, w) && w.process.Idle? && NoneOpen(w.db.operations)
    ensures KeysOk(w.db) && Indexed(w.db)
    ensures Inv(check, SubmitStep(check, w, text, input, faults))
  {
    hide KeysOk, RowFits, SoleOpen, Moved, WritesOf, Open, Session, Intent, Prepare, ValidInput, CandidateAvailable,
      NewOperation;
    KeysGiveIndex(w.db);
    var intent := Session(w.disk, faults, Intent(check, w.disk, input.delta));
    SessionBody(w.disk, faults, Intent(check, w.disk, input.delta));
    if intent.Ok? {
      var prepared := input.(expectedSource := RevisionOf(w.disk.content), intended := Sha256(intent.value));
      var event := PrepareEvent(prepared, w.clock);
      PrepareRows(w.db, text, event);
      var after := JournalTheorems.Apply(w.db, text, event);
      if Inserts(w.db, after, text, event) {
        var op := after.operations[prepared.id];
        PreparedFits(check, w.disk, w.db.ownership.Keys, prepared, op.consent, w.clock);
        InsertRow(check, w.db.operations, w.db.ownership.Keys, w.disk.content, w.writes, prepared.id, op);
        NewOperationKeys(prepared, op.consent, w.clock);
        InsertKeys(w.db, after, prepared.id, op);
      } else {
        SameTables(w.db, after);
      }
    }
  }

  /** Every step keeps the invariant. */
  lemma StepKeeps(check: Check, w: World, event: ProtocolEvent)
    requires Inv(check, w)
    ensures Indexed(w.db) && Inv(check, Step(check, w, event))
  {
    hide KeysOk, FileInv, SubmitStep, Advance, NoneOpen;
    KeysGiveIndex(w.db);
    match event
    case Tick(_) =>
    case Crash(_) =>
    case Restart =>
    case ClearLock =>
    case ClearTemporary =>
    case Environment(_, _, _, _, _) => SameTables(w.db, Step(check, w, event).db);
    case Submit(text, input, faults) =>
      if w.process.Idle? && NoneOpen(w.db.operations) {
        SubmitKeeps(check, w, text, input, faults);
      }
    case Execute(_) =>
    case Throw =>
    case Proceed(choice) => AdvanceKeeps(check, w, choice);
  }

  // ---------- Runs ----------

  ghost function ProtocolRun(check: Check, w: World, events: seq<ProtocolEvent>): (after: World)
    requires Inv(check, w)
    ensures Inv(check, after)
    decreases |events|
  {
    if events == [] then w
    else
      StepKeeps(check, w, events[0]);
      ProtocolRun(check, Step(check, w, events[0]), events[1..])
  }

  /** An empty journal beside a file without managed rules, in any process state before an execution. */
  lemma InitialInv(check: Check, content: string, clock: int)
    requires RuleText.ManagedRules(check, content) == Ok([])
    ensures Inv(check, World(EMPTY, Disk(content, false, None), Down, clock, map[]))
  {
    hide RuleText.ManagedRules;
    assert forall id: string :: WritesOf(map[], content, map[], id);
  }

  // ---------- What the invariant says ----------

  /** Whatever crashed and whatever was retried, an operation's content was published at most once. */
  lemma PublishedAtMostOnce(check: Check, w: World, events: seq<ProtocolEvent>, id: string)
    requires Inv(check, w)
    ensures 0 <= Count(ProtocolRun(check, w, events).writes, id) <= 1
  {
    hide Inv, ProtocolRun, Count, Moved;
    var after := ProtocolRun(check, w, events);
    WritesAt(check, after, id);
  }

  lemma WritesAt(check: Check, w: World, id: string)
    requires Inv(check, w)
    ensures WritesOf(w.db.operations, w.disk.content, w.writes, id)
  {
  }

  /** What the journal records as written is the intended content, and it was published exactly once. */
  lemma JournaledAsIntended(check: Check, w: World, events: seq<ProtocolEvent>, id: string)
    requires Inv(check, w)
    ensures var after := ProtocolRun(check, w, events);
      id in after.db.operations && after.db.operations[id].resultingRevision.Some? ==>
        (var op := after.db.operations[id];
         && Count(after.writes, id) == 1
         && op.resultingDigest == Some(op.intended) && op.resultingRevision == Some(RevisionOf(op.intended.text)))
  {
    hide Inv, ProtocolRun, Count, OpFile;
    var after := ProtocolRun(check, w, events);
    if id in after.db.operations {
      WritesAt(check, after, id);
      RowAt(check, after, id);
    }
  }

  lemma RowAt(check: Check, w: World, id: string)
    requires Inv(check, w) && id in w.db.operations
    ensures RowFits(check, w.disk.content, w.db.ownership.Keys, w.db.operations[id])
  {
  }

  predicate Unsettled(op: Operation) {
    op.phase.Prepared? || op.phase.ReconciliationRequired?
  }

  /** The file is at the owned rules, or ahead of them by the delta of one operation. */
  predicate InStepUpTo(check: Check, w: World, op: Operation) {
    var managed, keys := Managed(check, w.disk.content), w.db.ownership.Keys;
    managed == keys || managed == keys - DeletedRules(op.delta.deletes) + UpsertedRules(op.delta.upserts)
  }

  /**
   File and ownership agree in every reachable state, up to the delta of the one unsettled operation if there is one.
   */
  lemma FileAndOwnershipAgree(check: Check, w: World, events: seq<ProtocolEvent>)
    requires Inv(check, w)
    ensures var after := ProtocolRun(check, w, events);
      (forall id :: id in after.db.operations ==> !Unsettled(after.db.operations[id])) ==>
        Managed(check, after.disk.content) == after.db.ownership.Keys
    ensures var after := ProtocolRun(check, w, events);
      forall id :: id in after.db.operations && Unsettled(after.db.operations[id]) ==>
        InStepUpTo(check, after, after.db.operations[id])
    ensures var after := ProtocolRun(check, w, events);
      forall a, b | a in after.db.operations && b in after.db.operations
        && Unsettled(after.db.operations[a]) && Unsettled(after.db.operations[b]) :: a == b
  {
    hide ProtocolRun, RuleTextTheorems.ManagedSet, IntentOk, Journaled, KeysOk, WritesOf;
    var after := ProtocolRun(check, w, events);
    var ops := after.db.operations;
    forall id | id in ops && Unsettled(ops[id]) ensures InStepUpTo(check, after, ops[id]) {
      RowAt(check, after, id);
      ManagedIntent(check, ops[id]);
    }
    if !NoneOpen(ops) {
      var id :| id in ops && Open(ops[id]);
      RowAt(check, after, id);
    }
  }

  /**
   The file changes only by one rename: from the source of the running operation to its intent, which was not published
   before.
   */
  lemma FileChangesByRename(check: Check, w: World, event: ProtocolEvent)
    requires Inv(check, w) && Indexed(w.db)
    requires Step(check, w, event).disk.content != w.disk.content
    ensures w.process.Running? && w.process.id in w.db.operations && event.Proceed?
    ensures w.disk.content == w.db.operations[w.process.id].expectedSource.text
    ensures Step(check, w, event).disk.content == w.db.operations[w.process.id].intended.text
    ensures Count(w.writes, w.process.id) == 0 && Count(Step(check, w, event).writes, w.process.id) == 1
  {
    hide KeysOk, FileInv, Start, AttestStep, Preflight, VetoStep, AbortStep, CommitStep, WriteStep, PublishStep,
      FinalizeStep, BeginStep,
      CheckStep, EndStep, SubmitStep, NoneOpen, Moved;
    assert w.process.Running? && w.process.id in w.db.operations && w.process.stage.Renaming?;
    WritesAt(check, w, w.process.id);
    UnmovedAtSource(check, w, w.process.id);
  }

  lemma UnmovedAtSource(check: Check, w: World, id: string)
    requires Inv(check, w) && id in w.db.operations && w.db.operations[id].phase.Prepared?
    requires w.disk.content == w.db.operations[id].expectedSource.text
    ensures !Moved(w.disk.content, w.db.operations[id])
  {
    hide IntentOk;
    RowAt(check, w, id);
    IntentDiffers(check, w.db.operations[id]);
  }

  /** A veto can only end in an abort of an operation whose content was never published. */
  lemma AbortedNeverPublished(check: Check, w: World, events: seq<ProtocolEvent>, id: string)
    requires Inv(check, w)
    ensures var after := ProtocolRun(check, w, events);
      id in after.db.operations && after.db.operations[id].phase.Aborted? ==> Count(after.writes, id) == 0
  {
    hide Inv, ProtocolRun, Count, OpFile;
    var after := ProtocolRun(check, w, events);
    if id in after.db.operations {
      WritesAt(check, after, id);
      RowAt(check, after, id);
    }
  }

  // ---------- Recovery ----------

  predicate Healthy(disk: Disk, faults: Faults) {
    !disk.locked && disk.temporary.None? && !faults.lock && !faults.read && faults.release.Released?
  }

  lemma IntentIsValidFile(check: Check, op: Operation)
    requires IntentOk(check, op)
    ensures RuleText.ValidateComplete(check, op.expectedSource.text).Ok?
    ensures RuleText.ValidateComplete(check, op.intended.text).Ok?
  {
    hide RuleText.ValidateComplete, RuleText.Update, RuleText.AfterDelta;
    RuleTextTheorems.DeltaThenParse(check, op.expectedSource.text, op.delta.deletes, RulesOf(op.delta.upserts));
  }

  /** A retry that finds its content already published goes on to the finalizing transaction, without a second write. */
  lemma RetryFindsItsContent(check: Check, w: World, choice: Choice)
    requires Inv(check, w) && w.process.Running? && w.process.stage.Attesting? && Healthy(w.disk, choice.faults)
    requires Moved(w.disk.content, w.db.operations[w.process.id])
    ensures var next := Advance(check, w, choice);
      && next.process == Running(w.process.id,
          Finalizing(RevisionOf(w.disk.content), w.db.operations[w.process.id].intended))
      && next.disk == w.disk && next.writes == w.writes && next.db == w.db && next.clock == w.clock
  {
    hide KeysOk, FileInv, RuleText.ValidateComplete, IntentOk;
    var op := w.db.operations[w.process.id];
    RowAt(check, w, w.process.id);
    IntentDiffers(check, op);
    IntentIsValidFile(check, op);
  }

  /** No execution that is about to write, or writing, has its content in the file already. */
  lemma WritersHaveNotPublished(check: Check, w: World)
    requires Inv(check, w) && w.process.Running?
    requires w.process.stage.Committing? || w.process.stage.Writing? || w.process.stage.Renaming?
    ensures Count(w.writes, w.process.id) == 0
  {
    hide KeysOk, FileInv, Moved, Count;
    WritesAt(check, w, w.process.id);
    UnmovedAtSource(check, w, w.process.id);
  }

  /** The stages whose store sessions compare the file with the journal. */
  lemma SessionsAgree(check: Check, w: World)
    requires Inv(check, w) && w.process.Running?
    ensures w.process.stage.Attesting? || w.process.stage.Vetoed? ==>
      Attest(check, w.disk, w.db.operations[w.process.id]).Ok?
    ensures w.process.stage.Vetoed? ==> Attest(check, w.disk, w.db.operations[w.process.id]) == Ok(AtSource)
    ensures w.process.stage.Checking? || w.process.stage.Rechecking? ==>
      AttestWritten(check, w.disk, w.db.operations[w.process.id]) == Ok(true)
    ensures w.process.stage.Committing? ==>
      Commit(check, w.disk, w.db.operations[w.process.id]) == Ok(w.db.operations[w.process.id].intended.text)
  {
    hide KeysOk, FileInv, RuleText.ValidateComplete, RuleText.DeltaUpdate, RuleTextTheorems.ManagedSet;
    var op := w.db.operations[w.process.id];
    RowAt(check, w, w.process.id);
    if Open(op) {
      IntentIsValidFile(check, op);
    }
  }

  predicate Marks(check: Check, w: World, choice: Choice)
    requires w.process.Running?
  {
    var next := Advance(check, w, choice).db.operations;
    && w.process.id in w.db.operations && !w.db.operations[w.process.id].phase.ReconciliationRequired?
    && w.process.id in next && next[w.process.id].phase.ReconciliationRequired?
  }

  lemma WritePhaseDoesNotMark(check: Check, w: World, choice: Choice)
    requires KeysOk(w.db) && w.process.Running? && (w.process.stage.Aborting? || w.process.stage.Finalizing?)
    ensures !Marks(check, w, choice)
  {
    hide ReplacesManual, CommitAuthorized, OwnershipAfter, CandidatesAfter, DecisionsAfter, ReservationPresent, Indexed,
      KeyOk;
    if w.process.id in w.db.operations {
      assert KeyOk(w.db, w.process.id, w.db.operations[w.process.id]);
      KeysOfRow(w.db, w.process.id);
    }
  }

  lemma ActivationDoesNotMark(check: Check, w: World, choice: Choice)
    requires w.process.Running? && (w.process.stage.Beginning? || w.process.stage.Ending?)
    ensures !Marks(check, w, choice)
  {
  }

  lemma PublishDoesNotMark(check: Check, w: World, choice: Choice)
    requires ProcessOk(w) && w.process.Running? && w.process.stage.Renamed? && choice.faults.release.Released?
    ensures !Marks(check, w, choice)
  {
    hide RuleText.ValidateComplete, Mark;
  }

  lemma SessionsDoNotMark(check: Check, w: World, choice: Choice)
    requires Inv(check, w) && w.process.Running?
    requires w.process.stage.Attesting? || w.process.stage.Vetoed? || w.process.stage.Committing?
      || w.process.stage.Checking? || w.process.stage.Rechecking?
    requires w.disk.temporary.None? && choice.faults.release.Released?
    ensures !Marks(check, w, choice)
  {
    hide KeysOk, FileInv, Attest, AttestWritten, Commit, Mark;
    SessionsAgree(check, w);
  }

  /**
   The content checks of the store never fail: reconciliation is required only after a leftover temporary file or a lost
   lock.
   */
  lemma ReconciliationOnlyFromDisk(check: Check, w: World, choice: Choice)
    requires Inv(check, w) && w.process.Running? && Marks(check, w, choice)
    ensures w.disk.temporary.Some? || !choice.faults.release.Released?
  {
    hide KeysOk, FileInv, Session, Mark, Attest, AttestWritten, Commit, Finalize, Begin, Complete, Abort,
      AssertAuthorized,
      AttestStep, VetoStep, CommitStep, PublishStep, CheckStep, AbortStep, FinalizeStep, BeginStep, EndStep;
    var stage := w.process.stage;
    if stage.Aborting? || stage.Finalizing? {
      WritePhaseDoesNotMark(check, w, choice);
    } else if stage.Beginning? || stage.Ending? {
      ActivationDoesNotMark(check, w, choice);
    } else if w.disk.temporary.None? && choice.faults.release.Released? {
      if stage.Renamed? {
        PublishDoesNotMark(check, w, choice);
      } else if stage.Attesting? || stage.Vetoed? || stage.Committing? || stage.Checking? || stage.Rechecking? {
        SessionsDoNotMark(check, w, choice);
      }
    }
  }
}
