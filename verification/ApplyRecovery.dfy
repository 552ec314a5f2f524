/**
 Recovery completes: from any reachable state in which an operation is still open and nothing was left behind on
 disk, one undisturbed execution ends with the operation completed and the file and the ownership table in step, if
 and only if the guards of the journal hold.
 */
module ApplyRecovery {
  import opened Wrappers
  import RuleText
  import opened Journal
  import opened JournalTheorems
  import opened ApplyProtocol
  import opened ApplySafety
  import opened ApplyJournal
  import opened JournalGuards

  /** No call fails or is interrupted. Whether the deployment vetoes the operation, and how its activation ends, is open. */
  predicate Smooth(choice: Choice) {
    && !choice.faults.lock && !choice.faults.read && choice.faults.release.Released?
    && choice.allowed && !choice.aborted && !choice.failed
  }

  /** Besides, nothing is vetoed and the activation succeeds. */
  predicate Undisturbed(choice: Choice) {
    Smooth(choice) && !choice.veto && choice.outcome.Succeeds?
  }

  /** The execution is over, and the row says how its last attempt ended. */
  predicate Concluded(w: World, id: string, outcome: Outcome, attempts: int) {
    && w.process.Idle? && id in w.db.operations && w.db.operations[id].attempts == attempts
    && match outcome
       case Succeeds => w.db.operations[id].phase.Completed? && w.db.operations[id].errorCategory.None?
       case Fails(category) => w.db.operations[id].phase.Partial? && w.db.operations[id].errorCategory == Some(category)
  }

  /** Resuming a running attempt keeps its number, any other activation takes the next one. */
  function LastAttempt(op: Operation): int {
    if op.phase.Activating? then op.attempts else op.attempts + 1
  }

  function Drive(check: Check, w: World, choice: Choice, steps: nat): World
    decreases steps
  {
    if steps == 0 then w else Drive(check, Advance(check, w, choice), choice, steps - 1)
  }

  lemma {:induction false} DriveOn(check: Check, w: World, choice: Choice, first: nat, second: nat)
    ensures Drive(check, w, choice, first + second) == Drive(check, Drive(check, w, choice, first), choice, second)
    decreases first
  {
    hide Advance;
    if first > 0 {
      DriveOn(check, Advance(check, w, choice), choice, first - 1, second);
    }
  }

  lemma {:induction false} DriveKeeps(check: Check, w: World, choice: Choice, steps: nat)
    requires Inv(check, w)
    ensures Inv(check, Drive(check, w, choice, steps))
    decreases steps
  {
    hide Inv, Advance;
    if steps > 0 {
      AdvanceKeeps(check, w, choice);
      DriveKeeps(check, Advance(check, w, choice), choice, steps - 1);
    }
  }

  lemma {:induction false} DriveKeepsSound(check: Check, w: World, choice: Choice, steps: nat)
    requires Sound(check, w)
    ensures Sound(check, Drive(check, w, choice, steps))
    decreases steps
  {
    hide Sound, Advance;
    if steps > 0 {
      AdvanceKeepsSound(check, w, choice);
      DriveKeepsSound(check, Advance(check, w, choice), choice, steps - 1);
    }
  }

  /** The lock is free and no temporary file was left. */
  predicate Clear(disk: Disk) {
    !disk.locked && disk.temporary.None?
  }

  predicate At(w: World, id: string, stage: Stage) {
    w.process == Running(id, stage) && id in w.db.operations
  }

  // ---------- Writing ----------

  lemma StartsAttesting(check: Check, w: World, id: string, choice: Choice)
    requires At(w, id, Starting) && Smooth(choice) && w.db.operations[id].phase.Prepared?
    requires !w.db.operations[id].action.Rollback?
    ensures Advance(check, w, choice) == w.(process := Running(id, Attesting))
  {
  }

  lemma AttestsSource(check: Check, w: World, id: string, choice: Choice)
    requires Inv(check, w) && At(w, id, Attesting) && Smooth(choice) && Clear(w.disk)
    requires w.disk.content == w.db.operations[id].expectedSource.text
    ensures Advance(check, w, choice) == w.(process := Running(id, Preflighting))
  {
    hide Inv, RuleText.ValidateComplete;
    SessionsAgree(check, w);
  }

  lemma PassesPreflight(check: Check, w: World, id: string, choice: Choice)
    requires At(w, id, Preflighting) && !choice.veto
    requires w.db.operations[id].action.AutomaticAdd? ==> AssertAuthorized(w.db, id).Ok?
    ensures Advance(check, w, choice) == w.(process := Running(id, Committing))
  {
    hide AssertAuthorized;
  }

  lemma ReadsForCommit(check: Check, w: World, id: string, choice: Choice)
    requires Inv(check, w) && At(w, id, Committing) && Smooth(choice) && Clear(w.disk)
    ensures Advance(check, w, choice) ==
      w.(process := Running(id, Writing(w.db.operations[id].intended.text)), disk := w.disk.(locked := true))
  {
    hide Inv, Commit;
    SessionsAgree(check, w);
  }

  /** Temporary file, rename, and the release of the lock. */
  lemma WritesAndPublishes(check: Check, w: World, id: string, content: string, choice: Choice)
    requires At(w, id, Writing(content)) && Smooth(choice) && w.db.operations[id].intended == Sha256(content)
    requires RuleText.ValidateComplete(check, content).Ok?
    ensures var next := Drive(check, w, choice, 3);
      && next.process == Running(id, Finalizing(RevisionOf(content), Sha256(content))) && next.db == w.db
      && next.clock == w.clock
      && next.disk == Disk(content, false, None)
  {
    hide RuleText.ValidateComplete;
    var written := Advance(check, w, choice);
    assert written == w.(process := Running(id, Renaming(content)), disk := w.disk.(temporary := Some(content)));
    var renamed := Advance(check, written, choice);
    assert renamed.process == Running(id, Renamed) && renamed.disk == Disk(content, w.disk.locked, None) && renamed.db == w.db;
    var published := Advance(check, renamed, choice);
    assert Drive(check, w, choice, 3) == Drive(check, written, choice, 2) == Drive(check, renamed, choice, 1)
        == Drive(check, published, choice, 0);
  }

  /** From the attestation of the source to the finalization, the content is published. */
  lemma WritesFromSource(check: Check, w: World, id: string, choice: Choice)
    requires Inv(check, w) && At(w, id, Attesting) && Smooth(choice) && Clear(w.disk)
    requires w.disk.content == w.db.operations[id].expectedSource.text && !choice.veto
    requires w.db.operations[id].action.AutomaticAdd? ==> AssertAuthorized(w.db, id).Ok?
    ensures var op := w.db.operations[id];
      var next := Drive(check, w, choice, 6);
      && next.process == Running(id, Finalizing(RevisionOf(op.intended.text), op.intended)) && next.db == w.db
      && next.clock == w.clock
      && Clear(next.disk)
  {
    hide Inv, Advance, AssertAuthorized, RuleText.ValidateComplete;
    var op := w.db.operations[id];
    AttestsSource(check, w, id, choice);
    var preflighting := w.(process := Running(id, Preflighting));
    PassesPreflight(check, preflighting, id, choice);
    var committing := w.(process := Running(id, Committing));
    AdvanceKeeps(check, w, choice);
    AdvanceKeeps(check, preflighting, choice);
    ReadsForCommit(check, committing, id, choice);
    var writing := Advance(check, committing, choice);
    ValidIntent(check, w, id);
    WritesAndPublishes(check, writing, id, op.intended.text, choice);
    assert Drive(check, w, choice, 6) == Drive(check, preflighting, choice, 5) == Drive(check, committing, choice, 4)
        == Drive(check, writing, choice, 3);
  }

  lemma ValidIntent(check: Check, w: World, id: string)
    requires Inv(check, w) && At(w, id, Attesting)
    ensures RuleText.ValidateComplete(check, w.db.operations[id].intended.text).Ok?
  {
    hide RuleText.ValidateComplete, IntentOk;
    RowAt(check, w, id);
    IntentIsValidFile(check, w.db.operations[id]);
  }

  // ---------- Activating ----------

  lemma Finalizes(check: Check, w: World, id: string, choice: Choice)
    requires Sound(check, w) && id in w.db.operations && MayCommit(w.db, w.db.operations[id], w.clock)
    requires w.process == Running(id,
        Finalizing(RevisionOf(w.db.operations[id].intended.text), w.db.operations[id].intended))
    ensures var next := Advance(check, w, choice);
      && At(next, id, Beginning) && next.disk == w.disk && next.clock == w.clock
      && next.db.operations[id].phase.Committed? && next.db.operations[id].attempts == w.db.operations[id].attempts
  {
    hide Inv, JournalOk, MayCommit, Finalize, OwnershipAfter;
    FinalizesIff(check, w);
    CommitsRow(check, w);
  }

  /** An attempt may begin, or is already running. */
  predicate CanActivate(w: World, id: string) {
    id in w.db.operations && ValidTime(w.clock) && (w.db.operations[id].phase.Activating? || w.db.operations[id].attempts < MAX_ATTEMPTS)
  }

  /** What the journal's invariant says of a written row. */
  lemma WrittenRow(w: World, id: string)
    requires JournalOk(w.db, w.clock) && id in w.db.operations
    ensures w.db.operations[id].updatedAt <= w.clock
    ensures w.db.operations[id].phase.Activating? ==> 1 <= w.db.operations[id].attempts <= MAX_ATTEMPTS
    ensures w.db.operations[id].phase.Prepared? || w.db.operations[id].phase.Committed? ==>
      w.db.operations[id].attempts == 0
    ensures w.db.operations[id].attempts >= 0
  {
    hide KeysOk, SoleUnfinished, BudgetsAgree, CommitChecks, ActionChecks;
    assert RowOk(w.db.operations[id], w.clock);
  }

  lemma BeginsAttempt(check: Check, w: World, id: string, choice: Choice)
    requires At(w, id, Beginning) && CanActivate(w, id) && w.db.operations[id].updatedAt <= w.clock
    requires 0 <= w.db.operations[id].attempts
    requires w.db.operations[id].phase.Activating? ==> 1 <= w.db.operations[id].attempts <= MAX_ATTEMPTS
    requires w.db.operations[id].phase.Committed? || w.db.operations[id].phase.Activating?
      || w.db.operations[id].phase.Partial?
    ensures var next := Advance(check, w, choice);
      && id in next.db.operations && next.disk == w.disk && next.clock == w.clock
      && next.process == Running(id, Checking(next.db.operations[id].attempts))
      && next.db.operations[id].phase.Activating? && next.db.operations[id].updatedAt <= w.clock
      && 1 <= next.db.operations[id].attempts <= MAX_ATTEMPTS
      && next.db.operations[id].attempts == LastAttempt(w.db.operations[id])
  {
  }

  lemma BeginningPhase(check: Check, w: World, id: string)
    requires Inv(check, w) && At(w, id, Beginning)
    ensures w.db.operations[id].phase.Committed? || w.db.operations[id].phase.Activating?
      || w.db.operations[id].phase.Partial?
  {
    hide FileInv, KeysOk;
  }

  lemma ChecksAndActivates(check: Check, w: World, id: string, attempt: int, choice: Choice)
    requires Inv(check, w) && At(w, id, Checking(attempt)) && Smooth(choice) && Clear(w.disk)
    ensures Drive(check, w, choice, 3) == w.(process := Running(id, Ending(attempt, choice.outcome)))
  {
    hide Inv, AttestWritten;
    SessionsAgree(check, w);
    var activating := w.(process := Running(id, Activation(attempt)));
    assert Advance(check, w, choice) == activating;
    AdvanceKeeps(check, w, choice);
    AdvanceKeeps(check, activating, choice);
    var rechecking := w.(process := Running(id, Rechecking(attempt, choice.outcome)));
    assert Advance(check, activating, choice) == rechecking;
    SessionsAgree(check, rechecking);
    assert Advance(check, rechecking, choice) == w.(process := Running(id, Ending(attempt, choice.outcome)));
    assert Drive(check, w, choice, 3) == Drive(check, activating, choice, 2) == Drive(check, rechecking, choice, 1)
        == Drive(check, w.(process := Running(id, Ending(attempt, choice.outcome))), choice, 0);
  }

  lemma Concludes(check: Check, w: World, id: string, outcome: Outcome, choice: Choice)
    requires Sound(check, w) && id in w.db.operations && w.db.operations[id].phase.Activating? && ValidTime(w.clock)
    requires w.process == Running(id, Ending(w.db.operations[id].attempts, outcome))
    ensures Concluded(Advance(check, w, choice), id, outcome, w.db.operations[id].attempts)
  {
    hide Inv, JournalOk;
    WrittenRow(w, id);
  }

  lemma ActivatesFromBeginning(check: Check, w: World, id: string, choice: Choice)
    requires Sound(check, w) && At(w, id, Beginning) && Smooth(choice) && Clear(w.disk) && CanActivate(w, id)
    ensures Concluded(Drive(check, w, choice, 5), id, choice.outcome, LastAttempt(w.db.operations[id]))
  {
    hide Inv, JournalOk, Advance;
    BeginningPhase(check, w, id);
    WrittenRow(w, id);
    BeginsAttempt(check, w, id, choice);
    var checking := Advance(check, w, choice);
    AdvanceKeepsSound(check, w, choice);
    ChecksAndActivates(check, checking, id, checking.db.operations[id].attempts, choice);
    DriveKeepsSound(check, checking, choice, 3);
    var ending := Drive(check, checking, choice, 3);
    Concludes(check, ending, id, choice.outcome, choice);
    DriveOn(check, checking, choice, 3, 1);
    assert Drive(check, ending, choice, 1) == Drive(check, Advance(check, ending, choice), choice, 0);
    assert Drive(check, w, choice, 5) == Drive(check, checking, choice, 4);
  }

  /**
   What the journal must allow: the commit of a prepared operation, with its consent when it is automatic and not
   published yet, or another activation of a written one.
   */
  predicate MayComplete(w: World, id: string) {
    && id in w.db.operations
    && var op := w.db.operations[id];
    && if op.phase.Prepared? then
         && !op.action.Rollback? && MayCommit(w.db, op, w.clock)
         && (op.action.AutomaticAdd? && w.disk.content == op.expectedSource.text ==> ConsentIsCurrent(w.db, op.consent))
       else (op.phase.Committed? || op.phase.Activating? || op.phase.Partial?) && CanActivate(w, id)
  }

  /** The last check before the write adds nothing else: no other operation waits for reconciliation. */
  lemma IsAuthorized(check: Check, w: World, id: string)
    requires Inv(check, w) && id in w.db.operations && w.db.operations[id].phase.Prepared?
    requires w.db.operations[id].action.AutomaticAdd?
    requires !ReplacesManual(w.db.ownership, w.db.operations[id].delta.upserts)
    ensures AssertAuthorized(w.db, id).Ok? <==> ConsentIsCurrent(w.db, w.db.operations[id].consent)
  {
    hide ReplacesManual, KeysOk, ProcessOk, RowFits, WritesOf;
    assert forall other :: other in w.db.operations && Open(w.db.operations[other]) ==> other == id;
  }

  lemma CompletesFromFinalizing(check: Check, w: World, id: string, choice: Choice)
    requires Sound(check, w) && Smooth(choice) && Clear(w.disk) && id in w.db.operations
    requires w.process == Running(id,
        Finalizing(RevisionOf(w.db.operations[id].intended.text), w.db.operations[id].intended))
    requires MayCommit(w.db, w.db.operations[id], w.clock)
    ensures Concluded(Drive(check, w, choice, 6), id, choice.outcome, w.db.operations[id].attempts + 1)
  {
    hide Inv, JournalOk, Advance, CommitAuthorized, ReplacesManual;
    Finalizes(check, w, id, choice);
    var beginning := Advance(check, w, choice);
    AdvanceKeepsSound(check, w, choice);
    WrittenRow(beginning, id);
    ActivatesFromBeginning(check, beginning, id, choice);
    assert Drive(check, w, choice, 6) == Drive(check, beginning, choice, 5);
  }

  /**
   One undisturbed execution completes an open operation, whatever crash or failure came before: `steps` steps end
   idle with the operation completed, its content published once, and file and ownership in agreement.
   */
  lemma RecoveryCompletes(check: Check, w: World, id: string, choice: Choice) returns (steps: nat)
    requires Sound(check, w) && At(w, id, Starting) && Undisturbed(choice) && Clear(w.disk) && MayComplete(w, id)
    ensures steps <= 13
    ensures var next := Drive(check, w, choice, steps);
      && next.process.Idle? && id in next.db.operations && next.db.operations[id].phase.Completed?
      && Count(next.writes, id) == 1 && Managed(check, next.disk.content) == next.db.ownership.Keys
  {
    hide Inv, JournalOk, Drive, MayComplete, Count, NoneOpen;
    OpenAtStart(w, id);
    steps := CompletesFromStart(check, w, id, choice);
    var next := Drive(check, w, choice, steps);
    DriveKeeps(check, w, choice, steps);
    NoneOpenAfter(check, w, choice, steps, id);
    CompletedIsPublished(check, next, id);
    SettledAgrees(check, next);
  }

  lemma OpenAtStart(w: World, id: string)
    requires MayComplete(w, id)
    ensures Open(w.db.operations[id])
  {
    hide MayCommit, CanActivate;
  }

  lemma CompletesFromStart(check: Check, w: World, id: string, choice: Choice) returns (steps: nat)
    requires Sound(check, w) && At(w, id, Starting) && Smooth(choice) && Clear(w.disk) && MayComplete(w, id)
    requires w.db.operations[id].phase.Prepared? && w.disk.content == w.db.operations[id].expectedSource.text ==>
      !choice.veto
    ensures steps <= 13
    ensures Concluded(Drive(check, w, choice, steps), id, choice.outcome, LastAttempt(w.db.operations[id]))
  {
    hide Inv, JournalOk, Advance, MayCommit, CanActivate, ConsentIsCurrent;
    AdvanceKeepsSound(check, w, choice);
    if !w.db.operations[id].phase.Prepared? {
      steps := 6;
      StartsBeginning(check, w, id, choice);
      var beginning := w.(process := Running(id, Beginning));
      SameActivation(w, beginning, id);
      ActivatesFromBeginning(check, beginning, id, choice);
      assert Drive(check, w, choice, 6) == Drive(check, beginning, choice, 5);
    } else {
      StartsAttesting(check, w, id, choice);
      var attesting := w.(process := Running(id, Attesting));
      var rest := CompletesFromAttesting(check, attesting, id, choice);
      steps := rest + 1;
      assert Drive(check, w, choice, steps) == Drive(check, attesting, choice, rest);
    }
  }

  lemma StartsBeginning(check: Check, w: World, id: string, choice: Choice)
    requires At(w, id, Starting) && Smooth(choice)
    requires w.db.operations[id].phase.Committed? || w.db.operations[id].phase.Activating?
      || w.db.operations[id].phase.Partial?
    ensures Advance(check, w, choice) == w.(process := Running(id, Beginning))
  {
  }

  lemma SameActivation(w: World, next: World, id: string)
    requires CanActivate(w, id) && next.db == w.db && next.clock == w.clock
    ensures CanActivate(next, id)
  {
  }

  lemma CompletesFromAttesting(check: Check, w: World, id: string, choice: Choice) returns (steps: nat)
    requires Sound(check, w) && At(w, id, Attesting) && Smooth(choice) && Clear(w.disk)
    requires w.db.operations[id].phase.Prepared?
    requires MayComplete(w, id) && (w.disk.content == w.db.operations[id].expectedSource.text ==> !choice.veto)
    ensures steps <= 12
    ensures Concluded(Drive(check, w, choice, steps), id, choice.outcome, LastAttempt(w.db.operations[id]))
  {
    hide Inv, JournalOk, Advance, CommitAuthorized, ReplacesManual, CanActivate, AssertAuthorized, ConsentIsCurrent;
    var op := w.db.operations[id];
    FileIsAtSourceOrIntent(check, w, id);
    if w.disk.content == op.expectedSource.text {
      steps := 12;
      if op.action.AutomaticAdd? {
        IsAuthorized(check, w, id);
      }
      WritesFromSource(check, w, id, choice);
      DriveKeepsSound(check, w, choice, 6);
      var finalizing := Drive(check, w, choice, 6);
      CompletesFromFinalizing(check, finalizing, id, choice);
      DriveOn(check, w, choice, 6, 6);
    } else {
      steps := 7;
      RetryIsFinalizing(check, w, id, choice);
      AdvanceKeepsSound(check, w, choice);
      var finalizing := Advance(check, w, choice);
      CompletesFromFinalizing(check, finalizing, id, choice);
      assert Drive(check, w, choice, 7) == Drive(check, finalizing, choice, 6);
    }
  }

  lemma FileIsAtSourceOrIntent(check: Check, w: World, id: string)
    requires Inv(check, w) && At(w, id, Attesting)
    ensures w.disk.content == w.db.operations[id].expectedSource.text
      || w.disk.content == w.db.operations[id].intended.text
  {
    hide IntentOk;
    RowAt(check, w, id);
  }

  lemma RetryIsFinalizing(check: Check, w: World, id: string, choice: Choice)
    requires Inv(check, w) && At(w, id, Attesting) && Smooth(choice) && Clear(w.disk)
    requires w.disk.content == w.db.operations[id].intended.text
    ensures Advance(check, w, choice) ==
      w.(process := Running(id,
          Finalizing(RevisionOf(w.db.operations[id].intended.text), w.db.operations[id].intended)))
  {
    hide Advance, FileInv, KeysOk;
    RetryFindsItsContent(check, w, choice);
  }

  lemma CompletedIsPublished(check: Check, w: World, id: string)
    requires Inv(check, w) && id in w.db.operations && w.db.operations[id].phase.Completed?
    ensures Count(w.writes, id) == 1
  {
    hide Count, OpFile;
    WritesAt(check, w, id);
    RowAt(check, w, id);
  }

  lemma SettledAgrees(check: Check, w: World)
    requires Inv(check, w) && NoneOpen(w.db.operations)
    ensures Managed(check, w.disk.content) == w.db.ownership.Keys
  {
    hide NoneOpen, KeysOk, ProcessOk, RowFits, WritesOf;
  }

  // ---------- Other operations ----------

  predicate SameRow(before: map<string, Operation>, after: map<string, Operation>, other: string) {
    (other in before <==> other in after) && (other in before ==> after[other] == before[other])
  }

  lemma MarkTouchesOneRow(db: Db, id: string, other: string, now: int)
    requires other != id
    ensures SameRow(db.operations, AfterOr(db, Mark(db, id, now)).operations, other)
  {
    hide Marked;
  }

  lemma AbortTouchesOneRow(db: Db, id: string, other: string, source: Revision, intended: Digest, now: int)
    requires other != id
    ensures SameRow(db.operations, AfterOr(db, Abort(db, id, source, intended, now)).operations, other)
  {
    hide AbortedOperation, ReservationPresent, ReleaseSlot;
  }

  lemma ActivationTouchesOneRow(db: Db, id: string, other: string, attempt: int, outcome: Outcome, now: int)
    requires other != id
    ensures Begin(db, id, now).Ok? ==> SameRow(db.operations, Begin(db, id, now).value.db.operations, other)
    ensures SameRow(db.operations, AfterOr(db, Complete(db, id, attempt, outcome, now)).operations, other)
  {
    hide Begun, Ended;
  }

  lemma FinalizeTouchesOneRow(db: Db, id: string, other: string, revision: Revision, digest: Digest, now: int)
    requires other != id && KeysOk(db) && Finalize(db, id, revision, digest, now).Ok?
    ensures SameRow(db.operations, Finalize(db, id, revision, digest, now).value.db.operations, other)
  {
    hide ReplacesManual, CommitAuthorized, ReservationPresent, CandidatesAfter, DecisionsAfter, OwnershipAfter,
      ConsumeSlot, Written, Indexed;
  }

  lemma AdvanceTouchesOneRow(check: Check, w: World, choice: Choice, other: string)
    requires Inv(check, w) && w.process.Running? && w.process.id != other
    ensures SameRow(w.db.operations, Advance(check, w, choice).db.operations, other)
    ensures var next := Advance(check, w, choice).process; next.Running? ==> next.id == w.process.id
  {
    hide FileInv, KeysOk, Mark, Abort, Finalize, Begin, Complete, AssertAuthorized, Session, Attest, AttestWritten,
      Commit, ReadFile, SameRow, AfterOr;
    var id, stage := w.process.id, w.process.stage;
    Unchanged(w.db.operations, other);
    MarkTouchesOneRow(w.db, id, other, w.clock);
    match stage
    case Aborting => AbortTouchesOneRow(w.db, id, other, w.db.operations[id].expectedSource,
        w.db.operations[id].intended, w.clock);
    case Finalizing(revision, digest) =>
      if Finalize(w.db, id, revision, digest, w.clock).Ok? {
        FinalizeTouchesOneRow(w.db, id, other, revision, digest, w.clock);
      }
    case Beginning => ActivationTouchesOneRow(w.db, id, other, 0, Succeeds, w.clock);
    case Ending(attempt, outcome) => ActivationTouchesOneRow(w.db, id, other, attempt, outcome, w.clock);
    case _ =>
  }

  lemma Unchanged(operations: map<string, Operation>, other: string)
    ensures SameRow(operations, operations, other)
  {
  }

  lemma {:induction false} DriveTouchesOneRow(check: Check, w: World, choice: Choice, steps: nat, id: string,
      other: string)
    requires Inv(check, w) && id != other && (w.process.Running? ==> w.process.id == id)
    ensures SameRow(w.db.operations, Drive(check, w, choice, steps).db.operations, other)
    decreases steps
  {
    hide Inv, Advance;
    if steps > 0 {
      AdvanceKeeps(check, w, choice);
      if w.process.Running? {
        AdvanceTouchesOneRow(check, w, choice, other);
      } else {
        IdleStays(check, w, choice);
      }
      DriveTouchesOneRow(check, Advance(check, w, choice), choice, steps - 1, id, other);
    }
  }

  lemma IdleStays(check: Check, w: World, choice: Choice)
    requires !w.process.Running?
    ensures Advance(check, w, choice) == w
  {
  }

  /** When the one open operation is completed, none is open. */
  lemma NoneOpenAfter(check: Check, w: World, choice: Choice, steps: nat, id: string)
    requires Inv(check, w) && w.process.Running? && w.process.id == id && id in w.db.operations
    requires Open(w.db.operations[id])
    requires id in Drive(check, w, choice, steps).db.operations
    requires !Open(Drive(check, w, choice, steps).db.operations[id])
    ensures NoneOpen(Drive(check, w, choice, steps).db.operations)
  {
    hide Drive, RowFits, KeysOk, ProcessOk, WritesOf;
    var after := Drive(check, w, choice, steps).db.operations;
    forall other | other in after ensures !Open(after[other]) {
      if other != id {
        DriveTouchesOneRow(check, w, choice, steps, id, other);
      }
    }
  }
}
