/**
 What a veto or a failing call does to an execution: nothing is published by it any more, whatever happens next, and the
 row is marked, or its attempt recorded as failed, exactly when it has to be.
 */
module ApplyFailures {
  import opened Wrappers
  import RuleText
  import opened Journal
  import opened JournalTheorems
  import opened JournalGuards
  import opened ApplyProtocol
  import opened ApplySafety
  import opened ApplyJournal
  import opened ApplyRecovery
  import opened ApplyOutcome

  // ---------- Nothing is published any more ----------

  /** The store session cannot read the file. */
  predicate CannotRead(disk: Disk, faults: Faults) {
    disk.locked || faults.lock || disk.temporary.Some? || faults.read
  }

  /** Before its write, the running execution is not allowed, vetoed, or one of its file operations fails. */
  predicate IsStopped(w: World, choice: Choice) {
    && w.process.Running? && w.process.id in w.db.operations
    && match w.process.stage
       case Starting => !choice.allowed
       case Attesting => CannotRead(w.disk, choice.faults) || !choice.faults.release.Released?
       case Preflighting => IsVetoed(w, w.db.operations[w.process.id], choice)
       case Committing => CannotRead(w.disk, choice.faults)
       case Writing(_) => choice.failed
       case Renaming(_) => choice.failed
       case _ => false
  }

  /** Until another execution starts, no rename can follow. */
  predicate PastWriting(process: Process) {
    process.Running? ==>
      !process.stage.Starting? && !process.stage.Attesting? && !process.stage.Preflighting? && !process.stage.Committing?
      && !process.stage.Writing? && !process.stage.Renaming?
  }

  predicate NoNewExecution(events: seq<ProtocolEvent>) {
    forall k :: 0 <= k < |events| ==> !events[k].Execute?
  }

  lemma StoppedSession(check: Check, w: World, choice: Choice)
    requires IsStopped(w, choice) && (w.process.stage.Attesting? || w.process.stage.Committing?)
    ensures !Advance(check, w, choice).process.Running? && SameFile(w, Advance(check, w, choice))
  {
    hide Attest, Commit, Mark;
  }

  lemma StoppedIsPast(check: Check, w: World, choice: Choice)
    requires Inv(check, w) && IsStopped(w, choice)
    ensures PastWriting(Advance(check, w, choice).process) && SameFile(w, Advance(check, w, choice))
  {
    hide Inv, AttestStep, CommitStep, IsVetoed, Preflight, CannotRead;
    if w.process.stage.Attesting? || w.process.stage.Committing? {
      StoppedSession(check, w, choice);
    } else if w.process.stage.Preflighting? {
      PreflightVetoes(check, w, w.process.id, choice);
    }
  }

  lemma SessionsStayPast(check: Check, w: World, choice: Choice)
    requires w.process.Running?
    requires w.process.stage.Vetoed? || w.process.stage.Renamed? || w.process.stage.Checking? || w.process.stage.Rechecking?
    ensures PastWriting(Advance(check, w, choice).process)
  {
    hide Session, Attest, AttestWritten, ReadFile, Mark;
  }

  lemma TransactionsStayPast(check: Check, w: World, choice: Choice)
    requires w.process.Running?
    requires w.process.stage.Aborting? || w.process.stage.Finalizing? || w.process.stage.Beginning? || w.process.stage.Activation?
      || w.process.stage.Ending?
    ensures PastWriting(Advance(check, w, choice).process)
  {
    hide Finalize, Begin, Complete, Abort;
  }

  lemma AdvanceStaysPast(check: Check, w: World, choice: Choice)
    requires w.process.Running? && PastWriting(w.process)
    ensures PastWriting(Advance(check, w, choice).process) && SameFile(w, Advance(check, w, choice))
  {
    hide Start, AttestStep, Preflight, VetoStep, AbortStep, CommitStep, WriteStep, PublishStep, FinalizeStep, BeginStep,
      CheckStep, EndStep;
    var stage := w.process.stage;
    if stage.Vetoed? || stage.Renamed? || stage.Checking? || stage.Rechecking? {
      SessionsStayPast(check, w, choice);
    } else {
      TransactionsStayPast(check, w, choice);
    }
  }

  lemma PastStaysPast(check: Check, w: World, event: ProtocolEvent)
    requires Indexed(w.db) && PastWriting(w.process) && !event.Execute?
    ensures PastWriting(Step(check, w, event).process) && SameFile(w, Step(check, w, event))
  {
    hide Advance, SubmitStep, NoneOpen, PastWriting;
    RestIsPast(w);
    if event.Proceed? {
      if w.process.Running? {
        AdvanceStaysPast(check, w, event.choice);
      } else {
        IdleStays(check, w, event.choice);
      }
    }
    if event.Submit? {
      SubmitLeavesProcess(check, w, event.text, event.input, event.faults);
    }
  }

  lemma RestIsPast(w: World)
    ensures PastWriting(Down) && PastWriting(Idle)
  {
  }

  lemma SubmitLeavesProcess(check: Check, w: World, text: Text, input: PrepareInput, faults: Faults)
    requires Indexed(w.db)
    ensures SubmitStep(check, w, text, input, faults).process == w.process
  {
    hide Session, Intent, Prepare;
  }

  lemma {:induction false} RunStaysPast(check: Check, w: World, events: seq<ProtocolEvent>)
    requires Inv(check, w) && PastWriting(w.process) && NoNewExecution(events)
    ensures SameFile(w, ProtocolRun(check, w, events))
    decreases |events|
  {
    hide Inv, Step, PastWriting;
    if events != [] {
      StepKeeps(check, w, events[0]);
      PastStaysPast(check, w, events[0]);
      forall k | 0 <= k < |events[1..]| ensures !events[1..][k].Execute? {
        assert !events[k + 1].Execute?;
      }
      RunStaysPast(check, Step(check, w, events[0]), events[1..]);
    }
  }

  /**
   An execution that is vetoed before its write, or stopped there by a failure, publishes nothing: after the veto the
   file and the counts of publications stay as they are in every run, until another execution starts.
   */
  lemma StoppedPublishesNothing(check: Check, w: World, choice: Choice, events: seq<ProtocolEvent>)
    requires Inv(check, w) && IsStopped(w, choice) && NoNewExecution(events)
    ensures Indexed(w.db) && Inv(check, Step(check, w, Proceed(choice)))
    ensures SameFile(w, ProtocolRun(check, Step(check, w, Proceed(choice)), events))
  {
    hide Inv, Advance, IsStopped, PastWriting, NoNewExecution;
    StepKeeps(check, w, Proceed(choice));
    StoppedIsPast(check, w, choice);
    RunStaysPast(check, Step(check, w, Proceed(choice)), events);
  }

  // ---------- When an operation is marked for reconciliation ----------

  /** The session meets a temporary file that was left behind, or finds its lock gone when it releases it. */
  predicate FindsLeftover(w: World, choice: Choice)
    requires w.process.Running?
  {
    var faults := choice.faults;
    match w.process.stage
    case Renamed => !choice.failed && !faults.release.Released?
    case Committing => !w.disk.locked && !faults.lock && w.disk.temporary.Some?
    case _ => !w.disk.locked && !faults.lock && (w.disk.temporary.Some? || (!faults.read && !faults.release.Released?))
  }

  predicate InStoreSession(stage: Stage) {
    stage.Attesting? || stage.Vetoed? || stage.Committing? || stage.Renamed? || stage.Checking? || stage.Rechecking?
  }

  lemma RunningRow(check: Check, w: World)
    requires Sound(check, w) && w.process.Running?
    ensures w.process.id in w.db.operations && w.db.operations[w.process.id].updatedAt <= w.clock
    ensures InStoreSession(w.process.stage) ==> w.db.operations[w.process.id].phase in {Prepared, Activating}
  {
    hide KeysOk, FileInv, SoleUnfinished, BudgetsAgree, Checks, ActionIntent;
    assert RowOk(w.db.operations[w.process.id], w.clock);
  }

  lemma FailSessionMarksIff(w: World, id: string, error: RuleText.StoreError)
    requires id in w.db.operations && w.db.operations[id].phase in {Prepared, Activating} && w.db.operations[id].updatedAt <= w.clock
    ensures var next := FailSession(w, id, error);
      && id in next.db.operations && next.process.Idle?
      && (next.db.operations[id].phase == ReconciliationRequired <==>
          error.ReconciliationRequired? && ValidTime(w.clock))
  {
  }

  /** Which sessions with an acceptable body fail for reconciliation. */
  lemma SessionFailsIff<T>(disk: Disk, faults: Faults, body: Result<T, RuleText.StoreError>)
    requires body.Ok?
    ensures Session(disk, faults, body) == Err(RuleText.ReconciliationRequired) <==>
      !disk.locked && !faults.lock && (disk.temporary.Some? || (!faults.read && !faults.release.Released?))
    ensures Session(disk, faults, body).Ok? ==> Session(disk, faults, body) == body
  {
  }

  lemma AttestMarksIff(check: Check, w: World, choice: Choice)
    requires Sound(check, w) && w.process.Running? && (w.process.stage.Attesting? || w.process.stage.Vetoed?)
    ensures Marks(check, w, choice) <==> FindsLeftover(w, choice) && ValidTime(w.clock)
  {
    hide Inv, JournalOk, Attest, FailSession, Session;
    RunningRow(check, w);
    SessionsAgree(check, w);
    var body := Attest(check, w.disk, w.db.operations[w.process.id]);
    SessionFailsIff(w.disk, choice.faults, body);
    var attested := Session(w.disk, choice.faults, body);
    if attested.Err? {
      FailSessionMarksIff(w.(disk := DiskAfter(w.disk, choice.faults)), w.process.id, attested.error);
    }
  }

  lemma CommitMarksIff(check: Check, w: World, choice: Choice)
    requires Sound(check, w) && w.process.Running? && w.process.stage.Committing?
    ensures Marks(check, w, choice) <==> FindsLeftover(w, choice) && ValidTime(w.clock)
  {
    hide Inv, JournalOk, Commit, FailSession, Session;
    RunningRow(check, w);
    SessionsAgree(check, w);
    var body := Commit(check, w.disk, w.db.operations[w.process.id]);
    SessionFailsIff(w.disk, choice.faults.(release := Released), body);
    var begun := Session(w.disk, choice.faults.(release := Released), body);
    if begun.Err? {
      FailSessionMarksIff(w.(disk := DiskAfter(w.disk, choice.faults)), w.process.id, begun.error);
    }
  }

  lemma CheckMarksIff(check: Check, w: World, choice: Choice)
    requires Sound(check, w) && w.process.Running? && (w.process.stage.Checking? || w.process.stage.Rechecking?)
    ensures Marks(check, w, choice) <==> FindsLeftover(w, choice) && ValidTime(w.clock)
  {
    hide Inv, JournalOk, AttestWritten, FailSession, Session, Start, AttestStep, Preflight, VetoStep, AbortStep,
      CommitStep, WriteStep, RenameStep, PublishStep, FinalizeStep, BeginStep, EndStep;
    RunningRow(check, w);
    SessionsAgree(check, w);
    var body := AttestWritten(check, w.disk, w.db.operations[w.process.id]);
    SessionFailsIff(w.disk, choice.faults, body);
    var attested := Session(w.disk, choice.faults, body);
    if attested.Err? {
      FailSessionMarksIff(w.(disk := DiskAfter(w.disk, choice.faults)), w.process.id, attested.error);
    }
  }

  lemma PublishMarksIff(check: Check, w: World, choice: Choice)
    requires Sound(check, w) && w.process.Running? && w.process.stage.Renamed?
    ensures Marks(check, w, choice) <==> FindsLeftover(w, choice) && ValidTime(w.clock)
  {
    hide Inv, JournalOk, FailSession, ReadFile;
    RunningRow(check, w);
    PublishedFile(check, w);
    FailSessionMarksIff(w.(disk := Unlock(w.disk, choice.faults)), w.process.id, RuleText.ReconciliationRequired);
  }

  /** The published file reads back as the intended content. */
  lemma PublishedFile(check: Check, w: World)
    requires Inv(check, w) && w.process.Running? && w.process.stage.Renamed?
    ensures w.process.id in w.db.operations && ReadFile(check, w.disk).Ok?
    ensures Sha256(w.disk.content) == w.db.operations[w.process.id].intended
  {
    hide KeysOk, FileInv, RuleText.ValidateComplete, IntentOk;
    RowAt(check, w, w.process.id);
    IntentIsValidFile(check, w.db.operations[w.process.id]);
  }

  /** An execution marks its operation exactly when one of its sessions finds a leftover or loses its lock. */
  lemma MarksIff(check: Check, w: World, choice: Choice)
    requires Sound(check, w) && w.process.Running? && InStoreSession(w.process.stage)
    ensures Marks(check, w, choice) <==> FindsLeftover(w, choice) && ValidTime(w.clock)
  {
    hide Sound, Marks, FindsLeftover;
    match w.process.stage
    case Attesting => AttestMarksIff(check, w, choice);
    case Vetoed => AttestMarksIff(check, w, choice);
    case Committing => CommitMarksIff(check, w, choice);
    case Renamed => PublishMarksIff(check, w, choice);
    case Checking(_) => CheckMarksIff(check, w, choice);
    case Rechecking(_, _) => CheckMarksIff(check, w, choice);
  }

  // ---------- When an attempt is recorded as failed ----------

  /** The attestation of the written file fails, or the execution is interrupted behind it, without a leftover. */
  predicate FailsAttempt(w: World, choice: Choice)
    requires w.process.Running?
  {
    !FindsLeftover(w, choice) && (CannotRead(w.disk, choice.faults) || choice.aborted)
  }

  lemma SessionReads(disk: Disk, faults: Faults, body: Result<bool, RuleText.StoreError>)
    requires body.Ok?
    ensures Session(disk, faults, body).Err? <==> CannotRead(disk, faults) || !faults.release.Released?
    ensures Session(disk, faults, body) == Err(RuleText.ReconciliationRequired) <==>
      !disk.locked && !faults.lock && (disk.temporary.Some? || (!faults.read && !faults.release.Released?))
  {
  }

  predicate IsCheck(stage: Stage, attempt: int) {
    (stage.Checking? || stage.Rechecking?) && stage.attempt == attempt
  }

  predicate ChecksAttempt(w: World, id: string, attempt: int) {
    w.process.Running? && w.process.id == id && id in w.db.operations && IsCheck(w.process.stage, attempt)
  }

  function FailureOf(choice: Choice): Outcome {
    Fails(if choice.aborted then Shutdown else MaterializationFailure)
  }

  lemma CheckFails(check: Check, w: World, choice: Choice, id: string, attempt: int)
    requires Inv(check, w) && ChecksAttempt(w, id, attempt) && FailsAttempt(w, choice)
    ensures var next := Advance(check, w, choice);
      next.process == Running(id, Ending(attempt, FailureOf(choice))) && next.db == w.db && next.clock == w.clock
  {
    hide Inv, AttestWritten, Session, CannotRead;
    SessionsAgree(check, w);
    SessionReads(w.disk, choice.faults, AttestWritten(check, w.disk, w.db.operations[id]));
  }

  /** What the attempt comes to when the written file cannot be attested: partial, with the reason, whatever the activation said. */
  lemma FailedCheckEndsPartial(check: Check, w: World, choice: Choice, other: Choice, id: string, attempt: int)
    requires Sound(check, w) && ChecksAttempt(w, id, attempt) && FailsAttempt(w, choice) && ValidTime(w.clock)
    ensures Concluded(Advance(check, Advance(check, w, choice), other), id, FailureOf(choice), attempt)
  {
    hide Inv, JournalOk, FailsAttempt, Advance;
    CheckFails(check, w, choice, id, attempt);
    CheckedRow(check, w, id, attempt);
    AdvanceKeepsSound(check, w, choice);
    Concludes(check, Advance(check, w, choice), id, FailureOf(choice), other);
  }

  lemma CheckedRow(check: Check, w: World, id: string, attempt: int)
    requires Inv(check, w) && ChecksAttempt(w, id, attempt)
    ensures w.db.operations[id].phase.Activating? && w.db.operations[id].attempts == attempt
  {
    hide KeysOk, FileInv;
  }
}
