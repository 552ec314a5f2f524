/**
 The executor of one operation as it advances the journal rows and the rule file step by step. Its history shows
 that every execution is a run of the protocol, so all safety results hold of it, and that an execution in which no
 call fails ends, and returns, as the table of cases in `ApplyOutcome` says.
 */
module ApplyExecutor {
  import opened Wrappers
  import RuleText
  import opened Journal
  import opened JournalTheorems
  import opened ApplyProtocol
  import opened ApplySafety
  import opened ApplyJournal
  import opened ApplyRecovery
  import opened ApplyOutcome
  import opened JournalGuards

  datatype ExecutionError =
    | Interrupted
    | OperationNotFound
    | NeedsReconciling
    | NotAllowed
    | RollbackUnavailable
    | StoreFailed(error: RuleText.StoreError)
    | PreflightFailed
    | AbortFailed
    | JournalFailed

  /**
   What the dependencies of one execution do: one choice for each call, whose `aborted` tells whether the abort signal
   is set once the call has returned; `cancelled` tells whether it is set from the start.
   */
  datatype Dependencies = Dependencies(
    cancelled: bool, allowed: Choice, attest: Choice, preflight: Choice, vetoAttest: Choice, commit: Choice,
    temporary: Choice, rename: Choice, publish: Choice, check: Choice, activate: Choice, recheck: Choice)

  /** No call fails or is interrupted. Whether the operation is vetoed, and how the activation ends, is open. */
  predicate Calm(with: Dependencies) {
    && !with.cancelled && Smooth(with.allowed) && Smooth(with.attest) && Smooth(with.preflight) && Smooth(with.vetoAttest)
    && Smooth(with.commit) && Smooth(with.temporary) && Smooth(with.rename) && Smooth(with.publish)
    && Smooth(with.check) && Smooth(with.activate) && Smooth(with.recheck)
  }

  /** What the deployment answers in calm dependencies, as one choice for all calls. */
  function Answers(with: Dependencies): Choice {
    with.allowed.(veto := with.preflight.veto, outcome := with.activate.outcome)
  }

  /** The choice of one call, as far as its stage looks at it. */
  predicate Suits(stage: Stage, choice: Choice, with: Dependencies) {
    && Smooth(choice)
    && (stage.Preflighting? ==> choice.veto == with.preflight.veto)
    && (stage.Activation? ==> choice.outcome == with.activate.outcome)
  }

  lemma SuitedAlike(check: Check, w: World, choice: Choice, with: Dependencies)
    requires w.process.Running? ==> Suits(w.process.stage, choice, with)
    requires Smooth(with.allowed)
    ensures Advance(check, w, choice) == Advance(check, w, Answers(with))
  {
    hide Session, Attest, AttestWritten, Commit, ReadFile, FailSession, AssertAuthorized;
    assert w.process.Running? ==> choice.faults == with.allowed.faults;
  }

  /** `next` is where the execution from `start` stands after `steps` steps, if the dependencies are calm. */
  predicate Drives(check: Check, with: Dependencies, start: World, steps: nat, next: World) {
    Calm(with) ==> next == Drive(check, start, Answers(with), steps)
  }

  lemma DrivesNone(check: Check, with: Dependencies, start: World)
    ensures Drives(check, with, start, 0, start)
  {
  }

  lemma DrivesOneMore(check: Check, with: Dependencies, start: World, steps: nat, now: World, choice: Choice)
    requires Drives(check, with, start, steps, now)
    requires Calm(with) && now.process.Running? ==> Suits(now.process.stage, choice, with)
    ensures Drives(check, with, start, steps + 1, Advance(check, now, choice))
  {
    hide Advance, Suits, Smooth;
    if Calm(with) {
      SuitedAlike(check, now, choice, with);
      DriveOn(check, start, Answers(with), steps, 1);
      assert Drive(check, now, Answers(with), 1) == Drive(check, Advance(check, now, Answers(with)), Answers(with), 0);
    }
  }

  lemma NotCalm(with: Dependencies, choice: Choice)
    requires choice.aborted
    requires choice in {with.allowed, with.attest, with.preflight, with.commit}
    ensures !Calm(with)
  {
  }

  lemma CalmIsNotCancelled(with: Dependencies)
    ensures with.cancelled ==> !Calm(with)
  {
  }

  lemma DrivesOn(check: Check, with: Dependencies, start: World, first: nat, middle: World, second: nat, end: World)
    requires Drives(check, with, start, first, middle) && Drives(check, with, middle, second, end)
    ensures Drives(check, with, start, first + second, end)
  {
    hide Calm;
    DriveOn(check, start, Answers(with), first, second);
  }

  // ---------- Rows without a result ----------

  /** The row stays, or goes to a phase that is no result. */
  predicate RowMoves(w: World, next: World, id: string) {
    id in next.db.operations ==>
      (id in w.db.operations && next.db.operations[id] == w.db.operations[id])
      || next.db.operations[id].phase in {Committed, Activating, ReconciliationRequired}
  }

  /** The row shows no result that it did not show at the start. */
  predicate Pending(start: World, now: World, id: string) {
    id in now.db.operations ==>
      && !now.db.operations[id].phase.Completed? && !now.db.operations[id].phase.Aborted?
      && (now.db.operations[id].phase.Partial? ==>
            id in start.db.operations && start.db.operations[id] == now.db.operations[id])
  }

  lemma FailureMoves(w: World, id: string, error: RuleText.StoreError)
    ensures RowMoves(w, FailSession(w, id, error), id)
  {
  }

  lemma SessionMoves(check: Check, w: World, choice: Choice)
    requires w.process.Running?
    requires w.process.stage.Attesting? || w.process.stage.Vetoed? || w.process.stage.Committing? || w.process.stage.Renamed?
      || w.process.stage.Checking? || w.process.stage.Rechecking?
    ensures RowMoves(w, Advance(check, w, choice), w.process.id)
  {
    hide Session, Attest, AttestWritten, Commit, ReadFile, FailSession;
    var read := w.(disk := DiskAfter(w.disk, choice.faults));
    forall error: RuleText.StoreError ensures RowMoves(w, FailSession(read, w.process.id, error), w.process.id) {
      FailureMoves(read, w.process.id, error);
    }
    FailureMoves(w.(disk := Unlock(w.disk, choice.faults)), w.process.id, RuleText.ReconciliationRequired);
  }

  lemma CommitMoves(check: Check, w: World, choice: Choice)
    requires Inv(check, w) && w.process.Running? && w.process.stage.Finalizing?
    ensures RowMoves(w, Advance(check, w, choice), w.process.id)
  {
    hide KeysOk, FileInv, Finalize, Written;
    if Finalize(w.db, w.process.id, w.process.stage.revision, w.process.stage.digest, w.clock).Ok? {
      CommitsRow(check, w);
      WrittenIsCommitted(w.db.operations[w.process.id], w.clock);
    }
  }

  lemma WrittenIsCommitted(op: Operation, now: int)
    ensures Written(op, RevisionOf(op.intended.text), op.intended, now).phase.Committed?
  {
  }

  /** Only the end of an activation and an abort show a result. */
  lemma AdvanceMoves(check: Check, w: World, choice: Choice)
    requires Inv(check, w) && w.process.Running? && !w.process.stage.Ending? && !w.process.stage.Aborting?
    ensures RowMoves(w, Advance(check, w, choice), w.process.id)
  {
    hide Inv, AttestStep, VetoStep, CommitStep, PublishStep, CheckStep, FinalizeStep, AssertAuthorized;
    var stage := w.process.stage;
    if stage.Attesting? || stage.Vetoed? || stage.Committing? || stage.Renamed? || stage.Checking? || stage.Rechecking? {
      SessionMoves(check, w, choice);
    } else if stage.Finalizing? {
      CommitMoves(check, w, choice);
    }
  }

  lemma StaysPending(start: World, w: World, next: World, id: string)
    requires Pending(start, w, id) && RowMoves(w, next, id)
    ensures Pending(start, next, id)
  {
  }

  lemma PendingOn(start: World, middle: World, end: World, id: string)
    requires Pending(start, middle, id) && Pending(middle, end, id)
    ensures Pending(start, end, id)
  {
  }

  lemma SameRowsPend(start: World, w: World, next: World, id: string)
    requires Pending(start, w, id) && next.db == w.db
    ensures Pending(start, next, id)
  {
  }

  /** From `start`, `steps` steps of a calm execution lead here, and the row shows no new result. */
  ghost predicate Track(check: Check, with: Dependencies, start: World, steps: nat, now: World, id: string) {
    Inv(check, now) && Pending(start, now, id) && Drives(check, with, start, steps, now)
  }

  lemma TrackStep(check: Check, with: Dependencies, start: World, steps: nat, now: World, id: string, choice: Choice)
    requires Track(check, with, start, steps, now, id) && now.process.Running? && now.process.id == id
    requires !now.process.stage.Ending? && !now.process.stage.Aborting?
    requires Calm(with) ==> Suits(now.process.stage, choice, with)
    ensures Track(check, with, start, steps + 1, Advance(check, now, choice), id)
  {
    hide Inv, Advance, Drives, Calm, Suits, Pending, RowMoves;
    AdvanceKeeps(check, now, choice);
    AdvanceMoves(check, now, choice);
    StaysPending(start, now, Advance(check, now, choice), id);
    DrivesOneMore(check, with, start, steps, now, choice);
  }

  /** An abort signal ends the execution between two calls. It is never set when the dependencies are calm. */
  lemma TrackThrow(check: Check, with: Dependencies, start: World, steps: nat, now: World, id: string)
    requires Track(check, with, start, steps, now, id) && !Calm(with) && now.process.Running? && !HoldsLock(now.process.stage)
    ensures Indexed(now.db) && Track(check, with, start, steps, Step(check, now, Throw), id)
    ensures SameFile(now, Step(check, now, Throw))
  {
    hide Inv;
    StepKeeps(check, now, Throw);
  }

  lemma TrackOn(check: Check, with: Dependencies, start: World, first: nat, middle: World, second: nat, end: World,
      id: string)
    requires Track(check, with, start, first, middle, id) && Track(check, with, middle, second, end, id)
    ensures Track(check, with, start, first + second, end, id)
  {
    hide Inv, Drives, Pending;
    PendingOn(start, middle, end, id);
    DrivesOn(check, with, start, first, middle, second, end);
  }

  lemma TrackStarts(check: Check, with: Dependencies, now: World, id: string)
    requires Inv(check, now) && now.process.Running? && now.process.id == id && !now.process.stage.Starting?
    ensures Track(check, with, now, 0, now, id)
  {
    hide KeysOk, FileInv;
    DrivesNone(check, with, now);
  }

  lemma TrackParts(check: Check, with: Dependencies, start: World, steps: nat, now: World, id: string)
    requires Track(check, with, start, steps, now, id)
    ensures Drives(check, with, start, steps, now) && Pending(start, now, id)
  {
    hide Inv, Drives, Pending;
  }

  /** Only a rename changes the file. */
  lemma FileStays(check: Check, w: World, choice: Choice)
    requires w.process.Running? && !w.process.stage.Renaming?
    ensures SameFile(w, Advance(check, w, choice))
  {
    hide Start, AttestStep, Preflight, VetoStep, AbortStep, CommitStep, WriteStep, PublishStep, FinalizeStep, BeginStep,
      CheckStep, EndStep;
  }

  // ---------- What is returned ----------

  /** The phase that an execution of an open operation returns when no call fails, if it returns one. */
  ghost function Expected(w: World, id: string, choice: Choice): Option<Phase>
    requires id in w.db.operations
  {
    var op := w.db.operations[id];
    if op.phase == ReconciliationRequired || (op.phase == Prepared && op.action.Rollback?) then None
    else if IsVetoed(w, op, choice) then (if ValidTime(w.clock) then Some(Aborted) else None)
    else if op.phase == Prepared && !MayCommit(w.db, op, w.clock) then None
    else if IsWritten(op.phase) && !CanActivate(w, id) then None
    else Some(if choice.outcome == Succeeds then Completed else Partial)
  }

  /** What the executor knows of its result: a phase is the row's, an error leaves the row without a new result. */
  predicate Tells(start: World, after: World, id: string, r: Option<Phase>)
    requires id in start.db.operations
  {
    && (r.Some? ==>
          && id in after.db.operations && after.db.operations[id].phase == r.value
          && (r.value.Completed? || r.value.Partial? || r.value.Aborted?)
          && (IsWritten(start.db.operations[id].phase) ==> CanActivate(start, id)))
    && (r.None? ==> Pending(start, after, id))
  }

  lemma TellsExpected(check: Check, w: World, id: string, choice: Choice, next: World, r: Option<Phase>)
    requires id in w.db.operations && Open(w.db.operations[id]) && EndsAs(check, w, id, choice, next) && Tells(w, next, id, r)
    ensures r == Expected(w, id, choice)
  {
    hide IsVetoed, MayCommit, Managed, Count, SlotsGivenBack, CanActivate;
    if IsVetoed(w, w.db.operations[id], choice) {
      VetoedIsPrepared(w, w.db.operations[id], choice);
    }
  }

  /** A calm execution that came to rest ends as the table of cases says, and its result is the expected one. */
  lemma CalmResult(check: Check, with: Dependencies, before: World, id: string, steps: nat, after: World,
    r: Option<Phase>)
    requires Sound(check, before) && !before.process.Running? && id in before.db.operations && !after.process.Running?
    requires Drives(check, with, before.(process := Running(id, Starting)), steps, after) && Tells(before, after, id, r)
    ensures Calm(with) && Clear(before.disk) && Open(before.db.operations[id]) ==>
      EndsAs(check, before, id, Answers(with), after) && r == Expected(before, id, Answers(with))
  {
    hide KeysOk, FileInv, JournalOk, EndsAs, Drive, Expected, Tells, Clear, Open;
    var start, choice := before.(process := Running(id, Starting)), Answers(with);
    if Calm(with) && Clear(before.disk) && Open(before.db.operations[id]) {
      var end := ExecutionEndsAs(check, start, id, choice);
      EndsAtRest(check, start, id, choice, Drive(check, start, choice, end));
      RestsAlike(check, start, choice, end, steps);
      SameCase(check, before, start, id, choice, after);
      TellsExpected(check, before, id, choice, after, r);
    }
  }

  lemma SameCase(check: Check, w: World, start: World, id: string, choice: Choice, next: World)
    requires id in w.db.operations && start == w.(process := start.process)
    ensures EndsAs(check, start, id, choice, next) <==> EndsAs(check, w, id, choice, next)
  {
    hide MayCommit, Managed, Count, SlotsGivenBack, Leaves, ManualRuleAmong, ConsentIsCurrent;
  }

  lemma {:induction false} RunAppend(check: Check, w: World, events: seq<ProtocolEvent>, event: ProtocolEvent)
    requires Inv(check, w)
    ensures KeysOk(ProtocolRun(check, w, events).db) && Indexed(ProtocolRun(check, w, events).db)
    ensures ProtocolRun(check, w, events + [event]) == Step(check, ProtocolRun(check, w, events), event)
    decreases |events|
  {
    hide Step, Inv, KeysOk;
    InvGivesKeys(check, ProtocolRun(check, w, events));
    if events == [] {
      assert ([] + [event])[1..] == [];
    } else {
      StepKeeps(check, w, events[0]);
      RunAppend(check, Step(check, w, events[0]), events[1..], event);
      assert (events + [event])[1..] == events[1..] + [event];
    }
  }

  lemma InvGivesKeys(check: Check, w: World)
    requires Inv(check, w)
    ensures KeysOk(w.db) && Indexed(w.db)
  {
  }

  class Executor {
    const check: Check
    ghost const origin: World
    ghost var history: seq<ProtocolEvent>
    ghost var process: Process

    var db: Db
    var content: string
    var locked: bool
    var temporary: Option<string>
    var clock: int
    var writes: map<string, int>

    ghost function View(): World
      reads this
    {
      World(db, Disk(content, locked, temporary), process, clock, writes)
    }

    /** The state is what the recorded run of the protocol leads to. */
    ghost predicate Valid()
      reads this
    {
      Inv(check, origin) && JournalOk(origin.db, origin.clock) && View() == ProtocolRun(check, origin, history)
    }

    constructor (check: Check, content: string, clock: int)
      requires RuleText.ManagedRules(check, content) == Ok([])
      ensures Valid() && process.Down? && this.content == content
    {
      InitialIsSound(check, content, clock);
      this.check := check;
      origin := World(EMPTY, Disk(content, false, None), Down, clock, map[]);
      history := [];
      db, this.content, locked, temporary, this.clock, writes := EMPTY, content, false, None, clock, map[];
      process := Down;
    }

    ghost method Record(event: ProtocolEvent, before: World)
      requires Inv(check, origin) && JournalOk(origin.db, origin.clock) && before == ProtocolRun(check, origin, history)
      requires Indexed(before.db) ==> View() == Step(check, before, event)
      modifies this`history
      ensures Valid() && View() == old(View())
    {
      hide Inv, JournalOk, Step, ProtocolRun;
      RunAppend(check, origin, history, event);
      history := history + [event];
    }

    // ---------- The store ----------

    method Acquire(faults: Faults) returns (ok: bool)
      modifies this`locked
      ensures ok <==> !old(locked) && !faults.lock
      ensures locked == (old(locked) || ok || faults.release.Stays?)
    {
      if locked {
        return false;
      }
      if faults.lock {
        locked := faults.release.Stays?;
        return false;
      }
      locked := true;
      ok := true;
    }

    /** Runs a read-only body under the store lock. */
    method WithStoreLock<T>(body: Result<T, RuleText.StoreError>, faults: Faults) returns (r: Result<T,
        RuleText.StoreError>)
      modifies this`locked
      ensures r == Session(old(View()).disk, faults, body)
      ensures View().disk == DiskAfter(old(View()).disk, faults)
    {
      var ok := Acquire(faults);
      if !ok {
        return Err(RuleText.Unavailable);
      }
      if temporary.Some? {
        r := Err(RuleText.ReconciliationRequired);
      } else if faults.read {
        r := Err(RuleText.Unsafe);
      } else {
        r := body;
      }
      locked := faults.release.Stays?;
      if !faults.release.Released? && r.Ok? {
        r := Err(RuleText.ReconciliationRequired);
      }
    }

    method MarkReconciliation(id: string)
      modifies this`db
      ensures db == AfterOr(old(db), Mark(old(db), id, clock))
    {
      var marked := Mark(db, id, clock);
      if marked.Ok? {
        db := marked.value.db;
      }
    }
  
    // ---------- The stages ----------

    ghost predicate At(id: string, stage: Stage)
      reads this
    {
      Valid() && process == Running(id, stage) && id in db.operations
    }

    ghost method Leave(choice: Choice, before: World)
      requires Inv(check, origin) && JournalOk(origin.db, origin.clock) && before == ProtocolRun(check, origin, history)
      requires before.process.Running? && View() == Advance(check, before, choice)
      modifies this`history
      ensures Valid() && View() == old(View())
    {
      hide Inv, JournalOk, ProtocolRun, Advance;
      Record(Proceed(choice), before);
    }

    method AttestOperation(id: string, operation: Operation, choice: Choice) returns (r: Result<Attestation,
        RuleText.StoreError>)
      requires At(id, Attesting) && operation == db.operations[id]
      modifies this
      ensures Valid() && View() == Advance(check, old(View()), choice)
      ensures r.Ok? ==>
        At(id, if r.value.AtSource? then Preflighting else Finalizing(RevisionOf(content), Sha256(content)))
      ensures r.Ok? ==> db == old(db)
      ensures r.Err? ==> process.Idle?
    {
      hide Inv, JournalOk, ProtocolRun, Session, Attest, Mark;
      ghost var before := View();
      r := WithStoreLock(Attest(check, Disk(content, locked, temporary), operation), choice.faults);
      if r.Err? {
        if r.error.ReconciliationRequired? {
          MarkReconciliation(id);
        }
        process := Idle;
      } else if r.value.AtSource? {
        process := Running(id, Preflighting);
      } else {
        process := Running(id, Finalizing(RevisionOf(content), Sha256(content)));
      }
      Leave(choice, before);
    }
  
    method PreflightPrepared(id: string, operation: Operation, choice: Choice) returns (r: Result<bool, JournalError>)
      requires At(id, Preflighting) && operation == db.operations[id]
      modifies this`process, this`history
      ensures Valid() && View() == Advance(check, old(View()), choice)
      ensures r.Ok? ==> At(id, if r.value then Committing else Vetoed)
      ensures choice.veto ==> r == Ok(false)
      ensures r.Err? ==> process.Idle?
    {
      hide Inv, JournalOk, ProtocolRun, AssertAuthorized;
      ghost var before := View();
      r := Ok(!choice.veto);
      if !choice.veto && operation.action.AutomaticAdd? {
        var authorized := AssertAuthorized(db, id);
        if authorized.Err? {
          r := if IsVeto(authorized.error) then Ok(false) else Err(authorized.error);
        }
      }
      process := if r.Err? then Idle else Running(id, if r.value then Committing else Vetoed);
      Leave(choice, before);
    }

    /** After a veto: the file must still be at the source. */
    method AssertPreWriteState(id: string, operation: Operation, choice: Choice) returns (r: Result<bool,
        RuleText.StoreError>)
      requires At(id, Vetoed) && operation == db.operations[id]
      modifies this
      ensures Valid() && View() == Advance(check, old(View()), choice)
      ensures r.Ok? ==> At(id, Aborting) && db == old(db)
      ensures r.Err? ==> process.Idle?
    {
      hide Inv, JournalOk, ProtocolRun, Session, Attest, Mark;
      ghost var before := View();
      var attested := WithStoreLock(Attest(check, Disk(content, locked, temporary), operation), choice.faults);
      if attested.Ok? && attested.value.AtSource? {
        process := Running(id, Aborting);
        r := Ok(true);
      } else {
        r := Err(if attested.Err? then attested.error else RuleText.ReconciliationRequired);
        if r.error.ReconciliationRequired? {
          MarkReconciliation(id);
        }
        process := Idle;
      }
      Leave(choice, before);
    }

    method AbortPrepared(id: string, operation: Operation, choice: Choice) returns (aborted: bool)
      requires At(id, Aborting) && operation == db.operations[id]
      modifies this`db, this`process, this`history
      ensures Valid() && View() == Advance(check, old(View()), choice) && process.Idle?
      ensures aborted ==> id in db.operations && db.operations[id].phase.Aborted?
      ensures !aborted ==> db == old(db)
    {
      hide Inv, JournalOk, ProtocolRun, ReservationPresent;
      ghost var before := View();
      var result := Abort(db, id, operation.expectedSource, operation.intended, clock);
      aborted := result.Ok? && result.value.value;
      if result.Ok? {
        db := result.value.db;
      }
      process := Idle;
      Leave(choice, before);
    }

    /** The first part of the commit session: lock the store, read the file, and apply the delta to it. */
    method ReadForCommit(id: string, operation: Operation, choice: Choice) returns (r: Result<string,
        RuleText.StoreError>)
      requires At(id, Committing) && operation == db.operations[id]
      modifies this
      ensures Valid() && View() == Advance(check, old(View()), choice)
      ensures r.Ok? ==> At(id, Writing(r.value)) && db == old(db)
      ensures r.Err? ==> process.Idle?
    {
      hide Inv, JournalOk, ProtocolRun, Commit, Mark;
      ghost var before := View();
      var disk := Disk(content, locked, temporary);
      var ok := Acquire(choice.faults);
      if !ok {
        r := Err(RuleText.Unavailable);
      } else if temporary.Some? {
        r := Err(RuleText.ReconciliationRequired);
      } else if choice.faults.read {
        r := Err(RuleText.Unsafe);
      } else {
        r := Commit(check, disk, operation);
      }
      if r.Ok? {
        process := Running(id, Writing(r.value));
      } else {
        if ok {
          locked := choice.faults.release.Stays?;
        }
        if r.error.ReconciliationRequired? {
          MarkReconciliation(id);
        }
        process := Idle;
      }
      Leave(choice, before);
    }

    method WriteTemporary(id: string, intended: string, choice: Choice) returns (ok: bool)
      requires At(id, Writing(intended))
      modifies this`temporary, this`locked, this`process, this`history
      ensures Valid() && View() == Advance(check, old(View()), choice)
      ensures ok ==> At(id, Renaming(intended))
      ensures !ok ==> process.Idle?
    {
      hide Inv, JournalOk, ProtocolRun;
      ghost var before := View();
      ok := !choice.failed;
      if ok {
        temporary := Some(intended);
        process := Running(id, Renaming(intended));
      } else {
        temporary := if choice.temporaryStays then Some(intended) else None;
        locked := choice.faults.release.Stays?;
        process := Idle;
      }
      Leave(choice, before);
    }

    method RenameTemporary(id: string, intended: string, choice: Choice) returns (ok: bool)
      requires At(id, Renaming(intended))
      modifies this`content, this`temporary, this`locked, this`writes, this`process, this`history
      ensures Valid() && View() == Advance(check, old(View()), choice)
      ensures ok ==> At(id, Renamed)
      ensures !ok ==> process.Idle?
    {
      hide Inv, JournalOk, ProtocolRun;
      ghost var before := View();
      ok := !choice.failed;
      if ok {
        content, temporary := intended, None;
        writes := writes[id := Count(writes, id) + 1];
        process := Running(id, Renamed);
      } else {
        temporary := if choice.temporaryStays then Some(intended) else None;
        locked := choice.faults.release.Stays?;
        process := Idle;
      }
      Leave(choice, before);
    }

    /** The end of the commit session: sync, read the file again, release the lock. */
    method AttestPublished(id: string, operation: Operation, choice: Choice) returns (r: Result<Revision,
        RuleText.StoreError>)
      requires At(id, Renamed) && operation == db.operations[id]
      modifies this
      ensures Valid() && View() == Advance(check, old(View()), choice)
      ensures r.Ok? ==> At(id, Finalizing(r.value, operation.intended)) && db == old(db)
      ensures r.Err? ==> process.Idle?
    {
      hide Inv, JournalOk, ProtocolRun, Mark, RuleText.ValidateComplete;
      ghost var before := View();
      var read := ReadFile(check, Disk(content, locked, temporary));
      if choice.failed {
        r := Err(RuleText.Unavailable);
      } else if read.Err? {
        r := Err(read.error);
      } else if Sha256(content) != operation.intended {
        r := Err(RuleText.ReconciliationRequired);
      } else {
        r := Ok(RevisionOf(content));
      }
      locked := choice.faults.release.Stays?;
      if r.Ok? && !choice.faults.release.Released? {
        r := Err(RuleText.ReconciliationRequired);
      }
      if r.Ok? {
        process := Running(id, Finalizing(r.value, operation.intended));
      } else {
        if r.error.ReconciliationRequired? {
          MarkReconciliation(id);
        }
        process := Idle;
      }
      Leave(choice, before);
    }
  
    method FinalizeWrite(id: string, revision: Revision, digest: Digest, choice: Choice) returns (ok: bool)
      requires At(id, Finalizing(revision, digest))
      modifies this`db, this`process, this`history
      ensures Valid() && View() == Advance(check, old(View()), choice)
      ensures ok ==> At(id, Beginning)
      ensures !ok ==> process.Idle?
    {
      hide Inv, JournalOk, ProtocolRun, ReplacesManual, CommitAuthorized, ReservationPresent, CandidatesAfter,
        DecisionsAfter, OwnershipAfter, ConsumeSlot;
      ghost var before := View();
      var finalized := Finalize(db, id, revision, digest, clock);
      ok := finalized.Ok?;
      if ok {
        db := finalized.value.db;
        process := Running(id, Beginning);
      } else {
        process := Idle;
      }
      Leave(choice, before);
    }

    method BeginActivation(id: string, choice: Choice) returns (r: Option<int>)
      requires At(id, Beginning)
      modifies this`db, this`process, this`history
      ensures Valid() && View() == Advance(check, old(View()), choice)
      ensures r.Some? ==> At(id, Checking(r.value)) && Begin(old(db), id, clock).Ok?
      ensures r.None? ==> process.Idle?
    {
      hide Inv, JournalOk, ProtocolRun, Begun;
      ghost var before := View();
      var begun := Begin(db, id, clock);
      if begun.Ok? {
        db := begun.value.db;
        r := Some(begun.value.value.attempt);
        process := Running(id, Checking(r.value));
      } else {
        r := None;
        process := Idle;
      }
      Leave(choice, before);
    }

    /** Re-attests the written file; a failure that needs no reconciliation ends the attempt. */
    method AttestWrittenFile(id: string, operation: Operation, attempt: int, passed: Stage, choice: Choice)
        returns (r: Result<Option<Outcome>, RuleText.StoreError>)
      requires Valid() && process.Running? && process.id == id && id in db.operations && operation == db.operations[id]
      requires (process.stage == Checking(attempt) && passed == Activation(attempt))
            || (process.stage.Rechecking? && process.stage.attempt == attempt && passed == Ending(attempt,
                process.stage.outcome))
      modifies this
      ensures Valid() && View() == Advance(check, old(View()), choice)
      ensures r.Ok? ==> At(id, if r.value.Some? then Ending(attempt, r.value.value) else passed)
      ensures r.Err? ==> process.Idle?
    {
      hide Inv, JournalOk, ProtocolRun, Session, AttestWritten, Mark;
      ghost var before := View();
      var attested := WithStoreLock(AttestWritten(check, Disk(content, locked, temporary), operation), choice.faults);
      if attested.Err? && attested.error.ReconciliationRequired? {
        MarkReconciliation(id);
        process := Idle;
        r := Err(attested.error);
      } else if attested.Err? || choice.aborted {
        r := Ok(Some(Fails(if choice.aborted then Shutdown else MaterializationFailure)));
        process := Running(id, Ending(attempt, r.value.value));
      } else {
        r := Ok(None);
        process := Running(id, passed);
      }
      Leave(choice, before);
    }

    method ActivateCommitted(id: string, attempt: int, choice: Choice)
      requires At(id, Activation(attempt))
      modifies this`process, this`history
      ensures Valid() && View() == Advance(check, old(View()), choice)
      ensures At(id, Rechecking(attempt, choice.outcome))
    {
      hide Inv, JournalOk, ProtocolRun;
      ghost var before := View();
      process := Running(id, Rechecking(attempt, choice.outcome));
      Leave(choice, before);
    }

    method CompleteActivation(id: string, attempt: int, outcome: Outcome,
        ghost choice: Choice) returns (r: Result<Phase, ExecutionError>)
      requires At(id, Ending(attempt, outcome))
      modifies this`db, this`process, this`history
      ensures Valid() && View() == Advance(check, old(View()), choice) && process.Idle?
      ensures r.Ok? ==> Returned(id, r.value)
      ensures r.Err? ==> db == old(db)
    {
      hide Inv, JournalOk, ProtocolRun;
      ghost var before := View();
      var ended := Complete(db, id, attempt, outcome, clock);
      if ended.Ok? {
        db := ended.value.db;
        r := Ok(if outcome.Succeeds? then Completed else Partial);
      } else {
        r := Err(JournalFailed);
      }
      process := Idle;
      Leave(choice, before);
    }

    // ---------- The whole execution ----------

    /** A result phase, and the phase the journal shows. */
    ghost predicate Returned(id: string, phase: Phase)
      reads this
    {
      id in db.operations && db.operations[id].phase == phase && (phase.Completed? || phase.Partial? || phase.Aborted?)
    }

    /** A set abort signal ends the execution between two calls, without a change. */
    method Interrupt()
      requires Valid() && process.Running? && !HoldsLock(process.stage)
      modifies this`process, this`history
      ensures Valid() && process.Idle?
      ensures old(Indexed(View().db)) && View() == Step(check, old(View()), Throw)
    {
      hide Inv, JournalOk, ProtocolRun;
      ghost var before := View();
      ReadyIsIndexed();
      process := Idle;
      Record(Throw, before);
    }

    lemma ReadyIsIndexed()
      requires Valid()
      ensures Indexed(View().db)
    {
      hide Inv, JournalOk, ProtocolRun;
      InvGivesKeys(check, View());
    }

    /** What every stage after the start knows. */
    lemma Tracked(with: Dependencies, id: string, stage: Stage)
      requires At(id, stage) && !stage.Starting?
      ensures Track(check, with, View(), 0, View(), id)
    {
      hide Inv, JournalOk;
      TrackStarts(check, with, View(), id);
    }

    /** Writing the file: the commit session of a prepared operation. */
    method CommitPrepared(id: string, operation: Operation, with: Dependencies)
        returns (r: Result<Revision, RuleText.StoreError>, ghost steps: nat)
      requires At(id, Committing) && operation == db.operations[id]
      modifies this
      ensures Valid() && Track(check, with, old(View()), steps, View(), id)
      ensures r.Ok? ==> At(id, Finalizing(r.value, operation.intended))
      ensures r.Err? ==> process.Idle?
    {
      hide Valid, Advance, Track, Smooth, Inv, Drives, Pending, Returned;
      Tracked(with, id, Committing);
      ghost var start := View();
      var intended := ReadForCommit(id, operation, with.commit);
      TrackStep(check, with, start, 0, start, id, with.commit);
      steps := 1;
      if intended.Err? {
        r := Err(intended.error);
        return;
      }
      ghost var writing := View();
      ghost var more;
      r, more := Publish(id, operation.intended, intended.value, with);
      TrackOn(check, with, start, 1, writing, more, View(), id);
      steps := 1 + more;
    }

    method Publish(id: string, ghost intendedDigest: Digest, intended: string, with: Dependencies)
        returns (r: Result<Revision, RuleText.StoreError>, ghost steps: nat)
      requires At(id, Writing(intended)) && intendedDigest == db.operations[id].intended
      modifies this
      ensures Valid() && Track(check, with, old(View()), steps, View(), id)
      ensures r.Ok? ==> At(id, Finalizing(r.value, intendedDigest))
      ensures r.Err? ==> process.Idle?
    {
      hide Valid, Advance, Track, Smooth, Inv, Drives, Pending, Returned;
      Tracked(with, id, Writing(intended));
      ghost var start := View();
      var wrote := WriteTemporary(id, intended, with.temporary);
      TrackStep(check, with, start, 0, start, id, with.temporary);
      steps := 1;
      if !wrote {
        r := Err(RuleText.Unavailable);
        return;
      }
      ghost var renaming := View();
      var renamed := RenameTemporary(id, intended, with.rename);
      TrackStep(check, with, start, 1, renaming, id, with.rename);
      steps := 2;
      if !renamed {
        r := Err(RuleText.Unavailable);
        return;
      }
      ghost var published := View();
      r := AttestPublished(id, db.operations[id], with.publish);
      TrackStep(check, with, start, 2, published, id, with.publish);
      steps := 3;
    }

    /** A vetoed operation is aborted, provided the file is still at its source. */
    method AbortVetoed(id: string, operation: Operation, with: Dependencies)
        returns (r: Result<bool, ExecutionError>, ghost steps: nat)
      requires At(id, Vetoed) && operation == db.operations[id]
      modifies this
      ensures Valid() && process.Idle? && Drives(check, with, old(View()), steps, View()) && SameFile(old(View()), View())
      ensures r.Ok? ==> Returned(id, Aborted)
      ensures r.Err? ==> Track(check, with, old(View()), steps, View(), id)
    {
      hide Valid, Advance, Track, Smooth, Inv, Drives, Pending;
      Tracked(with, id, Vetoed);
      ghost var start := View();
      var attested := AssertPreWriteState(id, operation, with.vetoAttest);
      TrackStep(check, with, start, 0, start, id, with.vetoAttest);
      FileStays(check, start, with.vetoAttest);
      TrackParts(check, with, start, 1, View(), id);
      steps := 1;
      if attested.Err? {
        r := Err(StoreFailed(attested.error));
        return;
      }
      ghost var vetoed := View();
      var aborted := AbortPrepared(id, operation, with.vetoAttest);
      DrivesOneMore(check, with, start, 1, vetoed, with.vetoAttest);
      FileStays(check, vetoed, with.vetoAttest);
      steps := 2;
      if aborted {
        r := Ok(true);
      } else {
        r := Err(AbortFailed);
        SameRowsPend(start, vetoed, View(), id);
        TrackAgain(with, start, 2, id);
      }
    }

    /** What a valid state adds to a row that shows no result. */
    lemma TrackAgain(with: Dependencies, start: World, steps: nat, id: string)
      requires Valid() && Pending(start, View(), id) && Drives(check, with, start, steps, View())
      ensures Track(check, with, start, steps, View(), id)
    {
      hide Pending, Drives, Inv;
    }

    /** From the attested source to the written file, or to an abort when the operation is vetoed. */
    method WriteOrAbort(id: string, operation: Operation, with: Dependencies)
        returns (r: Result<Option<Revision>, ExecutionError>, ghost steps: nat)
      requires At(id, Preflighting) && operation == db.operations[id]
      modifies this
      ensures Valid() && Drives(check, with, old(View()), steps, View())
      ensures with.preflight.veto ==> SameFile(old(View()), View())
      ensures r.Err? || r.value.Some? ==> Track(check, with, old(View()), steps, View(), id)
      ensures r.Ok? && r.value.Some? ==> At(id, Finalizing(r.value.value, operation.intended))
      ensures r.Ok? && r.value.None? ==> process.Idle? && Returned(id, Aborted)
      ensures r.Err? ==> process.Idle?
    {
      hide Valid, Advance, Track, Smooth, Inv, Drives, Pending, Returned;
      Tracked(with, id, Preflighting);
      ghost var start := View();
      steps := 0;
      if !with.preflight.veto && with.preflight.aborted {
        Interrupt();
        NotCalm(with, with.preflight);
        TrackThrow(check, with, start, 0, start, id);
        TrackParts(check, with, start, 0, View(), id);
        r := Err(Interrupted);
        return;
      }
      var preflight := PreflightPrepared(id, operation, with.preflight);
      TrackStep(check, with, start, 0, start, id, with.preflight);
      FileStays(check, start, with.preflight);
      TrackParts(check, with, start, 1, View(), id);
      steps := 1;
      if preflight.Err? {
        r := Err(PreflightFailed);
        return;
      }
      ghost var middle, more := View(), 0;
      if !preflight.value {
        var aborted;
        aborted, more := AbortVetoed(id, operation, with);
        DrivesOn(check, with, start, 1, middle, more, View());
        steps := 1 + more;
        if aborted.Ok? {
          r := Ok(None);
        } else {
          r := Err(aborted.error);
          TrackOn(check, with, start, 1, middle, more, View(), id);
        }
        return;
      }
      r, more := CommitAllowed(id, operation, with);
      TrackOn(check, with, start, 1, middle, more, View(), id);
      TrackParts(check, with, start, 1 + more, View(), id);
      steps := 1 + more;
    }

    /** The write of an operation that was not vetoed, unless the abort signal is set by now. */
    method CommitAllowed(id: string, operation: Operation, with: Dependencies)
        returns (r: Result<Option<Revision>, ExecutionError>, ghost steps: nat)
      requires At(id, Committing) && operation == db.operations[id]
      modifies this
      ensures Valid() && Track(check, with, old(View()), steps, View(), id)
      ensures r.Ok? ==> r.value.Some? && At(id, Finalizing(r.value.value, operation.intended))
      ensures r.Err? ==> process.Idle?
    {
      hide Valid, Advance, Track, Smooth, Inv, Drives, Pending, Returned;
      steps := 0;
      if with.commit.aborted {
        Tracked(with, id, Committing);
        ghost var start := View();
        Interrupt();
        NotCalm(with, with.commit);
        TrackThrow(check, with, start, 0, start, id);
        r := Err(Interrupted);
        return;
      }
      var written;
      written, steps := CommitPrepared(id, operation, with);
      r := if written.Ok? then Ok(Some(written.value)) else Err(StoreFailed(written.error));
    }

    /** Everything a prepared operation goes through before its activation. */
    method ApplyPrepared(id: string, operation: Operation, with: Dependencies)
        returns (r: Result<bool, ExecutionError>, ghost steps: nat)
      requires At(id, Attesting) && operation == db.operations[id]
      modifies this
      ensures Valid() && Drives(check, with, old(View()), steps, View())
      ensures with.preflight.veto ==> SameFile(old(View()), View())
      ensures r != Ok(false) ==> Track(check, with, old(View()), steps, View(), id)
      ensures r == Ok(true) ==> At(id, Beginning)
      ensures r == Ok(false) ==> process.Idle? && Returned(id, Aborted)
      ensures r.Err? ==> process.Idle?
    {
      hide Valid, Advance, Track, Smooth, Inv, Drives, Pending, Returned;
      Tracked(with, id, Attesting);
      ghost var start := View();
      var attested := AttestOperation(id, operation, with.attest);
      TrackStep(check, with, start, 0, start, id, with.attest);
      FileStays(check, start, with.attest);
      TrackParts(check, with, start, 1, View(), id);
      steps := 1;
      if attested.Err? {
        r := Err(StoreFailed(attested.error));
        return;
      }
      ghost var middle := View();
      if with.attest.aborted {
        Interrupt();
        NotCalm(with, with.attest);
        TrackThrow(check, with, start, 1, middle, id);
        TrackParts(check, with, start, 1, View(), id);
        r := Err(Interrupted);
        return;
      }
      var revision, digest := RevisionOf(content), Sha256(content);
      if attested.value.AtSource? {
        var written;
        ghost var more;
        written, more := WriteOrAbort(id, operation, with);
        DrivesOn(check, with, start, 1, middle, more, View());
        steps := 1 + more;
        if written == Ok(None) {
          r := Ok(false);
          return;
        }
        TrackOn(check, with, start, 1, middle, more, View(), id);
        if written.Err? {
          r := Err(written.error);
          return;
        }
        revision, digest := written.value.value, operation.intended;
      }
      r := FinishWrite(id, revision, digest, with, start, steps);
      steps := steps + 1;
    }

    method FinishWrite(id: string, revision: Revision, digest: Digest, with: Dependencies, ghost start: World,
      ghost steps: nat)
        returns (r: Result<bool, ExecutionError>)
      requires At(id, Finalizing(revision, digest)) && Track(check, with, start, steps, View(), id)
      modifies this
      ensures Valid() && Track(check, with, start, steps + 1, View(), id) && Drives(check, with, start, steps + 1, View())
      ensures SameFile(old(View()), View())
      ensures r == Ok(true) ==> At(id, Beginning)
      ensures r != Ok(false) && (r.Err? ==> process.Idle?)
    {
      hide Valid, Advance, Track, Smooth, Inv, Drives, Pending, Returned;
      ghost var finalizing := View();
      var finalized := FinalizeWrite(id, revision, digest, with.attest);
      TrackStep(check, with, start, steps, finalizing, id, with.attest);
      TrackParts(check, with, start, steps + 1, View(), id);
      FileStays(check, finalizing, with.attest);
      r := if finalized then Ok(true) else Err(JournalFailed);
    }

    /** The written file is attested before and after the activation; the result is the outcome to record. */
    method ActivateAttempt(id: string, attempt: int, with: Dependencies)
        returns (r: Result<Outcome, ExecutionError>, ghost steps: nat)
      requires At(id, Checking(attempt))
      modifies this
      ensures Valid() && Track(check, with, old(View()), steps, View(), id) && SameFile(old(View()), View())
      ensures r.Ok? ==> At(id, Ending(attempt, r.value))
      ensures r.Err? ==> process.Idle?
    {
      hide Valid, Advance, Track, Smooth, Inv, Drives, Pending;
      Tracked(with, id, Checking(attempt));
      ghost var start := View();
      var checked := AttestWrittenFile(id, db.operations[id], attempt, Activation(attempt), with.check);
      TrackStep(check, with, start, 0, start, id, with.check);
      FileStays(check, start, with.check);
      steps := 1;
      if checked.Err? || checked.value.Some? {
        r := if checked.Err? then Err(StoreFailed(checked.error)) else Ok(checked.value.value);
        return;
      }
      ghost var middle := View();
      ghost var more;
      r, more := Activate(id, attempt, with);
      TrackOn(check, with, start, 1, middle, more, View(), id);
      steps := 1 + more;
    }

    method Activate(id: string, attempt: int, with: Dependencies)
        returns (r: Result<Outcome, ExecutionError>, ghost steps: nat)
      requires At(id, Activation(attempt))
      modifies this
      ensures Valid() && Track(check, with, old(View()), steps, View(), id) && SameFile(old(View()), View())
      ensures r.Ok? ==> At(id, Ending(attempt, r.value))
      ensures r.Err? ==> process.Idle?
    {
      hide Valid, Advance, Track, Smooth, Inv, Drives, Pending;
      Tracked(with, id, Activation(attempt));
      ghost var start := View();
      ActivateCommitted(id, attempt, with.activate);
      TrackStep(check, with, start, 0, start, id, with.activate);
      FileStays(check, start, with.activate);
      var outcome := with.activate.outcome;
      ghost var rechecking := View();
      var rechecked := AttestWrittenFile(id, db.operations[id], attempt, Ending(attempt, outcome), with.recheck);
      TrackStep(check, with, start, 1, rechecking, id, with.recheck);
      FileStays(check, rechecking, with.recheck);
      steps := 2;
      r := if rechecked.Err? then Err(StoreFailed(rechecked.error))
          else Ok(if rechecked.value.Some? then rechecked.value.value else outcome);
    }

    method ActivateWritten(id: string, with: Dependencies) returns (r: Result<Phase, ExecutionError>, ghost steps: nat)
      requires At(id, Beginning)
      modifies this
      ensures Valid() && process.Idle? && Drives(check, with, old(View()), steps, View()) && SameFile(old(View()), View())
      ensures r.Ok? ==> Returned(id, r.value) && Begin(old(db), id, old(clock)).Ok?
      ensures r.Err? ==> Pending(old(View()), View(), id)
    {
      hide Valid, Advance, Returned, Smooth, Drives, Inv, Track, Pending, Begin;
      Tracked(with, id, Beginning);
      ghost var start := View();
      var begun := BeginActivation(id, with.activate);
      TrackStep(check, with, start, 0, start, id, with.activate);
      TrackParts(check, with, start, 1, View(), id);
      FileStays(check, start, with.activate);
      steps := 1;
      if begun.None? {
        r := Err(JournalFailed);
        return;
      }
      ghost var checking := View();
      var outcome;
      ghost var more;
      outcome, more := ActivateAttempt(id, begun.value, with);
      TrackOn(check, with, start, 1, checking, more, View(), id);
      TrackParts(check, with, start, 1 + more, View(), id);
      steps := 1 + more;
      if outcome.Err? {
        r := Err(outcome.error);
        return;
      }
      ghost var ending := View();
      r := CompleteActivation(id, begun.value, outcome.value, with.recheck);
      DrivesOneMore(check, with, start, steps, ending, with.recheck);
      FileStays(check, ending, with.recheck);
      steps := steps + 1;
      if r.Err? {
        SameRowsPend(start, ending, View(), id);
      }
    }

    /** Starting an execution: the row is read and the deployment must allow it. */
    method StartExecution(id: string, choice: Choice) returns (r: Result<Operation, ExecutionError>)
      requires Valid() && process.Idle?
      modifies this`process, this`history
      ensures Valid()
      ensures r.Ok? ==> id in db.operations && r.value == db.operations[id]
      ensures r.Ok? ==> process.Idle? || At(id, Attesting) || At(id, Beginning)
      ensures r.Ok? ==> (process.Idle? <==> r.value.phase.Aborted? || r.value.phase.Completed?)
      ensures r.Ok? ==> (process == Running(id, Attesting) <==> r.value.phase.Prepared?)
      ensures r.Err? ==> process.Idle?
      ensures id in old(db.operations) ==>
        View() == Advance(check, old(View()).(process := Running(id, Starting)), choice)
      ensures db == old(db) && clock == old(clock)
      ensures r.Err? && id in db.operations ==> !db.operations[id].phase.Aborted? && !db.operations[id].phase.Completed?
      ensures r == Err(OperationNotFound) <==> id !in old(db.operations)
    {
      hide Inv, JournalOk, ProtocolRun;
      if id !in db.operations {
        return Err(OperationNotFound);
      }
      ghost var before := View();
      var operation := db.operations[id];
      process := Running(id, Starting);
      Record(ProtocolEvent.Execute(id), before);
      ghost var started := View();
      if operation.phase.ReconciliationRequired? {
        r := Err(NeedsReconciling);
        process := Idle;
      } else if operation.phase.Aborted? || operation.phase.Completed? {
        r := Ok(operation);
        process := Idle;
      } else if !choice.allowed {
        r := Err(NotAllowed);
        process := Idle;
      } else if operation.phase.Prepared? && operation.action.Rollback? {
        r := Err(RollbackUnavailable);
        process := Idle;
      } else {
        r := Ok(operation);
        process := Running(id, if operation.phase.Prepared? then Attesting else Beginning);
      }
      Leave(choice, started);
    }

    /** The execution of an operation that is allowed to go on. */
    method Continue(id: string, operation: Operation, with: Dependencies)
        returns (r: Result<Phase, ExecutionError>, ghost steps: nat)
      requires At(id, if operation.phase.Prepared? then Attesting else Beginning) && operation == db.operations[id]
      modifies this
      ensures Valid() && process.Idle? && Drives(check, with, old(View()), steps, View())
      ensures with.preflight.veto ==> SameFile(old(View()), View())
      ensures r.Ok? ==> Returned(id, r.value) && (operation.phase.Prepared? || Begin(old(db), id, old(clock)).Ok?)
      ensures r.Err? ==> Pending(old(View()), View(), id)
    {
      hide Valid, Advance, Track, Smooth, Drives, Inv, Calm, Pending, Begin;
      ghost var start := View();
      if !operation.phase.Prepared? {
        r, steps := ActivateWritten(id, with);
        return;
      }
      var applied;
      applied, steps := ApplyPrepared(id, operation, with);
      if applied.Ok? && !applied.value {
        r := Ok(Aborted);
        return;
      }
      TrackParts(check, with, start, steps, View(), id);
      if applied.Err? {
        r := Err(applied.error);
        return;
      }
      ghost var beginning := View();
      ghost var last;
      r, last := ActivateWritten(id, with);
      DrivesOn(check, with, start, steps, beginning, last, View());
      steps := steps + last;
      if r.Err? {
        PendingOn(start, beginning, View(), id);
      }
    }

    /**
     Executes or recovers one durable mutation. The state stays reachable by the protocol, so every safety result
     holds after it, and the returned phase is the one the journal shows. A vetoed execution publishes nothing. When no
     call fails and nothing was left behind on disk, an open operation ends as the table of cases says, and the result
     is the phase it names: aborted for a veto, completed or partial for an activation, and otherwise none.
     */
    method ExecuteDomainRuleOperation(id: string, with: Dependencies) returns (r: Result<Phase, ExecutionError>)
      requires Valid() && process.Idle?
      modifies this
      ensures Valid() && process.Idle?
      ensures r.Ok? ==> Returned(id, r.value)
      ensures with.preflight.veto ==> SameFile(old(View()), View())
      ensures Calm(with) && Clear(old(View()).disk) && id in old(db.operations) && Open(old(db.operations)[id]) ==>
        && EndsAs(check, old(View()), id, Answers(with), View())
        && (if r.Ok? then Some(r.value) else None) == Expected(old(View()), id, Answers(with))
    {
      hide Valid, Advance, Smooth, Drives, Sound, Calm, Open, Clear, EndsAs, Expected, Tells, Pending, Begin;
      if with.cancelled {
        CalmIsNotCancelled(with);
        return Err(Interrupted);
      }
      ghost var before := View();
      ghost var start := before.(process := Running(id, Starting));
      ReadyToStart();
      var started := StartExecution(id, with.allowed);
      if started == Err(OperationNotFound) {
        return Err(OperationNotFound);
      }
      StartDrives(check, with, start);
      FileStays(check, start, with.allowed);
      if started.Err? {
        RefusedTells(before, View(), id);
        CalmResult(check, with, before, id, 1, View(), None);
        return Err(started.error);
      }
      var operation := started.value;
      if operation.phase.Aborted? || operation.phase.Completed? {
        ClosedOperation(operation);
        return Ok(operation.phase);
      }
      if with.allowed.aborted {
        NotCalm(with, with.allowed);
        Interrupt();
        return Err(Interrupted);
      }
      ghost var middle, more := View(), 0;
      r, more := Continue(id, operation, with);
      DrivesOn(check, with, start, 1, middle, more, View());
      ContinueTells(before, middle, View(), id, if r.Ok? then Some(r.value) else None);
      CalmResult(check, with, before, id, 1 + more, View(), if r.Ok? then Some(r.value) else None);
    }

    lemma ReadyToStart()
      requires Valid()
      ensures Sound(check, View())
    {
      hide Inv, JournalOk, ProtocolRun;
      RunKeepsSound(check, origin, history);
    }
  }

  lemma StartDrives(check: Check, with: Dependencies, start: World)
    requires start.process.Running? && start.process.stage.Starting?
    ensures Drives(check, with, start, 1, Advance(check, start, with.allowed))
  {
    hide Advance, Smooth;
    DrivesNone(check, with, start);
    DrivesOneMore(check, with, start, 0, start, with.allowed);
  }

  lemma ClosedOperation(op: Operation)
    requires op.phase.Aborted? || op.phase.Completed?
    ensures !Open(op)
  {
  }

  lemma RefusedTells(before: World, after: World, id: string)
    requires id in before.db.operations && after.db == before.db
    requires !before.db.operations[id].phase.Aborted? && !before.db.operations[id].phase.Completed?
    ensures Tells(before, after, id, None)
  {
  }

  lemma ContinueTells(before: World, middle: World, after: World, id: string, r: Option<Phase>)
    requires id in before.db.operations && middle.db == before.db && middle.clock == before.clock
    requires r.Some? ==>
      && id in after.db.operations && after.db.operations[id].phase == r.value
      && (r.value.Completed? || r.value.Partial? || r.value.Aborted?)
      && (before.db.operations[id].phase.Prepared? || Begin(before.db, id, before.clock).Ok?)
    requires r.None? ==> Pending(middle, after, id)
    ensures Tells(before, after, id, r)
  {
  }

  /** Every state an executor can be in satisfies the protocol's invariant. */
  lemma ExecutorIsSafe(executor: Executor)
    requires executor.Valid()
    ensures Inv(executor.check, executor.View())
  {
    hide Inv;
  }
}
