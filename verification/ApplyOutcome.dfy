/**
 How an execution ends when no call fails: a table of cases over the row, the tables, the file and what the deployment
 answers, without the stages in between. A vetoed operation is aborted and never published.
 */
module ApplyOutcome {
  import opened Wrappers
  import RuleText
  import opened Journal
  import opened JournalTheorems
  import opened JournalGuards
  import opened ApplyProtocol
  import opened ApplySafety
  import opened ApplyJournal
  import opened ApplyRecovery

  // ---------- The cases ----------

  predicate IsWritten(phase: Phase) {
    phase == Committed || phase == Activating || phase == Partial
  }

  predicate IsDone(w: World, id: string) {
    id in w.db.operations && w.db.operations[id].phase.Completed?
  }

  /** Not yet written, and the deployment, a manual rule or a withdrawn consent stands against it. */
  predicate IsVetoed(w: World, op: Operation, choice: Choice) {
    && op.phase == Prepared && w.disk.content == op.expectedSource.text
    && (choice.veto
        || (op.action.AutomaticAdd?
            && (ManualRuleAmong(w.db.ownership, op.delta.upserts) || !ConsentIsCurrent(w.db, op.consent))))
  }

  predicate Untouched(w: World, next: World) {
    next.process.Idle? && next.db == w.db && SameFile(w, next)
  }

  /** The row is aborted and its slot given back; the file and everything else stay. */
  ghost predicate AbortedUnpublished(w: World, next: World, id: string)
    requires id in w.db.operations
  {
    && next.process.Idle? && SameFile(w, next)
    && Leaves(w.db, next.db, id,
         w.db.operations[id].(phase := Aborted, updatedAt := w.clock, completedAt := Some(w.clock)))
    && forall day: int :: SlotsGivenBack(w.db, next.db, w.db.operations[id], day)
  }

  /** The content is in the file and the journal does not know it. */
  predicate PublishedOnly(w: World, next: World, op: Operation) {
    next.process.Idle? && next.db == w.db && next.disk.content == op.intended.text
  }

  /** The content is in the file, published once and owned, and the row says how the activation ended. */
  predicate Applied(check: Check, w: World, next: World, id: string, outcome: Outcome)
    requires id in w.db.operations
  {
    && Concluded(next, id, outcome, LastAttempt(w.db.operations[id]))
    && next.disk.content == w.db.operations[id].intended.text && Count(next.writes, id) == 1
    && Managed(check, next.disk.content) == next.db.ownership.Keys
  }

  /** How an execution of an open operation ends. */
  ghost predicate EndsAs(check: Check, w: World, id: string, choice: Choice, next: World)
    requires id in w.db.operations
  {
    var op := w.db.operations[id];
    if op.phase == ReconciliationRequired || (op.phase == Prepared && op.action.Rollback?) then Untouched(w, next)
    else if IsVetoed(w, op, choice) then
      if ValidTime(w.clock) then AbortedUnpublished(w, next, id) else Untouched(w, next)
    else if op.phase == Prepared && !MayCommit(w.db, op, w.clock) then PublishedOnly(w, next, op)
    else if IsWritten(op.phase) && !CanActivate(w, id) then Untouched(w, next)
    else Applied(check, w, next, id, choice.outcome)
  }

  // ---------- The cases one by one ----------

  lemma StopsAtStart(check: Check, w: World, id: string, choice: Choice)
    requires At(w, id, Starting)
    requires w.db.operations[id].phase.ReconciliationRequired?
      || (w.db.operations[id].phase.Prepared? && w.db.operations[id].action.Rollback?)
    ensures Untouched(w, Drive(check, w, choice, 1))
  {
    assert Drive(check, w, choice, 1) == Drive(check, Advance(check, w, choice), choice, 0);
  }

  lemma PreflightVetoes(check: Check, w: World, id: string, choice: Choice)
    requires Inv(check, w) && At(w, id, Preflighting) && IsVetoed(w, w.db.operations[id], choice)
    ensures Advance(check, w, choice) == w.(process := Running(id, Stage.Vetoed))
  {
    hide Inv, ManualRuleAmong, ReplacesManual, ConsentIsCurrent, AssertAuthorized;
    var op := w.db.operations[id];
    ClashIff(w.db.ownership, op.delta.upserts);
    if !choice.veto {
      if !ReplacesManual(w.db.ownership, op.delta.upserts) {
        IsAuthorized(check, w, id);
      }
      AuthorizationVetoes(check, w, id);
    }
  }

  /** Reconciliation never stands in the way of the one open operation, so a refusal is a veto. */
  lemma AuthorizationVetoes(check: Check, w: World, id: string)
    requires Inv(check, w) && At(w, id, Preflighting) && w.db.operations[id].action.AutomaticAdd?
    requires w.db.operations[id].phase.Prepared?
    ensures AssertAuthorized(w.db, id).Err? ==> IsVeto(AssertAuthorized(w.db, id).error)
    ensures ReplacesManual(w.db.ownership, w.db.operations[id].delta.upserts) ==> AssertAuthorized(w.db, id).Err?
  {
    hide ReplacesManual, KeysOk, ProcessOk, RowFits, WritesOf;
    assert forall other :: other in w.db.operations && Open(w.db.operations[other]) ==> other == id;
  }

  lemma VetoIsAttested(check: Check, w: World, id: string, choice: Choice)
    requires Inv(check, w) && At(w, id, Stage.Vetoed) && Smooth(choice) && Clear(w.disk)
    ensures Advance(check, w, choice) == w.(process := Running(id, Aborting))
  {
    hide Inv, Attest;
    SessionsAgree(check, w);
  }

  lemma VetoAborts(check: Check, w: World, id: string, choice: Choice)
    requires Sound(check, w) && At(w, id, Aborting)
    ensures if ValidTime(w.clock) then AbortedUnpublished(w, Advance(check, w, choice), id)
      else Untouched(w, Advance(check, w, choice))
  {
    hide Inv, JournalOk, Abort, Leaves, SlotsGivenBack;
    AtIsPrepared(check, w, id);
    AbortIff(w.db, id, w.db.operations[id].expectedSource, w.db.operations[id].intended, w.clock, w.clock);
  }

  lemma AtIsPrepared(check: Check, w: World, id: string)
    requires Inv(check, w) && At(w, id, Aborting)
    ensures w.db.operations[id].phase == Prepared
  {
    hide FileInv, KeysOk;
  }

  lemma EndsVetoed(check: Check, w: World, id: string, choice: Choice)
    requires Sound(check, w) && At(w, id, Starting) && Smooth(choice) && Clear(w.disk)
    requires IsVetoed(w, w.db.operations[id], choice) && !w.db.operations[id].action.Rollback?
    ensures if ValidTime(w.clock) then AbortedUnpublished(w, Drive(check, w, choice, 5), id)
      else Untouched(w, Drive(check, w, choice, 5))
  {
    hide Inv, JournalOk, Advance, ManualRuleAmong, ConsentIsCurrent, Leaves, SlotsGivenBack;
    StartsAttesting(check, w, id, choice);
    var attesting := w.(process := Running(id, Attesting));
    AdvanceKeepsSound(check, w, choice);
    AttestsSource(check, attesting, id, choice);
    var preflighting := w.(process := Running(id, Preflighting));
    AdvanceKeepsSound(check, attesting, choice);
    PreflightVetoes(check, preflighting, id, choice);
    var vetoed := w.(process := Running(id, Stage.Vetoed));
    AdvanceKeepsSound(check, preflighting, choice);
    VetoIsAttested(check, vetoed, id, choice);
    var aborting := w.(process := Running(id, Aborting));
    AdvanceKeepsSound(check, vetoed, choice);
    VetoAborts(check, aborting, id, choice);
    assert Drive(check, w, choice, 5) == Drive(check, attesting, choice, 4) == Drive(check, preflighting, choice, 3)
        == Drive(check, vetoed, choice, 2) == Drive(check, aborting, choice, 1);
    assert Drive(check, aborting, choice, 1) == Drive(check, Advance(check, aborting, choice), choice, 0);
  }

  /** The file has the content when the finalizing transaction is reached, on the first try and on a retry. */
  lemma ReachesFinalizing(check: Check, w: World, id: string, choice: Choice) returns (steps: nat)
    requires Sound(check, w) && At(w, id, Starting) && Smooth(choice) && Clear(w.disk)
    requires w.db.operations[id].phase == Prepared && !w.db.operations[id].action.Rollback?
    requires !IsVetoed(w, w.db.operations[id], choice)
    ensures steps <= 7
    ensures var op, next := w.db.operations[id], Drive(check, w, choice, steps);
      && next.process == Running(id, Finalizing(RevisionOf(op.intended.text), op.intended)) && next.db == w.db
      && next.clock == w.clock && Clear(next.disk) && Sound(check, next)
  {
    hide Inv, JournalOk, Advance, ManualRuleAmong, ReplacesManual, ConsentIsCurrent, AssertAuthorized;
    var op := w.db.operations[id];
    StartsAttesting(check, w, id, choice);
    var attesting := w.(process := Running(id, Attesting));
    AdvanceKeepsSound(check, w, choice);
    FileIsAtSourceOrIntent(check, attesting, id);
    if w.disk.content == op.expectedSource.text {
      steps := 7;
      if op.action.AutomaticAdd? {
        ClashIff(w.db.ownership, op.delta.upserts);
        IsAuthorized(check, attesting, id);
      }
      WritesFromSource(check, attesting, id, choice);
      DriveKeepsSound(check, attesting, choice, 6);
      assert Drive(check, w, choice, 7) == Drive(check, attesting, choice, 6);
    } else {
      steps := 2;
      RetryIsFinalizing(check, attesting, id, choice);
      DriveKeepsSound(check, attesting, choice, 1);
      assert Drive(check, w, choice, 2) == Drive(check, attesting, choice, 1);
      assert Drive(check, attesting, choice, 1) == Drive(check, Advance(check, attesting, choice), choice, 0);
    }
  }

  lemma RefusedAtCommit(check: Check, w: World, id: string, choice: Choice)
    requires Sound(check, w) && id in w.db.operations && !MayCommit(w.db, w.db.operations[id], w.clock)
    requires w.process.Running? && w.process.id == id && w.process.stage.Finalizing?
    ensures PublishedOnly(w, Advance(check, w, choice), w.db.operations[id])
  {
    hide KeysOk, FileInv, JournalOk, MayCommit, Finalize;
    FinalizesIff(check, w);
  }

  lemma EndsRefused(check: Check, w: World, id: string, choice: Choice) returns (steps: nat)
    requires Sound(check, w) && At(w, id, Starting) && Smooth(choice) && Clear(w.disk)
    requires w.db.operations[id].phase == Prepared && !w.db.operations[id].action.Rollback?
    requires !IsVetoed(w, w.db.operations[id], choice) && !MayCommit(w.db, w.db.operations[id], w.clock)
    ensures steps <= 8
    ensures PublishedOnly(w, Drive(check, w, choice, steps), w.db.operations[id])
  {
    hide Sound, Advance, MayCommit, IsVetoed;
    var reached := ReachesFinalizing(check, w, id, choice);
    steps := reached + 1;
    var finalizing := Drive(check, w, choice, reached);
    RefusedAtCommit(check, finalizing, id, choice);
    DriveOn(check, w, choice, reached, 1);
    assert Drive(check, finalizing, choice, 1) == Drive(check, Advance(check, finalizing, choice), choice, 0);
  }

  lemma EndsUnbegun(check: Check, w: World, id: string, choice: Choice)
    requires Sound(check, w) && At(w, id, Starting) && Smooth(choice)
    requires IsWritten(w.db.operations[id].phase) && !CanActivate(w, id)
    ensures Untouched(w, Drive(check, w, choice, 2))
  {
    hide Inv, JournalOk, Advance;
    StartsBeginning(check, w, id, choice);
    var beginning := w.(process := Running(id, Beginning));
    CannotBegin(check, beginning, id, choice);
    assert Drive(check, w, choice, 2) == Drive(check, beginning, choice, 1);
    assert Drive(check, beginning, choice, 1) == Drive(check, Advance(check, beginning, choice), choice, 0);
  }

  lemma CannotBegin(check: Check, w: World, id: string, choice: Choice)
    requires At(w, id, Beginning) && IsWritten(w.db.operations[id].phase) && !CanActivate(w, id)
    ensures Untouched(w, Advance(check, w, choice))
  {
    hide Begin;
    BeginIff(w.db, id, w.clock);
  }

  /** What is left of the cases is what may complete. */
  lemma OtherwiseMayComplete(w: World, id: string, choice: Choice)
    requires id in w.db.operations && Open(w.db.operations[id])
    requires !w.db.operations[id].phase.ReconciliationRequired?
    requires w.db.operations[id].phase.Prepared? ==>
      !w.db.operations[id].action.Rollback? && MayCommit(w.db, w.db.operations[id], w.clock)
    requires !IsVetoed(w, w.db.operations[id], choice) && (IsWritten(w.db.operations[id].phase) ==> CanActivate(w, id))
    ensures MayComplete(w, id)
    ensures w.db.operations[id].phase.Prepared? && w.disk.content == w.db.operations[id].expectedSource.text ==>
      !choice.veto
  {
    hide MayCommit, CanActivate, ConsentIsCurrent, ManualRuleAmong;
  }

  // ---------- What the file holds at the end ----------

  /** A transaction keeps what every row asks for. */
  lemma TransactionKeepsIntent(db: Db, after: Db, now: int, id: string)
    requires JournalOk(db, now) && Indexed(db) && Transacts(db, after, now) && id in db.operations
    ensures id in after.operations && after.operations[id].intended == db.operations[id].intended
  {
    hide JournalTheorems.Apply, Reaches;
    JournalGivesRows(db, now);
    if after != db {
      var text, event: Event :| event.now == now && after == JournalTheorems.Apply(db, text, event);
      EventEvolves(db, text, event);
      assert Evolves(db.operations[id], after.operations[id]);
    }
  }

  /** A step leaves the file alone or publishes the intent of the running operation. */
  lemma AdvancePublishes(check: Check, w: World, choice: Choice)
    requires Inv(check, w) && w.process.Running? && w.process.id in w.db.operations
    ensures var next := Advance(check, w, choice);
      SameFile(w, next) || next.disk.content == w.db.operations[w.process.id].intended.text
  {
    hide KeysOk, FileInv, Start, AttestStep, Preflight, VetoStep, AbortStep, CommitStep, WriteStep, PublishStep,
        FinalizeStep,
      BeginStep, CheckStep, EndStep;
  }

  lemma {:induction false} DrivePublishes(check: Check, w: World, choice: Choice, steps: nat, id: string)
    requires Sound(check, w) && id in w.db.operations && (w.process.Running? ==> w.process.id == id)
    ensures var next := Drive(check, w, choice, steps);
      && id in next.db.operations && next.db.operations[id].intended == w.db.operations[id].intended
      && (SameFile(w, next) || next.disk.content == w.db.operations[id].intended.text)
    decreases steps
  {
    hide Inv, JournalOk, Advance, Transacts;
    if steps > 0 {
      SoundIsIndexed(check, w);
      AdvanceTransacts(check, w, choice);
      TransactionKeepsIntent(w.db, Advance(check, w, choice).db, w.clock, id);
      AdvanceKeepsSound(check, w, choice);
      if w.process.Running? {
        AdvancePublishes(check, w, choice);
        AdvanceTouchesOneRow(check, w, choice, id + "+");
      } else {
        IdleStays(check, w, choice);
      }
      DrivePublishes(check, Advance(check, w, choice), choice, steps - 1, id);
    }
  }

  /** A written row was published once, and while it is open the file holds its content and what is owned. */
  lemma WrittenIsPublished(check: Check, w: World, id: string)
    requires Inv(check, w) && id in w.db.operations
    requires w.db.operations[id].phase.Completed? || IsWritten(w.db.operations[id].phase)
    ensures Count(w.writes, id) == 1
    ensures IsWritten(w.db.operations[id].phase) ==>
      w.disk.content == w.db.operations[id].intended.text && Managed(check, w.disk.content) == w.db.ownership.Keys
  {
    hide Count, IntentOk;
    WritesAt(check, w, id);
    RowAt(check, w, id);
  }

  /** A prepared operation whose source is in the file was not published. */
  lemma UnwrittenAtStart(check: Check, w: World, id: string)
    requires Inv(check, w) && id in w.db.operations && Open(w.db.operations[id])
    requires !w.db.operations[id].phase.ReconciliationRequired?
    ensures w.disk.content == w.db.operations[id].intended.text || Count(w.writes, id) == 0
  {
    hide Count, IntentOk;
    WritesAt(check, w, id);
    RowAt(check, w, id);
  }

  lemma EndsApplied(check: Check, w: World, id: string, choice: Choice) returns (steps: nat)
    requires Sound(check, w) && At(w, id, Starting) && Smooth(choice) && Clear(w.disk) && MayComplete(w, id)
    requires w.db.operations[id].phase.Prepared? && w.disk.content == w.db.operations[id].expectedSource.text ==>
      !choice.veto
    ensures steps <= 13
    ensures Applied(check, w, Drive(check, w, choice, steps), id, choice.outcome)
  {
    hide Inv, JournalOk, MayComplete, Drive, Count, Open, Managed;
    steps := CompletesFromStart(check, w, id, choice);
    var next := Drive(check, w, choice, steps);
    DriveKeepsSound(check, w, choice, steps);
    OpenAtStart(w, id);
    NotReconciling(w, id);
    WrittenIsPublished(check, next, id);
    UnwrittenAtStart(check, w, id);
    DrivePublishes(check, w, choice, steps, id);
    if choice.outcome.Succeeds? {
      CompletedIsClosed(next, id);
      NoneOpenAfter(check, w, choice, steps, id);
      SettledAgrees(check, next);
    }
  }

  lemma NotReconciling(w: World, id: string)
    requires MayComplete(w, id)
    ensures !w.db.operations[id].phase.ReconciliationRequired?
  {
    hide MayCommit, CanActivate;
  }

  lemma CompletedIsClosed(w: World, id: string)
    requires id in w.db.operations && w.db.operations[id].phase.Completed?
    ensures !Open(w.db.operations[id])
  {
  }

  // ---------- The theorem ----------

  /** Whatever happened before: one execution in which no call fails ends in at most 13 steps, as the table of cases says. */
  lemma ExecutionEndsAs(check: Check, w: World, id: string, choice: Choice) returns (steps: nat)
    requires Sound(check, w) && At(w, id, Starting) && Open(w.db.operations[id]) && Smooth(choice) && Clear(w.disk)
    ensures steps <= 13
    ensures EndsAs(check, w, id, choice, Drive(check, w, choice, steps))
  {
    hide Sound, Drive, MayCommit, CanActivate, IsVetoed, Untouched, AbortedUnpublished, PublishedOnly, Applied,
        MayComplete, Smooth;
    var op := w.db.operations[id];
    if op.phase.ReconciliationRequired? || (op.phase.Prepared? && op.action.Rollback?) {
      StopsAtStart(check, w, id, choice);
      steps := 1;
    } else if IsVetoed(w, op, choice) {
      VetoedIsPrepared(w, op, choice);
      EndsVetoed(check, w, id, choice);
      steps := 5;
    } else if op.phase.Prepared? && !MayCommit(w.db, op, w.clock) {
      steps := EndsRefused(check, w, id, choice);
    } else if IsWritten(op.phase) && !CanActivate(w, id) {
      EndsUnbegun(check, w, id, choice);
      steps := 2;
    } else {
      OtherwiseMayComplete(w, id, choice);
      steps := EndsApplied(check, w, id, choice);
    }
  }

  lemma VetoedIsPrepared(w: World, op: Operation, choice: Choice)
    requires IsVetoed(w, op, choice)
    ensures op.phase == Prepared
  {
    hide ManualRuleAmong, ConsentIsCurrent;
  }

  lemma SoundGivesInv(check: Check, w: World)
    requires Sound(check, w)
    ensures Inv(check, w)
  {
  }

  // ---------- Completion ----------

  /** An execution that came to rest stays as it is. */
  lemma {:induction false} RestIsFinal(check: Check, w: World, choice: Choice, steps: nat)
    requires !w.process.Running?
    ensures Drive(check, w, choice, steps) == w
    decreases steps
  {
    hide Advance;
    if steps > 0 {
      IdleStays(check, w, choice);
      RestIsFinal(check, w, choice, steps - 1);
    }
  }

  /** Two lengths of one execution at which it rests show the same state. */
  lemma RestsAlike(check: Check, w: World, choice: Choice, a: nat, b: nat)
    requires !Drive(check, w, choice, a).process.Running? && !Drive(check, w, choice, b).process.Running?
    ensures Drive(check, w, choice, a) == Drive(check, w, choice, b)
  {
    hide Drive;
    var first, more := if a <= b then a else b, if a <= b then b - a else a - b;
    DriveOn(check, w, choice, first, more);
    RestIsFinal(check, Drive(check, w, choice, first), choice, more);
  }

  lemma EndsAtRest(check: Check, w: World, id: string, choice: Choice, next: World)
    requires id in w.db.operations && EndsAs(check, w, id, choice, next)
    ensures next.process.Idle?
  {
    hide IsVetoed, MayCommit, CanActivate, Managed, Count, Leaves, SlotsGivenBack;
  }

  lemma EndsDoneIff(check: Check, w: World, id: string, choice: Choice, next: World)
    requires id in w.db.operations && Open(w.db.operations[id]) && Undisturbed(choice) && EndsAs(check, w, id, choice, next)
    ensures IsDone(next, id) <==> MayComplete(w, id)
  {
    hide MayCommit, CanActivate, Managed, Count, SlotsGivenBack, ReplacesManual, CommitAuthorized;
    ClashIff(w.db.ownership, w.db.operations[id].delta.upserts);
    ClashBarsCommit(w.db, w.db.operations[id], w.clock);
  }

  lemma ClashBarsCommit(db: Db, op: Operation, now: int)
    ensures op.action.AutomaticAdd? && ReplacesManual(db.ownership, op.delta.upserts) ==> !MayCommit(db, op, now)
  {
    hide ReplacesManual, CommitAuthorized;
  }

  lemma RunningIsNotDone(check: Check, w: World, id: string)
    requires Inv(check, w) && w.process.Running? && w.process.id == id && !w.process.stage.Starting?
    ensures !IsDone(w, id)
  {
    hide KeysOk, FileInv;
  }

  lemma LeavesStart(check: Check, w: World, choice: Choice)
    ensures Advance(check, w, choice).process.Running? ==>
      w.process.Running? && Advance(check, w, choice).process.id == w.process.id && !Advance(check, w, choice).process.stage.Starting?
  {
    hide Session, Attest, AttestWritten, Commit, ReadFile, Finalize, Begin, Complete, Abort, Mark, AssertAuthorized;
  }

  lemma {:induction false} DriveStaysWith(check: Check, w: World, choice: Choice, steps: nat, id: string)
    requires w.process.Running? ==> w.process.id == id
    ensures Drive(check, w, choice, steps).process.Running? ==> Drive(check, w, choice, steps).process.id == id
    ensures steps > 0 && Drive(check, w, choice, steps).process.Running? ==>
      !Drive(check, w, choice, steps).process.stage.Starting?
    decreases steps
  {
    hide Advance;
    if steps > 0 {
      LeavesStart(check, w, choice);
      DriveStaysWith(check, Advance(check, w, choice), choice, steps - 1, id);
    }
  }

  /** An undisturbed execution of an open operation completes it, however many steps it is given, if and only if the guards hold. */
  lemma CompletesIff(check: Check, w: World, id: string, choice: Choice)
    requires Sound(check, w) && At(w, id, Starting) && Open(w.db.operations[id]) && Undisturbed(choice) && Clear(w.disk)
    ensures (exists steps: nat :: IsDone(Drive(check, w, choice, steps), id)) <==> MayComplete(w, id)
  {
    hide Sound, Drive, MayComplete, EndsAs;
    var end := ExecutionEndsAs(check, w, id, choice);
    EndsAtRest(check, w, id, choice, Drive(check, w, choice, end));
    EndsDoneIff(check, w, id, choice, Drive(check, w, choice, end));
    forall steps: nat | IsDone(Drive(check, w, choice, steps), id) ensures MayComplete(w, id) {
      DriveKeepsSound(check, w, choice, steps);
      SoundGivesInv(check, Drive(check, w, choice, steps));
      if !Drive(check, w, choice, steps).process.Running? {
        RestsAlike(check, w, choice, steps, end);
      } else {
        NotDoneWhileRunning(check, w, id, choice, steps);
      }
    }
  }

  /** While it runs, an execution of an open operation has not completed it. */
  lemma NotDoneWhileRunning(check: Check, w: World, id: string, choice: Choice, steps: nat)
    requires Inv(check, Drive(check, w, choice, steps)) && At(w, id, Starting) && Open(w.db.operations[id])
    requires Drive(check, w, choice, steps).process.Running?
    ensures !IsDone(Drive(check, w, choice, steps), id)
  {
    hide Inv, Advance;
    DriveStaysWith(check, w, choice, steps, id);
    if steps > 0 {
      RunningIsNotDone(check, Drive(check, w, choice, steps), id);
    }
  }
}
