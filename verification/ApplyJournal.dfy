/**
 The tables of the apply protocol are a run of the journal: budgets, constraints and candidates hold in every
 reachable state. From this follows exactly when a published operation can be finalized, and what happens when not.
 */
module ApplyJournal {
  import opened Wrappers
  import RuleText
  import opened Journal
  import opened JournalTheorems
  import opened ApplyProtocol
  import opened ApplySafety

  /** What every reachable state satisfies: the protocol's invariant, and the journal's at the current time. */
  ghost predicate Sound(check: Check, w: World) {
    Inv(check, w) && JournalOk(w.db, w.clock)
  }

  // ---------- Every step is a journal transaction ----------

  /** Either the tables stay, or one transaction at `now` ran. */
  ghost predicate Transacts(db: Db, after: Db, now: int)
    requires Indexed(db)
  {
    after == db || exists text, event: Event :: event.now == now && after == JournalTheorems.Apply(db, text, event)
  }

  lemma ByEvent(db: Db, text: Text, event: Event)
    requires Indexed(db)
    ensures Transacts(db, JournalTheorems.Apply(db, text, event), event.now)
  {
  }

  const NO_TEXT := Text((id: string) => false, (rule: string) => false, (candidate: string) => false)

  lemma FailSessionTransacts(w: World, id: string, error: RuleText.StoreError)
    requires Indexed(w.db)
    ensures Transacts(w.db, FailSession(w, id, error).db, w.clock)
  {
    hide Mark;
    ByEvent(w.db, NO_TEXT, MarkEvent(id, w.clock));
  }

  lemma SessionTransacts(check: Check, w: World, choice: Choice)
    requires Indexed(w.db) && w.process.Running?
    requires w.process.stage.Attesting? || w.process.stage.Vetoed? || w.process.stage.Committing? || w.process.stage.Renamed?
      || w.process.stage.Checking? || w.process.stage.Rechecking?
    ensures Transacts(w.db, Advance(check, w, choice).db, w.clock)
  {
    hide Session, Attest, AttestWritten, Commit, ReadFile, Transacts, FailSession;
    var read := w.(disk := DiskAfter(w.disk, choice.faults));
    forall error: RuleText.StoreError ensures Transacts(w.db, FailSession(read, w.process.id, error).db, w.clock) {
      FailSessionTransacts(read, w.process.id, error);
    }
    var released := w.(disk := Unlock(w.disk, choice.faults));
    FailSessionTransacts(released, w.process.id, RuleText.ReconciliationRequired);
    Stays(w.db, w.clock);
  }

  lemma Stays(db: Db, now: int)
    requires Indexed(db)
    ensures Transacts(db, db, now)
  {
  }

  lemma TransactionTransacts(check: Check, w: World, choice: Choice)
    requires Indexed(w.db) && w.process.Running?
    requires w.process.stage.Aborting? || w.process.stage.Finalizing? || w.process.stage.Beginning?
      || w.process.stage.Ending?
    ensures Transacts(w.db, Advance(check, w, choice).db, w.clock)
  {
    hide Abort, Finalize, Begin, Complete, Transacts;
    Stays(w.db, w.clock);
    var id := w.process.id;
    if id in w.db.operations {
      match w.process.stage
      case Aborting =>
        ByEvent(w.db, NO_TEXT, AbortEvent(id, w.db.operations[id].expectedSource, w.db.operations[id].intended,
            w.clock));
      case Finalizing(revision, digest) => ByEvent(w.db, NO_TEXT, FinalizeEvent(id, revision, digest, w.clock));
      case Beginning => ByEvent(w.db, NO_TEXT, BeginEvent(id, w.clock));
      case Ending(attempt, outcome) => ByEvent(w.db, NO_TEXT, CompleteEvent(id, attempt, outcome, w.clock));
    }
  }

  lemma AdvanceTransacts(check: Check, w: World, choice: Choice)
    requires Indexed(w.db)
    ensures Transacts(w.db, Advance(check, w, choice).db, w.clock) && Advance(check, w, choice).clock == w.clock
  {
    hide Session, Attest, AttestWritten, Commit, ReadFile, Transacts, Abort, Finalize, Begin, Complete,
      AssertAuthorized, Mark, AfterOr;
    Stays(w.db, w.clock);
    if w.process.Running? {
      var stage := w.process.stage;
      if stage.Attesting? || stage.Vetoed? || stage.Committing? || stage.Renamed? || stage.Checking? || stage.Rechecking? {
        SessionTransacts(check, w, choice);
      } else if stage.Aborting? || stage.Finalizing? || stage.Beginning? || stage.Ending? {
        TransactionTransacts(check, w, choice);
      }
    }
  }

  lemma SubmitTransacts(check: Check, w: World, text: Text, input: PrepareInput, faults: Faults)
    requires Indexed(w.db)
    ensures Transacts(w.db, SubmitStep(check, w, text, input, faults).db, w.clock)
    ensures SubmitStep(check, w, text, input, faults).clock == w.clock
  {
    hide Session, Intent, Prepare, Transacts;
    Stays(w.db, w.clock);
    var intent := Session(w.disk, faults, Intent(check, w.disk, input.delta));
    if intent.Ok? {
      var prepared := input.(expectedSource := RevisionOf(w.disk.content), intended := Sha256(intent.value));
      ByEvent(w.db, text, PrepareEvent(prepared, w.clock));
    }
  }

  lemma EnvironmentTransacts(check: Check, w: World, event: ProtocolEvent)
    requires Indexed(w.db) && event.Environment?
    ensures Transacts(w.db, Step(check, w, event).db, w.clock)
  {
    hide Transacts;
    ByEvent(w.db, NO_TEXT, EnvironmentEvent(
      event.candidates, event.decisions, event.settings, event.activeConsent, event.runningValidations, w.clock));
  }

  lemma StepTransacts(check: Check, w: World, event: ProtocolEvent)
    requires Indexed(w.db)
    ensures Transacts(w.db, Step(check, w, event).db, w.clock) && w.clock <= Step(check, w, event).clock
  {
    hide Advance, SubmitStep, Transacts, NoneOpen;
    Stays(w.db, w.clock);
    match event
    case Submit(text, input, faults) => SubmitTransacts(check, w, text, input, faults);
    case Proceed(choice) => AdvanceTransacts(check, w, choice);
    case Environment(_, _, _, _, _) => EnvironmentTransacts(check, w, event);
    case _ =>
  }

  lemma TransactionKeepsJournal(db: Db, after: Db, now: int, later: int)
    requires JournalOk(db, now) && Indexed(db) && Transacts(db, after, now) && now <= later
    ensures JournalOk(after, later)
  {
    hide JournalTheorems.Apply, KeysOk, AllRowsOk, SoleUnfinished, BudgetsAgree;
    if after != db {
      var text, event: Event :| event.now == now && after == JournalTheorems.Apply(db, text, event);
      EventKeepsJournal(db, text, event, now);
    }
    LaterRowsOk(after.operations, now, later);
  }

  /** Every step of the protocol keeps the journal's invariant beside its own. */
  lemma StepKeepsSound(check: Check, w: World, event: ProtocolEvent)
    requires Sound(check, w)
    ensures Indexed(w.db) && Sound(check, Step(check, w, event))
  {
    hide Inv, JournalOk, Step, Transacts;
    StepKeeps(check, w, event);
    StepTransacts(check, w, event);
    TransactionKeepsJournal(w.db, Step(check, w, event).db, w.clock, Step(check, w, event).clock);
  }

  lemma AdvanceKeepsSound(check: Check, w: World, choice: Choice)
    requires Sound(check, w)
    ensures Sound(check, Advance(check, w, choice))
  {
    hide Inv, JournalOk, Advance;
    SoundIsIndexed(check, w);
    StepKeepsSound(check, w, Proceed(choice));
  }

  lemma SoundIsIndexed(check: Check, w: World)
    requires Sound(check, w)
    ensures Indexed(w.db)
  {
    hide FileInv, AllRowsOk, SoleUnfinished, BudgetsAgree;
    KeysGiveIndex(w.db);
  }

  /**
   Over every run of the protocol the constraints, the sole unfinished operation per candidate and the budget hold.
   */
  lemma {:induction false} RunKeepsSound(check: Check, w: World, events: seq<ProtocolEvent>)
    requires Sound(check, w)
    ensures Sound(check, ProtocolRun(check, w, events))
    decreases |events|
  {
    hide Inv, JournalOk, Step;
    if events != [] {
      StepKeepsSound(check, w, events[0]);
      RunKeepsSound(check, Step(check, w, events[0]), events[1..]);
    }
  }

  lemma InitialIsSound(check: Check, content: string, clock: int)
    requires RuleText.ManagedRules(check, content) == Ok([])
    ensures Sound(check, World(EMPTY, Disk(content, false, None), Down, clock, map[]))
  {
    hide Inv, JournalOk, RuleText.ManagedRules;
    InitialInv(check, content, clock);
    EmptyIsOk(clock);
  }

  // ---------- When a published operation is finalized ----------

  /** The guards of the finalizing transaction that the invariants leave open. */
  predicate MayCommit(db: Db, op: Operation, now: int) {
    && ValidTime(now)
    && CommitAuthorized(db, op)
    && !(op.action.AutomaticAdd? && ReplacesManual(db.ownership, op.delta.upserts))
  }

  lemma ReservedFor(db: Db, id: string, now: int)
    requires JournalOk(db, now) && id in db.operations && db.operations[id].phase.Prepared?
    ensures ReservationPresent(db, db.operations[id])
  {
    hide DayAgrees, KeysOk, SoleUnfinished;
    var op := db.operations[id];
    assert RowOk(op, now);
    if op.budgetDay.Some? {
      assert DayAgrees(db.operations, db.budgets, op.budgetDay.value);
      SlotIsReserved(db.operations, db.budgets, id);
    }
  }

  /** An execution that reached the transaction commits exactly under these guards: everything else it checks holds. */
  lemma FinalizesIff(check: Check, w: World)
    requires Sound(check, w) && w.process.Running? && w.process.stage.Finalizing?
    ensures w.process.id in w.db.operations
    ensures Finalize(w.db, w.process.id, w.process.stage.revision, w.process.stage.digest, w.clock).Ok?
      <==> MayCommit(w.db, w.db.operations[w.process.id], w.clock)
  {
    hide KeysOk, FileInv, AllRowsOk, SoleUnfinished, BudgetsAgree, CommitAuthorized, ReplacesManual, ReservationPresent,
      FinalizedDb, IntentOk;
    var id := w.process.id;
    ReservedFor(w.db, id, w.clock);
    RowAt(check, w, id);
    IntentDiffers(check, w.db.operations[id]);
  }

  lemma CommitsRow(check: Check, w: World)
    requires Inv(check, w) && w.process.Running? && w.process.stage.Finalizing? && w.process.id in w.db.operations
    requires Finalize(w.db, w.process.id, w.process.stage.revision, w.process.stage.digest, w.clock).Ok?
    ensures var op := w.db.operations[w.process.id];
      var after := Finalize(w.db, w.process.id, w.process.stage.revision, w.process.stage.digest, w.clock).value.db;
      && w.process.id in after.operations
      && after.operations[w.process.id] == Written(op, RevisionOf(op.intended.text), op.intended, w.clock)
      && after.ownership == OwnershipAfter(w.db, op, RevisionOf(op.intended.text), w.clock)
  {
    hide FileInv, CommitAuthorized, ReplacesManual, CandidatesAfter, DecisionsAfter, OwnershipAfter, ReservationPresent,
      ConsumeSlot, Indexed;
    KeysOfRow(w.db, w.process.id);
  }

  /**
   A retry that finds its content published never writes again. It finalizes if and only if the clock is valid, the
   candidate is still authorized, and no automatic rule would replace a manual one. Otherwise nothing changes at all.
   */
  lemma RetryFinalizes(check: Check, w: World, choice: Choice, other: Choice)
    requires Sound(check, w) && w.process.Running? && w.process.stage.Attesting? && Healthy(w.disk, choice.faults)
    requires Moved(w.disk.content, w.db.operations[w.process.id])
    ensures var id, op := w.process.id, w.db.operations[w.process.id];
      var next := Advance(check, Advance(check, w, choice), other);
      && next.disk == w.disk && next.writes == w.writes && id in next.db.operations
      && (if MayCommit(w.db, op, w.clock) then
            && next.process == Running(id, Beginning)
            && next.db.operations[id] == Written(op, RevisionOf(op.intended.text), op.intended, w.clock)
            && next.db.ownership == OwnershipAfter(w.db, op, RevisionOf(op.intended.text), w.clock)
          else next == w.(process := Idle))
  {
    hide Inv, JournalOk, MayCommit, Finalize, AttestStep, OwnershipAfter, Written;
    RetryFindsItsContent(check, w, choice);
    var finalizing := Advance(check, w, choice);
    AdvanceKeepsSound(check, w, choice);
    FinalizesIff(check, finalizing);
    if MayCommit(w.db, w.db.operations[w.process.id], w.clock) {
      CommitsRow(check, finalizing);
    }
  }
}
