/**
 The whole apply system: the worker decides what runs, and what runs are the steps of the protocol. The worker admits
 a new operation only while none is open, so every run of the system is a run of the protocol, without assumption.
 */
module ApplySystem {
  import opened Wrappers
  import RuleText
  import opened Journal
  import opened JournalTheorems
  import opened ApplyProtocol
  import opened ApplySafety
  import opened ApplyJournal
  import Recovery = ApplyRecovery
  import Worker = ApplyWorker
  import WorkerTheorems
  import opened WorkerJournal

  /** The worker, the tables and the file; `ran` says that the execution the worker waits for has been started. */
  datatype System = System(worker: Worker.Worker, world: World, ran: bool)

  datatype SystemEvent =
    | WorkerStep(call: Worker.Event)
    | WorldStep(event: ProtocolEvent)
    | PrepareOperation(text: Text, input: PrepareInput, faults: Faults)
    | PrepareFails
    | ExecutionStarts
    | ExecutionProceeds(choice: Choice)
    | ExecutionThrows
    | ExecutionEnds(execution: Worker.Execution)
    | ProcessCrashes(lockLeft: bool, enabled: bool)
    | ProcessRestarts

  /** What happens outside the worker: time passes, an operator clears leftovers, other modules write their tables. */
  predicate OutsideStep(event: ProtocolEvent) {
    event.Tick? || event.ClearLock? || event.ClearTemporary? || event.Environment?
  }

  /** The operation that a preparation returns to the worker, if it does not throw. */
  function Submitted(check: Check, w: World, text: Text, input: PrepareInput, faults: Faults): Option<string>
    requires Indexed(w.db)
  {
    var intent := Session(w.disk, faults, Intent(check, w.disk, input.delta));
    if intent.Err? then None
    else
      var prepared := Prepare(
        w.db, text, input.(expectedSource := RevisionOf(w.disk.content), intended := Sha256(intent.value)), w.clock);
      if prepared.Ok? then Some(prepared.value.value.operation.id) else None
  }

  /** The journal as a new process finds it. */
  function Stored(s: System): map<string, Phase> {
    if s.ran && s.worker.activity.Executing? && s.worker.activity.id in s.world.db.operations
    then s.worker.journal[s.worker.activity.id := s.world.db.operations[s.worker.activity.id].phase]
    else s.worker.journal
  }

  /** The execution that the worker waits for is over, and its result tells the phase of the row. */
  predicate Ended(s: System, execution: Worker.Execution) {
    && s.worker.activity.Executing? && s.ran && s.world.process.Idle? && Worker.ReturnsTerminal(execution)
    && s.worker.activity.id in s.world.db.operations
    && execution.phase == s.world.db.operations[s.worker.activity.id].phase
  }

  /** One step of the system; an event that does not apply changes nothing. */
  function SystemStep(check: Check, s: System, event: SystemEvent): System
    requires Indexed(s.world.db)
  {
    var up := !s.world.process.Down?;
    match event
    case WorkerStep(e) => if up && OwnStep(e) then s.(worker := Worker.Step(s.worker, e)) else s
    case WorldStep(e) => if OutsideStep(e) then s.(world := Step(check, s.world, e)) else s
    case PrepareOperation(text, input, faults) =>
      if up && s.worker.activity.Preparing? then
        System(
          Worker.Step(s.worker, Worker.PrepareEnds(Submitted(check, s.world, text, input, faults))),
          SubmitStep(check, s.world, text, input, faults), false)
      else s
    case PrepareFails =>
      if up && s.worker.activity.Preparing? then s.(worker := Worker.Step(s.worker, Worker.PrepareEnds(None))) else s
    case ExecutionStarts =>
      if up && s.worker.activity.Executing? && !s.ran then
        s.(world := Step(check, s.world, ProtocolEvent.Execute(s.worker.activity.id)), ran := true)
      else s
    case ExecutionProceeds(choice) => s.(world := Step(check, s.world, Proceed(choice)))
    case ExecutionThrows => s.(world := Step(check, s.world, Throw))
    case ExecutionEnds(execution) =>
      if Ended(s, execution) then s.(worker := Worker.Step(s.worker, Worker.ExecuteEnds(execution)), ran := false)
          else s
    case ProcessCrashes(lockLeft, enabled) =>
      System(Worker.Initial(enabled, Stored(s)), Step(check, s.world, Crash(lockLeft)), false)
    case ProcessRestarts => s.(world := Step(check, s.world, Restart))
  }

  // ---------- What couples the two ----------

  /** The worker sees the phases of the journal, but for the operation that is being executed. */
  predicate SeesPhase(s: System, id: string) {
    && (id in s.worker.journal <==> id in s.world.db.operations)
    && (id in s.world.db.operations && !(s.ran && s.worker.activity.Executing? && s.worker.activity.id == id) ==>
          s.worker.journal[id] == s.world.db.operations[id].phase)
  }

  /** Only the operation that the worker waits for is executed. */
  predicate RunsForWorker(s: System) {
    && (s.world.process.Running? ==>
      s.ran && s.worker.activity.Executing? && s.world.process.id == s.worker.activity.id)
    && (s.ran ==> s.worker.activity.Executing?)
  }

  ghost predicate Coupled(s: System) {
    (forall id: string :: SeesPhase(s, id)) && Known(s.worker.journal, s.worker.activity) && RunsForWorker(s)
  }

  ghost predicate SystemInv(check: Check, s: System) {
    Sound(check, s.world) && WorkerTheorems.Inv(s.worker) && Coupled(s)
  }

  // ---------- The world of a step is a step of the protocol ----------

  /** No operation is open while the worker prepares, and nothing is executed. */
  lemma PreparesWhenNoneOpen(check: Check, s: System)
    requires SystemInv(check, s) && s.worker.activity.Preparing?
    ensures NoneOpen(s.world.db.operations) && !s.world.process.Running?
  {
    hide Sound, WorkerTheorems.Clean;
    WorkerTheorems.CleanAtRest(s.worker);
    forall id | id in s.world.db.operations ensures !Open(s.world.db.operations[id]) {
      assert SeesPhase(s, id);
    }
  }

  /** The protocol event that a step of the system is, if it is one. */
  function ProtocolPart(s: System, event: SystemEvent): Option<ProtocolEvent> {
    var up := !s.world.process.Down?;
    match event
    case WorkerStep(_) => None
    case WorldStep(e) => if OutsideStep(e) then Some(e) else None
    case PrepareOperation(text, input, faults) =>
      if up && s.worker.activity.Preparing? then Some(ProtocolEvent.Submit(text, input, faults)) else None
    case PrepareFails => None
    case ExecutionStarts =>
      if up && s.worker.activity.Executing? && !s.ran then Some(ProtocolEvent.Execute(s.worker.activity.id)) else None
    case ExecutionProceeds(choice) => Some(Proceed(choice))
    case ExecutionThrows => Some(Throw)
    case ExecutionEnds(_) => None
    case ProcessCrashes(lockLeft, _) => Some(Crash(lockLeft))
    case ProcessRestarts => Some(Restart)
  }

  /** Whenever the worker prepares, the protocol's own condition for a submission holds: it is never skipped. */
  lemma StepIsProtocolStep(check: Check, s: System, event: SystemEvent)
    requires SystemInv(check, s) && Indexed(s.world.db)
    ensures SystemStep(check, s, event).world ==
      match ProtocolPart(s, event) case None => s.world case Some(e) => Step(check, s.world, e)
  {
    hide SystemInv, Advance, SubmitStep, Submitted, Worker.Step, NoneOpen, OutsideStep;
    if event.PrepareOperation? && s.worker.activity.Preparing? {
      PreparesWhenNoneOpen(check, s);
    }
  }

  lemma StepKeepsWorld(check: Check, s: System, event: SystemEvent)
    requires SystemInv(check, s)
    ensures Indexed(s.world.db) && Sound(check, SystemStep(check, s, event).world)
  {
    hide Sound, WorkerTheorems.Inv, Coupled, Step, SystemStep, ProtocolPart;
    SoundIsIndexed(check, s.world);
    StepIsProtocolStep(check, s, event);
    match ProtocolPart(s, event)
    case None =>
    case Some(e) => StepKeepsSound(check, s.world, e);
  }

  lemma StepKeepsWorker(check: Check, s: System, event: SystemEvent)
    requires WorkerTheorems.Inv(s.worker) && Indexed(s.world.db)
    ensures WorkerTheorems.Inv(SystemStep(check, s, event).worker)
  {
    hide WorkerTheorems.Inv, Worker.Step, Step, SubmitStep, Submitted, Stored, Worker.Initial;
    match event
    case WorkerStep(e) => WorkerTheorems.StepKeeps(s.worker, e);
    case PrepareOperation(text, input, faults) =>
      WorkerTheorems.StepKeeps(s.worker, Worker.PrepareEnds(Submitted(check, s.world, text, input, faults)));
    case PrepareFails => WorkerTheorems.StepKeeps(s.worker, Worker.PrepareEnds(None));
    case ExecutionEnds(execution) => WorkerTheorems.StepKeeps(s.worker, Worker.ExecuteEnds(execution));
    case ProcessCrashes(_, enabled) => WorkerTheorems.InitialInv(enabled, Stored(s));
    case _ =>
  }

  // ---------- The coupling ----------

  lemma WorkerStepCouples(check: Check, s: System, event: Worker.Event)
    requires Coupled(s) && Indexed(s.world.db)
    ensures Coupled(SystemStep(check, s, WorkerStep(event)))
  {
    hide Worker.Step, Known;
    if !s.world.process.Down? && OwnStep(event) {
      OwnStepKeeps(s.worker, event);
      var next := s.(worker := Worker.Step(s.worker, event));
      forall id: string ensures SeesPhase(next, id) {
        assert SeesPhase(s, id);
      }
    }
  }

  lemma EndCouples(check: Check, s: System, execution: Worker.Execution)
    requires Coupled(s) && Indexed(s.world.db)
    ensures Coupled(SystemStep(check, s, ExecutionEnds(execution)))
  {
    hide Worker.EndExecution, Known;
    if Ended(s, execution) {
      ExecutionOutcome(s.worker, execution);
      var next := s.(worker := Worker.EndExecution(s.worker, execution), ran := false);
      forall id: string ensures SeesPhase(next, id) {
        assert SeesPhase(s, id);
      }
    }
  }

  lemma PrepareFailureCouples(check: Check, s: System)
    requires Coupled(s) && Indexed(s.world.db)
    ensures Coupled(SystemStep(check, s, PrepareFails))
  {
    hide Worker.EndPrepare, Known;
    if s.worker.activity.Preparing? {
      PreparationOutcome(s.worker, None);
      var next := s.(worker := Worker.EndPrepare(s.worker, None));
      forall id: string ensures SeesPhase(next, id) {
        assert SeesPhase(s, id);
      }
    }
  }

  /** What a preparation does to the rows: nothing, or it adds the prepared row that it returns. */
  lemma SubmittedRow(check: Check, w: World, text: Text, input: PrepareInput, faults: Faults)
    requires KeysOk(w.db) && Indexed(w.db)
    ensures var id := Submitted(check, w, text, input, faults);
      var next := SubmitStep(check, w, text, input, faults);
      && next.process == w.process
      && (id.None? || id.value in w.db.operations ==> next.db.operations == w.db.operations)
      && (id.Some? && id.value !in w.db.operations ==>
            id.value in next.db.operations && next.db.operations[id.value].phase.Prepared?
            && next.db.operations == w.db.operations[id.value := next.db.operations[id.value]])
  {
    hide Session, Intent, Prepare;
    var intent := Session(w.disk, faults, Intent(check, w.disk, input.delta));
    if intent.Ok? {
      var prepared := input.(expectedSource := RevisionOf(w.disk.content), intended := Sha256(intent.value));
      if Prepare(w.db, text, prepared, w.clock).Ok? {
        PreparedRow(w.db, text, prepared, w.clock);
      }
    }
  }

  lemma PreparedRow(db: Db, text: Text, input: PrepareInput, now: int)
    requires KeysOk(db) && Indexed(db) && Prepare(db, text, input, now).Ok?
    ensures var after := Prepare(db, text, input, now).value;
      var op := after.value.operation;
      if op.id in db.operations then after.db.operations == db.operations
      else op.phase.Prepared? && after.db.operations == db.operations[op.id := op]
  {
    hide ValidInput, IntentMatches, Recheck, NeedsReconciliation, ReplacesManual, CandidateAvailable, RollbackAttested,
      Reserve, UtcDay;
    if input.idempotencyKey in db.byKey {
      assert KeyOk(db, db.byKey[input.idempotencyKey], db.operations[db.byKey[input.idempotencyKey]]);
    }
  }

  lemma PrepareCouples(check: Check, s: System, text: Text, input: PrepareInput, faults: Faults)
    requires Coupled(s) && Indexed(s.world.db) && KeysOk(s.world.db)
    ensures Coupled(SystemStep(check, s, PrepareOperation(text, input, faults)))
  {
    hide Worker.EndPrepare, Known, Submitted, SubmitStep, KeysOk;
    if s.worker.activity.Preparing? && !s.world.process.Down? {
      var returned := Submitted(check, s.world, text, input, faults);
      SubmittedRow(check, s.world, text, input, faults);
      PreparationOutcome(s.worker, returned);
      var next := SystemStep(check, s, PrepareOperation(text, input, faults));
      assert SeesPhase(s, if returned.Some? then returned.value else "");
      forall id: string ensures SeesPhase(next, id) {
        assert SeesPhase(s, id);
      }
    }
  }

  /** An execution leaves every other row as it is and keeps its own. */
  lemma AdvanceCouples(check: Check, s: System, choice: Choice)
    requires Sound(check, s.world) && Coupled(s) && Indexed(s.world.db)
    ensures Coupled(SystemStep(check, s, ExecutionProceeds(choice)))
  {
    hide Inv, JournalOk, Advance, Known;
    var next := SystemStep(check, s, ExecutionProceeds(choice));
    if s.world.process.Running? {
      AdvanceKeepsRow(check, s.world, choice);
      forall id: string ensures SeesPhase(next, id) {
        assert SeesPhase(s, id);
        if id != s.world.process.id {
          Recovery.AdvanceTouchesOneRow(check, s.world, choice, id);
        }
      }
      Recovery.AdvanceTouchesOneRow(check, s.world, choice, s.world.process.id + "+");
    } else {
      Recovery.IdleStays(check, s.world, choice);
    }
  }

  lemma AdvanceKeepsRow(check: Check, w: World, choice: Choice)
    requires Sound(check, w) && w.process.Running?
    ensures w.process.id in w.db.operations && w.process.id in Advance(check, w, choice).db.operations
  {
    hide FileInv, JournalOk, Advance, Transacts, Evolves, KeysOk;
    SoundIsIndexed(check, w);
    AdvanceTransacts(check, w, choice);
    TransactionEvolves(w.db, Advance(check, w, choice).db, w.clock);
  }

  lemma TransactionEvolves(db: Db, after: Db, now: int)
    requires JournalOk(db, now) && Indexed(db) && Transacts(db, after, now)
    ensures forall id :: id in db.operations ==> id in after.operations
  {
    hide JournalTheorems.Apply, Evolves;
    JournalGivesRows(db, now);
    if after != db {
      var text, event: Event :| event.now == now && after == JournalTheorems.Apply(db, text, event);
      EventEvolves(db, text, event);
    }
  }

  lemma WorldCouples(check: Check, s: System, event: SystemEvent)
    requires Coupled(s) && Indexed(s.world.db)
    requires event.WorldStep? || event.ExecutionThrows? || event.ProcessRestarts? || event.ExecutionStarts?
    ensures Coupled(SystemStep(check, s, event))
  {
    hide Known, Advance, SubmitStep;
    var next := SystemStep(check, s, event);
    forall id: string ensures SeesPhase(next, id) {
      assert SeesPhase(s, id);
    }
  }

  lemma CrashCouples(check: Check, s: System, lockLeft: bool, enabled: bool)
    requires Coupled(s) && Indexed(s.world.db)
    ensures Coupled(SystemStep(check, s, ProcessCrashes(lockLeft, enabled)))
  {
    var next := SystemStep(check, s, ProcessCrashes(lockLeft, enabled));
    forall id: string ensures SeesPhase(next, id) {
      assert SeesPhase(s, id);
    }
  }

  lemma StepCouples(check: Check, s: System, event: SystemEvent)
    requires Sound(check, s.world) && Coupled(s) && Indexed(s.world.db)
    ensures Coupled(SystemStep(check, s, event))
  {
    hide Inv, JournalOk, Coupled, SystemStep;
    match event
    case WorkerStep(e) => WorkerStepCouples(check, s, e);
    case PrepareOperation(text, input, faults) =>
      SoundHasKeys(check, s.world);
      PrepareCouples(check, s, text, input, faults);
    case PrepareFails => PrepareFailureCouples(check, s);
    case ExecutionEnds(execution) => EndCouples(check, s, execution);
    case ExecutionProceeds(choice) => AdvanceCouples(check, s, choice);
    case ProcessCrashes(lockLeft, enabled) => CrashCouples(check, s, lockLeft, enabled);
    case _ => WorldCouples(check, s, event);
  }

  lemma SoundHasKeys(check: Check, w: World)
    requires Sound(check, w)
    ensures KeysOk(w.db)
  {
    hide FileInv, JournalOk;
  }

  /** Every step of the system keeps worker, journal and file in their invariants and in step with each other. */
  lemma SystemStepKeeps(check: Check, s: System, event: SystemEvent)
    requires SystemInv(check, s)
    ensures Indexed(s.world.db) && SystemInv(check, SystemStep(check, s, event))
  {
    hide Sound, Coupled, WorkerTheorems.Inv, SystemStep;
    StepKeepsWorld(check, s, event);
    StepKeepsWorker(check, s, event);
    StepCouples(check, s, event);
  }

  // ---------- Runs ----------

  ghost function SystemRun(check: Check, s: System, events: seq<SystemEvent>): (after: System)
    requires SystemInv(check, s)
    ensures SystemInv(check, after)
    decreases |events|
  {
    if events == [] then s
    else
      SystemStepKeeps(check, s, events[0]);
      SystemRun(check, SystemStep(check, s, events[0]), events[1..])
  }

  /** A first start: nothing journaled, and a file without managed rules. */
  function Installed(content: string, clock: int, enabled: bool): System {
    System(Worker.Initial(enabled, map[]), World(EMPTY, Disk(content, false, None), Down, clock, map[]), false)
  }

  lemma InstalledInv(check: Check, content: string, clock: int, enabled: bool)
    requires RuleText.ManagedRules(check, content) == Ok([])
    ensures SystemInv(check, Installed(content, clock, enabled))
  {
    hide Sound, WorkerTheorems.Inv, RuleText.ManagedRules;
    InitialIsSound(check, content, clock);
    WorkerTheorems.InitialInv(enabled, map[]);
  }

  /** The protocol events of a run of the system. */
  ghost function Trace(check: Check, s: System, events: seq<SystemEvent>): seq<ProtocolEvent>
    requires SystemInv(check, s)
    decreases |events|
  {
    if events == [] then []
    else
      SystemStepKeeps(check, s, events[0]);
      var part := ProtocolPart(s, events[0]);
      (if part.Some? then [part.value] else []) + Trace(check, SystemStep(check, s, events[0]), events[1..])
  }

  /**
   Every run of worker and protocol together is a run of the protocol: the worker admits a submission only when the
   protocol allows one, so whatever is proved of all protocol runs holds of the system.
   */
  lemma {:induction false} SystemRefinesProtocol(check: Check, s: System, events: seq<SystemEvent>)
    requires SystemInv(check, s)
    ensures Inv(check, s.world)
    ensures SystemRun(check, s, events).world == ProtocolRun(check, s.world, Trace(check, s, events))
    decreases |events|
  {
    hide Sound, Coupled, WorkerTheorems.Inv, SystemStep, Step, ProtocolPart;
    SystemSound(check, s);
    if events != [] {
      SystemStepKeeps(check, s, events[0]);
      StepIsProtocolStep(check, s, events[0]);
      var next, part := SystemStep(check, s, events[0]), ProtocolPart(s, events[0]);
      SystemRefinesProtocol(check, next, events[1..]);
      var rest := Trace(check, next, events[1..]);
      if part.Some? {
        assert ([part.value] + rest)[1..] == rest;
      } else {
        assert [] + rest == rest;
      }
    }
  }

  lemma SystemSound(check: Check, s: System)
    requires SystemInv(check, s)
    ensures Sound(check, s.world) && Inv(check, s.world)
  {
    hide Inv, JournalOk, Coupled, WorkerTheorems.Inv;
  }

  /**
   In every run: when the worker is ready with nothing running, no operation is open and the file holds exactly the
   owned rules.
   */
  lemma ReadyMeansInStep(check: Check, s: System, events: seq<SystemEvent>)
    requires SystemInv(check, s)
    ensures var after := SystemRun(check, s, events);
      after.worker.status.Ready? && !after.worker.activity.Executing? ==>
        NoneOpen(after.world.db.operations) && Managed(check, after.world.disk.content) == after.world.db.ownership.Keys
  {
    hide SystemRun, Sound, WorkerTheorems.Clean;
    var after := SystemRun(check, s, events);
    if after.worker.status.Ready? && !after.worker.activity.Executing? {
      WorkerTheorems.CleanAtRest(after.worker);
      forall id | id in after.world.db.operations ensures !Open(after.world.db.operations[id]) {
        assert SeesPhase(after, id);
      }
      SystemSound(check, after);
      Recovery.SettledAgrees(check, after.world);
    }
  }
}
