/**
 What the worker knows of the journal: its own steps leave it alone, and it executes only operations that are in it.
 */
module WorkerJournal {
  import opened Wrappers
  import Journal
  import opened ApplyWorker

  /** Calls, and the stretches of the worker that neither prepare nor execute. */
  predicate OwnStep(event: Event) {
    !event.PrepareEnds? && !event.ExecuteEnds?
  }

  /** Everything to be executed is in the journal. */
  predicate Known(journal: map<string, Journal.Phase>, activity: Activity) {
    activity.Executing? ==> activity.id in journal && forall id :: id in activity.rest ==> id in journal
  }

  /** What is executed next comes from the listed operations. */
  predicate Picks(activity: Activity, ids: seq<string>) {
    activity.Executing? ==> ids != [] && activity.id == ids[0] && activity.rest == ids[1..]
  }

  lemma RejectKeepsJournal(w: Worker, task: Task)
    ensures Reject(w, task).journal == w.journal && !Reject(w, task).activity.Executing?
  {
    hide Still;
  }

  lemma EndDrainKeepsJournal(w: Worker)
    ensures EndDrain(w).journal == w.journal && !EndDrain(w).activity.Executing?
  {
    hide Still;
  }

  lemma NextPicks(w: Worker, task: Task, ids: seq<string>)
    ensures NextOperation(w, task, ids).journal == w.journal
    ensures Picks(NextOperation(w, task, ids).activity, ids)
  {
    hide Still, Reject, EndDrain;
    RejectKeepsJournal(w, task);
    EndDrainKeepsJournal(w);
  }

  lemma PicksKnown(journal: map<string, Journal.Phase>, activity: Activity, ids: seq<string>)
    requires Picks(activity, ids) && forall id :: id in ids ==> id in journal
    ensures Known(journal, activity)
  {
  }

  lemma BeginPicks(w: Worker, listed: seq<string>)
    requires w.activity.Resting? && w.queue != []
    ensures BeginTask(w, listed).journal == w.journal
    ensures Picks(BeginTask(w, listed).activity, listed)
  {
    hide Still, Snapshot, Picks;
    var task := w.queue[0];
    SnapshotPicks(w.(queue := w.queue[1..], history := w.history.(begun := w.history.begun + [task])), task, listed);
    NotPicking(listed);
  }

  lemma SnapshotPicks(w: Worker, task: Task, listed: seq<string>)
    ensures Snapshot(w, task, listed).journal == w.journal && Picks(Snapshot(w, task, listed).activity, listed)
  {
    hide Still, NextOperation, Picks;
    NextPicks(w.(history := w.history.(unserved := false)), task, listed);
  }

  lemma NotPicking(ids: seq<string>)
    ensures forall activity: Activity :: !activity.Executing? ==> Picks(activity, ids)
  {
  }

  lemma TimerPicks(w: Worker, listed: seq<string>)
    requires w.activity.Waiting?
    ensures DrainLoop(w, listed).journal == w.journal
    ensures Picks(DrainLoop(w, listed).activity, listed)
  {
    hide Still, Snapshot, Picks, Reject, EndDrain;
    RejectKeepsJournal(w, Drain);
    EndDrainKeepsJournal(w);
    SnapshotPicks(w.(wakeRequested := false), Drain, listed);
    NotPicking(listed);
  }

  predicate SameExecution(w: Worker, next: Worker) {
    next.journal == w.journal && (w.activity.Executing? || next.activity.Executing? ==> next.activity == w.activity)
  }

  lemma SameIsSame(w: Worker)
    ensures SameExecution(w, w)
  {
  }

  lemma CallsKeep(w: Worker)
    ensures SameExecution(w, StartCall(w)) && SameExecution(w, SubmitCall(w)) && SameExecution(w, MutationCall(w))
    ensures SameExecution(w, StopCall(w))
  {
    hide Still, Keeps;
  }

  lemma ScheduleKeeps(w: Worker)
    ensures SameExecution(w, ScheduleDrain(w))
  {
    hide Still, Keeps;
  }

  lemma WakeKeepsExecution(w: Worker)
    ensures SameExecution(w, WakeCall(w))
  {
    hide Still, Keeps, ScheduleDrain;
    if CanWake(w) {
      ScheduleKeeps(w.(wakeRequested := true, status := Recovering,
        history := w.history.(unserved := true, disabledSinceWake := false, wokenAt := w.admissionEpoch)));
    }
  }

  lemma FailKeeps(w: Worker)
    ensures SameExecution(w, Fail(w))
  {
    hide Still;
  }

  lemma ContinueKeepsExecution(w: Worker)
    requires w.activity.Settled?
    ensures SameExecution(w, ContinueSettled(w))
  {
    hide Still, Keeps, ScheduleDrain, Fail;
    var after := w.(activity := Resting);
    FailKeeps(after);
    FailKeeps(after.(drainScheduled := false));
    ScheduleKeeps(after.(drainScheduled := false));
  }

  lemma CallKeeps(w: Worker, event: Event)
    requires OwnStep(event) && !event.Begin? && !event.Timer?
    ensures SameExecution(w, Step(w, event))
  {
    hide Lists, BeginTask, DrainLoop, EndPrepare, EndExecution, SameExecution, StartCall, WakeCall, SubmitCall,
      MutationCall, StopCall,
      ContinueSettled;
    SameIsSame(w);
    CallsKeep(w);
    WakeKeepsExecution(w);
    match event
    case Continue =>
      if w.activity.Settled? {
        ContinueKeepsExecution(w);
      }
    case StopDone => SimpleStepKeeps(w, event);
    case SetEnabled(_) => SimpleStepKeeps(w, event);
    case MutationEnds => SimpleStepKeeps(w, event);
    case _ =>
  }

  lemma SimpleStepKeeps(w: Worker, event: Event)
    requires event.StopDone? || event.SetEnabled? || event.MutationEnds?
    ensures SameExecution(w, Step(w, event))
  {
    hide Lists, BeginTask, DrainLoop, EndPrepare, EndExecution, StartCall, WakeCall, SubmitCall, MutationCall, StopCall,
      ContinueSettled;
  }

  /**
   The worker's own steps do not touch the journal, do not end an execution, and execute only what is in the journal.
   */
  lemma OwnStepKeeps(w: Worker, event: Event)
    requires OwnStep(event) && Known(w.journal, w.activity)
    ensures var next := Step(w, event);
      next.journal == w.journal && Known(next.journal, next.activity) && (w.activity.Executing? ==>
        next.activity == w.activity)
  {
    hide BeginTask, DrainLoop, Known, StartCall, WakeCall, SubmitCall, MutationCall, StopCall,
      ContinueSettled, Picks;
    match event
    case Begin(listed) =>
      if w.activity.Resting? && w.queue != [] && Lists(w.journal, listed) {
        BeginPicks(w, listed);
        PicksKnown(w.journal, BeginTask(w, listed).activity, listed);
      }
    case Timer(listed) =>
      if w.activity.Waiting? && Lists(w.journal, listed) {
        TimerPicks(w, listed);
        PicksKnown(w.journal, DrainLoop(w, listed).activity, listed);
      }
    case _ =>
      CallKeeps(w, event);
      OtherIsKnown(w.journal);
  }

  lemma OtherIsKnown(journal: map<string, Journal.Phase>)
    ensures forall activity: Activity :: !activity.Executing? ==> Known(journal, activity)
  {
  }

  // ---------- Preparing and executing ----------

  /** A preparation adds its operation to the journal as prepared, or returns one that is there already. */
  lemma PreparationOutcome(w: Worker, id: Option<string>)
    requires w.activity.Preparing?
    ensures var next := EndPrepare(w, id);
      && next.journal == (if id.None? || id.value in w.journal then w.journal
          else w.journal[id.value := Journal.Prepared])
      && Known(next.journal, next.activity)
  {
    hide Still, Known;
    var next := EndPrepare(w, id);
    PreparedActivity(w, id);
    OtherIsKnown(next.journal);
    if id.Some? {
      SoleIsKnown(next.journal, next.activity, id.value);
    }
  }

  lemma PreparedActivity(w: Worker, id: Option<string>)
    requires w.activity.Preparing?
    ensures EndPrepare(w, id).activity.Executing? ==>
      id.Some? && EndPrepare(w, id).activity == Executing(w.activity.task, id.value, [])
  {
    hide Still;
  }

  lemma SoleIsKnown(journal: map<string, Journal.Phase>, activity: Activity, id: string)
    requires id in journal && (activity.Executing? ==> activity.id == id && activity.rest == [])
    ensures Known(journal, activity)
  {
  }

  lemma ResolveKeepsJournal(w: Worker, task: Task)
    ensures Resolve(w, task).journal == w.journal && !Resolve(w, task).activity.Executing?
  {
    hide Still;
  }

  lemma FencesKeepJournal(w: Worker)
    ensures Fail(w).journal == w.journal && RequireRecovery(w).journal == w.journal
  {
    hide Still;
  }

  lemma ConcludePicks(w: Worker, task: Task, rest: seq<string>, execution: Execution)
    ensures Conclude(w, task, rest, execution).journal == w.journal
    ensures Picks(Conclude(w, task, rest, execution).activity, rest)
  {
    hide Still, Reject, Resolve, Fail, RequireRecovery, NextOperation, Picks;
    NotPicking(rest);
    FencesKeepJournal(w);
    RejectKeepsJournal(w, task);
    RejectKeepsJournal(Fail(w), task);
    ResolveKeepsJournal(w, task);
    ResolveKeepsJournal(RequireRecovery(w), task);
    NextPicks(w, task, rest);
  }

  /** The end of an execution notes the phase it returns, and goes on with the rest of the snapshot. */
  lemma ExecutionOutcome(w: Worker, execution: Execution)
    requires w.activity.Executing? && Known(w.journal, w.activity)
    ensures var next := EndExecution(w, execution);
      next.journal == w.journal[w.activity.id := execution.phase] && Known(next.journal, next.activity)
  {
    hide Still, Conclude, Picks;
    var noted := w.(journal := w.journal[w.activity.id := execution.phase]);
    ConcludePicks(noted, w.activity.task, w.activity.rest, execution);
    PicksKnown(noted.journal, EndExecution(w, execution).activity, w.activity.rest);
  }
}
