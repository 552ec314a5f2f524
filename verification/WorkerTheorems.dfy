/**
 What every interleaving of calls and worker steps keeps: a ready worker has nothing unfinished, tasks run one at
 a time in order, stale submissions never prepare, and no accepted wake is forgotten.
 */
module WorkerTheorems {
  import opened Wrappers
  import Journal
  import opened ApplyWorker

  // ---------- The invariant ----------

  /** The operations the running task is still going to execute. */
  function Remaining(activity: Activity): set<string> {
    if activity.Executing? then {activity.id} + (set id | id in activity.rest) else {}
  }

  /** No operation is unfinished except those the running task is at. */
  predicate Clean(w: Worker) {
    forall id :: id in w.journal && Journal.Unfinished(w.journal[id]) ==> id in Remaining(w.activity)
  }

  predicate DrainActivity(activity: Activity) {
    activity.Waiting? || (activity.Executing? && activity.task.Drain?) || (activity.Settled? && activity.task.Drain?)
  }

  predicate RecoveryActivity(activity: Activity) {
    (activity.Executing? && activity.task.Recovery?) || (activity.Settled? && activity.task.Recovery?)
  }

  /** A submission that may still prepare was admitted while nothing was unfinished. */
  predicate AdmissionsClean(w: Worker) {
    && (w.activity.Preparing? ==> Clean(w))
    && (!w.aborted && Live(w.queue, w.admissionEpoch) ==> Clean(w))
  }

  predicate Live(queue: seq<Task>, epoch: nat) {
    exists k :: 0 <= k < |queue| && queue[k].Submission? && queue[k].admittedAt == epoch
  }

  predicate Admissions(w: Worker) {
    && (forall k :: 0 <= k < |w.queue| && w.queue[k].Submission? ==> w.queue[k].admittedAt <= w.admissionEpoch)
    && (w.activity.Preparing? ==> w.activity.task.Submission? && w.activity.task.admittedAt == w.admissionEpoch)
    && (w.activity.Settled? ==> w.activity.task.Recovery? || w.activity.task.Drain?)
    && (w.activity.Executing? ==> !w.activity.task.Mutation? && (w.activity.task.Submission? ==> w.activity.rest == []))
  }

  /** Everything ahead of the startup recovery is a plain mutation. */
  predicate RecoveryFirst(w: Worker) {
    forall k :: 0 <= k < |w.queue| && w.queue[k].Recovery? ==>
      (w.activity.Resting? || w.activity.Mutating?) && forall j :: 0 <= j < k ==> w.queue[j].Mutation?
  }

  predicate StatusOk(w: Worker) {
    && (w.status.Failed? || w.status.Stopping? || w.status.Stopped? ==> w.aborted)
    && (w.status.Ready? ==> !w.aborted && Clean(w))
    && (w.stopRequested ==> w.aborted)
    && (w.status.Recovering? && w.aborted && (Recovery in w.queue || RecoveryActivity(w.activity)) ==> w.drainScheduled)
    && (!w.started ==> Unstarted(w))
  }

  predicate Unstarted(w: Worker) {
    && (w.status.Disabled? || w.status.Stopping? || w.status.Stopped?)
    && (forall k :: 0 <= k < |w.queue| ==> w.queue[k].Mutation?)
    && (w.activity.Resting? || w.activity.Mutating?)
    && !w.history.unserved && !w.drainScheduled && (w.status.Disabled? ==> !w.aborted)
  }

  predicate DrainsOk(w: Worker) {
    && (w.drainScheduled ==> Drain in w.queue || DrainActivity(w.activity))
    && (w.history.unserved && !w.aborted && !w.history.disabledSinceWake ==>
      w.wakeRequested && w.drainScheduled && !w.status.Disabled?)
    && (w.history.unserved && !w.enabled ==> w.history.disabledSinceWake)
  }

  /** Wakes are coalesced: at most one drain is queued or running, and it has a wake to serve. */
  predicate OneDrain(w: Worker) {
    && (Drain in w.queue || DrainActivity(w.activity) ==> w.drainScheduled)
    && (DrainActivity(w.activity) ==> Drain !in w.queue)
    && (forall j, k :: 0 <= j < k < |w.queue| ==> w.queue[j] != Drain || w.queue[k] != Drain)
    && (Drain in w.queue || w.activity.Waiting? ==> w.wakeRequested || w.aborted)
  }

  predicate Serial(w: Worker) {
    w.history.enqueued == w.history.begun + w.queue
  }

  /** While a recovery or a drain runs its snapshot, everything unfinished is still ahead of it. */
  predicate SnapshotsClean(w: Worker) {
    w.activity.Executing? ==> Clean(w)
  }

  predicate RecoveryDone(w: Worker) {
    w.activity.Settled? && w.activity.task.Recovery? && w.activity.ok && w.status.Recovering? && !w.drainScheduled ==>
      Clean(w)
  }

  predicate Inv(w: Worker) {
    && Admissions(w) && RecoveryFirst(w) && StatusOk(w) && DrainsOk(w) && OneDrain(w) && Serial(w)
    && AdmissionsClean(w) && SnapshotsClean(w) && RecoveryDone(w)
  }

  lemma InitialInv(enabled: bool, journal: map<string, Journal.Phase>)
    ensures Inv(Initial(enabled, journal))
  {
  }

  // ---------- Calls ----------

  lemma StartKeeps(w: Worker)
    requires Inv(w)
    ensures Inv(StartCall(w))
  {
  }

  lemma WakeKeeps(w: Worker)
    requires Inv(w)
    ensures Inv(WakeCall(w))
  {
  }

  lemma SubmitKeeps(w: Worker)
    requires Inv(w)
    ensures Inv(SubmitCall(w))
  {
  }

  lemma MutationKeeps(w: Worker)
    requires Inv(w)
    ensures Inv(MutationCall(w))
  {
  }

  lemma StopKeeps(w: Worker)
    requires Inv(w)
    ensures Inv(StopCall(w))
  {
  }

  lemma StopDoneKeeps(w: Worker)
    requires Inv(w) && w.stopRequested
    ensures Inv(w.(status := Stopped))
  {
  }

  lemma EnabledKeeps(w: Worker, enabled: bool)
    requires Inv(w)
    ensures Inv(Step(w, SetEnabled(enabled)))
  {
  }

  // ---------- The running task ----------

  /** What is left of the queue once its head was taken. */
  lemma QueueTail(queue: seq<Task>, epoch: nat)
    requires queue != []
    ensures Live(queue[1..], epoch) ==> Live(queue, epoch)
    ensures Drain in queue ==> queue[0] == Drain || Drain in queue[1..]
    ensures Recovery in queue[1..] ==> Recovery in queue
    ensures Drain in queue[1..] ==> Drain in queue
    ensures (forall j, k :: 0 <= j < k < |queue| ==> queue[j] != Drain || queue[k] != Drain) ==>
      (forall j, k :: 0 <= j < k < |queue[1..]| ==>
          queue[1..][j] != Drain || queue[1..][k] != Drain) && !(queue[0] == Drain && Drain in queue[1..])
    ensures queue[0].Submission? && queue[0].admittedAt == epoch ==> Live(queue, epoch)
  {
    if Live(queue[1..], epoch) {
      var k :| 0 <= k < |queue[1..]| && queue[1..][k].Submission? && queue[1..][k].admittedAt == epoch;
      assert queue[k + 1] == queue[1..][k];
    }
  }

  lemma RecoveryTail(w: Worker)
    requires RecoveryFirst(w) && w.queue != []
    ensures Recovery in w.queue[1..] ==> w.queue[0].Mutation? && (w.activity.Resting? || w.activity.Mutating?)
    ensures forall k :: 0 <= k < |w.queue[1..]| && w.queue[1..][k].Recovery? ==> forall j :: 0 <= j < k ==>
      w.queue[1..][j].Mutation?
  {
    forall k | 0 <= k < |w.queue[1..]| && w.queue[1..][k].Recovery?
      ensures w.queue[0].Mutation? && forall j :: 0 <= j < k ==> w.queue[1..][j].Mutation?
    {
      assert w.queue[k + 1].Recovery?;
      assert w.queue[0].Mutation?;
      forall j | 0 <= j < k ensures w.queue[1..][j].Mutation? {
        assert w.queue[j + 1].Mutation?;
      }
    }
  }

  /** A snapshot that starts with everything unfinished in its list stays clean. */
  lemma NextIsClean(w: Worker, task: Task, ids: seq<string>)
    requires forall id :: id in w.journal && Journal.Unfinished(w.journal[id]) ==> id in ids
    requires !w.aborted || ids == []
    ensures Clean(NextOperation(w, task, ids))
  {
    hide Journal.Unfinished;
    if ids != [] {
      assert ids == [ids[0]] + ids[1..];
      assert NextOperation(w, task, ids).activity == Executing(task, ids[0], ids[1..]);
    }
  }

  /** The invariant between two stretches of a snapshot task, before its next operation is chosen. */
  predicate Between(w: Worker, task: Task) {
    && (forall k :: 0 <= k < |w.queue| && w.queue[k].Submission? ==> w.queue[k].admittedAt <= w.admissionEpoch)
    && Recovery !in w.queue && (task.Recovery? || task.Drain?) && w.started
    && (w.status.Failed? || w.status.Stopping? || w.status.Stopped? ==> w.aborted)
    && (w.status.Ready? ==> !w.aborted) && (w.stopRequested ==> w.aborted)
    && (w.status.Recovering? && w.aborted && task.Recovery? ==> w.drainScheduled)
    && (w.drainScheduled ==> Drain in w.queue || task.Drain?)
    && (Drain in w.queue ==> w.drainScheduled && (w.wakeRequested || w.aborted))
    && (task.Drain? ==> w.drainScheduled && Drain !in w.queue)
    && (forall j, k :: 0 <= j < k < |w.queue| ==> w.queue[j] != Drain || w.queue[k] != Drain)
    && (w.history.unserved && !w.aborted && !w.history.disabledSinceWake ==>
      w.wakeRequested && w.drainScheduled && !w.status.Disabled?)
    && (w.history.unserved && !w.enabled ==> w.history.disabledSinceWake)
    && (task.Drain? && w.status.Recovering? ==> !w.aborted || w.activity.Waiting? || w.activity.Executing?)
    && Serial(w)
  }

  lemma NextKeeps(w: Worker, task: Task, ids: seq<string>)
    requires Between(w, task)
    requires !w.aborted || task.Recovery?
    requires forall id :: id in w.journal && Journal.Unfinished(w.journal[id]) ==> id in ids
    ensures Inv(NextOperation(w, task, ids))
  {
    hide Lists, Journal.Unfinished;
    if !w.aborted || ids == [] {
      NextIsClean(w, task, ids);
      hide Clean;
      NextShape(w, task, ids);
    } else {
      NextRejected(w, task, ids);
    }
  }

  lemma NextShape(w: Worker, task: Task, ids: seq<string>)
    requires Between(w, task) && (!w.aborted || (ids == [] && task.Recovery?)) && Clean(NextOperation(w, task, ids))
    ensures Inv(NextOperation(w, task, ids))
  {
    hide Clean;
  }

  lemma NextRejected(w: Worker, task: Task, ids: seq<string>)
    requires Between(w, task) && w.aborted && task.Recovery? && ids != []
    ensures Inv(NextOperation(w, task, ids))
  {
    hide Clean;
  }


  // ---------- Beginning a task ----------

  /** What the other components need once the head of the queue is taken. */
  lemma BeginRecoveryKeeps(w: Worker, listed: seq<string>)
    requires Inv(w) && w.activity.Resting? && w.queue != [] && Lists(w.journal, listed) && w.queue[0].Recovery?
    ensures Inv(BeginTask(w, listed))
  {
    hide Clean, Live, Remaining, Journal.Unfinished;
    QueueTail(w.queue, w.admissionEpoch);
    RecoveryTail(w);
    TailAdmissions(w);
    var next := w.(queue := w.queue[1..],
        history := w.history.(begun := w.history.begun + [w.queue[0]], unserved := false));
    assert w.history.begun + w.queue == next.history.begun + next.queue;
    NextKeeps(next, Recovery, listed);
  }

  lemma TailAdmissions(w: Worker)
    requires Admissions(w) && w.queue != []
    ensures forall k :: 0 <= k < |w.queue[1..]| && w.queue[1..][k].Submission? ==>
      w.queue[1..][k].admittedAt <= w.admissionEpoch
  {
  }

  /** The facts about the rest of the queue that every begun task leaves. */
  lemma BeginFacts(w: Worker)
    requires Inv(w) && w.activity.Resting? && w.queue != []
    ensures var next := w.(queue := w.queue[1..], history := w.history.(begun := w.history.begun + [w.queue[0]]));
      Serial(next) && (w.queue[0].Mutation? || Recovery !in w.queue[1..]) && RecoveryFirst(next)
      && (Live(w.queue[1..], w.admissionEpoch) ==> Live(w.queue, w.admissionEpoch))
  {
    hide Clean, Journal.Unfinished;
    QueueTail(w.queue, w.admissionEpoch);
    RecoveryTail(w);
    assert w.history.begun + w.queue == (w.history.begun + [w.queue[0]]) + w.queue[1..];
  }

  lemma BeginDrainKeeps(w: Worker, listed: seq<string>)
    requires Inv(w) && w.activity.Resting? && w.queue != [] && w.queue[0].Drain?
    ensures Inv(BeginTask(w, listed))
  {
    hide Live, Journal.Unfinished, Snapshot;
    QueueTail(w.queue, w.admissionEpoch);
    BeginFacts(w);
    TailAdmissions(w);
  }

  lemma BeginMutationKeeps(w: Worker, listed: seq<string>)
    requires Inv(w) && w.activity.Resting? && w.queue != [] && w.queue[0].Mutation?
    ensures Inv(BeginTask(w, listed))
  {
    hide Live, Journal.Unfinished, Snapshot;
    QueueTail(w.queue, w.admissionEpoch);
    BeginFacts(w);
    TailAdmissions(w);
  }

  lemma BeginSubmissionKeeps(w: Worker, listed: seq<string>)
    requires Inv(w) && w.activity.Resting? && w.queue != [] && w.queue[0].Submission?
    ensures Inv(BeginTask(w, listed))
  {
    hide Live, Journal.Unfinished, Snapshot;
    QueueTail(w.queue, w.admissionEpoch);
    BeginFacts(w);
    TailAdmissions(w);
  }

  lemma BeginKeeps(w: Worker, listed: seq<string>)
    requires Inv(w) && w.activity.Resting? && w.queue != [] && Lists(w.journal, listed)
    ensures Inv(BeginTask(w, listed))
  {
    hide Inv, BeginTask, Lists;
    match w.queue[0]
    case Recovery => BeginRecoveryKeeps(w, listed);
    case Drain => BeginDrainKeeps(w, listed);
    case Submission(_, _) => BeginSubmissionKeeps(w, listed);
    case Mutation => BeginMutationKeeps(w, listed);
  }

  lemma TimerKeeps(w: Worker, listed: seq<string>)
    requires Inv(w) && w.activity.Waiting? && Lists(w.journal, listed)
    ensures Inv(DrainLoop(w, listed))
  {
    hide Live, Journal.Unfinished, Clean;
    if !w.aborted && w.wakeRequested && w.enabled {
      assert Recovery !in w.queue;
      NextKeeps(w.(wakeRequested := false, history := w.history.(unserved := false)), Drain, listed);
    } else {
      TimerIdle(w, listed);
    }
  }

  lemma TimerIdle(w: Worker, listed: seq<string>)
    requires Inv(w) && w.activity.Waiting? && (w.aborted || !w.wakeRequested || !w.enabled)
    ensures Inv(DrainLoop(w, listed))
  {
  }

  // ---------- Ending a prepare, an execution, a mutation ----------

  lemma PrepareClean(w: Worker, id: Option<string>)
    requires w.activity.Preparing? && Clean(w)
    ensures id.None? || !w.aborted ==> Clean(EndPrepare(w, id))
  {
  }

  lemma PrepareFailedKeeps(w: Worker)
    requires Inv(w) && w.activity.Preparing?
    ensures Inv(EndPrepare(w, None))
  {
    hide Journal.Unfinished, Live;
    assert Clean(w) ==> Clean(EndPrepare(w, None));
    hide Clean, Remaining;
  }

  /** The worker was aborted while it prepared: the operation stays for the next start. */
  lemma PrepareAbortedKeeps(w: Worker, id: string)
    requires Inv(w) && w.activity.Preparing? && w.aborted
    ensures Inv(EndPrepare(w, Some(id)))
  {
    hide Journal.Unfinished, Live, Clean, Remaining;
  }

  lemma PrepareDoneKeeps(w: Worker, id: string)
    requires Inv(w) && w.activity.Preparing? && !w.aborted
    ensures Inv(EndPrepare(w, Some(id)))
  {
    hide Journal.Unfinished, Live, Clean, Remaining;
    PrepareClean(w, Some(id));
  }

  lemma PrepareKeeps(w: Worker, id: Option<string>)
    requires Inv(w) && w.activity.Preparing?
    ensures Inv(EndPrepare(w, id))
  {
    hide Inv, EndPrepare;
    if id.None? {
      PrepareFailedKeeps(w);
    } else if w.aborted {
      PrepareAbortedKeeps(w, id.value);
    } else {
      PrepareDoneKeeps(w, id.value);
    }
  }

  /** After an operation was closed only the rest of the snapshot can be unfinished. */
  lemma ExecutedClean(w: Worker, phase: Journal.Phase)
    requires w.activity.Executing? && Clean(w) && (phase.Completed? || phase.Aborted?)
    ensures var journal := w.journal[w.activity.id := phase];
      forall id :: id in journal && Journal.Unfinished(journal[id]) ==> id in w.activity.rest
  {
  }

  /** No task is left that could rely on a clean journal. */
  lemma NothingLive(w: Worker)
    requires Admissions(w)
    ensures !Live(w.queue, w.admissionEpoch + 1)
  {
  }

  lemma DeferredKeeps(w: Worker, phase: Journal.Phase)
    requires Inv(w) && w.activity.Executing?
    ensures Inv(Resolve(RequireRecovery(w.(journal := w.journal[w.activity.id := phase])), w.activity.task))
  {
    hide Journal.Unfinished, Live, Clean;
    NothingLive(w);
  }

  lemma ThrewKeeps(w: Worker, phase: Journal.Phase)
    requires Inv(w) && w.activity.Executing?
    ensures Inv(Reject(Fail(w.(journal := w.journal[w.activity.id := phase])), w.activity.task))
  {
    hide Journal.Unfinished, Live, Clean;
  }

  lemma AbortedKeeps(w: Worker, phase: Journal.Phase)
    requires Inv(w) && w.activity.Executing? && w.aborted
    ensures Inv(Reject(w.(journal := w.journal[w.activity.id := phase]), w.activity.task))
  {
    hide Journal.Unfinished, Live, Clean;
  }

  lemma ClosedSubmissionKeeps(w: Worker, phase: Journal.Phase)
    requires Inv(w) && w.activity.Executing? && w.activity.task.Submission? && w.activity.rest == []
    requires !w.aborted && (phase.Completed? || phase.Aborted?)
    ensures Inv(Resolve(w.(journal := w.journal[w.activity.id := phase]), w.activity.task))
  {
    hide Journal.Unfinished, Live;
    ExecutedClean(w, phase);
    assert Clean(Resolve(w.(journal := w.journal[w.activity.id := phase]), w.activity.task));
    hide Clean;
  }

  lemma ClosedSnapshotKeeps(w: Worker, phase: Journal.Phase)
    requires Inv(w) && w.activity.Executing? && !w.activity.task.Submission?
    requires !w.aborted && (phase.Completed? || phase.Aborted?)
    ensures Inv(NextOperation(w.(journal := w.journal[w.activity.id := phase]), w.activity.task, w.activity.rest))
  {
    hide Journal.Unfinished, Live;
    ExecutedClean(w, phase);
    hide Clean;
    NextKeeps(w.(journal := w.journal[w.activity.id := phase]), w.activity.task, w.activity.rest);
  }

  lemma ExecuteKeeps(w: Worker, execution: Execution)
    requires Inv(w) && w.activity.Executing? && ReturnsTerminal(execution)
    ensures Inv(EndExecution(w, execution))
  {
    hide Inv, Resolve, Reject, NextOperation, Fail, RequireRecovery;
    if execution.Threw? {
      ThrewKeeps(w, execution.phase);
    } else if execution.Deferred? {
      DeferredKeeps(w, execution.phase);
    } else if w.aborted {
      AbortedKeeps(w, execution.phase);
    } else if execution.phase.Partial? {
      DeferredKeeps(w, execution.phase);
    } else if w.activity.task.Submission? {
      SubmissionHasNoRest(w);
      ClosedSubmissionKeeps(w, execution.phase);
    } else {
      ClosedSnapshotKeeps(w, execution.phase);
    }
  }

  lemma SubmissionHasNoRest(w: Worker)
    requires Inv(w) && w.activity.Executing? && w.activity.task.Submission?
    ensures w.activity.rest == []
  {
  }

  lemma MutationEndKeeps(w: Worker)
    requires Inv(w) && w.activity.Mutating?
    ensures Inv(w.(activity := Resting))
  {
    hide Journal.Unfinished, Live;
    assert Clean(w) <==> Clean(w.(activity := Resting));
    hide Clean;
  }

  lemma SameClean(w: Worker, next: Worker)
    requires next.journal == w.journal && Remaining(next.activity) == Remaining(w.activity)
    ensures Clean(w) <==> Clean(next)
  {
  }

  lemma LiveAppend(queue: seq<Task>, task: Task, epoch: nat)
    requires !task.Submission?
    ensures Live(queue + [task], epoch) ==> Live(queue, epoch)
  {
  }

  lemma DrainFailedKeeps(w: Worker)
    requires Inv(w) && w.activity.Settled? && w.activity.task.Drain? && !w.activity.ok
    ensures Inv(ContinueSettled(w))
  {
    hide Journal.Unfinished, Live, Clean;
    SameClean(w, ContinueSettled(w));
  }

  lemma DrainDoneKeeps(w: Worker)
    requires Inv(w) && w.activity.Settled? && w.activity.task.Drain? && w.activity.ok
    ensures Inv(ContinueSettled(w))
  {
    hide Journal.Unfinished, Live, Clean;
    LiveAppend(w.queue, Drain, w.admissionEpoch);
    SameClean(w, ContinueSettled(w));
  }

  lemma RecoveryFailedKeeps(w: Worker)
    requires Inv(w) && w.activity.Settled? && w.activity.task.Recovery? && !w.activity.ok
    ensures Inv(ContinueSettled(w))
  {
    hide Journal.Unfinished, Live, Clean;
    SameClean(w, ContinueSettled(w));
  }

  lemma RecoveryDoneKeeps(w: Worker)
    requires Inv(w) && w.activity.Settled? && w.activity.task.Recovery? && w.activity.ok
    ensures Inv(ContinueSettled(w))
  {
    hide Journal.Unfinished, Live, Clean;
    SameClean(w, ContinueSettled(w));
  }

  lemma ContinueKeeps(w: Worker)
    requires Inv(w) && w.activity.Settled?
    ensures Inv(ContinueSettled(w))
  {
    hide ContinueSettled, AdmissionsClean, RecoveryFirst, StatusOk, DrainsOk, OneDrain, Serial;
    if w.activity.task.Drain? && w.activity.ok {
      DrainDoneKeeps(w);
    } else if w.activity.task.Drain? {
      DrainFailedKeeps(w);
    } else if w.activity.ok {
      RecoveryDoneKeeps(w);
    } else {
      RecoveryFailedKeeps(w);
    }
  }

  /** Every call and every step keeps the invariant. */
  lemma StepKeeps(w: Worker, event: Event)
    requires Inv(w)
    ensures Inv(Step(w, event))
  {
    hide Inv, StartCall, WakeCall, SubmitCall, MutationCall, StopCall, BeginTask, DrainLoop, EndPrepare, EndExecution,
      ContinueSettled, Lists, ReturnsTerminal;
    match event
    case Start => StartKeeps(w);
    case Wake => WakeKeeps(w);
    case Submit => SubmitKeeps(w);
    case SerializeMutation => MutationKeeps(w);
    case Stop => StopKeeps(w);
    case StopDone => if w.stopRequested { StopDoneKeeps(w); }
    case SetEnabled(enabled) => EnabledKeeps(w, enabled);
    case Begin(listed) => if w.activity.Resting? && w.queue != [] && Lists(w.journal, listed) { BeginKeeps(w, listed); }
    case Timer(listed) => if w.activity.Waiting? && Lists(w.journal, listed) { TimerKeeps(w, listed); }
    case PrepareEnds(id) => if w.activity.Preparing? { PrepareKeeps(w, id); }
    case ExecuteEnds(execution) => if w.activity.Executing? && ReturnsTerminal(execution) { ExecuteKeeps(w,
        execution); }
    case MutationEnds => if w.activity.Mutating? { MutationEndKeeps(w); }
    case Continue => if w.activity.Settled? { ContinueKeeps(w); }
  }

  lemma {:induction false} RunKeeps(w: Worker, events: seq<Event>)
    requires Inv(w)
    ensures Inv(Run(w, events))
    decreases |events|
  {
    hide Inv, Step;
    if events != [] {
      StepKeeps(w, events[0]);
      RunKeeps(Step(w, events[0]), events[1..]);
    }
  }

  // ---------- What every run keeps ----------

  predicate AllClosed(journal: map<string, Journal.Phase>) {
    forall id :: id in journal ==> journal[id].Completed? || journal[id].Aborted?
  }

  lemma CleanAtRest(w: Worker)
    requires Clean(w) && !w.activity.Executing?
    ensures AllClosed(w.journal)
  {
    assert Remaining(w.activity) == {};
    forall id | id in w.journal ensures w.journal[id].Completed? || w.journal[id].Aborted? {
      assert !Journal.Unfinished(w.journal[id]);
    }
  }

  /** In every run, a worker that is ready with nothing running has only completed or aborted operations. */
  lemma ReadyMeansNothingUnfinished(enabled: bool, journal: map<string, Journal.Phase>, events: seq<Event>)
    ensures var w := Run(Initial(enabled, journal), events);
      w.status.Ready? && !w.activity.Executing? ==> AllClosed(w.journal)
  {
    hide Run, Clean, AllClosed, Initial, RecoveryFirst, DrainsOk, OneDrain, Admissions, AdmissionsClean;
    InitialInv(enabled, journal);
    RunKeeps(Initial(enabled, journal), events);
    var w := Run(Initial(enabled, journal), events);
    if w.status.Ready? && !w.activity.Executing? {
      CleanAtRest(w);
    }
  }

  /** A new operation is only ever prepared while every other one is closed. */
  lemma PreparesOnlyWhenClosed(enabled: bool, journal: map<string, Journal.Phase>, events: seq<Event>)
    ensures var w := Run(Initial(enabled, journal), events);
      w.activity.Preparing? ==> AllClosed(w.journal)
  {
    hide Run, Clean, AllClosed, Initial, RecoveryFirst, DrainsOk, OneDrain, Admissions, StatusOk;
    InitialInv(enabled, journal);
    RunKeeps(Initial(enabled, journal), events);
    var w := Run(Initial(enabled, journal), events);
    if w.activity.Preparing? {
      CleanAtRest(w);
    }
  }

  /** Tasks begin in the order they were enqueued, none is lost, and none begins while another runs. */
  lemma TasksAreSerial(enabled: bool, journal: map<string, Journal.Phase>, events: seq<Event>)
    ensures var w := Run(Initial(enabled, journal), events);
      w.history.enqueued == w.history.begun + w.queue
  {
    hide Run, Clean, AllClosed, Initial, RecoveryFirst, DrainsOk, OneDrain, Admissions, AdmissionsClean;
    InitialInv(enabled, journal);
    RunKeeps(Initial(enabled, journal), events);
  }

  /** A task begins only when nothing runs, and it is the oldest one. */
  lemma BeginsOneAtATime(w: Worker, event: Event)
    requires Step(w, event).history.begun != w.history.begun
    ensures event.Begin? && w.activity.Resting? && w.queue != []
    ensures Step(w, event).history.begun == w.history.begun + [w.queue[0]]
  {
    hide Lists, ReturnsTerminal, StartCall, WakeCall, SubmitCall, MutationCall, StopCall, Snapshot, DrainLoop,
      EndPrepare, EndExecution,
      ContinueSettled, BeginTask;
    OthersDoNotBegin(w, event);
  }

  lemma OthersDoNotBegin(w: Worker, event: Event)
    ensures !event.Begin? ==> Step(w, event).history.begun == w.history.begun
  {
    hide Lists, ReturnsTerminal, StartCall, WakeCall, SubmitCall, MutationCall, StopCall, Snapshot, DrainLoop,
      EndPrepare, EndExecution,
      ContinueSettled, BeginTask;
  }

  /** A worker at rest has served every wake it accepted, unless it failed, was stopped, or was disabled since. */
  lemma WakesAreServed(enabled: bool, journal: map<string, Journal.Phase>, events: seq<Event>)
    ensures var w := Run(Initial(enabled, journal), events);
      w.queue == [] && w.activity.Resting? && w.history.unserved ==> w.aborted || w.history.disabledSinceWake
  {
    hide Run, Clean, AllClosed, Initial, RecoveryFirst, OneDrain, Admissions, AdmissionsClean, StatusOk;
    InitialInv(enabled, journal);
    RunKeeps(Initial(enabled, journal), events);
  }

  // ---------- Stale submissions ----------

  lemma OthersKeep(w: Worker, event: Event)
    requires !event.Begin? && !event.Submit?
    ensures Keeps(w, Step(w, event))
  {
    hide Lists, ReturnsTerminal, StartCall, WakeCall, MutationCall, StopCall, DrainLoop, EndPrepare, EndExecution,
      ContinueSettled;
  }

  /** The submission has not prepared, and wherever it is queued its epoch has passed. */
  predicate Stale(w: Worker, number: nat) {
    && number !in w.history.prepared && number < w.submissions
    && forall k :: 0 <= k < |w.queue| && w.queue[k].Submission? && w.queue[k].number == number ==>
      w.queue[k].admittedAt < w.admissionEpoch
  }

  lemma StaleStays(w: Worker, event: Event, number: nat)
    requires Stale(w, number)
    ensures Stale(Step(w, event), number)
  {
    hide Lists, BeginTask;
    if !event.Begin? && !event.Submit? {
      OthersKeep(w, event);
      hide Step;
    }
  }

  lemma {:induction false} StaleNeverPrepares(w: Worker, events: seq<Event>, number: nat)
    requires Stale(w, number)
    ensures number !in Run(w, events).history.prepared
    decreases |events|
  {
    hide Step;
    if events != [] {
      StaleStays(w, events[0], number);
      StaleNeverPrepares(Step(w, events[0]), events[1..], number);
    }
  }

  /** Submissions carry distinct numbers, and none that is still queued was prepared. */
  predicate Numbered(w: Worker) {
    && (forall k :: 0 <= k < |w.queue| && w.queue[k].Submission? ==>
      w.queue[k].number < w.submissions && w.queue[k].number !in w.history.prepared)
    && (forall j, k :: 0 <= j < k < |w.queue| && w.queue[j].Submission? && w.queue[k].Submission? ==>
      w.queue[j].number != w.queue[k].number)
    && (forall number :: number in w.history.prepared ==> number < w.submissions)
  }

  lemma StepNumbers(w: Worker, event: Event)
    requires Numbered(w)
    ensures Numbered(Step(w, event))
  {
    hide Lists, BeginTask;
    if !event.Begin? && !event.Submit? {
      OthersKeep(w, event);
      hide Step;
    }
  }

  lemma {:induction false} RunNumbers(w: Worker, events: seq<Event>)
    requires Numbered(w)
    ensures Numbered(Run(w, events))
    decreases |events|
  {
    hide Step, Numbered;
    if events != [] {
      StepNumbers(w, events[0]);
      RunNumbers(Step(w, events[0]), events[1..]);
    }
  }

  predicate FencesAdmissions(w: Worker, event: Event) {
    && event.ExecuteEnds? && w.activity.Executing?
    && (event.execution.Deferred? || (event.execution.Returned? && event.execution.phase.Partial? && !w.aborted))
  }

  lemma FenceRaisesEpoch(w: Worker, event: Event)
    requires FencesAdmissions(w, event)
    ensures Step(w, event).admissionEpoch == w.admissionEpoch + 1 && Step(w, event).queue == w.queue
    ensures Step(w, event).history.prepared == w.history.prepared
    ensures Step(w, event).submissions == w.submissions
  {
  }

  /**
   A submission admitted before a partial or deferred outcome, and still queued then, never prepares in any later run.
   */
  lemma FencedSubmissionNeverPrepares(enabled: bool, journal: map<string, Journal.Phase>, before: seq<Event>,
      event: Event, after: seq<Event>, k: nat)
    requires var w := Run(Initial(enabled, journal), before);
      FencesAdmissions(w, event) && k < |w.queue| && w.queue[k].Submission?
    ensures var w := Run(Initial(enabled, journal), before);
      w.queue[k].number !in Run(Step(w, event), after).history.prepared
  {
    hide Run, Step, Initial, Clean, RecoveryFirst, StatusOk, DrainsOk, OneDrain, AdmissionsClean;
    var w := Run(Initial(enabled, journal), before);
    InitialInv(enabled, journal);
    RunKeeps(Initial(enabled, journal), before);
    InitialNumbers(enabled, journal);
    RunNumbers(Initial(enabled, journal), before);
    FenceRaisesEpoch(w, event);
    StaleNeverPrepares(Step(w, event), after, w.queue[k].number);
  }

  lemma InitialNumbers(enabled: bool, journal: map<string, Journal.Phase>)
    ensures Numbered(Initial(enabled, journal))
  {
  }

  // ---------- When a drain restores readiness ----------

  /** A drain finds the status it set, unless a partial or deferred outcome came since the last wake. */
  predicate WokenOk(w: Worker) {
    && w.history.wokenAt <= w.admissionEpoch
    && (w.drainScheduled && !DrainEnded(w) && !w.aborted && !w.status.Disabled? ==>
          (w.status.Recovering? || w.status.RecoveryRequired?) && (w.status.Recovering? <==>
              w.admissionEpoch == w.history.wokenAt))
  }

  predicate DrainEnded(w: Worker) {
    w.activity.Settled? && w.activity.task.Drain?
  }

  lemma NextKeepsWoken(w: Worker, task: Task, ids: seq<string>)
    requires WokenOk(w) && !DrainEnded(w) && (!w.aborted || !task.Drain?)
    ensures WokenOk(NextOperation(w, task, ids))
  {
  }

  lemma BeginOtherKeepsWoken(w: Worker, listed: seq<string>)
    requires WokenOk(w) && w.activity.Resting? && w.queue != [] && !w.queue[0].Recovery?
    ensures WokenOk(BeginTask(w, listed))
  {
    hide BeginTask;
  }

  lemma BeginRecoveryKeepsWoken(w: Worker, listed: seq<string>)
    requires WokenOk(w) && w.activity.Resting? && w.queue != [] && w.queue[0].Recovery?
    ensures WokenOk(BeginTask(w, listed))
  {
    hide NextOperation, Keeps, Still;
    NextKeepsWoken(w.(queue := w.queue[1..], history := w.history.(begun := w.history.begun + [w.queue[0]], unserved := false)), Recovery, listed);
  }

  lemma BeginKeepsWoken(w: Worker, listed: seq<string>)
    requires WokenOk(w) && w.activity.Resting? && w.queue != []
    ensures WokenOk(BeginTask(w, listed))
  {
    hide WokenOk, BeginTask;
    if w.queue[0].Recovery? {
      BeginRecoveryKeepsWoken(w, listed);
    } else {
      BeginOtherKeepsWoken(w, listed);
    }
  }

  lemma TimerKeepsWoken(w: Worker, listed: seq<string>)
    requires WokenOk(w) && w.activity.Waiting?
    ensures WokenOk(DrainLoop(w, listed))
  {
    hide NextOperation;
    if !w.aborted && w.wakeRequested && w.enabled {
      NextKeepsWoken(w.(wakeRequested := false, history := w.history.(unserved := false)), Drain, listed);
    }
  }

  lemma ExecutionKeepsWoken(w: Worker, execution: Execution)
    requires WokenOk(w) && w.activity.Executing?
    requires w.status.Failed? || w.status.Stopping? || w.status.Stopped? ==> w.aborted
    ensures WokenOk(EndExecution(w, execution))
  {
    hide NextOperation;
    if execution.Returned? && !w.aborted && !execution.phase.Partial? && !w.activity.task.Submission? {
      NextKeepsWoken(w.(journal := w.journal[w.activity.id := execution.phase]), w.activity.task, w.activity.rest);
    }
  }

  lemma CallsKeepWoken(w: Worker, event: Event)
    requires Inv(w) && WokenOk(w)
    requires event.Start? || event.Wake? || event.Submit? || event.SerializeMutation? || event.Stop? || event.StopDone?
      || event.SetEnabled?
    ensures WokenOk(Step(w, event))
  {
    hide Journal.Unfinished, Live, Clean, Lists, AdmissionsClean, Serial, RecoveryFirst, OneDrain, Admissions;
  }

  lemma ContinueKeepsWoken(w: Worker)
    requires Inv(w) && WokenOk(w) && w.activity.Settled?
    ensures WokenOk(ContinueSettled(w))
  {
    hide Journal.Unfinished, Live, Clean, Lists, AdmissionsClean, Serial, RecoveryFirst;
  }

  lemma StepKeepsWoken(w: Worker, event: Event)
    requires Inv(w) && WokenOk(w)
    ensures WokenOk(Step(w, event))
  {
    hide WokenOk, Lists, ReturnsTerminal, BeginTask, DrainLoop, EndPrepare, EndExecution, ContinueSettled, StartCall,
      WakeCall, SubmitCall,
      MutationCall, StopCall, RecoveryFirst, DrainsOk, OneDrain, AdmissionsClean, Clean;
    match event
    case Begin(listed) => if w.activity.Resting? && w.queue != [] { BeginKeepsWoken(w, listed); }
    case Timer(listed) => if w.activity.Waiting? { TimerKeepsWoken(w, listed); }
    case PrepareEnds(id) => if w.activity.Preparing? { PrepareKeepsWoken(w, id); }
    case ExecuteEnds(execution) => if w.activity.Executing? { ExecutionKeepsWoken(w, execution); }
    case MutationEnds => MutationKeepsWoken(w);
    case Continue => if w.activity.Settled? { ContinueKeepsWoken(w); }
    case _ => CallsKeepWoken(w, event);
  }

  lemma PrepareKeepsWoken(w: Worker, id: Option<string>)
    requires WokenOk(w) && w.activity.Preparing?
    ensures WokenOk(EndPrepare(w, id))
  {
  }

  lemma MutationKeepsWoken(w: Worker)
    requires WokenOk(w)
    ensures w.activity.Mutating? ==> WokenOk(w.(activity := Resting))
  {
  }

  lemma {:induction false} RunKeepsWoken(w: Worker, events: seq<Event>)
    requires Inv(w) && WokenOk(w)
    ensures WokenOk(Run(w, events))
    decreases |events|
  {
    hide Inv, WokenOk, Step;
    if events != [] {
      StepKeeps(w, events[0]);
      StepKeepsWoken(w, events[0]);
      RunKeepsWoken(Step(w, events[0]), events[1..]);
    }
  }

  /** A drain that ends restores readiness exactly when no outcome since the last wake was partial or deferred. */
  lemma DrainRestoresReadiness(enabled: bool, journal: map<string, Journal.Phase>, events: seq<Event>)
    ensures var w := Run(Initial(enabled, journal), events);
      w.drainScheduled && !DrainEnded(w) && !w.aborted && !w.status.Disabled? ==>
        (EndDrain(w).status.Ready? <==> w.admissionEpoch == w.history.wokenAt)
  {
    hide Run, Inv;
    InitialInv(enabled, journal);
    RunKeepsWoken(Initial(enabled, journal), events);
  }

  /** The run in which the first submission turns partial while a wake is queued behind it. */
  function OvertakenWake(): seq<Event> {
    [Start, Begin([]), Continue] + ([Submit, Begin([])] + ([PrepareEnds(Some("a")), Wake,
        ExecuteEnds(Returned(Journal.Partial))]
    + ([Begin(["a"]), Timer(["a"])] + [ExecuteEnds(Returned(Journal.Completed)), Continue])))
  }

  const FIRST := Submission(0, 0)
  const READY := Initial(true, map[]).(status := Ready, started := true,
      history := History([Recovery], [Recovery], {}, false, false, 0))
  const PREPARING := READY.(activity := Preparing(FIRST), submissions := 1,
      history := READY.history.(enqueued := [Recovery, FIRST], begun := [Recovery, FIRST], prepared := {0}))
  const OVERTAKEN := PREPARING.(status := RecoveryRequired, queue := [Drain], activity := Resting,
      drainScheduled := true, wakeRequested := true, admissionEpoch := 1, journal := map["a" := Journal.Partial],
      history := PREPARING.history.(enqueued := [Recovery, FIRST, Drain], unserved := true))
  const DRAINING := OVERTAKEN.(queue := [], activity := Executing(Drain, "a", []), wakeRequested := false,
      history := OVERTAKEN.history.(begun := [Recovery, FIRST, Drain], unserved := false))
  const STUCK := DRAINING.(activity := Resting, drainScheduled := false, journal := map["a" := Journal.Completed])

  lemma BecomesReady()
    ensures Step(Step(Step(Initial(true, map[]), Start), Begin([])), Continue) == READY
  {
  }

  lemma BeginsPreparing()
    ensures Step(Step(READY, Submit), Begin([])) == PREPARING
  {
  }

  lemma TurnsPartial()
    ensures Step(Step(Step(PREPARING, PrepareEnds(Some("a"))), Wake), ExecuteEnds(Returned(Journal.Partial))) == OVERTAKEN
  {
  }

  lemma BeginsDraining()
    ensures Step(Step(OVERTAKEN, Begin(["a"])), Timer(["a"])) == DRAINING
  {
    assert Lists(OVERTAKEN.journal, ["a"]);
    var waiting := Step(OVERTAKEN, Begin(["a"]));
    assert waiting == OVERTAKEN.(queue := [], activity := Waiting,
        history := OVERTAKEN.history.(begun := [Recovery, FIRST, Drain]));
    assert ["a"][1..] == [];
  }

  lemma StaysInRecovery()
    ensures Step(Step(DRAINING, ExecuteEnds(Returned(Journal.Completed))), Continue) == STUCK
  {
  }

  lemma {:induction false} RunAppend(w: Worker, first: seq<Event>, second: seq<Event>)
    ensures Run(w, first + second) == Run(Run(w, first), second)
    decreases |first|
  {
    hide Step;
    if first == [] {
      assert first + second == second;
    } else {
      assert (first + second)[1..] == first[1..] + second;
      RunAppend(Step(w, first[0]), first[1..], second);
    }
  }

  lemma RunTwo(w: Worker, a: Event, b: Event)
    ensures Run(w, [a, b]) == Step(Step(w, a), b)
  {
    hide Step;
    assert [a, b][1..] == [b] && [b][1..] == [];
    assert Run(Step(w, a), [b]) == Run(Step(Step(w, a), b), []);
  }

  lemma RunThree(w: Worker, a: Event, b: Event, c: Event)
    ensures Run(w, [a, b, c]) == Step(Step(Step(w, a), b), c)
  {
    hide Step;
    assert [a, b, c][1..] == [b, c];
    RunTwo(Step(w, a), b, c);
  }

  /**
   Readiness does not always return: a wake queued behind a submission that turns partial is served, everything is
   closed and nothing is queued, yet the worker stays in recovery until it is woken again.
   */
  lemma OvertakenWakeStaysInRecovery()
    ensures var w := Run(Initial(true, map[]), OvertakenWake());
      AllClosed(w.journal) && w.queue == [] && w.activity.Resting? && w.enabled && !w.aborted && w.status.RecoveryRequired?
  {
    hide Run, Step;
    BecomesReady();
    BeginsPreparing();
    TurnsPartial();
    BeginsDraining();
    StaysInRecovery();
    RunThree(Initial(true, map[]), Start, Begin([]), Continue);
    RunTwo(READY, Submit, Begin([]));
    RunThree(PREPARING, PrepareEnds(Some("a")), Wake, ExecuteEnds(Returned(Journal.Partial)));
    RunTwo(OVERTAKEN, Begin(["a"]), Timer(["a"]));
    RunTwo(DRAINING, ExecuteEnds(Returned(Journal.Completed)), Continue);
    var last := [ExecuteEnds(Returned(Journal.Completed)), Continue];
    var fourth := [Begin(["a"]), Timer(["a"])] + last;
    var third := [PrepareEnds(Some("a")), Wake, ExecuteEnds(Returned(Journal.Partial))] + fourth;
    var second := [Submit, Begin([])] + third;
    RunAppend(Initial(true, map[]), [Start, Begin([]), Continue], second);
    RunAppend(READY, [Submit, Begin([])], third);
    RunAppend(PREPARING, [PrepareEnds(Some("a")), Wake, ExecuteEnds(Returned(Journal.Partial))], fourth);
    RunAppend(OVERTAKEN, [Begin(["a"]), Timer(["a"])], last);
    assert Run(Initial(true, map[]), OvertakenWake()) == STUCK;
  }
}
