/**
 The apply worker: one tail that runs mutations one at a time. Every stretch of code between two awaits is one
 step, and any caller may interleave its calls between the steps.
 */
module ApplyWorker {
  import opened Wrappers
  import Journal

  datatype Status = Disabled | Recovering | Ready | RecoveryRequired | Failed | Stopping | Stopped

  datatype Task =
    | Recovery
    | Drain
    | Submission(number: nat, admittedAt: nat)
    | Mutation

  /**
   What the head of the tail is doing. A settled task still has its continuation to run before the next task starts.
   */
  datatype Activity =
    | Resting
    | Waiting
    | Preparing(task: Task)
    | Executing(task: Task, id: string, rest: seq<string>)
    | Mutating
    | Settled(task: Task, ok: bool)

  /**
   What was enqueued, begun and prepared; whether a wake still waits for a snapshot, and the epoch of the last wake.
   */
  datatype History = History(
    enqueued: seq<Task>,
    begun: seq<Task>,
    prepared: set<nat>,
    unserved: bool,
    disabledSinceWake: bool,
    wokenAt: nat)

  datatype Worker = Worker(
    status: Status,
    started: bool,
    queue: seq<Task>,
    activity: Activity,
    drainScheduled: bool,
    wakeRequested: bool,
    admissionEpoch: nat,
    aborted: bool,
    stopRequested: bool,
    // the deployment and the journal, as the worker sees them
    enabled: bool,
    journal: map<string, Journal.Phase>,
    submissions: nat,
    history: History)

  /** How one execution ends: with a result, deferred, or with any other error. */
  datatype Execution = Returned(phase: Journal.Phase) | Deferred(phase: Journal.Phase) | Threw(phase: Journal.Phase)

  datatype Event =
    | Start
    | Wake
    | Submit
    | SerializeMutation
    | Stop
    | StopDone
    | SetEnabled(enabled: bool)
    | Begin(listed: seq<string>)
    | Timer(listed: seq<string>)
    | PrepareEnds(id: Option<string>)
    | ExecuteEnds(execution: Execution)
    | MutationEnds
    | Continue

  /** `listUnfinished`. */
  predicate Lists(journal: map<string, Journal.Phase>, listed: seq<string>) {
    && (forall id :: id in listed ==> id in journal && Journal.Unfinished(journal[id]))
    && (forall id :: id in journal && Journal.Unfinished(journal[id]) ==> id in listed)
  }

  // ---------- State changes ----------

  /** The queue, what was begun and what was prepared are the same, and the epoch did not go back. */
  predicate Still(w: Worker, next: Worker) {
    && next.queue == w.queue && next.history.begun == w.history.begun && next.history.prepared == w.history.prepared
    && next.submissions == w.submissions
    && w.admissionEpoch <= next.admissionEpoch
  }

  /** Nothing was begun, prepared or submitted, the epoch did not go back, and the queue grew by internal tasks only. */
  predicate Keeps(w: Worker, next: Worker) {
    && next.history.begun == w.history.begun && next.history.prepared == w.history.prepared
    && next.submissions == w.submissions
    && w.admissionEpoch <= next.admissionEpoch
    && w.queue <= next.queue && (forall k :: |w.queue| <= k < |next.queue| ==> !next.queue[k].Submission?)
  }

  function Enqueue(w: Worker, task: Task): (next: Worker)
  {
    w.(queue := w.queue + [task], history := w.history.(enqueued := w.history.enqueued + [task]))
  }

  predicate CanWake(w: Worker) {
    (w.status.Ready? || w.status.Recovering? || w.status.RecoveryRequired?) && w.enabled
  }

  function Fail(w: Worker): (next: Worker)
    ensures Still(w, next)
  {
    if w.status.Failed? || w.status.Stopping? || w.status.Stopped? then w
    else w.(status := Failed, wakeRequested := false, aborted := true)
  }

  function RequireRecovery(w: Worker): (next: Worker)
    ensures Still(w, next)
  {
    w.(admissionEpoch := w.admissionEpoch + 1, status := RecoveryRequired)
  }

  function ScheduleDrain(w: Worker): (next: Worker)
    ensures Keeps(w, next)
  {
    if w.drainScheduled then w
    else Enqueue(w.(drainScheduled := true, status := Recovering, history := w.history.(wokenAt := w.admissionEpoch)),
        Drain)
  }

  // ---------- Calls ----------

  function StartCall(w: Worker): (next: Worker)
    ensures Keeps(w, next)
  {
    if w.started || w.status.Stopping? || w.status.Stopped? then w
    else if !w.enabled then w.(started := true, status := Disabled)
    else Enqueue(w.(started := true, status := Recovering), Recovery)
  }

  function WakeCall(w: Worker): (next: Worker)
    ensures Keeps(w, next)
  {
    if !CanWake(w) then w
    else ScheduleDrain(w.(wakeRequested := true, status := Recovering,
        history := w.history.(unserved := true, disabledSinceWake := false, wokenAt := w.admissionEpoch)))
  }

  function SubmitCall(w: Worker): (next: Worker)
    ensures next.history.begun == w.history.begun
  {
    if w.status.Ready? && w.enabled then Enqueue(w, Submission(w.submissions, w.admissionEpoch)).(submissions := w.submissions + 1) else w
  }

  function MutationCall(w: Worker): (next: Worker)
    ensures Keeps(w, next)
  {
    if w.status.Stopping? || w.status.Stopped? then w else Enqueue(w, Mutation)
  }

  function StopCall(w: Worker): (next: Worker)
    ensures Still(w, next)
  {
    if w.status.Stopped? then w
        else w.(status := Stopping, wakeRequested := false, aborted := true, stopRequested := true)
  }

  // ---------- The running task ----------

  function Reject(w: Worker, task: Task): (next: Worker)
    ensures Still(w, next)
  {
    w.(activity := if task.Recovery? || task.Drain? then Settled(task, false) else Resting)
  }

  function EndDrain(w: Worker): (next: Worker)
    ensures Still(w, next)
  {
    (if w.status.Recovering? then w.(status := Ready) else w).(activity := Settled(Drain, true))
  }

  /** The head of the loop over a snapshot. */
  function NextOperation(w: Worker, task: Task, ids: seq<string>): (next: Worker)
    ensures Still(w, next)
  {
    if ids != [] then if w.aborted then Reject(w, task) else w.(activity := Executing(task, ids[0], ids[1..]))
    else if !task.Drain? then w.(activity := Settled(task, true))
    else if w.wakeRequested then w.(activity := Waiting)
    else EndDrain(w)
  }

  function Snapshot(w: Worker, task: Task, listed: seq<string>): (next: Worker)
    ensures Still(w, next)
  {
    NextOperation(w.(history := w.history.(unserved := false)), task, listed)
  }

  /** The drain after a timer boundary. */
  function DrainLoop(w: Worker, listed: seq<string>): (next: Worker)
    ensures Still(w, next)
  {
    if w.aborted then Reject(w, Drain)
    else if !w.wakeRequested then EndDrain(w)
    else if !w.enabled then w.(status := Disabled, activity := Settled(Drain, true))
    else Snapshot(w.(wakeRequested := false), Drain, listed)
  }

  function BeginTask(w: Worker, listed: seq<string>): (next: Worker)
    requires w.activity.Resting? && w.queue != []
    ensures next.history.begun == w.history.begun + [w.queue[0]]
    ensures next.queue == w.queue[1..]
    ensures next.submissions == w.submissions
    ensures next.admissionEpoch >= w.admissionEpoch
    ensures next.history.prepared == w.history.prepared
      || (w.queue[0].Submission? && w.queue[0].admittedAt == w.admissionEpoch && next.history.prepared == w.history.prepared + {w.queue[0].number})
    ensures !w.queue[0].Recovery? ==> next.status == w.status && next.drainScheduled == w.drainScheduled
    ensures !w.queue[0].Recovery? ==>
      next.aborted == w.aborted && next.history.wokenAt == w.history.wokenAt && !next.activity.Settled?
    ensures !w.queue[0].Recovery? ==> next.admissionEpoch == w.admissionEpoch
  {
    hide Snapshot;
    var task := w.queue[0];
    var after := w.(queue := w.queue[1..], history := w.history.(begun := w.history.begun + [task]));
    match task
    case Recovery => Snapshot(after, Recovery, listed)
    case Drain => after.(activity := Waiting)
    case Submission(number, admittedAt) =>
      if w.aborted || !w.enabled || admittedAt != w.admissionEpoch then after
      else after.(activity := Preparing(task), history := after.history.(prepared := w.history.prepared + {number}))
    case Mutation => after.(activity := Mutating)
  }

  function EndPrepare(w: Worker, id: Option<string>): (next: Worker)
    requires w.activity.Preparing?
    ensures Still(w, next)
  {
    if id.None? then w.(activity := Resting)
    else
      var journaled := if id.value in w.journal then w else w.(journal := w.journal[id.value := Journal.Prepared]);
      if w.aborted then journaled.(activity := Resting)
          else journaled.(activity := Executing(w.activity.task, id.value, []))
  }

  /** The end of a task that did not fail: submissions have no continuation of the worker's own. */
  function Resolve(w: Worker, task: Task): (next: Worker)
    ensures Still(w, next)
  {
    w.(activity := if task.Submission? then Resting else Settled(task, true))
  }

  /** What the outcome of an execution does to the task that waited for it. */
  function Conclude(w: Worker, task: Task, rest: seq<string>, execution: Execution): (next: Worker)
    ensures Still(w, next)
  {
    hide NextOperation, Resolve, Reject, Fail, RequireRecovery;
    match execution
    case Threw(_) => Reject(Fail(w), task)
    case Deferred(_) => Resolve(RequireRecovery(w), task)
    case Returned(phase) =>
      if w.aborted then Reject(w, task)
      else if phase.Partial? then Resolve(RequireRecovery(w), task)
      else if task.Submission? then Resolve(w, task)
      else NextOperation(w, task, rest)
  }

  function EndExecution(w: Worker, execution: Execution): (next: Worker)
    requires w.activity.Executing?
    ensures Still(w, next)
  {
    Conclude(w.(journal := w.journal[w.activity.id := execution.phase]), w.activity.task, w.activity.rest, execution)
  }

  /** The continuation of the startup recovery and of a drain. */
  function ContinueSettled(w: Worker): (next: Worker)
    requires w.activity.Settled?
    ensures Keeps(w, next)
  {
    var after := w.(activity := Resting);
    if w.activity.task.Drain? then
      var done := after.(drainScheduled := false);
      if !w.activity.ok then Fail(done)
      else if done.wakeRequested && CanWake(done) then ScheduleDrain(done)
      else done
    else if !w.activity.ok then Fail(after)
    else if w.status.Recovering? && !w.drainScheduled && !w.wakeRequested then after.(status := Ready)
    else after
  }

  predicate ReturnsTerminal(execution: Execution) {
    execution.Returned? ==> execution.phase.Completed? || execution.phase.Partial? || execution.phase.Aborted?
  }

  /** An event that does not apply changes nothing. */
  function Step(w: Worker, event: Event): Worker {
    match event
    case Start => StartCall(w)
    case Wake => WakeCall(w)
    case Submit => SubmitCall(w)
    case SerializeMutation => MutationCall(w)
    case Stop => StopCall(w)
    case StopDone => if w.stopRequested then w.(status := Stopped) else w
    case SetEnabled(enabled) => w.(enabled := enabled,
        history := w.history.(disabledSinceWake := w.history.disabledSinceWake || !enabled))
    case Begin(listed) => if w.activity.Resting? && w.queue != [] && Lists(w.journal, listed) then BeginTask(w, listed)
        else w
    case Timer(listed) => if w.activity.Waiting? && Lists(w.journal, listed) then DrainLoop(w, listed) else w
    case PrepareEnds(id) => if w.activity.Preparing? then EndPrepare(w, id) else w
    case ExecuteEnds(execution) => if w.activity.Executing? && ReturnsTerminal(execution) then EndExecution(w, execution) else w
    case MutationEnds => if w.activity.Mutating? then w.(activity := Resting) else w
    case Continue => if w.activity.Settled? then ContinueSettled(w) else w
  }

  function Initial(enabled: bool, journal: map<string, Journal.Phase>): Worker {
    Worker(Disabled, false, [], Resting, false, false, 0, false, false, enabled, journal, 0,
        History([], [], {}, false, false, 0))
  }

  function Run(w: Worker, events: seq<Event>): Worker
    decreases |events|
  {
    if events == [] then w else Run(Step(w, events[0]), events[1..])
  }
}
