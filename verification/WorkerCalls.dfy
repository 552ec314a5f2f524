/**
 What the calls of the worker bring about, told from the calls themselves: a wake and a start lead to a snapshot of the
 journal, a snapshot executes what it lists, an admitted submission is prepared, and nothing begins after a stop.
 */
module WorkerCalls {
  import opened Wrappers
  import Journal
  import opened ApplyWorker
  import opened WorkerTheorems

  // ---------- Snapshots, as events ----------

  /** The event makes the worker read the journal: at the start of the recovery, or at a timer boundary of a drain. */
  predicate SnapshotAt(w: Worker, event: Event) {
    match event
    case Begin(listed) => w.activity.Resting? && w.queue != [] && w.queue[0] == Recovery && Lists(w.journal, listed)
    case Timer(listed) => w.activity.Waiting? && Lists(w.journal, listed) && !w.aborted && w.wakeRequested && w.enabled
    case _ => false
  }

  predicate SnapshotIn(w: Worker, events: seq<Event>)
    decreases |events|
  {
    events != [] && (SnapshotAt(w, events[0]) || SnapshotIn(Step(w, events[0]), events[1..]))
  }

  predicate DisabledIn(events: seq<Event>) {
    exists k :: 0 <= k < |events| && events[k] == SetEnabled(false)
  }

  predicate AtRest(w: Worker) {
    w.queue == [] && w.activity == Resting
  }

  /** A wake counts while the worker is ready, recovering or in need of recovery, and enabled. */
  predicate AcceptsWake(w: Worker) {
    w.enabled && w.status in {Ready, Recovering, RecoveryRequired}
  }

  function Listed(event: Event): seq<string>
    requires event.Begin? || event.Timer?
  {
    event.listed
  }

  /** A snapshot executes everything it lists, from the first on, unless the worker was aborted. */
  lemma SnapshotExecutes(w: Worker, event: Event)
    requires SnapshotAt(w, event)
    ensures var next := Step(w, event);
      if Listed(event) == [] then !next.activity.Executing?
      else if w.aborted then !next.activity.Executing? && !next.activity.Preparing?
      else next.activity.Executing? && next.activity.id == Listed(event)[0] && next.activity.rest == Listed(event)[1..]
  {
    hide Still, Lists;
  }

  // ---------- Wakes ----------

  /** The wake is remembered, the worker recovers, and a drain is queued or running. */
  predicate Woken(w: Worker) {
    w.wakeRequested && w.status == Recovering && (Drain in w.queue || DrainActivity(w.activity))
  }

  lemma CallWakes(w: Worker)
    requires Inv(w)
    ensures if AcceptsWake(w) then Woken(WakeCall(w)) else WakeCall(w) == w
  {
    hide Still, Keeps;
    WakeKeeps(w);
  }

  /** An accepted wake takes effect at once; any other wake changes nothing. */
  lemma WakeTakesEffect(w: Worker)
    requires Inv(w)
    ensures if AcceptsWake(w) then Woken(Step(w, Wake)) else Step(w, Wake) == w
  {
    hide Inv, WakeCall;
    CallWakes(w);
  }

  /** What the history remembers of a wake, and of an abort, is not lost. */
  predicate Remembers(w: Worker, next: Worker) {
    && (w.history.unserved ==> next.history.unserved)
    && (next.history.disabledSinceWake ==> w.history.disabledSinceWake)
    && (w.aborted ==> next.aborted)
  }

  lemma CallsRemember(w: Worker)
    ensures Remembers(w, StartCall(w)) && Remembers(w, WakeCall(w)) && Remembers(w, SubmitCall(w))
    ensures Remembers(w, MutationCall(w)) && Remembers(w, StopCall(w))
  {
    hide Still, Keeps;
  }

  lemma RestingRemembers(w: Worker, task: Task)
    ensures Remembers(w, Reject(w, task)) && Remembers(w, Resolve(w, task))
  {
    hide Still;
  }

  lemma FencesRemember(w: Worker)
    ensures Remembers(w, Fail(w)) && Remembers(w, RequireRecovery(w))
  {
    hide Still;
  }

  lemma DrainsRemember(w: Worker)
    ensures Remembers(w, EndDrain(w)) && Remembers(w, ScheduleDrain(w))
  {
    hide Still, Keeps;
  }

  lemma EndsRemember(w: Worker, task: Task)
    ensures Remembers(w, Reject(w, task)) && Remembers(w, EndDrain(w)) && Remembers(w, Resolve(w, task))
    ensures Remembers(w, Fail(w)) && Remembers(w, RequireRecovery(w)) && Remembers(w, ScheduleDrain(w))
  {
    hide Reject, Resolve, Fail, RequireRecovery, EndDrain, ScheduleDrain, Remembers;
    RestingRemembers(w, task);
    FencesRemember(w);
    DrainsRemember(w);
  }

  lemma RemembersOn(a: Worker, b: Worker, c: Worker)
    requires Remembers(a, b) && Remembers(b, c)
    ensures Remembers(a, c)
  {
  }

  lemma NextRemembers(w: Worker, task: Task, ids: seq<string>)
    ensures Remembers(w, NextOperation(w, task, ids))
  {
    hide Still, Reject, EndDrain;
    EndsRemember(w, task);
  }

  lemma BeginRemembers(w: Worker, listed: seq<string>)
    requires w.activity.Resting? && w.queue != [] && !w.queue[0].Recovery?
    ensures Remembers(w, BeginTask(w, listed))
  {
    hide Still, Snapshot;
  }

  lemma TimerRemembers(w: Worker, listed: seq<string>)
    requires w.activity.Waiting? && (w.aborted || !w.wakeRequested || !w.enabled)
    ensures Remembers(w, DrainLoop(w, listed))
  {
    hide Still, Snapshot, Reject, EndDrain;
    EndsRemember(w, Drain);
  }

  lemma ConcludeRemembers(w: Worker, task: Task, rest: seq<string>, execution: Execution)
    ensures Remembers(w, Conclude(w, task, rest, execution))
  {
    hide Still, Reject, Resolve, Fail, RequireRecovery, NextOperation, Remembers;
    EndsRemember(w, task);
    EndsRemember(Fail(w), task);
    EndsRemember(RequireRecovery(w), task);
    RemembersOn(w, Fail(w), Reject(Fail(w), task));
    RemembersOn(w, RequireRecovery(w), Resolve(RequireRecovery(w), task));
    NextRemembers(w, task, rest);
  }

  lemma ExecutionRemembers(w: Worker, execution: Execution)
    requires w.activity.Executing?
    ensures Remembers(w, EndExecution(w, execution))
  {
    hide Still, Conclude;
    ConcludeRemembers(w.(journal := w.journal[w.activity.id := execution.phase]), w.activity.task, w.activity.rest, execution);
  }

  lemma ContinueRemembers(w: Worker)
    requires w.activity.Settled?
    ensures Remembers(w, ContinueSettled(w))
  {
    hide Still, Keeps, ScheduleDrain, Fail;
    var after := w.(activity := Resting);
    EndsRemember(after, Drain);
    EndsRemember(after.(drainScheduled := false), Drain);
  }

  lemma PrepareRemembers(w: Worker, id: Option<string>)
    requires w.activity.Preparing?
    ensures Remembers(w, EndPrepare(w, id))
  {
    hide Still;
  }

  lemma SimpleRemembers(w: Worker, event: Event)
    requires event.StopDone? || event.MutationEnds? || (event.SetEnabled? && event.enabled)
    ensures Remembers(w, Step(w, event))
  {
    hide Still;
  }

  lemma Unchanged(w: Worker)
    ensures Remembers(w, w)
  {
  }

  lemma StepRemembers(w: Worker, event: Event)
    requires !SnapshotAt(w, event) && event != SetEnabled(false)
    ensures Remembers(w, Step(w, event))
  {
    hide StartCall, WakeCall, SubmitCall, MutationCall, StopCall, BeginTask, DrainLoop, EndPrepare, EndExecution,
      ContinueSettled, Lists, ReturnsTerminal, Remembers;
    Unchanged(w);
    CallsRemember(w);
    match event
    case Begin(listed) =>
      if w.activity.Resting? && w.queue != [] && Lists(w.journal, listed) {
        BeginRemembers(w, listed);
      }
    case Timer(listed) =>
      if w.activity.Waiting? && Lists(w.journal, listed) {
        TimerRemembers(w, listed);
      }
    case PrepareEnds(id) =>
      if w.activity.Preparing? {
        PrepareRemembers(w, id);
      }
    case ExecuteEnds(execution) =>
      if w.activity.Executing? && ReturnsTerminal(execution) {
        ExecutionRemembers(w, execution);
      }
    case Continue =>
      if w.activity.Settled? {
        ContinueRemembers(w);
      }
    case SetEnabled(_) => SimpleRemembers(w, event);
    case StopDone => SimpleRemembers(w, event);
    case MutationEnds => SimpleRemembers(w, event);
    case _ =>
  }

  lemma {:induction false} RunRemembers(w: Worker, events: seq<Event>)
    requires !SnapshotIn(w, events) && !DisabledIn(events)
    ensures Remembers(w, Run(w, events))
    decreases |events|
  {
    hide Step, SnapshotAt, Remembers;
    if events == [] {
      Unchanged(w);
    } else {
      forall k | 0 <= k < |events[1..]| ensures events[1..][k] != SetEnabled(false) {
        assert events[1..][k] == events[k + 1];
      }
      StepRemembers(w, events[0]);
      RunRemembers(Step(w, events[0]), events[1..]);
      RemembersOn(w, Step(w, events[0]), Run(w, events));
    }
  }

  lemma WakeIsNoted(w: Worker)
    requires AcceptsWake(w)
    ensures Step(w, Wake).history.unserved && !Step(w, Wake).history.disabledSinceWake
  {
    hide Still, Keeps;
  }

  /**
   In every run: once a wake was accepted, a worker that comes to rest has read the journal after it, unless it was
   aborted or disabled meanwhile.
   */
  lemma WakeLeadsToSnapshot(enabled: bool, journal: map<string, Journal.Phase>, before: seq<Event>, after: seq<Event>)
    requires AcceptsWake(Run(Initial(enabled, journal), before))
    ensures var woken := Step(Run(Initial(enabled, journal), before), Wake);
      AtRest(Run(woken, after)) ==> SnapshotIn(woken, after) || Run(woken, after).aborted || DisabledIn(after)
  {
    hide Step, Run, Initial, AcceptsWake, SnapshotIn, DisabledIn, Admissions, RecoveryFirst, StatusOk, OneDrain,
        AdmissionsClean,
      SnapshotsClean, RecoveryDone;
    InitialInv(enabled, journal);
    RunKeeps(Initial(enabled, journal), before);
    var w := Run(Initial(enabled, journal), before);
    StepKeeps(w, Wake);
    RunKeeps(Step(w, Wake), after);
    WakeIsNoted(w);
    if !SnapshotIn(Step(w, Wake), after) && !DisabledIn(after) {
      RunRemembers(Step(w, Wake), after);
    }
  }

  // ---------- Readiness ----------

  /** A ready worker has no wake pending, so no submission is admitted in front of one. */
  predicate Caught(w: Worker) {
    w.status == Ready ==> !w.wakeRequested
  }

  lemma CallsStayCaught(w: Worker)
    requires Caught(w)
    ensures Caught(StartCall(w)) && Caught(WakeCall(w)) && Caught(SubmitCall(w)) && Caught(MutationCall(w))
    ensures Caught(StopCall(w))
  {
    hide Still, Keeps;
  }

  lemma EndsStayCaught(w: Worker, task: Task)
    requires Caught(w)
    ensures Caught(Reject(w, task)) && Caught(Resolve(w, task)) && Caught(Fail(w)) && Caught(RequireRecovery(w))
    ensures !w.wakeRequested ==> Caught(EndDrain(w))
  {
    hide Still;
  }

  lemma NextStaysCaught(w: Worker, task: Task, ids: seq<string>)
    requires Caught(w)
    ensures Caught(NextOperation(w, task, ids))
  {
    hide Still, Reject, EndDrain;
    EndsStayCaught(w, task);
  }

  lemma BeginStaysCaught(w: Worker, listed: seq<string>)
    requires Caught(w) && w.activity.Resting? && w.queue != []
    ensures Caught(BeginTask(w, listed))
  {
    hide Still, NextOperation;
    var task := w.queue[0];
    var after := w.(queue := w.queue[1..], history := w.history.(begun := w.history.begun + [task]));
    NextStaysCaught(after.(history := after.history.(unserved := false)), task, listed);
  }

  lemma TimerStaysCaught(w: Worker, listed: seq<string>)
    requires Caught(w)
    ensures Caught(DrainLoop(w, listed))
  {
    hide Still, NextOperation, Reject, EndDrain;
    EndsStayCaught(w, Drain);
    var taken := w.(wakeRequested := false);
    NextStaysCaught(taken.(history := taken.history.(unserved := false)), Drain, listed);
  }

  lemma ExecutionStaysCaught(w: Worker, execution: Execution)
    requires Caught(w) && w.activity.Executing?
    ensures Caught(EndExecution(w, execution))
  {
    hide Still, NextOperation, Reject, Resolve, Fail, RequireRecovery;
    var noted := w.(journal := w.journal[w.activity.id := execution.phase]);
    EndsStayCaught(noted, w.activity.task);
    EndsStayCaught(Fail(noted), w.activity.task);
    EndsStayCaught(RequireRecovery(noted), w.activity.task);
    NextStaysCaught(noted, w.activity.task, w.activity.rest);
  }

  lemma ContinueStaysCaught(w: Worker)
    requires Caught(w) && w.activity.Settled?
    ensures Caught(ContinueSettled(w))
  {
    hide Still, Keeps;
  }

  lemma PrepareStaysCaught(w: Worker, id: Option<string>)
    requires Caught(w) && w.activity.Preparing?
    ensures Caught(EndPrepare(w, id))
  {
    hide Still;
  }

  lemma StepStaysCaught(w: Worker, event: Event)
    requires Caught(w)
    ensures Caught(Step(w, event))
  {
    hide StartCall, WakeCall, SubmitCall, MutationCall, StopCall, BeginTask, DrainLoop, EndPrepare, EndExecution,
      ContinueSettled, Lists, ReturnsTerminal;
    match event
    case Begin(listed) =>
      if w.activity.Resting? && w.queue != [] && Lists(w.journal, listed) {
        BeginStaysCaught(w, listed);
      }
    case Timer(listed) => TimerStaysCaught(w, listed);
    case PrepareEnds(id) =>
      if w.activity.Preparing? {
        PrepareStaysCaught(w, id);
      }
    case ExecuteEnds(execution) =>
      if w.activity.Executing? && ReturnsTerminal(execution) {
        ExecutionStaysCaught(w, execution);
      }
    case Continue =>
      if w.activity.Settled? {
        ContinueStaysCaught(w);
      }
    case _ => CallsStayCaught(w);
  }

  lemma {:induction false} RunStaysCaught(w: Worker, events: seq<Event>)
    requires Caught(w)
    ensures Caught(Run(w, events))
    decreases |events|
  {
    hide Step, Caught;
    if events != [] {
      StepStaysCaught(w, events[0]);
      RunStaysCaught(Step(w, events[0]), events[1..]);
    }
  }

  /** In every run, a worker that admits submissions has no wake pending: no submission overtakes a wake. */
  lemma ReadyMeansNoWakePending(enabled: bool, journal: map<string, Journal.Phase>, events: seq<Event>)
    ensures var w := Run(Initial(enabled, journal), events);
      w.status == Ready ==> !w.wakeRequested
  {
    hide Run;
    RunStaysCaught(Initial(enabled, journal), events);
  }

  // ---------- The start ----------

  /** The first start of an enabled worker queues its recovery, that of a disabled one settles it as disabled. */
  lemma StartTakesEffect(w: Worker)
    ensures var next := Step(w, Start);
      if w.started || w.status in {Stopping, Stopped} then next == w
      else if w.enabled then next.started && next.status == Recovering && next.queue == w.queue + [Recovery]
      else next.started && next.status == Disabled && next.queue == w.queue
  {
    hide Still, Keeps;
  }

  /** A queued recovery stays queued until it begins, which is a snapshot. */
  lemma RecoveryStays(w: Worker, event: Event)
    requires Recovery in w.queue && !SnapshotAt(w, event)
    ensures Recovery in Step(w, event).queue
  {
    hide StartCall, WakeCall, SubmitCall, MutationCall, StopCall, BeginTask, DrainLoop, EndPrepare, EndExecution,
        ContinueSettled,
      Lists, ReturnsTerminal;
    if event.Submit? {
      SubmitTakesEffect(w);
    } else if !event.Begin? {
      OthersKeep(w, event);
    } else if w.activity.Resting? && w.queue != [] && Lists(w.journal, event.listed) {
      assert w.queue[0] != Recovery;
    }
  }

  lemma {:induction false} RecoveryStaysQueued(w: Worker, events: seq<Event>)
    requires Recovery in w.queue && !SnapshotIn(w, events)
    ensures Recovery in Run(w, events).queue
    decreases |events|
  {
    hide Step, SnapshotAt;
    if events != [] {
      RecoveryStays(w, events[0]);
      RecoveryStaysQueued(Step(w, events[0]), events[1..]);
    }
  }

  /** In every run: once an enabled worker was started, a worker that comes to rest has read the journal after it. */
  lemma StartLeadsToSnapshot(w: Worker, events: seq<Event>)
    requires !w.started && w.enabled && w.status !in {Stopping, Stopped}
    ensures AtRest(Run(Step(w, Start), events)) ==> SnapshotIn(Step(w, Start), events)
  {
    hide Step, Run, SnapshotIn;
    StartTakesEffect(w);
    if !SnapshotIn(Step(w, Start), events) {
      RecoveryStaysQueued(Step(w, Start), events);
    }
  }

  // ---------- Submissions and mutations ----------

  /** A submission is admitted exactly by a ready, enabled worker, under the current epoch and behind everything queued. */
  lemma SubmitTakesEffect(w: Worker)
    ensures var next := Step(w, Submit);
      if w.status == Ready && w.enabled then
        next.queue == w.queue + [Submission(w.submissions, w.admissionEpoch)] && next.submissions == w.submissions + 1
      else next == w
  {
  }

  /** A mutation is queued unless the worker is stopping. */
  lemma MutationTakesEffect(w: Worker)
    ensures Step(w, SerializeMutation).queue == if w.status in {Stopping, Stopped} then w.queue else w.queue + [Mutation]
  {
    hide Keeps;
  }

  /** A submission whose turn comes prepares exactly when nothing was aborted, disabled or fenced since it was admitted. */
  lemma SubmissionPrepares(w: Worker, listed: seq<string>)
    requires w.activity.Resting? && w.queue != [] && w.queue[0].Submission? && Lists(w.journal, listed)
    ensures Step(w, Begin(listed)).activity.Preparing? <==>
      !w.aborted && w.enabled && w.queue[0].admittedAt == w.admissionEpoch
  {
    hide Snapshot, Lists;
  }

  /** What was prepared is executed next, unless the worker was aborted meanwhile. */
  lemma PreparedIsExecuted(w: Worker, id: string)
    requires w.activity.Preparing?
    ensures var next := Step(w, PrepareEnds(Some(id)));
      if w.aborted then next.activity == Resting else next.activity.Executing? && next.activity.id == id
  {
    hide Still;
  }

  // ---------- After an abort ----------

  lemma StopTakesEffect(w: Worker)
    ensures w.status != Stopped ==> Step(w, Stop).aborted && Step(w, Stop).status == Stopping
  {
    hide Still;
  }

  lemma RestingKeepsStatus(w: Worker, task: Task)
    ensures Reject(w, task).status == w.status && Reject(w, task).aborted == w.aborted
    ensures Resolve(w, task).status == w.status && Resolve(w, task).admissionEpoch == w.admissionEpoch
  {
    hide Still;
  }

  /** An unexpected error of an execution fails the worker and aborts it. */
  lemma ThrowTakesEffect(w: Worker, phase: Journal.Phase)
    requires w.activity.Executing? && w.status !in {Failed, Stopping, Stopped}
    ensures Step(w, ExecuteEnds(Threw(phase))).aborted && Step(w, ExecuteEnds(Threw(phase))).status == Failed
  {
    hide Still, Reject, Resolve, NextOperation, RequireRecovery;
    RestingKeepsStatus(Fail(w.(journal := w.journal[w.activity.id := phase])), w.activity.task);
  }

  /** A deferred or partial execution fences every submission admitted so far. */
  lemma FenceTakesEffect(w: Worker, execution: Execution)
    requires w.activity.Executing? && ReturnsTerminal(execution) && !w.aborted
    requires execution.Deferred? || (execution.Returned? && execution.phase.Partial?)
    ensures var next := Step(w, ExecuteEnds(execution));
      next.admissionEpoch == w.admissionEpoch + 1 && next.status == RecoveryRequired
  {
    hide Still, Reject, Resolve, NextOperation, Fail;
    RestingKeepsStatus(RequireRecovery(w.(journal := w.journal[w.activity.id := execution.phase])), w.activity.task);
  }

  /** Nothing new is prepared or executed by an aborted worker. */
  predicate StartsNothing(w: Worker, next: Worker) {
    && next.aborted && next.history.prepared == w.history.prepared
    && (next.activity.Executing? || next.activity.Preparing? ==> next.activity == w.activity)
  }

  lemma AbortedCalls(w: Worker)
    requires w.aborted
    ensures StartsNothing(w, StartCall(w)) && StartsNothing(w, WakeCall(w)) && StartsNothing(w, SubmitCall(w))
    ensures StartsNothing(w, MutationCall(w)) && StartsNothing(w, StopCall(w))
  {
    hide Still, Keeps;
  }

  /** A stretch of an aborted worker that ends its task or the worker. */
  predicate ComesToRest(w: Worker, next: Worker) {
    && next.aborted && next.history.prepared == w.history.prepared && !next.activity.Executing? && !next.activity.Preparing?
  }

  lemma AbortedEnds(w: Worker, task: Task)
    requires w.aborted
    ensures ComesToRest(w, Reject(w, task)) && ComesToRest(w, Resolve(w, task))
  {
    hide Still;
  }

  lemma AbortedDrain(w: Worker)
    requires w.aborted
    ensures ComesToRest(w, EndDrain(w))
  {
    hide Still;
  }

  lemma AbortedNext(w: Worker, task: Task, ids: seq<string>)
    requires w.aborted
    ensures ComesToRest(w, NextOperation(w, task, ids))
  {
    hide Still, Reject, EndDrain;
    AbortedEnds(w, task);
    AbortedDrain(w);
  }

  lemma AbortedSnapshot(w: Worker, task: Task, ids: seq<string>)
    requires w.aborted
    ensures ComesToRest(w, Snapshot(w, task, ids))
  {
    hide Still, NextOperation;
    AbortedNext(w.(history := w.history.(unserved := false)), task, ids);
  }

  lemma AbortedBegin(w: Worker, listed: seq<string>)
    requires w.aborted && w.activity.Resting? && w.queue != []
    ensures ComesToRest(w, BeginTask(w, listed))
  {
    hide Still, Snapshot;
    var task := w.queue[0];
    AbortedSnapshot(w.(queue := w.queue[1..], history := w.history.(begun := w.history.begun + [task])), task, listed);
  }

  lemma AbortedTimer(w: Worker, listed: seq<string>)
    requires w.aborted && w.activity.Waiting?
    ensures ComesToRest(w, DrainLoop(w, listed))
  {
    hide Still, Snapshot, Reject, EndDrain;
    AbortedEnds(w, Drain);
  }

  lemma AbortedExecution(w: Worker, execution: Execution)
    requires w.aborted && w.activity.Executing?
    ensures ComesToRest(w, EndExecution(w, execution))
  {
    hide Still, Reject, Resolve, NextOperation, Fail, RequireRecovery;
    var noted := w.(journal := w.journal[w.activity.id := execution.phase]);
    AbortedEnds(noted, w.activity.task);
    AbortedFences(noted);
    AbortedEnds(Fail(noted), w.activity.task);
    AbortedEnds(RequireRecovery(noted), w.activity.task);
  }

  lemma AbortedFences(w: Worker)
    requires w.aborted
    ensures Fail(w).aborted && Fail(w).history.prepared == w.history.prepared
    ensures RequireRecovery(w).aborted && RequireRecovery(w).history.prepared == w.history.prepared
  {
    hide Still;
  }

  lemma AbortedPrepare(w: Worker, id: Option<string>)
    requires w.aborted && w.activity.Preparing?
    ensures ComesToRest(w, EndPrepare(w, id))
  {
    hide Still;
  }

  lemma AbortedContinue(w: Worker)
    requires w.aborted && w.activity.Settled?
    ensures ComesToRest(w, ContinueSettled(w))
  {
    hide Still, Keeps, ScheduleDrain, Fail;
    var after := w.(activity := Resting);
    AbortedSchedule(after);
    AbortedSchedule(after.(drainScheduled := false));
  }

  lemma AbortedSchedule(w: Worker)
    requires w.aborted && w.activity.Resting?
    ensures ComesToRest(w, ScheduleDrain(w)) && ComesToRest(w, Fail(w))
  {
    hide Still, Keeps;
  }

  lemma AbortedSimple(w: Worker, event: Event)
    requires w.aborted && (event.StopDone? || event.MutationEnds? || event.SetEnabled?)
    ensures StartsNothing(w, Step(w, event))
  {
    hide Still;
  }

  lemma RestStartsNothing(w: Worker, next: Worker)
    ensures ComesToRest(w, next) ==> StartsNothing(w, next)
    ensures w.aborted ==> StartsNothing(w, w)
  {
  }

  lemma AbortedStep(w: Worker, event: Event)
    requires w.aborted
    ensures StartsNothing(w, Step(w, event))
  {
    hide StartCall, WakeCall, SubmitCall, MutationCall, StopCall, BeginTask, DrainLoop, EndPrepare, EndExecution,
        ContinueSettled,
      Lists, ReturnsTerminal, StartsNothing, ComesToRest;
    AbortedCalls(w);
    RestStartsNothing(w, Step(w, event));
    match event
    case Begin(listed) =>
      if w.activity.Resting? && w.queue != [] && Lists(w.journal, listed) {
        AbortedBegin(w, listed);
      }
    case Timer(listed) =>
      if w.activity.Waiting? && Lists(w.journal, listed) {
        AbortedTimer(w, listed);
      }
    case PrepareEnds(id) =>
      if w.activity.Preparing? {
        AbortedPrepare(w, id);
      }
    case ExecuteEnds(execution) =>
      if w.activity.Executing? && ReturnsTerminal(execution) {
        AbortedExecution(w, execution);
      }
    case Continue =>
      if w.activity.Settled? {
        AbortedContinue(w);
      }
    case SetEnabled(_) => AbortedSimple(w, event);
    case StopDone => AbortedSimple(w, event);
    case MutationEnds => AbortedSimple(w, event);
    case _ =>
  }

  /** Over every run an aborted worker prepares nothing and executes nothing but what it is executing. */
  lemma {:induction false} AbortedStartsNothing(w: Worker, events: seq<Event>)
    requires w.aborted
    ensures Run(w, events).aborted && Run(w, events).history.prepared == w.history.prepared
    ensures Run(w, events).activity.Executing? || Run(w, events).activity.Preparing? ==>
      Run(w, events).activity == w.activity
    decreases |events|
  {
    hide Step;
    if events != [] {
      AbortedStep(w, events[0]);
      AbortedStartsNothing(Step(w, events[0]), events[1..]);
    }
  }
}
