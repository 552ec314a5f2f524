/**
 The runtime coordinator: a generation fence around enabling the observation runtime. Jobs run one at a time; every
 new job, and a stop, first suspends the runtime and supersedes the jobs before it.
 */
module Runtime {
  import opened Wrappers

  datatype Job = Job(generation: nat, external: bool)

  /** The await the running job is at. */
  datatype Stage =
    | Suspending(job: Job)
    | InternalApplying(job: Job)
    | ExternalApplying(job: Job)
    | Forcing(job: Job)
    | Enabling(job: Job)
    | Disabling(job: Job)

  /** A call of `setRuntimeEnabled`, and the generation that made it. */
  datatype Call = Call(enabled: bool, generation: nat)

  /** `SuspendRejected` and `SettingsLost` leave no note of what the settings wanted; `Noted` asked for recovery. */
  datatype EndingKind = SuspendRejected | SettingsLost | Noted | Finished

  /** How a job ended, and whether the settings then asked for the runtime. */
  datatype Ending = Ending(generation: nat, external: bool, kind: EndingKind, wanted: bool)

  datatype Coordinator = Coordinator(
    generation: nat,
    stopped: bool,
    recoveryNeeded: bool,
    activationVerified: bool,
    queue: seq<Job>,
    stage: Option<Stage>,
    lastCall: Call,
    ending: Option<Ending>,
    lateFailure: bool)

  /** How an awaited call ends, and what the settings and the route say at that moment. */
  datatype Reply = Reply(ok: bool, applied: bool, verified: bool, wanted: bool, routeReady: bool, readable: bool)

  datatype Event =
    | Reconcile
    | RunConfigApply
    | RecoverIfNeeded
    | Stop
    | Begin
    | Resolve(reply: Reply)

  predicate IsCurrent(c: Coordinator, job: Job) {
    !c.stopped && job.generation == c.generation
  }

  function End(c: Coordinator, job: Job, kind: EndingKind, reply: Reply): Coordinator {
    c.(stage := None, ending := Some(Ending(job.generation, job.external, kind, reply.wanted)))
  }

  // ---------- Calls ----------

  /** A new generation suspends the runtime before anything else. */
  function Supersede(c: Coordinator): Coordinator {
    c.(generation := c.generation + 1, recoveryNeeded := false, lastCall := Call(false, c.generation + 1),
        ending := None, lateFailure := false)
  }

  function Enqueue(c: Coordinator, external: bool): Coordinator {
    var next := Supersede(c);
    next.(queue := next.queue + [Job(next.generation, external)])
  }

  function StopCall(c: Coordinator): Coordinator {
    Supersede(c).(stopped := true)
  }

  // ---------- The running job ----------

  predicate Effective(c: Coordinator, job: Job, applied: bool, reply: Reply) {
    IsCurrent(c, job) && applied && (!reply.wanted || (reply.routeReady && c.activationVerified))
  }

  /** `finishTransition`, up to the await of the enabling call. */
  function Finish(c: Coordinator, job: Job, applied: bool, reply: Reply): Coordinator {
    if !reply.readable then
      if job.external && IsCurrent(c, job) then End(c.(recoveryNeeded := true), job, Noted, reply)
          else End(c, job, SettingsLost, reply)
    else if !IsCurrent(c, job) then End(c, job, Finished, reply)
    else
      var effective := Effective(c, job, applied, reply);
      var noted := c.(recoveryNeeded := reply.wanted && !effective);
      if effective && reply.wanted then noted.(lastCall := Call(true, job.generation), stage := Some(Enabling(job)))
      else End(noted, job, Finished, reply)
  }

  function EndSuspending(c: Coordinator, job: Job, reply: Reply): Coordinator {
    if !reply.ok then End(c, job, SuspendRejected, reply)
    else if job.external then
      if c.stopped then End(c, job, SettingsLost, reply) else c.(stage := Some(ExternalApplying(job)))
    else if c.stopped then Finish(c, job, false, reply)
    else c.(stage := Some(InternalApplying(job)))
  }

  function EndInternal(c: Coordinator, job: Job, reply: Reply): Coordinator {
    var applied := reply.ok && reply.applied;
    Finish(c.(activationVerified := applied && reply.verified), job, applied, reply)
  }

  function EndExternal(c: Coordinator, job: Job, reply: Reply): Coordinator {
    if !reply.ok then
      if !reply.readable then End(c, job, SettingsLost, reply)
      else End(if job.generation == c.generation then c.(recoveryNeeded := reply.wanted) else c, job, Finished, reply)
    else if !reply.applied then Finish(c.(activationVerified := false), job, false, reply)
    else if reply.verified then Finish(c.(activationVerified := true), job, true, reply)
    else if !c.activationVerified && reply.wanted && reply.readable then c.(stage := Some(Forcing(job)))
    else Finish(c, job, true, reply)
  }

  function EndForcing(c: Coordinator, job: Job, reply: Reply): Coordinator {
    var forced := reply.ok && reply.applied && reply.verified;
    Finish(c.(activationVerified := forced), job, forced, reply)
  }

  function EndEnabling(c: Coordinator, job: Job, reply: Reply): Coordinator {
    if reply.ok then End(c, job, Finished, reply.(wanted := true))
    else c.(recoveryNeeded := true, lastCall := Call(false, job.generation), stage := Some(Disabling(job)),
            lateFailure := c.lateFailure || job.generation != c.generation)
  }

  function ResolveStage(c: Coordinator, stage: Stage, reply: Reply): Coordinator {
    match stage
    case Suspending(job) => EndSuspending(c, job, reply)
    case InternalApplying(job) => EndInternal(c, job, reply)
    case ExternalApplying(job) => EndExternal(c, job, reply)
    case Forcing(job) => EndForcing(c, job, reply)
    case Enabling(job) => EndEnabling(c, job, reply)
    case Disabling(job) => End(c, job, Finished, reply.(wanted := true))
  }

  function BeginJob(c: Coordinator): Coordinator
    requires c.queue != []
  {
    c.(queue := c.queue[1..], stage := Some(Suspending(c.queue[0])))
  }

  function Step(c: Coordinator, event: Event): Coordinator {
    match event
    case Reconcile => Enqueue(c, false)
    case RunConfigApply => Enqueue(c, true)
    case RecoverIfNeeded => if c.stage.None? && c.queue == [] && !c.stopped && c.recoveryNeeded then Enqueue(c, false)
        else c
    case Stop => StopCall(c)
    case Begin => if c.stage.None? && c.queue != [] then BeginJob(c) else c
    case Resolve(reply) => if c.stage.Some? then ResolveStage(c, c.stage.value, reply) else c
  }

  function Initial(): Coordinator {
    Coordinator(0, false, false, false, [], None, Call(false, 0), None, false)
  }

  function Run(c: Coordinator, events: seq<Event>): Coordinator
    decreases |events|
  {
    if events == [] then c else Run(Step(c, events[0]), events[1..])
  }

  // ---------- The fence ----------

  predicate Increasing(queue: seq<Job>, from: int, to: nat) {
    && (forall k :: 0 <= k < |queue| ==> from < queue[k].generation <= to)
    && (forall j, k :: 0 <= j < k < |queue| ==> queue[j].generation < queue[k].generation)
  }

  /** Jobs wait in the order of their generations, behind the running one. */
  predicate JobsOk(c: Coordinator) {
    && Increasing(c.queue, if c.stage.Some? then c.stage.value.job.generation else 0, c.generation)
    && (c.stage.Some? ==> 0 < c.stage.value.job.generation <= c.generation)
  }

  /** The last call enabled the runtime only on behalf of the newest generation, and not after a stop. */
  predicate Fenced(c: Coordinator) {
    c.lastCall.enabled ==> c.lastCall.generation == c.generation && !c.stopped && c.queue == []
  }

  predicate Unnoted(c: Coordinator) {
    c.recoveryNeeded == c.lateFailure && !c.lastCall.enabled
  }

  /** What the coordinator remembers while the newest job runs. */
  predicate StageOk(c: Coordinator, stage: Stage) {
    && stage.job.generation == c.generation
    && match stage
       case Enabling(_) => c.lastCall == Call(true, c.generation)
       case Disabling(_) => c.recoveryNeeded && !c.lastCall.enabled
       case _ => Unnoted(c)
  }

  /** And what it remembers once the newest job ended. */
  predicate EndingOk(c: Coordinator, ending: Ending) {
    && ending.generation == c.generation
    && match ending.kind
       case Noted => c.recoveryNeeded
       case Finished => ending.wanted ==> c.lastCall == Call(true, c.generation) || c.recoveryNeeded
       case _ => Unnoted(c)
  }

  predicate Remembers(c: Coordinator) {
    !c.stopped && c.generation > 0 ==>
      if c.queue != [] then c.queue[|c.queue| - 1].generation == c.generation && Unnoted(c)
      else if c.stage.Some? then StageOk(c, c.stage.value)
      else c.ending.Some? && EndingOk(c, c.ending.value)
  }

  predicate Inv(c: Coordinator) {
    JobsOk(c) && Fenced(c) && Remembers(c)
  }

  lemma InitialInv()
    ensures Inv(Initial())
  {
  }

  lemma CallsKeepInv(c: Coordinator, external: bool)
    requires Inv(c)
    ensures Inv(Enqueue(c, external)) && Inv(StopCall(c))
  {
  }

  lemma BeginKeepsInv(c: Coordinator)
    requires Inv(c) && c.stage.None? && c.queue != []
    ensures Inv(BeginJob(c))
  {
  }

  predicate BeforeEnabling(c: Coordinator, job: Job) {
    c.stage.Some? && c.stage.value.job == job && !c.stage.value.Enabling? && !c.stage.value.Disabling?
  }

  /** Ending a job, or moving it to another stage, keeps the order of the jobs. */
  lemma JobsStayOrdered(c: Coordinator, next: Coordinator)
    requires JobsOk(c) && next.queue == c.queue && next.generation == c.generation
    requires next.stage.None? || (c.stage.Some? && next.stage.value.job == c.stage.value.job)
    ensures JobsOk(next)
  {
  }

  lemma FinishKeepsMemory(c: Coordinator, verified: bool, job: Job, applied: bool, reply: Reply)
    requires Inv(c) && BeforeEnabling(c, job) && IsCurrent(c, job)
    ensures Fenced(Finish(c.(activationVerified := verified), job, applied, reply))
    ensures Remembers(Finish(c.(activationVerified := verified), job, applied, reply))
  {
  }

  lemma SupersededFinish(c: Coordinator, verified: bool, job: Job, applied: bool, reply: Reply)
    requires Inv(c) && BeforeEnabling(c, job) && !IsCurrent(c, job)
    ensures Fenced(Finish(c.(activationVerified := verified), job, applied, reply))
    ensures Remembers(Finish(c.(activationVerified := verified), job, applied, reply))
  {
    hide Increasing;
  }

  lemma FinishKeepsInv(c: Coordinator, verified: bool, job: Job, applied: bool, reply: Reply)
    requires Inv(c) && BeforeEnabling(c, job)
    ensures Inv(Finish(c.(activationVerified := verified), job, applied, reply))
  {
    hide Fenced, Remembers, JobsOk;
    if IsCurrent(c, job) {
      FinishKeepsMemory(c, verified, job, applied, reply);
    } else {
      SupersededFinish(c, verified, job, applied, reply);
    }
    JobsStayOrdered(c, Finish(c.(activationVerified := verified), job, applied, reply));
  }

  lemma EndKeepsInv(c: Coordinator, job: Job, kind: EndingKind, reply: Reply)
    requires Inv(c) && BeforeEnabling(c, job) && (kind.SuspendRejected? || kind.SettingsLost?)
    ensures Inv(End(c, job, kind, reply))
  {
  }

  lemma MoveKeepsInv(c: Coordinator, job: Job, stage: Stage)
    requires Inv(c) && BeforeEnabling(c, job) && stage.job == job && !stage.Enabling? && !stage.Disabling?
    ensures Inv(c.(stage := Some(stage)))
  {
  }

  lemma ExternalKeepsInv(c: Coordinator, job: Job, reply: Reply)
    requires Inv(c) && c.stage == Some(ExternalApplying(job))
    ensures Inv(EndExternal(c, job, reply))
  {
    if reply.ok {
      hide Inv, Finish;
      FinishKeepsInv(c, false, job, false, reply);
      FinishKeepsInv(c, true, job, true, reply);
      FinishKeepsInv(c, c.activationVerified, job, true, reply);
      MoveKeepsInv(c, job, Forcing(job));
      assert c.(activationVerified := c.activationVerified) == c;
    }
  }

  lemma EnablingKeepsInv(c: Coordinator, job: Job, reply: Reply)
    requires Inv(c) && c.stage == Some(Enabling(job))
    ensures Inv(EndEnabling(c, job, reply))
  {
  }

  lemma DisablingKeepsInv(c: Coordinator, job: Job, reply: Reply)
    requires Inv(c) && c.stage == Some(Disabling(job))
    ensures Inv(End(c, job, Finished, reply.(wanted := true)))
  {
  }

  /** A superseded job leaves no trace but a failed enabling call of its own. */
  lemma StageKeepsInv(c: Coordinator, reply: Reply)
    requires Inv(c) && c.stage.Some?
    ensures Inv(ResolveStage(c, c.stage.value, reply))
  {
    hide Inv, Finish, End, EndExternal, EndEnabling;
    match c.stage.value
    case Suspending(job) =>
      EndKeepsInv(c, job, SuspendRejected, reply);
      EndKeepsInv(c, job, SettingsLost, reply);
      FinishKeepsInv(c, c.activationVerified, job, false, reply);
      assert c.(activationVerified := c.activationVerified) == c;
      MoveKeepsInv(c, job, ExternalApplying(job));
      MoveKeepsInv(c, job, InternalApplying(job));
    case InternalApplying(job) => FinishKeepsInv(c, reply.ok && reply.applied && reply.verified, job,
        reply.ok && reply.applied, reply);
    case ExternalApplying(job) => ExternalKeepsInv(c, job, reply);
    case Forcing(job) =>
      var forced := reply.ok && reply.applied && reply.verified;
      FinishKeepsInv(c, forced, job, forced, reply);
    case Enabling(job) => EnablingKeepsInv(c, job, reply);
    case Disabling(job) => DisablingKeepsInv(c, job, reply);
  }

  lemma StepKeepsInv(c: Coordinator, event: Event)
    requires Inv(c)
    ensures Inv(Step(c, event))
  {
    hide Inv, Enqueue, StopCall, BeginJob, ResolveStage;
    match event
    case Reconcile => CallsKeepInv(c, false);
    case RunConfigApply => CallsKeepInv(c, true);
    case RecoverIfNeeded => CallsKeepInv(c, false);
    case Stop => CallsKeepInv(c, false);
    case Begin => if c.stage.None? && c.queue != [] { BeginKeepsInv(c); }
    case Resolve(reply) => if c.stage.Some? { StageKeepsInv(c, reply); }
  }

  lemma {:induction false} RunKeepsInv(c: Coordinator, events: seq<Event>)
    requires Inv(c)
    ensures Inv(Run(c, events))
    decreases |events|
  {
    hide Inv, Step;
    if events != [] {
      StepKeepsInv(c, events[0]);
      RunKeepsInv(Step(c, events[0]), events[1..]);
    }
  }

  /**
   In every run, when the last call enabled the runtime, it came from the newest generation and nothing was stopped
   since.
   */
  lemma EnabledByNewest(events: seq<Event>)
    ensures var c := Run(Initial(), events);
      c.lastCall.enabled ==> c.lastCall.generation == c.generation && !c.stopped
  {
    hide Run, JobsOk, Remembers;
    InitialInv();
    RunKeepsInv(Initial(), events);
  }

  predicate AtRest(c: Coordinator) {
    !c.stopped && c.generation > 0 && c.queue == [] && c.stage.None?
  }

  /**
   At rest, with settings that want the runtime: it is enabled by the newest generation or a recovery is noted,
   exactly unless the newest job ended without reading the settings (its suspension or the settings read failed) and
   no older enabling call failed late.
   */
  lemma WantedRuntimeIsEnabledOrRecovers(events: seq<Event>)
    ensures var c := Run(Initial(), events);
      AtRest(c) ==> c.ending.Some? && (c.ending.value.wanted ==>
        ((c.lastCall == Call(true, c.generation) || c.recoveryNeeded) <==>
          (!c.ending.value.kind.SuspendRejected? && !c.ending.value.kind.SettingsLost?) || c.lateFailure))
  {
    hide Run, JobsOk;
    InitialInv();
    RunKeepsInv(Initial(), events);
  }

  /** A rejected suspension of a settings change is forgotten: the wanted runtime stays off and nothing retries. */
  lemma RejectedSuspensionIsForgotten()
    ensures var c := Run(Initial(), [Reconcile, Begin, Resolve(Reply(false, false, false, true, true, true))]);
      AtRest(c) && c.ending.value.wanted && !c.lastCall.enabled && !c.recoveryNeeded
      && Step(c, RecoverIfNeeded) == c
  {
    var reply := Reply(false, false, false, true, true, true);
    var events := [Reconcile, Begin, Resolve(reply)];
    var first := Step(Initial(), Reconcile);
    var second := Step(first, Begin);
    var third := Step(second, Resolve(reply));
    assert events[1..] == [Begin, Resolve(reply)] && events[1..][1..] == [Resolve(reply)] && events[1..][1..][1..] == [];
    assert Run(third, []) == third;
    assert Run(second, [Resolve(reply)]) == third;
    assert Run(first, [Begin, Resolve(reply)]) == third;
  }

  // ---------- The object ----------

  /** The coordinator as an object; every method is one stretch between two awaits. */
  class DomainIntelligenceRuntimeCoordinator {
    var generation: nat
    var stopped: bool
    var recoveryNeeded: bool
    var activationVerified: bool
    var queue: seq<Job>
    var stage: Option<Stage>
    var lastCall: Call
    ghost var ending: Option<Ending>
    ghost var lateFailure: bool

    ghost function View(): Coordinator
      reads this
    {
      Coordinator(generation, stopped, recoveryNeeded, activationVerified, queue, stage, lastCall, ending, lateFailure)
    }

    ghost predicate Valid()
      reads this
    {
      Inv(View())
    }

    constructor ()
      ensures Valid() && View() == Initial()
    {
      generation, stopped, recoveryNeeded, activationVerified := 0, false, false, false;
      queue, stage, lastCall, ending, lateFailure := [], None, Call(false, 0), None, false;
    }

    method SetRuntimeEnabled(enabled: bool, caller: nat)
      modifies this`lastCall
      ensures lastCall == Call(enabled, caller)
    {
      lastCall := Call(enabled, caller);
    }

    method Submit(external: bool)
      requires Valid()
      modifies this
      ensures Valid() && View() == Enqueue(old(View()), external)
    {
      ghost var before := View();
      generation := generation + 1;
      recoveryNeeded := false;
      SetRuntimeEnabled(false, generation);
      ending, lateFailure := None, false;
      queue := queue + [Job(generation, external)];
      hide Inv;
      CallsKeepInv(before, external);
    }

    method StopRuntime()
      requires Valid()
      modifies this
      ensures Valid() && View() == StopCall(old(View()))
    {
      ghost var before := View();
      stopped := true;
      generation := generation + 1;
      recoveryNeeded := false;
      SetRuntimeEnabled(false, generation);
      ending, lateFailure := None, false;
      hide Inv;
      CallsKeepInv(before, false);
    }

    method EndJob(job: Job, ghost kind: EndingKind, ghost reply: Reply)
      modifies this`stage, this`ending
      ensures View() == End(old(View()), job, kind, reply)
    {
      stage := None;
      ending := Some(Ending(job.generation, job.external, kind, reply.wanted));
    }

    /** `finishTransition` up to the enabling call. */
    method FinishTransition(job: Job, applied: bool, reply: Reply)
      modifies this`stage, this`ending, this`recoveryNeeded, this`lastCall
      ensures View() == Finish(old(View()), job, applied, reply)
      ensures
        var isNewest := !stopped && job.generation == generation;
        var grants := applied && reply.readable && reply.wanted && reply.routeReady && activationVerified;
        && lastCall == (if isNewest && grants then Call(true, job.generation) else old(lastCall))
        && (isNewest && reply.readable ==> (recoveryNeeded <==> reply.wanted && !grants))
        && (!isNewest ==> recoveryNeeded == old(recoveryNeeded))
    {
      var isCurrent := !stopped && job.generation == generation;
      if !reply.readable {
        if job.external && isCurrent {
          recoveryNeeded := true;
          EndJob(job, Noted, reply);
        } else {
          EndJob(job, SettingsLost, reply);
        }
        return;
      }
      var effective := isCurrent && applied && (!reply.wanted || (reply.routeReady && activationVerified));
      if isCurrent {
        recoveryNeeded := reply.wanted && !effective;
        if effective && reply.wanted {
          SetRuntimeEnabled(true, job.generation);
          stage := Some(Enabling(job));
          return;
        }
      }
      EndJob(job, Finished, reply);
    }

    method EnablingEnded(job: Job, reply: Reply)
      requires Valid() && stage == Some(Enabling(job))
      modifies this
      ensures Valid() && View() == EndEnabling(old(View()), job, reply)
    {
      ghost var before := View();
      if reply.ok {
        EndJob(job, Finished, reply.(wanted := true));
      } else {
        recoveryNeeded := true;
        SetRuntimeEnabled(false, job.generation);
        stage := Some(Disabling(job));
        lateFailure := lateFailure || job.generation != generation;
      }
      hide Inv;
      EnablingKeepsInv(before, job, reply);
    }

    method InternalApplyEnded(job: Job, reply: Reply)
      requires Valid() && stage == Some(InternalApplying(job))
      modifies this
      ensures Valid() && View() == EndInternal(old(View()), job, reply)
    {
      ghost var before := View();
      var applied := reply.ok && reply.applied;
      activationVerified := applied && reply.verified;
      FinishTransition(job, applied, reply);
      hide Inv, Finish;
      FinishKeepsInv(before, applied && reply.verified, job, applied, reply);
    }

    method ExternalApplyEnded(job: Job, reply: Reply)
      requires Valid() && stage == Some(ExternalApplying(job))
      modifies this
      ensures Valid() && View() == EndExternal(old(View()), job, reply)
    {
      hide Inv, Finish;
      ghost var before := View();
      if !reply.ok {
        if reply.readable && job.generation == generation {
          recoveryNeeded := reply.wanted;
        }
        EndJob(job, if reply.readable then Finished else SettingsLost, reply);
      } else if !reply.applied {
        activationVerified := false;
        FinishTransition(job, false, reply);
      } else if reply.verified {
        activationVerified := true;
        FinishTransition(job, true, reply);
      } else if !activationVerified && reply.wanted && reply.readable {
        stage := Some(Forcing(job));
      } else {
        FinishTransition(job, true, reply);
      }
      ExternalKeepsInv(before, job, reply);
    }
  }
}
