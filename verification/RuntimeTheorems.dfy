/**
 When the runtime is enabled and when a recovery is noted, told from the replies: exactly one enabling call for a newest
 job whose configuration was applied and verified, whose settings want the runtime and whose route is ready.
 */
module RuntimeTheorems {
  import opened Wrappers
  import opened Runtime

  // ---------- What the replies prove ----------

  /** The stages that await the outcome of applying the configuration. */
  predicate AwaitsApply(stage: Stage) {
    stage.InternalApplying? || stage.ExternalApplying? || stage.Forcing?
  }

  /** What is known of the activation once a reply came: an external apply that says nothing of it leaves what was known. */
  function ProofAfter(stage: Option<Stage>, reply: Reply, known: bool): bool {
    match stage
    case Some(InternalApplying(_)) => reply.ok && reply.applied && reply.verified
    case Some(Forcing(_)) => reply.ok && reply.applied && reply.verified
    case Some(ExternalApplying(_)) => if !reply.ok then known else reply.applied && (reply.verified || known)
    case _ => known
  }

  /** What the replies of a run say of the activation at its end. */
  function Proof(c: Coordinator, events: seq<Event>, known: bool): bool
    decreases |events|
  {
    if events == [] then known
    else
      Proof(Step(c, events[0]), events[1..], if events[0].Resolve? then ProofAfter(c.stage, events[0].reply, known) else known)
  }

  /** What the end of a transition does to calls, notes and memory. */
  lemma FinishFacts(c: Coordinator, job: Job, applied: bool, reply: Reply)
    ensures var next := Finish(c, job, applied, reply);
      var grants := applied && reply.readable && reply.wanted && reply.routeReady && c.activationVerified;
      && next.activationVerified == c.activationVerified
      && (if IsCurrent(c, job) && grants then next.lastCall == Call(true, job.generation) else next.lastCall == c.lastCall)
      && (if !IsCurrent(c, job) then next.recoveryNeeded == c.recoveryNeeded
          else if reply.readable then next.recoveryNeeded == (reply.wanted && !grants)
          else next.recoveryNeeded == (c.recoveryNeeded || job.external))
  {
  }

  lemma ResolveKeepsProof(c: Coordinator, stage: Stage, reply: Reply)
    requires c.stage == Some(stage)
    ensures ResolveStage(c, stage, reply).activationVerified == ProofAfter(c.stage, reply, c.activationVerified)
  {
    hide Finish;
    FinishFacts(c, stage.job, false, reply);
    FinishFacts(c, stage.job, true, reply);
    var proven := reply.ok && reply.applied && reply.verified;
    FinishFacts(c.(activationVerified := proven), stage.job, reply.ok && reply.applied, reply);
    FinishFacts(c.(activationVerified := proven), stage.job, proven, reply);
    FinishFacts(c.(activationVerified := true), stage.job, true, reply);
    FinishFacts(c.(activationVerified := false), stage.job, false, reply);
  }

  lemma StepKeepsProof(c: Coordinator, event: Event)
    ensures Step(c, event).activationVerified ==
      if event.Resolve? then ProofAfter(c.stage, event.reply, c.activationVerified) else c.activationVerified
  {
    hide ResolveStage, ProofAfter;
    if event.Resolve? {
      if c.stage.Some? {
        ResolveKeepsProof(c, c.stage.value, event.reply);
      } else {
        NothingAwaited(event.reply, c.activationVerified);
      }
    }
  }

  lemma NothingAwaited(reply: Reply, known: bool)
    ensures ProofAfter(None, reply, known) == known
  {
  }

  /** The coordinator's memory of the activation is what the replies of the whole run say. */
  lemma {:induction false} MemoryIsProof(c: Coordinator, events: seq<Event>)
    ensures Run(c, events).activationVerified == Proof(c, events, c.activationVerified)
    decreases |events|
  {
    hide Step;
    if events != [] {
      StepKeepsProof(c, events[0]);
      MemoryIsProof(Step(c, events[0]), events[1..]);
    }
  }

  // ---------- Enabling ----------

  /** The step turns the runtime on. */
  predicate Enables(c: Coordinator, event: Event) {
    !c.lastCall.enabled && Step(c, event).lastCall.enabled
  }

  predicate IsNewest(c: Coordinator, stage: Stage) {
    !c.stopped && stage.job.generation == c.generation
  }

  /** Everything that enabling asks for, in one reply and what is known of the activation. */
  predicate Grants(stage: Stage, reply: Reply, known: bool) {
    && reply.ok && reply.applied && reply.readable && reply.wanted && reply.routeReady
    && (reply.verified || (stage.ExternalApplying? && known))
  }

  lemma NewestIsOff(c: Coordinator)
    requires Inv(c) && c.stage.Some? && AwaitsApply(c.stage.value)
    ensures !c.lastCall.enabled
  {
    if c.lastCall.enabled && c.queue != [] {
      QueueIsNewer(c);
    }
  }

  lemma QueueIsNewer(c: Coordinator)
    requires JobsOk(c) && c.stage.Some? && c.queue != []
    ensures c.stage.value.job.generation < c.generation
  {
    assert c.queue[0].generation > c.stage.value.job.generation;
  }

  /**
   In every run, a step turns the runtime on if and only if it resolves the apply of the newest job, nothing was stopped,
   the configuration was applied and its activation verified, the settings could be read and want the runtime, and the
   route is ready. An external apply may rely on what earlier replies proved.
   */
  lemma EnablesIff(events: seq<Event>, event: Event)
    ensures var c := Run(Initial(), events);
      Enables(c, event) <==>
        && event.Resolve? && c.stage.Some? && AwaitsApply(c.stage.value) && IsNewest(c, c.stage.value)
        && Grants(c.stage.value, event.reply, Proof(Initial(), events, false))
  {
    hide Run, Inv, Proof;
    InitialInv();
    RunKeepsInv(Initial(), events);
    MemoryIsProof(Initial(), events);
    EnablesAt(Run(Initial(), events), event);
  }

  lemma EnablesAt(c: Coordinator, event: Event)
    requires Inv(c)
    ensures Enables(c, event) <==>
      && event.Resolve? && c.stage.Some? && AwaitsApply(c.stage.value) && IsNewest(c, c.stage.value)
      && Grants(c.stage.value, event.reply, c.activationVerified)
  {
    hide Inv, ResolveStage, Grants;
    if event.Resolve? && c.stage.Some? {
      if AwaitsApply(c.stage.value) {
        NewestIsOff(c);
        ApplyCalls(c, c.stage.value, event.reply);
      } else {
        OthersCall(c, c.stage.value, event.reply);
      }
    }
  }

  /** The last call after the apply of a job resolved. */
  lemma ApplyCalls(c: Coordinator, stage: Stage, reply: Reply)
    requires c.stage == Some(stage) && AwaitsApply(stage)
    ensures ResolveStage(c, stage, reply).lastCall ==
      if IsNewest(c, stage) && Grants(stage, reply, c.activationVerified) then Call(true, stage.job.generation) else c.lastCall
  {
    hide Finish;
    FinishFacts(c, stage.job, true, reply);
    var proven := reply.ok && reply.applied && reply.verified;
    FinishFacts(c.(activationVerified := proven), stage.job, reply.ok && reply.applied, reply);
    FinishFacts(c.(activationVerified := proven), stage.job, proven, reply);
    FinishFacts(c.(activationVerified := true), stage.job, true, reply);
    FinishFacts(c.(activationVerified := false), stage.job, false, reply);
  }

  /** No other await turns the runtime on. */
  lemma OthersCall(c: Coordinator, stage: Stage, reply: Reply)
    requires c.stage == Some(stage) && !AwaitsApply(stage)
    ensures ResolveStage(c, stage, reply).lastCall in {c.lastCall, Call(false, stage.job.generation)}
  {
    hide Finish;
    FinishFacts(c, stage.job, false, reply);
  }

  // ---------- Recovering ----------

  /** An external apply that proves nothing, for settings that want the runtime, is applied once more by force. */
  predicate Forces(c: Coordinator, stage: Stage, reply: Reply) {
    && stage.ExternalApplying? && reply.ok && reply.applied && !reply.verified && !c.activationVerified
    && reply.wanted && reply.readable
  }

  /** When the apply of the newest job resolves, a recovery is noted exactly when its wanted runtime is not turned on. */
  lemma RecoveryIff(c: Coordinator, reply: Reply)
    requires Inv(c) && c.stage.Some? && AwaitsApply(c.stage.value) && IsNewest(c, c.stage.value)
    ensures var next, stage := Step(c, Resolve(reply)), c.stage.value;
      if Forces(c, stage, reply) then next.stage == Some(Forcing(stage.job)) && next.recoveryNeeded == c.recoveryNeeded
      else if reply.readable then next.recoveryNeeded <==> reply.wanted && !Enables(c, Resolve(reply))
      else next.recoveryNeeded <==> c.recoveryNeeded || (stage.job.external && (!stage.ExternalApplying? || reply.ok))
  {
    hide Inv, ResolveStage, Grants;
    NewestIsOff(c);
    ApplyCalls(c, c.stage.value, reply);
    ApplyNotes(c, c.stage.value, reply);
  }

  predicate NotesAs(c: Coordinator, stage: Stage, reply: Reply, next: Coordinator) {
    if Forces(c, stage, reply) then next.stage == Some(Forcing(stage.job)) && next.recoveryNeeded == c.recoveryNeeded
    else if !IsNewest(c, stage) then
      next.recoveryNeeded == c.recoveryNeeded || (stage.ExternalApplying? && !reply.ok && stage.job.generation == c.generation)
    else if reply.readable then
      next.recoveryNeeded <==> reply.wanted && !Grants(stage, reply, c.activationVerified)
    else next.recoveryNeeded <==> c.recoveryNeeded || (stage.job.external && (!stage.ExternalApplying? || reply.ok))
  }

  lemma InternalNotes(c: Coordinator, job: Job, reply: Reply)
    ensures NotesAs(c, InternalApplying(job), reply, EndInternal(c, job, reply))
    ensures NotesAs(c, Forcing(job), reply, EndForcing(c, job, reply))
  {
    hide Finish;
    var proven := reply.ok && reply.applied && reply.verified;
    FinishFacts(c.(activationVerified := proven), job, reply.ok && reply.applied, reply);
    FinishFacts(c.(activationVerified := proven), job, proven, reply);
  }

  lemma ExternalNotes(c: Coordinator, job: Job, reply: Reply)
    ensures NotesAs(c, ExternalApplying(job), reply, EndExternal(c, job, reply))
  {
    hide Finish;
    FinishFacts(c, job, true, reply);
    FinishFacts(c.(activationVerified := true), job, true, reply);
    FinishFacts(c.(activationVerified := false), job, false, reply);
  }

  lemma ApplyNotes(c: Coordinator, stage: Stage, reply: Reply)
    requires c.stage == Some(stage) && AwaitsApply(stage)
    ensures NotesAs(c, stage, reply, ResolveStage(c, stage, reply))
  {
    hide NotesAs, EndInternal, EndExternal, EndForcing;
    InternalNotes(c, stage.job, reply);
    ExternalNotes(c, stage.job, reply);
  }

  /** A job that is no longer the newest leaves calls and notes alone, whatever its apply came to. */
  lemma SupersededLeavesAlone(c: Coordinator, reply: Reply)
    requires c.stage.Some? && AwaitsApply(c.stage.value) && c.stage.value.job.generation != c.generation
    ensures Step(c, Resolve(reply)).lastCall == c.lastCall && Step(c, Resolve(reply)).recoveryNeeded == c.recoveryNeeded
  {
    hide ResolveStage, Grants;
    ApplyCalls(c, c.stage.value, reply);
    ApplyNotes(c, c.stage.value, reply);
  }

  /** An enabling call that fails is taken back, and a recovery is noted. */
  lemma FailedEnablingIsTakenBack(c: Coordinator, job: Job, reply: Reply)
    requires c.stage == Some(Enabling(job)) && !reply.ok
    ensures var next := Step(c, Resolve(reply));
      next.lastCall == Call(false, job.generation) && next.recoveryNeeded && next.stage == Some(Disabling(job))
  {
  }

  // ---------- Calls ----------

  /** Every call first turns the runtime off, under a new generation; a job is queued behind all others. */
  lemma CallsTakeEffect(c: Coordinator)
    ensures var next := Step(c, Reconcile);
      next.generation == c.generation + 1 && next.lastCall == Call(false, c.generation + 1)
      && next.queue == c.queue + [Job(c.generation + 1, false)] && !next.recoveryNeeded
    ensures var next := Step(c, RunConfigApply);
      next.generation == c.generation + 1 && next.lastCall == Call(false, c.generation + 1)
      && next.queue == c.queue + [Job(c.generation + 1, true)] && !next.recoveryNeeded
    ensures var next := Step(c, Stop);
      next.stopped && next.generation == c.generation + 1 && next.lastCall == Call(false, c.generation + 1)
  {
  }

  /** A noted recovery is acted on as soon as the coordinator is idle, and only then. */
  lemma RecoveryTakesEffect(c: Coordinator)
    ensures Step(c, RecoverIfNeeded) ==
      if c.stage.None? && c.queue == [] && !c.stopped && c.recoveryNeeded then Step(c, Reconcile) else c
  {
  }

  /** A job that begins awaits its suspension, and then its apply, unless the suspension fails or all is stopped. */
  lemma JobTakesItsCourse(c: Coordinator, reply: Reply)
    ensures c.stage.None? && c.queue != [] ==>
      Step(c, Begin).stage == Some(Suspending(c.queue[0])) && Step(c, Begin).queue == c.queue[1..]
    ensures c.stage.Some? && c.stage.value.Suspending? ==>
      var next, job := Step(c, Resolve(reply)), c.stage.value.job;
      (next.stage.Some? <==> reply.ok && !c.stopped)
      && (next.stage.Some? ==>
          next.stage.value == if job.external then ExternalApplying(job) else InternalApplying(job))
  {
  }
}
