/**
 What proofs and failures of a deployment bring about: a current holder with a clean proof makes the capability ready and
 the managed provider active, any failure of it withdraws both, and an undisturbed transition or reconciliation succeeds.
 */
module DeploymentOutcomes {
  import opened Wrappers
  import opened Provisioning
  import opened Deployment

  // ---------- Proofs ----------

  predicate IsReady(c: Controller) {
    c.provisioner.capability == Ready
  }

  predicate IsUnavailable(c: Controller, reason: Reason) {
    c.provisioner.capability == Unavailable(reason)
  }

  predicate InApplyMode(c: Controller) {
    c.provisioner.mode == ApplyMode
  }

  predicate IsSafe(ruleCount: int) {
    0 <= ruleCount <= 9_007_199_254_740_991
  }

  /** The awaited call neither failed nor was aborted. */
  predicate Succeeded(r: Resolution) {
    !r.aborted && r.error == None
  }

  predicate Matches(expected: Option<int>, ruleCount: int) {
    expected == None || expected == Some(ruleCount)
  }

  /** The holder's epochs are the newest ones. */
  predicate HoldsEpoch(c: Controller, managed: Managed) {
    InApplyMode(c) && managed.epoch == c.provisioner.generation
  }

  predicate HoldsActivation(c: Controller, managed: Managed) {
    managed.activation == c.activationEpoch
  }

  predicate IsVerifying(c: Controller, id: nat, managed: Managed) {
    id in c.flights && c.flights[id] == Verifying(managed)
  }

  predicate IsApplying(c: Controller, id: nat, managed: Managed, target: Target) {
    id in c.flights && c.flights[id] == Applying(managed, target)
  }

  /** A publishing holder whose verification ends: ready exactly by a clean proof under both newest epochs. */
  lemma PublishesReadyIff(c: Controller, id: nat, managed: Managed, r: Resolution)
    requires IsVerifying(c, id, managed) && managed.publish && !IsReady(c)
    ensures IsReady(Step(c, Resolve(id, r))) <==>
      && HoldsEpoch(c, managed) && HoldsActivation(c, managed)
      && Succeeded(r) && Matches(managed.expected, r.ruleCount) && IsSafe(r.ruleCount)
  {
  }

  /** The same proof makes the managed provider active, and is what the apply returns. */
  lemma PublishedProofActivates(c: Controller, id: nat, managed: Managed, r: Resolution)
    requires IsVerifying(c, id, managed) && managed.publish && HoldsEpoch(c, managed) && HoldsActivation(c, managed)
    requires Succeeded(r) && Matches(managed.expected, r.ruleCount) && IsSafe(r.ruleCount)
    ensures var next := Step(c, Resolve(id, r));
      && IsReady(next) && next.managedProviderActive
      && next.flights[id] == Returned(managed.owner, Proven(r.ruleCount))
  {
  }

  /** A clean proof with an unsafe count withdraws the capability instead. */
  lemma UnsafeProofWithdraws(c: Controller, id: nat, managed: Managed, r: Resolution)
    requires IsVerifying(c, id, managed) && managed.publish && HoldsEpoch(c, managed) && HoldsActivation(c, managed)
    requires Succeeded(r) && Matches(managed.expected, r.ruleCount) && !IsSafe(r.ruleCount)
    ensures var next := Step(c, Resolve(id, r));
      IsUnavailable(next, ProviderInactive) && next.managedProviderActive == c.managedProviderActive
  {
  }

  /** What a failed apply or verification leaves: its reason, and nothing of what its holder had. */
  lemma FailureWithdraws(c: Controller, id: nat, managed: Managed, reason: Reason, mark: bool)
    ensures var next := FailManaged(c, id, managed, reason, mark);
      && id in next.flights && next.flights[id] == Returned(managed.owner, Failed(reason))
      && next.managedProviderActive == (c.managedProviderActive && !(HoldsActivation(c, managed) && mark))
      && (if managed.publish && HoldsEpoch(c, managed) then IsUnavailable(next, reason) else next.provisioner == c.provisioner)
  {
    hide AdvanceActive;
    var marked := if mark then MarkInactiveIfCurrent(c, managed.activation) else c;
    AdvanceKeepsCapability(marked.(provisioner := RevokeIfCurrent(c.provisioner, managed.epoch, reason, c.now)), managed.epoch);
  }

  /** A verification that fails, or proves another number of rules, takes the provider and the capability of its holder away. */
  lemma FailedProofWithdraws(c: Controller, id: nat, managed: Managed, r: Resolution)
    requires IsVerifying(c, id, managed) && !r.aborted && (r.error.Some? || !Matches(managed.expected, r.ruleCount))
    ensures var next := Step(c, Resolve(id, r));
      && next.flights[id] == Returned(managed.owner, Failed(ProviderInactive))
      && next.managedProviderActive == (c.managedProviderActive && !HoldsActivation(c, managed))
      && (if managed.publish && HoldsEpoch(c, managed) then IsUnavailable(next, ProviderInactive)
          else next.provisioner == c.provisioner)
  {
    hide FailManaged;
    FailureWithdraws(c.(now := c.now + 1), id, managed, ProviderInactive, true);
  }

  lemma AdvanceKeepsCapability(c: Controller, epoch: nat)
    ensures AdvanceActive(c, epoch).provisioner.capability == c.provisioner.capability
    ensures AdvanceActive(c, epoch).managedProviderActive == c.managedProviderActive
    ensures AdvanceActive(c, epoch).flights == c.flights
  {
  }

  /** A holder that does not publish, such as a reconciliation, activates the provider exactly under both newest epochs. */
  lemma UnpublishedProofActivatesIff(c: Controller, id: nat, managed: Managed, r: Resolution)
    requires IsVerifying(c, id, managed) && !managed.publish && InApplyMode(c) && !c.managedProviderActive
    ensures var next := Step(c, Resolve(id, r));
      && next.provisioner == c.provisioner
      && (next.managedProviderActive <==>
            HoldsEpoch(c, managed) && HoldsActivation(c, managed) && Succeeded(r) && Matches(managed.expected, r.ruleCount))
  {
  }

  // ---------- Applies ----------

  /** An apply to a target group goes on to its verification exactly when it was applied. */
  lemma AppliedIsVerified(c: Controller, id: nat, managed: Managed, r: Resolution)
    requires IsApplying(c, id, managed, Group) && Succeeded(r) && r.applied
    ensures var next := Step(c, Resolve(id, r));
      next.flights[id] == Verifying(managed) && next.provisioner == c.provisioner
      && next.managedProviderActive == c.managedProviderActive
  {
  }

  /** An apply that was not accepted, or has no target, takes the provider and the capability of its holder away. */
  lemma FailedApplyWithdraws(c: Controller, id: nat, managed: Managed, target: Target, r: Resolution)
    requires IsApplying(c, id, managed, target) && Succeeded(r) && !target.Unprovisioned? && (target.NoTarget? || !r.applied)
    ensures var next, reason := Step(c, Resolve(id, r)), if target.NoTarget? then TargetChannelUnavailable else ProviderInactive;
      && next.flights[id] == Returned(managed.owner, Failed(reason))
      && next.managedProviderActive == (c.managedProviderActive && !(HoldsActivation(c, managed) && (target.Group? || r.applied)))
      && (if managed.publish && HoldsEpoch(c, managed) then IsUnavailable(next, reason) else next.provisioner == c.provisioner)
  {
    hide FailManaged;
    FailureWithdraws(c.(now := c.now + 1), id, managed, TargetChannelUnavailable, r.applied);
    FailureWithdraws(c.(now := c.now + 1), id, managed, ProviderInactive, true);
  }

  // ---------- The end of a reconciliation ----------

  predicate EndsReconciliation(c: Controller, id: nat, owner: Owner, outcome: Outcome) {
    id in c.flights && c.flights[id] == Returned(owner, outcome) && owner.ByReconciliation?
  }

  /** A reconciliation that still holds its generation decides the capability by what its apply returned. */
  lemma ReconciliationDecides(c: Controller, id: nat, owner: Owner, outcome: Outcome, r: Resolution)
    requires EndsReconciliation(c, id, owner, outcome)
    ensures Step(c, Resolve(id, r)).provisioner.capability ==
      if r.aborted || owner.epoch != c.provisioner.generation then c.provisioner.capability
      else if outcome.Proven? && IsSafe(outcome.ruleCount) then Ready
      else if outcome in {Failed(TargetChannelUnavailable), Threw(TargetChannelUnavailable)} then Unavailable(TargetChannelUnavailable)
      else Unavailable(ProviderInactive)
  {
  }

  /** A store that cannot be provisioned says why, if the reconciliation still holds its generation. */
  lemma FailedProvisioningDecides(c: Controller, id: nat, r: Resolution)
    requires id in c.flights && c.flights[id].ProvisionFailed?
    ensures Step(c, Resolve(id, r)).provisioner.capability ==
      if c.flights[id].epoch != c.provisioner.generation then c.provisioner.capability else Unavailable(c.flights[id].reason)
  {
  }

  // ---------- Calls that end with an error ----------

  /** An error of a coordinated apply withdraws the capability for its reason, if its transition still holds the epoch. */
  lemma ThrownTransitionWithdraws(c: Controller, id: nat, transition: nat, reason: Reason, r: Resolution)
    requires id in c.flights && c.flights[id] == Returned(ByTransition(transition), Threw(reason)) && transition in c.transitions
    ensures Step(c, Resolve(id, r)).provisioner.capability ==
      if InApplyMode(c) && c.transitions[transition].epoch == c.provisioner.generation then Unavailable(reason)
      else c.provisioner.capability
  {
    hide AdvanceActive;
    var epoch := c.transitions[transition].epoch;
    AdvanceKeepsCapability(
      c.(now := c.now + 1, provisioner := RevokeIfCurrent(c.provisioner, epoch, reason, c.now + 1)), epoch);
  }

  lemma ThrownCallerWithdraws(c: Controller, id: nat, epoch: nat, reason: Reason, r: Resolution)
    requires id in c.flights && c.flights[id] == Returned(ByCaller(epoch), Threw(reason))
    ensures Step(c, Resolve(id, r)).provisioner.capability ==
      if InApplyMode(c) && epoch == c.provisioner.generation then Unavailable(reason) else c.provisioner.capability
  {
    hide AdvanceActive;
    AdvanceKeepsCapability(
      c.(now := c.now + 1, provisioner := RevokeIfCurrent(c.provisioner, epoch, reason, c.now + 1)), epoch);
  }

  // ---------- Calls ----------

  /** What the calls withdraw at once, and which epochs they take. */
  lemma CallsTakeEffect(c: Controller, reason: Reason, expected: Option<int>, r: Resolution)
    requires InApplyMode(c)
    ensures var next := Step(c, Invalidate);
      !next.managedProviderActive && IsUnavailable(next, ProviderInactive) && next.activationEpoch == c.activationEpoch + 1
    ensures IsUnavailable(Step(c, RevokeCall(reason)), reason)
    ensures Step(c, RevokeCall(reason)).provisioner.generation == c.provisioner.generation + 1
    ensures var next := Step(c, Reconcile);
      && !next.managedProviderActive && IsUnavailable(next, StoreUnavailable) && next.activationEpoch == c.activationEpoch + 1
      && next.reconciliationGeneration == c.reconciliationGeneration + 1
    ensures var next := Step(c, Coordinate(expected));
      && !next.managedProviderActive && next.provisioner.generation == c.provisioner.generation + 1
      && next.activationEpoch == c.activationEpoch + 1 && next.provisioner.capability == c.provisioner.capability
    ensures var next := Step(c, ApplyCurrent(r));
      && !next.managedProviderActive && next.provisioner.capability == c.provisioner.capability
      && (next.activationEpoch == c.activationEpoch || (next.activationEpoch == c.activationEpoch + 1
           && next.provisioner.generation == c.provisioner.generation + 1))
  {
  }

  // ---------- Undisturbed courses ----------

  function Repeat(event: Event, count: nat): seq<Event> {
    if count == 0 then [] else [event] + Repeat(event, count - 1)
  }

  lemma RunOn(c: Controller, event: Event, count: nat)
    requires count > 0
    ensures Run(c, Repeat(event, count)) == Run(Step(c, event), Repeat(event, count - 1))
  {
    assert Repeat(event, count)[1..] == Repeat(event, count - 1);
  }

  lemma RunAfter(c: Controller, first: Event, rest: seq<Event>)
    ensures Run(c, [first] + rest) == Run(Step(c, first), rest)
  {
    assert ([first] + rest)[1..] == rest;
  }

  lemma RunOver(c: Controller, event: Event)
    ensures Run(c, Repeat(event, 0)) == c
  {
  }

  /** Everything works: a target, an accepted config, and a proof with this number of rules. */
  predicate Works(r: Resolution) {
    Succeeded(r) && r.target && r.applied && IsSafe(r.ruleCount)
  }

  lemma CoordinationStarts(c: Controller, expected: Option<int>)
    requires InApplyMode(c)
    ensures var next := Step(c, Coordinate(expected));
      && c.nextId in next.flights && next.flights[c.nextId] == TransitionWaiting(c.nextId, expected)
      && InApplyMode(next) && next.storeProvisioned == c.storeProvisioned && next.expectedRuleCount == c.expectedRuleCount
      && next.provisioner.capability == c.provisioner.capability
      && c.nextId in next.transitions && next.transitions[c.nextId].epoch == next.provisioner.generation
      && next.transitions[c.nextId].activation == next.activationEpoch
  {
  }

  lemma TransitionApplies(c: Controller, id: nat, transition: nat, expected: Option<int>, r: Resolution)
    requires id in c.flights && c.flights[id] == TransitionWaiting(transition, expected) && transition in c.transitions
    requires c.storeProvisioned && Works(r)
    ensures var next, held := Step(c, Resolve(id, r)), c.transitions[transition];
      && IsApplying(next, id, Managed(ByTransition(transition), true, held.epoch, held.takenAt,
           if expected.Some? then expected else c.expectedRuleCount, held.activation), Group)
      && next.provisioner == c.provisioner && next.activationEpoch == c.activationEpoch
  {
  }

  lemma ApplyVerifies(c: Controller, id: nat, managed: Managed, r: Resolution)
    requires IsApplying(c, id, managed, Group) && Works(r)
    ensures var next := Step(c, Resolve(id, r));
      IsVerifying(next, id, managed) && next.provisioner == c.provisioner && next.activationEpoch == c.activationEpoch
  {
  }

  /** A coordinated apply that nothing interferes with ends with the capability ready and the managed provider active. */
  lemma CoordinationMakesReady(c: Controller, expected: Option<int>, r: Resolution)
    requires InApplyMode(c) && c.storeProvisioned && Works(r)
    requires Matches(if expected.Some? then expected else c.expectedRuleCount, r.ruleCount)
    ensures var after := Run(c, [Coordinate(expected)] + Repeat(Resolve(c.nextId, r), 3));
      IsReady(after) && after.managedProviderActive
  {
    hide Step, Run, IsReady;
    var id, event := c.nextId, Resolve(c.nextId, r);
    var waiting := Step(c, Coordinate(expected));
    CoordinationStarts(c, expected);
    TransitionApplies(waiting, id, id, expected, r);
    var applying := Step(waiting, event);
    var managed := applying.flights[id].managed;
    ApplyVerifies(applying, id, managed, r);
    var verifying := Step(applying, event);
    PublishedProofActivates(verifying, id, managed, r);
    RunAfter(c, Coordinate(expected), Repeat(event, 3));
    RunOn(waiting, event, 3);
    RunOn(applying, event, 2);
    RunOn(verifying, event, 1);
    RunOver(Step(verifying, event), event);
  }

  // ---------- An undisturbed reconciliation ----------

  /** A reconciliation that still holds everything it took. */
  predicate Holds(c: Controller, generation: nat, activation: nat, epoch: nat) {
    InApplyMode(c) && generation == c.reconciliationGeneration && activation == c.activationEpoch && epoch == c.provisioner.generation
  }

  predicate Active(c: Controller) {
    c.reconciliationActive && c.reconciliationActivation == Some(c.activationEpoch)
  }

  lemma ReconciliationQueues(c: Controller)
    requires InApplyMode(c)
    ensures var next := Step(c, Reconcile);
      && c.nextId in next.flights && next.flights[c.nextId] == ReconcileQueued(next.reconciliationGeneration, next.activationEpoch)
      && InApplyMode(next)
  {
  }

  lemma ReconciliationWaits(c: Controller, id: nat, r: Resolution)
    requires InApplyMode(c) && !r.aborted && id in c.flights
    requires c.flights[id] == ReconcileQueued(c.reconciliationGeneration, c.activationEpoch)
    ensures var next := Step(c, Resolve(id, r));
      && id in next.flights && next.flights[id] == ReconcileWaiting(next.reconciliationGeneration, next.activationEpoch)
      && InApplyMode(next)
  {
  }

  lemma ReconciliationEnters(c: Controller, id: nat, r: Resolution)
    requires InApplyMode(c) && !r.aborted && id in c.flights
    requires c.flights[id] == ReconcileWaiting(c.reconciliationGeneration, c.activationEpoch)
    ensures var next := Step(c, Resolve(id, r));
      && id in next.flights && next.flights[id].ProvisionQueued?
      && Holds(next, next.flights[id].generation, next.flights[id].activation, next.flights[id].epoch)
      && Active(next) && !next.provisioningResult
  {
  }

  lemma ProvisioningStarts(c: Controller, id: nat, r: Resolution)
    requires !r.aborted && id in c.flights && c.flights[id].ProvisionQueued? && Active(c) && !c.provisioningResult
    requires Holds(c, c.flights[id].generation, c.flights[id].activation, c.flights[id].epoch)
    ensures var next := Step(c, Resolve(id, r));
      && id in next.flights && next.flights[id].Provisioning? && Active(next)
      && !next.provisioningResult && !next.storeProvisioned
      && Holds(next, next.flights[id].generation, next.flights[id].activation, next.flights[id].epoch)
  {
  }

  lemma ProvisioningEnds(c: Controller, id: nat, r: Resolution)
    requires Works(r) && id in c.flights && c.flights[id].Provisioning? && Active(c)
    requires Holds(c, c.flights[id].generation, c.flights[id].activation, c.flights[id].epoch)
    ensures var next := Step(c, Resolve(id, r));
      && id in next.flights && next.flights[id].Provisioned? && Active(next)
      && next.storeProvisioned && next.expectedRuleCount == Some(r.ruleCount)
      && Holds(next, next.flights[id].generation, next.flights[id].activation, next.flights[id].epoch)
  {
  }

  lemma ReconciliationApplies(c: Controller, id: nat, r: Resolution)
    requires Works(r) && id in c.flights && c.flights[id].Provisioned? && Active(c)
    requires c.storeProvisioned && c.expectedRuleCount == Some(r.ruleCount)
    requires Holds(c, c.flights[id].generation, c.flights[id].activation, c.flights[id].epoch)
    ensures var next, flight := Step(c, Resolve(id, r)), c.flights[id];
      && IsApplying(next, id, Managed(
           ByReconciliation(flight.generation, flight.activation, flight.epoch, flight.takenAt), false,
           c.provisioner.generation, c.now + 1, Some(r.ruleCount), c.activationEpoch), Group)
      && next.provisioner == c.provisioner && next.activationEpoch == c.activationEpoch
  {
  }

  lemma ReconciliationVerified(c: Controller, id: nat, managed: Managed, r: Resolution)
    requires IsVerifying(c, id, managed) && !managed.publish && HoldsEpoch(c, managed) && HoldsActivation(c, managed)
    requires Works(r) && managed.expected == Some(r.ruleCount)
    ensures var next := Step(c, Resolve(id, r));
      && id in next.flights && next.flights[id] == Returned(managed.owner, Proven(r.ruleCount))
      && next.managedProviderActive && next.provisioner == c.provisioner
  {
  }

  lemma ReconciliationEnds(c: Controller, id: nat, owner: Owner, r: Resolution)
    requires EndsReconciliation(c, id, owner, Proven(r.ruleCount)) && owner.epoch == c.provisioner.generation && Works(r)
    ensures IsReady(Step(c, Resolve(id, r)))
    ensures Step(c, Resolve(id, r)).managedProviderActive == c.managedProviderActive
  {
  }

  /** A reconciliation that nothing interferes with comes to its store, which it knows nothing of until it answers. */
  lemma ReconciliationProvisions(c: Controller, id: nat, r: Resolution)
    requires InApplyMode(c) && !r.aborted && id == c.nextId
    ensures var after := Run(c, [Reconcile] + Repeat(Resolve(id, r), 3));
      && id in after.flights && after.flights[id].Provisioning? && Active(after)
      && !after.provisioningResult && !after.storeProvisioned
      && Holds(after, after.flights[id].generation, after.flights[id].activation, after.flights[id].epoch)
  {
    hide Step, Run, Holds;
    var event := Resolve(id, r);
    var queued := Step(c, Reconcile);
    ReconciliationQueues(c);
    ReconciliationWaits(queued, id, r);
    var waiting := Step(queued, event);
    ReconciliationEnters(waiting, id, r);
    var entered := Step(waiting, event);
    ProvisioningStarts(entered, id, r);
    RunAfter(c, Reconcile, Repeat(event, 3));
    RunOn(queued, event, 3);
    RunOn(waiting, event, 2);
    RunOn(entered, event, 1);
    RunOver(Step(entered, event), event);
  }

  /** A reconciliation that nothing interferes with ends with the capability ready and the managed provider active. */
  lemma ReconciliationMakesReady(c: Controller, r: Resolution)
    requires InApplyMode(c) && Works(r)
    ensures var after := Run(Run(c, [Reconcile] + Repeat(Resolve(c.nextId, r), 3)), Repeat(Resolve(c.nextId, r), 5));
      IsReady(after) && after.managedProviderActive
  {
    hide Step, Run, IsReady, Active;
    var id, event := c.nextId, Resolve(c.nextId, r);
    var provisioning := Run(c, [Reconcile] + Repeat(event, 3));
    ReconciliationProvisions(c, id, r);
    ProvisioningEnds(provisioning, id, r);
    var provisioned := Step(provisioning, event);
    ReconciliationApplies(provisioned, id, r);
    var applying := Step(provisioned, event);
    var managed := applying.flights[id].managed;
    ApplyVerifies(applying, id, managed, r);
    var verifying := Step(applying, event);
    ReconciliationVerified(verifying, id, managed, r);
    var returned := Step(verifying, event);
    ReconciliationEnds(returned, id, managed.owner, r);
    RunOn(provisioning, event, 5);
    RunOn(provisioned, event, 4);
    RunOn(applying, event, 3);
    RunOn(verifying, event, 2);
    RunOn(returned, event, 1);
    RunOver(Step(returned, event), event);
  }
}
