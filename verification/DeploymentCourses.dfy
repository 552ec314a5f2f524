/**
 The courses of reconciliations and applies: a reconciliation that was passed by a newer one never touches the store, one
 whose store fails still applies the config, and an apply over a failed store keeps the store's reason.
 */
module DeploymentCourses {
  import opened Wrappers
  import opened Provisioning
  import opened Deployment
  import opened DeploymentOutcomes

  // ---------- Time goes on ----------

  /** No counter went back, and the flights other than `id` are where they were. */
  predicate GoesOn(c: Controller, next: Controller, id: nat) {
    && c.nextId <= next.nextId && c.activationEpoch <= next.activationEpoch
    && c.reconciliationGeneration <= next.reconciliationGeneration
    && c.provisioner.generation <= next.provisioner.generation
    && forall other :: other in c.flights && other != id ==>
        other in next.flights && next.flights[other] == c.flights[other]
  }

  lemma LandGoesOn(c: Controller, next: Controller, id: nat)
    requires GoesOn(c, next, id)
    ensures forall flight: Flight :: GoesOn(c, Land(next, id, flight), id)
  {
  }

  lemma AdvanceGoesOn(c: Controller, next: Controller, epoch: nat, id: nat)
    requires GoesOn(c, next, id)
    ensures GoesOn(c, AdvanceActive(next, epoch), id)
  {
  }

  lemma RevokeGoesOn(c: Controller, id: nat, epoch: nat, reason: Reason)
    ensures GoesOn(c, RevokeCurrent(c, epoch, reason), id)
  {
    hide AdvanceActive;
    AdvanceGoesOn(c, c.(provisioner := RevokeIfCurrent(c.provisioner, epoch, reason, c.now)), epoch, id);
  }

  lemma PublishGoesOn(c: Controller, id: nat, epoch: nat, ruleCount: int)
    ensures GoesOn(c, PublishCurrent(c, epoch, ruleCount), id)
  {
    hide AdvanceActive;
    AdvanceGoesOn(c, c.(provisioner := Publish(c.provisioner, epoch, ruleCount, c.now)), epoch, id);
  }

  lemma StartGoesOn(c: Controller, next: Controller, id: nat, managed: Managed, r: Resolution)
    requires GoesOn(c, next, id)
    ensures GoesOn(c, StartManaged(next, id, managed, r), id)
  {
    hide StoreReason;
  }

  lemma FailGoesOn(c: Controller, id: nat, managed: Managed, reason: Reason, mark: bool)
    ensures GoesOn(c, FailManaged(c, id, managed, reason, mark), id)
  {
    hide RevokeCurrent, Land;
    var marked := if mark then MarkInactiveIfCurrent(c, managed.activation) else c;
    RevokeGoesOn(marked, id, managed.epoch, reason);
    LandGoesOn(c, if managed.publish then RevokeCurrent(marked, managed.epoch, reason) else marked, id);
  }

  lemma MarkGoesOn(c: Controller, id: nat, activation: nat)
    ensures GoesOn(c, MarkInactiveIfCurrent(c, activation), id) && GoesOn(c, c, id)
  {
  }

  lemma ApplyingGoesOn(c: Controller, id: nat, managed: Managed, target: Target, r: Resolution)
    ensures GoesOn(c, EndApplying(c, id, managed, target, r), id)
  {
    hide FailManaged, Land, MarkInactiveIfCurrent, GoesOn;
    FailGoesOn(c, id, managed, TargetChannelUnavailable, r.applied);
    FailGoesOn(c, id, managed, ProviderInactive, true);
    MarkGoesOn(c, id, managed.activation);
    LandGoesOn(c, c, id);
    LandGoesOn(c, MarkInactiveIfCurrent(c, managed.activation), id);
  }

  lemma ActivateGoesOn(c: Controller, next: Controller, id: nat, managed: Managed, ruleCount: int)
    requires GoesOn(c, next, id)
    ensures GoesOn(c, Activate(next, managed, ruleCount), id)
  {
  }

  lemma VerifyingGoesOn(c: Controller, id: nat, managed: Managed, r: Resolution)
    ensures GoesOn(c, EndVerifying(c, id, managed, r), id)
  {
    hide FailManaged, PublishCurrent, Land, Activate, GoesOn;
    MarkGoesOn(c, id, managed.activation);
    FailGoesOn(c, id, managed, ProviderInactive, true);
    PublishGoesOn(c, id, managed.epoch, r.ruleCount);
    var published := PublishCurrent(c, managed.epoch, r.ruleCount);
    ActivateGoesOn(c, c, id, managed, r.ruleCount);
    ActivateGoesOn(c, published, id, managed, r.ruleCount);
    LandGoesOn(c, c, id);
    LandGoesOn(c, published, id);
    LandGoesOn(c, Activate(c, managed, r.ruleCount), id);
    LandGoesOn(c, Activate(published, managed, r.ruleCount), id);
  }

  lemma RecoveryGoesOn(c: Controller, next: Controller, id: nat, activation: nat, r: Resolution)
    requires GoesOn(c, next, id)
    ensures GoesOn(c, RecoverConfig(next, id, activation, r), id)
  {
    hide StartManaged;
    StartGoesOn(c, next, id, Managed(ByRecovery, false, next.provisioner.generation, next.now, None, activation), r);
  }

  lemma ProvisioningGoesOn(c: Controller, id: nat, flight: Flight, r: Resolution)
    ensures flight.ProvisionQueued? ==> GoesOn(c, StartProvisioning(c, id, flight, r), id)
    ensures flight.Provisioning? ==> GoesOn(c, EndProvisioning(c, id, flight, r), id)
  {
    hide Land;
    LandGoesOn(c, c, id);
    LandGoesOn(c, c.(storeProvisioned := false, expectedRuleCount := None), id);
    LandGoesOn(c, c.(storeProvisioned := true, expectedRuleCount := Some(r.ruleCount)), id);
  }

  lemma LeavingGoesOn(c: Controller, id: nat, flight: Flight, r: Resolution)
    requires flight.ProvisionEnded?
    ensures GoesOn(c, LeaveReconciliation(c, id, flight, r), id)
  {
    hide RecoverConfig;
    var left := c.(reconciliationActive := false, reconciliationActivation := None);
    RecoveryGoesOn(c, left, id, flight.activation, r);
  }

  lemma EnterGoesOn(c: Controller, id: nat, generation: nat, activation: nat)
    ensures GoesOn(c, EnterReconciliation(c, id, generation, activation), id)
  {
    hide Land;
    LandGoesOn(c, c.(
      provisioningResult := false, reconciliationActive := true, reconciliationActivation := Some(activation),
      provisioner := StartReconciliation(c.provisioner, id, c.now)), id);
  }

  lemma WaitingGoesOn(c: Controller, id: nat, flight: Flight, r: Resolution)
    requires flight.ReconcileQueued? || flight.ReconcileWaiting?
    ensures GoesOn(c, ResolveFlight(c, id, flight, r), id)
  {
    hide RecoverConfig, StartProvisioning, EndProvisioning, ForceApply, LeaveReconciliation, EnterTransition,
        EndApplying,
      EndVerifying, EndReturned, EnterReconciliation, Land, GoesOn, MarkInactiveIfCurrent;
    MarkGoesOn(c, id, flight.activation);
    EnterGoesOn(c, id, flight.generation, flight.activation);
    LandGoesOn(c, c, id);
    LandGoesOn(c, MarkInactiveIfCurrent(c, flight.activation), id);
  }

  lemma FailedGoesOn(c: Controller, id: nat, flight: Flight, r: Resolution)
    requires flight.ProvisionFailed?
    ensures GoesOn(c, ResolveFlight(c, id, flight, r), id)
  {
    hide RecoverConfig, StartProvisioning, EndProvisioning, ForceApply, LeaveReconciliation, EnterTransition,
        EndApplying,
      EndVerifying, EndReturned, EnterReconciliation, Land;
    LandGoesOn(c, c.(provisioner := FinishReconciliation(c.provisioner, flight.epoch, Err(flight.reason), c.now)), id);
  }

  lemma InspectingGoesOn(c: Controller, id: nat, flight: Flight, r: Resolution)
    requires flight.Inspecting?
    ensures GoesOn(c, ResolveFlight(c, id, flight, r), id)
  {
    hide RecoverConfig, StartProvisioning, EndProvisioning, ForceApply, LeaveReconciliation, EnterTransition,
        EndApplying,
      EndVerifying, EndReturned, EnterReconciliation;
    RecoveryGoesOn(c, c.(storeProvisioned := r.inspected.Some?, expectedRuleCount := r.inspected), id, flight.activation, r);
  }

  lemma ForceGoesOn(c: Controller, id: nat, flight: Flight, r: Resolution)
    requires flight.Provisioned?
    ensures GoesOn(c, ForceApply(c, id, flight, r), id)
  {
    hide StartManaged;
    var owner := ByReconciliation(flight.generation, flight.activation, flight.epoch, flight.takenAt);
    var activation := if c.reconciliationActivation.Some? then c.reconciliationActivation.value else c.activationEpoch;
    StartGoesOn(c, c, id, Managed(owner, false, c.provisioner.generation, c.now, c.expectedRuleCount, activation), r);
  }

  lemma TransitionGoesOn(c: Controller, id: nat, transition: nat, expected: Option<int>, r: Resolution)
    requires transition in c.transitions
    ensures GoesOn(c, EnterTransition(c, id, transition, expected, r), id)
  {
    hide StartManaged;
    var held := c.transitions[transition];
    StartGoesOn(c, c.(active := Some(transition)), id, Managed(ByTransition(transition), true, held.epoch, held.takenAt,
      if expected.Some? then expected else c.expectedRuleCount, held.activation), r);
  }

  lemma EndGoesOn(c: Controller, id: nat, transition: nat, outcome: Outcome, r: Resolution)
    requires transition in c.transitions
    ensures GoesOn(c, EndTransition(c, id, transition, outcome, r), id)
  {
    hide RevokeCurrent;
    var epoch := c.transitions[transition].epoch;
    if outcome.Threw? {
      RevokeGoesOn(c, id, epoch, outcome.reason);
    } else if r.error.Some? {
      RevokeGoesOn(c, id, epoch, r.error.value);
    }
  }

  lemma ReturnedGoesOn(c: Controller, id: nat, owner: Owner, outcome: Outcome, r: Resolution)
    ensures GoesOn(c, EndReturned(c, id, owner, outcome, r), id)
  {
    hide RevokeCurrent, EndTransition, ReconciliationResult;
    match owner
    case ByTransition(transition) =>
      if transition in c.transitions {
        EndGoesOn(c, id, transition, outcome, r);
      }
    case ByCaller(epoch) =>
      if outcome.Threw? {
        RevokeGoesOn(c, id, epoch, outcome.reason);
      }
    case _ =>
  }

  lemma ResolveGoesOn(c: Controller, id: nat, flight: Flight, r: Resolution)
    ensures GoesOn(c, ResolveFlight(c, id, flight, r), id)
  {
    hide ResolveFlight, GoesOn;
    if flight.ReconcileQueued? || flight.ReconcileWaiting? {
      WaitingGoesOn(c, id, flight, r);
    } else if flight.ProvisionFailed? {
      FailedGoesOn(c, id, flight, r);
    } else if flight.Inspecting? {
      InspectingGoesOn(c, id, flight, r);
    } else {
      RestGoesOn(c, id, flight, r);
    }
  }

  lemma RestGoesOn(c: Controller, id: nat, flight: Flight, r: Resolution)
    requires !flight.ReconcileQueued? && !flight.ReconcileWaiting? && !flight.ProvisionFailed? && !flight.Inspecting?
    ensures GoesOn(c, ResolveFlight(c, id, flight, r), id)
  {
    hide RecoverConfig, StartProvisioning, EndProvisioning, ForceApply, LeaveReconciliation, EnterTransition,
        EndApplying,
      EndVerifying, EndReturned, EnterReconciliation, MarkInactiveIfCurrent, FinishReconciliation;
    match flight
    case Provisioned(_, _, _, _) => ForceGoesOn(c, id, flight, r);
    case TransitionWaiting(transition, expected) =>
      if transition in c.transitions {
        TransitionGoesOn(c, id, transition, expected, r);
      }
    case Applying(managed, target) => ApplyingGoesOn(c, id, managed, target, r);
    case Verifying(managed) => VerifyingGoesOn(c, id, managed, r);
    case Returned(owner, outcome) => ReturnedGoesOn(c, id, owner, outcome, r);
    case ProvisionEnded(_, _, _) => LeavingGoesOn(c, id, flight, r);
    case _ => ProvisioningGoesOn(c, id, flight, r);
  }

  lemma ApplyGoesOn(c: Controller, r: Resolution)
    ensures GoesOn(c, ApplyCurrentCall(c, r), c.nextId)
  {
    hide StartManaged;
    var inactive := c.(managedProviderActive := false, nextId := c.nextId + 1);
    if c.active.Some? && c.active.value in c.transitions {
      var held := c.transitions[c.active.value];
      StartGoesOn(c, inactive, c.nextId,
        Managed(ByCaller(held.epoch), true, held.epoch, held.takenAt, c.expectedRuleCount, held.activation), r);
    } else {
      var reserved := Reserve(c.provisioner);
      StartGoesOn(c, inactive.(provisioner := reserved, activationEpoch := c.activationEpoch + 1), c.nextId,
        Managed(ByCaller(reserved.generation), true, reserved.generation, c.now, c.expectedRuleCount, c.activationEpoch + 1), r);
    }
  }

  /** A call takes the next identifier, if any, and leaves every flight where it is. */
  lemma CallsGoOn(c: Controller, event: Event)
    requires !event.Resolve?
    ensures GoesOn(c, Step(c, event), c.nextId)
  {
    hide ApplyCurrentCall;
    if event.ApplyCurrent? {
      ApplyGoesOn(c.(now := c.now + 1), event.resolution);
    }
  }

  // ---------- Passed by a newer one ----------

  /** Newer epochs were taken since: of the reconciliations, of the activation, or of the capability. */
  predicate IsPassed(c: Controller, flight: Flight) {
    match flight
    case ReconcileQueued(generation, activation) =>
      generation < c.reconciliationGeneration || activation < c.activationEpoch
    case ReconcileWaiting(generation, activation) =>
      generation < c.reconciliationGeneration || activation < c.activationEpoch
    case ProvisionQueued(_, _, epoch, _) => epoch < c.provisioner.generation
    case _ => false
  }

  predicate IsRecovery(owner: Owner) {
    owner.ByRecovery?
  }

  /** Where a passed reconciliation can still get to: it is over, or it applies the config without the store. */
  predicate IsHarmless(c: Controller, flight: Flight) {
    match flight
    case ProvisionEnded(_, _, _) => true
    case Applying(managed, _) => IsRecovery(managed.owner)
    case Verifying(managed) => IsRecovery(managed.owner)
    case Returned(owner, _) => IsRecovery(owner)
    case Done => true
    case _ => IsPassed(c, flight)
  }

  lemma HarmlessGoesOn(c: Controller, next: Controller, id: nat, flight: Flight)
    requires GoesOn(c, next, id)
    ensures IsHarmless(c, flight) ==> IsHarmless(next, flight)
    ensures IsPassed(c, flight) ==> IsPassed(next, flight)
  {
  }

  /** What a recovery's own apply leads to. */
  lemma FailureReturns(c: Controller, id: nat, managed: Managed, reason: Reason, mark: bool)
    ensures var next := FailManaged(c, id, managed, reason, mark);
      id in next.flights && next.flights[id] == Returned(managed.owner, Failed(reason))
  {
    hide RevokeCurrent;
  }

  lemma ApplyingLands(c: Controller, id: nat, managed: Managed, target: Target, r: Resolution)
    ensures var next := EndApplying(c, id, managed, target, r);
      id in next.flights && (next.flights[id] == Verifying(managed)
        || (next.flights[id].Returned? && next.flights[id].owner == managed.owner))
  {
    hide FailManaged, MarkInactiveIfCurrent;
    FailureReturns(c, id, managed, TargetChannelUnavailable, r.applied);
    FailureReturns(c, id, managed, ProviderInactive, true);
  }

  lemma VerifyingLands(c: Controller, id: nat, managed: Managed, r: Resolution)
    ensures var next := EndVerifying(c, id, managed, r);
      id in next.flights && next.flights[id].Returned? && next.flights[id].owner == managed.owner
  {
    hide FailManaged, PublishCurrent, Activate;
    FailureReturns(c, id, managed, ProviderInactive, true);
  }

  lemma RecoveryResolves(c: Controller, id: nat, flight: Flight, r: Resolution)
    requires IsHarmless(c, flight) && (flight.Applying? || flight.Verifying? || flight.Returned?)
    ensures var next := ResolveFlight(c, id, flight, r);
      id in next.flights && IsHarmless(next, next.flights[id])
  {
    hide EndApplying, EndVerifying, RevokeCurrent, IsPassed;
    match flight
    case Applying(managed, target) => ApplyingLands(c, id, managed, target, r);
    case Verifying(managed) => VerifyingLands(c, id, managed, r);
    case _ =>
  }

  lemma PassedResolves(c: Controller, id: nat, flight: Flight, r: Resolution)
    requires IsPassed(c, flight)
    ensures var next := ResolveFlight(c, id, flight, r);
      && id in next.flights && (next.flights[id] == Done || next.flights[id].ProvisionEnded?)
      && (!flight.ProvisionQueued? ==> next.flights[id] == Done)
  {
    hide MarkInactiveIfCurrent, EnterReconciliation;
  }

  lemma EndedResolves(c: Controller, id: nat, flight: Flight, r: Resolution)
    requires flight.ProvisionEnded?
    ensures var next := ResolveFlight(c, id, flight, r);
      id in next.flights && IsHarmless(next, next.flights[id])
  {
    hide StoreReason, IsPassed;
  }

  lemma HarmlessResolves(c: Controller, id: nat, flight: Flight, r: Resolution)
    requires IsHarmless(c, flight) && flight != Done
    ensures var next := ResolveFlight(c, id, flight, r);
      && id in next.flights && IsHarmless(next, next.flights[id])
      && (IsPassed(c, flight) && !flight.ProvisionQueued? ==> next.flights[id] == Done)
  {
    hide ResolveFlight, IsPassed;
    if flight.ProvisionEnded? {
      EndedResolves(c, id, flight, r);
      OnlyWaitingIsPassed(c, flight);
    } else if flight.Applying? || flight.Verifying? || flight.Returned? {
      RecoveryResolves(c, id, flight, r);
      OnlyWaitingIsPassed(c, flight);
    } else {
      PassedResolves(c, id, flight, r);
    }
  }

  lemma OnlyWaitingIsPassed(c: Controller, flight: Flight)
    ensures IsPassed(c, flight) ==> flight.ReconcileQueued? || flight.ReconcileWaiting? || flight.ProvisionQueued?
  {
  }

  lemma HarmlessIsNotProvisioning(c: Controller, flight: Flight)
    requires IsHarmless(c, flight)
    ensures !flight.Provisioning? && !flight.Provisioned? && !flight.ProvisionFailed?
  {
  }

  predicate StaysHarmless(c: Controller, next: Controller, id: nat)
    requires id in c.flights
  {
    && id in next.flights && id < next.nextId && IsHarmless(next, next.flights[id])
    && (IsPassed(c, c.flights[id]) && !c.flights[id].ProvisionQueued? ==>
          next.flights[id] == Done || (next.flights[id] == c.flights[id] && IsPassed(next, c.flights[id])))
    && (c.flights[id] == Done ==> next.flights[id] == Done)
  }

  lemma StepStaysHarmless(c: Controller, event: Event, id: nat)
    requires id in c.flights && id < c.nextId && IsHarmless(c, c.flights[id])
    ensures StaysHarmless(c, Step(c, event), id)
  {
    hide ResolveFlight, IsHarmless, IsPassed, InvalidateCall, ReconcileCall, CoordinateCall, ApplyCurrentCall;
    if !event.Resolve? {
      CallsGoOn(c, event);
      HarmlessGoesOn(c, Step(c, event), c.nextId, c.flights[id]);
    } else if event.flight in c.flights {
      var later := c.(now := c.now + 1);
      ResolveGoesOn(later, event.flight, c.flights[event.flight], event.resolution);
      HarmlessGoesOn(c, later, event.flight, c.flights[id]);
      HarmlessGoesOn(later, Step(c, event), event.flight, c.flights[id]);
      if event.flight == id {
        DoneResolves(later, id, event.resolution);
        if c.flights[id] != Done {
          HarmlessResolves(later, id, c.flights[id], event.resolution);
        }
      }
    } else {
      HarmlessGoesOn(c, Step(c, event), event.flight, c.flights[id]);
    }
  }

  lemma DoneResolves(c: Controller, id: nat, r: Resolution)
    ensures ResolveFlight(c, id, Done, r) == c && IsHarmless(c, Done)
  {
  }

  /**
   In every run, a reconciliation that was passed by a newer one never touches the store: while it was queued it just
   ends, and behind that it may at most apply the config without the store.
   */
  lemma {:induction false} PassedNeverProvisions(c: Controller, events: seq<Event>, id: nat)
    requires id in c.flights && id < c.nextId && IsHarmless(c, c.flights[id])
    ensures StaysHarmless(c, Run(c, events), id)
    ensures var flight := Run(c, events).flights[id];
      !flight.Provisioning? && !flight.Provisioned? && !flight.ProvisionFailed?
    decreases |events|
  {
    hide Step, IsHarmless, IsPassed;
    if events == [] {
      HarmlessIsNotProvisioning(c, c.flights[id]);
    } else {
      StepStaysHarmless(c, events[0], id);
      PassedNeverProvisions(Step(c, events[0]), events[1..], id);
    }
  }

  /** A waiting reconciliation goes on exactly while it is the newest and neither aborted nor passed by an activation. */
  lemma ReconciliationGoesOnIff(c: Controller, id: nat, r: Resolution)
    requires id in c.flights && (c.flights[id].ReconcileQueued? || c.flights[id].ReconcileWaiting?)
    ensures var next, flight := Step(c, Resolve(id, r)), c.flights[id];
      && id in next.flights
      && (next.flights[id] != Done <==>
            !r.aborted && flight.generation == c.reconciliationGeneration && flight.activation == c.activationEpoch)
    ensures var next := Step(c, Resolve(id, r));
      next.flights[id] == Done ==>
        next.provisioner == c.provisioner && next.storeProvisioned == c.storeProvisioned
        && next.managedProviderActive == c.managedProviderActive
  {
  }

  /** The store is provisioned exactly while the reconciliation holds the capability's epoch. */
  lemma ProvisionsIff(c: Controller, id: nat, r: Resolution)
    requires id in c.flights && c.flights[id].ProvisionQueued?
    ensures var next := Step(c, Resolve(id, r));
      && id in next.flights
      && (next.flights[id].Provisioning? <==> !r.aborted && c.flights[id].epoch == c.provisioner.generation)
      && (!next.flights[id].Provisioning? ==>
          next.storeProvisioned == c.storeProvisioned && next.provisioner == c.provisioner)
  {
  }

  /** A provisioned store is applied exactly by the reconciliation under way that holds the capability's epoch. */
  lemma ProvisionedAppliesIff(c: Controller, id: nat, r: Resolution)
    requires id in c.flights && c.flights[id].Provisioned?
    ensures var next, flight := Step(c, Resolve(id, r)), c.flights[id];
      && id in next.flights
      && (next.flights[id].Applying? <==>
            flight.epoch == c.provisioner.generation && c.reconciliationActive && (c.storeProvisioned || !r.initialized))
      && (next.flights[id].ProvisionEnded? <==> flight.epoch != c.provisioner.generation)
    ensures Step(c, Resolve(id, r)).provisioner == c.provisioner
  {
    hide StoreReason;
  }

  // ---------- Stores that fail ----------

  lemma ProvisioningFails(c: Controller, id: nat, r: Resolution, reason: Reason)
    requires id in c.flights && c.flights[id].Provisioning? && !r.aborted && r.error == Some(reason)
    requires Holds(c, c.flights[id].generation, c.flights[id].activation, c.flights[id].epoch)
    ensures var next, flight := Step(c, Resolve(id, r)), c.flights[id];
      && id in next.flights
      && next.flights[id] == ProvisionFailed(flight.generation, flight.activation, flight.epoch, flight.takenAt, reason)
      && Holds(next, flight.generation, flight.activation, flight.epoch)
      && next.storeProvisioned == c.storeProvisioned && next.provisioningResult == c.provisioningResult
  {
  }

  lemma FailureEnds(c: Controller, id: nat, r: Resolution)
    requires id in c.flights && c.flights[id].ProvisionFailed?
    requires Holds(c, c.flights[id].generation, c.flights[id].activation, c.flights[id].epoch)
    ensures var next, flight := Step(c, Resolve(id, r)), c.flights[id];
      && id in next.flights && next.flights[id] == ProvisionEnded(flight.generation, flight.activation, false)
      && IsUnavailable(next, flight.reason) && next.reconciliationGeneration == flight.generation
      && next.storeProvisioned == c.storeProvisioned && next.provisioningResult == c.provisioningResult
  {
  }

  /** The config is applied without the store, by nobody's holder. */
  predicate AppliesWithoutStore(flight: Flight) {
    flight.Applying? && flight.managed.owner == ByRecovery && !flight.managed.publish && flight.target == Unprovisioned
  }

  lemma ReconciliationLeaves(c: Controller, id: nat, r: Resolution)
    requires id in c.flights && c.flights[id].ProvisionEnded? && !c.flights[id].threw
    requires c.flights[id].generation == c.reconciliationGeneration
    requires !r.aborted && !c.provisioningResult && !c.storeProvisioned
    ensures var next := Step(c, Resolve(id, r));
      && id in next.flights && next.provisioner == c.provisioner
      && (if r.initialized then next.flights[id] == Done else AppliesWithoutStore(next.flights[id]))
  {
  }

  /**
   A reconciliation whose store fails, and that nothing interferes with, makes the capability unavailable for the store's
   reason. It applies the config without the store, unless the store was in use before.
   */
  lemma FailedStoreIsRecovered(c: Controller, r: Resolution, reason: Reason)
    requires InApplyMode(c) && !r.aborted && r.error == Some(reason)
    ensures var id, event := c.nextId, Resolve(c.nextId, r);
      var after := Run(Run(c, [Reconcile] + Repeat(event, 3)), Repeat(event, 3));
      && IsUnavailable(after, reason) && id in after.flights
      && (if r.initialized then after.flights[id] == Done else AppliesWithoutStore(after.flights[id]))
  {
    hide Step, Run, AppliesWithoutStore, Active;
    var id, event := c.nextId, Resolve(c.nextId, r);
    var provisioning := Run(c, [Reconcile] + Repeat(event, 3));
    ReconciliationProvisions(c, id, r);
    ProvisioningFails(provisioning, id, r, reason);
    var failed := Step(provisioning, event);
    FailureEnds(failed, id, r);
    var ended := Step(failed, event);
    ReconciliationLeaves(ended, id, r);
    RunOn(provisioning, event, 3);
    RunOn(failed, event, 2);
    RunOn(ended, event, 1);
    RunOver(Step(ended, event), event);
  }

  /** The reason that a failed store has: the one shown, if it is about the store. */
  function ShownStoreReason(capability: Capability): Reason {
    if capability.Unavailable? && capability.reason !in {ProviderInactive, TargetChannelUnavailable} then capability.reason
    else StoreUnavailable
  }

  lemma TransitionThrows(c: Controller, id: nat, transition: nat, expected: Option<int>, r: Resolution)
    requires id in c.flights && c.flights[id] == TransitionWaiting(transition, expected) && transition in c.transitions
    requires !c.storeProvisioned && r.initialized && r.error == None
    ensures var next := Step(c, Resolve(id, r));
      && id in next.flights
      && next.flights[id] == Returned(ByTransition(transition), Threw(ShownStoreReason(c.provisioner.capability)))
      && next.provisioner == c.provisioner && next.transitions == c.transitions
  {
  }

  /** A coordinated apply over a store that failed and was in use before changes no config, and the store's reason stays. */
  lemma FailedStoreKeepsItsReason(c: Controller, expected: Option<int>, r: Resolution)
    requires InApplyMode(c) && !c.storeProvisioned && r.initialized && r.error == None
    ensures var after := Run(c, [Coordinate(expected)] + Repeat(Resolve(c.nextId, r), 2));
      IsUnavailable(after, ShownStoreReason(c.provisioner.capability))
  {
    hide Step, Run;
    var id, event := c.nextId, Resolve(c.nextId, r);
    var waiting := Step(c, Coordinate(expected));
    CoordinationStarts(c, expected);
    TransitionThrows(waiting, id, id, expected, r);
    var thrown := Step(waiting, event);
    ThrownTransitionWithdraws(thrown, id, id, ShownStoreReason(c.provisioner.capability), r);
    RunAfter(c, Coordinate(expected), Repeat(event, 2));
    RunOn(waiting, event, 2);
    RunOn(thrown, event, 1);
    RunOver(Step(thrown, event), event);
  }

  /** What a coordinated apply is made against: the group behind a provisioned store, or the config alone. */
  lemma TransitionStarts(c: Controller, id: nat, transition: nat, expected: Option<int>, r: Resolution)
    requires id in c.flights && c.flights[id] == TransitionWaiting(transition, expected) && transition in c.transitions
    requires r.error == None && (c.storeProvisioned || !r.initialized)
    ensures var next := Step(c, Resolve(id, r));
      && id in next.flights && next.flights[id].Applying? && next.flights[id].managed.publish
      && next.flights[id].managed.owner == ByTransition(transition)
      && next.flights[id].target == (if !c.storeProvisioned then Unprovisioned else if r.target then Group else NoTarget)
      && next.provisioner == c.provisioner
  {
  }

  /** An apply without the store takes the provider of a current holder away, and nothing else. */
  lemma PlainApplyDeactivates(c: Controller, id: nat, managed: Managed, r: Resolution)
    requires IsApplying(c, id, managed, Unprovisioned) && Succeeded(r)
    ensures var next := Step(c, Resolve(id, r));
      && id in next.flights && next.flights[id] == Returned(managed.owner, Plain) && next.provisioner == c.provisioner
      && next.managedProviderActive == (c.managedProviderActive && !(HoldsActivation(c, managed) && r.applied))
  {
  }

  // ---------- The transition that is under way ----------

  /** The transition is the one under way, and it holds both newest epochs. */
  predicate IsUnderWay(c: Controller, transition: nat) {
    && c.active == Some(transition) && transition in c.transitions
    && c.transitions[transition].epoch == c.provisioner.generation
    && c.transitions[transition].activation == c.activationEpoch
  }

  /** A transition is under way from its turn at the coordinator until it ends, unless another one took its turn. */
  lemma TransitionTakesItsTurn(c: Controller, id: nat, transition: nat, expected: Option<int>, r: Resolution)
    requires id in c.flights && c.flights[id] == TransitionWaiting(transition, expected) && transition in c.transitions
    ensures Step(c, Resolve(id, r)).active == if r.error == None then Some(transition) else c.active
  {
    hide StoreReason;
  }

  lemma TransitionEnds(c: Controller, id: nat, transition: nat, outcome: Outcome, r: Resolution)
    requires id in c.flights && c.flights[id] == Returned(ByTransition(transition), outcome) && transition in c.transitions
    ensures Step(c, Resolve(id, r)).active == if c.active == Some(transition) then None else c.active
  {
    hide RevokeCurrent;
    RevokeKeepsActive(c.(now := c.now + 1), c.transitions[transition].epoch, ProviderInactive);
    if outcome.Threw? {
      RevokeKeepsActive(c.(now := c.now + 1), c.transitions[transition].epoch, outcome.reason);
    }
    if r.error.Some? {
      RevokeKeepsActive(c.(now := c.now + 1), c.transitions[transition].epoch, r.error.value);
    }
  }

  lemma RevokeKeepsActive(c: Controller, epoch: nat, reason: Reason)
    ensures RevokeCurrent(c, epoch, reason).active == c.active
  {
  }

  /** Applying the current config takes no epoch of its own while a transition is under way, and both otherwise. */
  lemma CurrentApplyShares(c: Controller, r: Resolution)
    requires InApplyMode(c) && (c.active.Some? ==> c.active.value in c.transitions)
    requires c.storeProvisioned || !r.initialized
    ensures var next := Step(c, ApplyCurrent(r));
      c.nextId in next.flights && next.flights[c.nextId].Applying? && next.flights[c.nextId].managed.publish
    ensures c.active.Some? ==>
      var next, held := Step(c, ApplyCurrent(r)), c.transitions[c.active.value];
      next.provisioner == c.provisioner && next.activationEpoch == c.activationEpoch
      && next.flights[c.nextId].managed.epoch == held.epoch && next.flights[c.nextId].managed.activation == held.activation
    ensures c.active.None? ==>
      var next := Step(c, ApplyCurrent(r));
      HoldsEpoch(next, next.flights[c.nextId].managed) && HoldsActivation(next, next.flights[c.nextId].managed)
      && next.provisioner.generation > c.provisioner.generation && next.activationEpoch > c.activationEpoch
  {
    hide StoreReason;
  }

  lemma PublishKeepsHold(c: Controller, transition: nat, ruleCount: int)
    requires InApplyMode(c) && IsUnderWay(c, transition) && IsSafe(ruleCount)
    ensures var next := PublishCurrent(c, c.provisioner.generation, ruleCount);
      IsUnderWay(next, transition) && InApplyMode(next)
  {
  }

  /** The proof of a transition under way leaves it the holder of the capability it published. */
  lemma ProofKeepsHold(c: Controller, id: nat, managed: Managed, r: Resolution, transition: nat)
    requires IsVerifying(c, id, managed) && managed.publish && HoldsEpoch(c, managed) && HoldsActivation(c, managed)
    requires IsUnderWay(c, transition)
    requires Succeeded(r) && Matches(managed.expected, r.ruleCount) && IsSafe(r.ruleCount)
    ensures var next := Step(c, Resolve(id, r));
      IsUnderWay(next, transition) && InApplyMode(next) && id in next.flights
  {
    hide PublishCurrent, FailManaged;
    PublishKeepsHold(c.(now := c.now + 1), transition, r.ruleCount);
  }

  /** An error around a coordinated apply that was proven already takes the capability back. */
  lemma ErrorAfterProofWithdraws(c: Controller, expected: Option<int>, r: Resolution, failure: Resolution, reason: Reason)
    requires InApplyMode(c) && c.storeProvisioned && Works(r) && failure.error == Some(reason)
    requires Matches(if expected.Some? then expected else c.expectedRuleCount, r.ruleCount)
    ensures var proven := Run(c, [Coordinate(expected)] + Repeat(Resolve(c.nextId, r), 3));
      IsReady(proven) && IsUnavailable(Step(proven, Resolve(c.nextId, failure)), reason)
  {
    hide Step, Run, IsReady, IsUnavailable, Works;
    var id, event := c.nextId, Resolve(c.nextId, r);
    var waiting := Step(c, Coordinate(expected));
    CoordinationStarts(c, expected);
    WorksHasNoError(r);
    TransitionApplies(waiting, id, id, expected, r);
    TransitionTakesItsTurn(waiting, id, id, expected, r);
    TransitionKeepsEpochs(waiting, id, id, expected, r);
    var applying := Step(waiting, event);
    var managed := applying.flights[id].managed;
    ApplyVerifies(applying, id, managed, r);
    ApplyKeepsTransitions(applying, id, managed, r);
    var verifying := Step(applying, event);
    PublishedProofActivates(verifying, id, managed, r);
    ProofKeepsHold(verifying, id, managed, r, id);
    var proven := Step(verifying, event);
    FailedTransitionWithdraws(proven, id, id, managed, failure, reason, r.ruleCount);
    RunAfter(c, Coordinate(expected), Repeat(event, 3));
    RunOn(waiting, event, 3);
    RunOn(applying, event, 2);
    RunOn(verifying, event, 1);
    RunOver(proven, event);
  }

  lemma WorksHasNoError(r: Resolution)
    requires Works(r)
    ensures r.error == None && Succeeded(r) && IsSafe(r.ruleCount)
  {
  }

  lemma TransitionKeepsEpochs(c: Controller, id: nat, transition: nat, expected: Option<int>, r: Resolution)
    requires id in c.flights && c.flights[id] == TransitionWaiting(transition, expected) && transition in c.transitions
    ensures Step(c, Resolve(id, r)).transitions == c.transitions
  {
    hide StoreReason;
  }

  lemma ApplyKeepsTransitions(c: Controller, id: nat, managed: Managed, r: Resolution)
    requires IsApplying(c, id, managed, Group) && Works(r)
    ensures Step(c, Resolve(id, r)).transitions == c.transitions && Step(c, Resolve(id, r)).active == c.active
  {
  }

  lemma FailedTransitionWithdraws(c: Controller, id: nat, transition: nat, managed: Managed, r: Resolution, reason: Reason,
      ruleCount: int)
    requires id in c.flights && c.flights[id] == Returned(ByTransition(transition), Proven(ruleCount))
    requires InApplyMode(c) && IsUnderWay(c, transition) && r.error == Some(reason)
    ensures IsUnavailable(Step(c, Resolve(id, r)), reason)
  {
    hide AdvanceActive;
    var epoch := c.transitions[transition].epoch;
    AdvanceKeepsCapability(
      c.(now := c.now + 1, provisioner := RevokeIfCurrent(c.provisioner, epoch, reason, c.now + 1)), epoch);
  }
}
