/**
 Fencing in every interleaving: after a withdrawal the capability becomes ready again only by a valid proof of a
 holder that took its epoch since, a stale holder changes nothing, and an active managed provider was proven under
 the current activation epoch.
 */
module DeploymentTheorems {
  import opened Wrappers
  import opened Provisioning
  import opened Deployment

  // ---------- The invariant ----------

  predicate HeldByTransition(p: Provisioner, epoch: nat, takenAt: nat) {
    p.mode.ApplyMode? ==> epoch <= p.generation && (epoch == p.generation ==>
      p.issue.ToTransition? && p.revokedAt <= takenAt)
  }

  predicate HeldByReconciliation(p: Provisioner, id: nat, epoch: nat, takenAt: nat) {
    p.mode.ApplyMode? && epoch <= p.generation && (epoch == p.generation ==>
      p.issue == ToReconciliation(id) && p.revokedAt <= takenAt)
  }

  predicate OwnerOk(p: Provisioner, id: nat, owner: Owner) {
    owner.ByReconciliation? ==> HeldByReconciliation(p, id, owner.epoch, owner.takenAt)
  }

  predicate ManagedOk(p: Provisioner, id: nat, managed: Managed) {
    && OwnerOk(p, id, managed.owner)
    && (managed.owner.ByReconciliation? ==> !managed.publish)
    && (managed.publish ==> HeldByTransition(p, managed.epoch, managed.takenAt))
  }

  predicate FlightOk(p: Provisioner, id: nat, flight: Flight) {
    match flight
    case ProvisionQueued(_, _, epoch, takenAt) => HeldByReconciliation(p, id, epoch, takenAt)
    case Provisioning(_, _, epoch, takenAt) => HeldByReconciliation(p, id, epoch, takenAt)
    case Provisioned(_, _, epoch, takenAt) => HeldByReconciliation(p, id, epoch, takenAt)
    case ProvisionFailed(_, _, epoch, takenAt, _) => HeldByReconciliation(p, id, epoch, takenAt)
    case Applying(managed, _) => ManagedOk(p, id, managed)
    case Verifying(managed) => ManagedOk(p, id, managed)
    case Returned(owner, _) => OwnerOk(p, id, owner)
    case _ => true
  }

  predicate EvidenceOk(c: Controller) {
    c.managedProviderActive ==>
      (&& c.evidence.Some? && c.evidence.value.activation == c.activationEpoch
       && (c.evidence.value.expected.Some? ==> c.evidence.value.ruleCount == c.evidence.value.expected.value))
  }

  predicate TransitionsOk(c: Controller) {
    forall t :: t in c.transitions ==> HeldByTransition(c.provisioner, c.transitions[t].epoch, c.transitions[t].takenAt)
  }

  /** Everything but the flight that is being resolved. */
  predicate Base(c: Controller, id: nat) {
    && c.provisioner.revokedAt <= c.now
    && TransitionsOk(c)
    && (forall other :: other in c.flights && other != id ==> FlightOk(c.provisioner, other, c.flights[other]))
    && EvidenceOk(c)
    && (forall other :: other in c.flights ==> other < c.nextId)
  }

  predicate Inv(c: Controller) {
    && c.provisioner.revokedAt <= c.now
    && TransitionsOk(c)
    && (forall id :: id in c.flights ==> FlightOk(c.provisioner, id, c.flights[id]))
    && EvidenceOk(c)
    && (forall id :: id in c.flights ==> id < c.nextId)
  }

  lemma StartInv(mode: Mode)
    ensures Inv(Start(mode))
  {
  }

  // ---------- Holders and changes of the provisioner ----------

  /** The generation moved on, or nothing but the current reconciliation `id` was affected. */
  predicate Moves(p: Provisioner, next: Provisioner, id: nat) {
    && next.mode == p.mode
    && (|| p.generation < next.generation
        || (next.generation == p.generation && next.issue == p.issue && (next.revokedAt == p.revokedAt || p.issue == ToReconciliation(id))))
  }

  lemma FlightSurvives(p: Provisioner, next: Provisioner, id: nat, other: nat, flight: Flight)
    requires FlightOk(p, other, flight) && Moves(p, next, id) && other != id
    ensures FlightOk(next, other, flight)
  {
  }

  lemma TransitionSurvives(p: Provisioner, next: Provisioner, id: nat, epoch: nat, takenAt: nat)
    requires HeldByTransition(p, epoch, takenAt) && Moves(p, next, id)
    ensures HeldByTransition(next, epoch, takenAt)
  {
  }

  /** Changing the provisioner keeps everything but the flight at hand. */
  lemma MovesKeepBase(c: Controller, next: Provisioner, id: nat)
    requires Base(c, id) && Moves(c.provisioner, next, id) && next.revokedAt <= c.now
    ensures Base(c.(provisioner := next), id)
  {
    hide FlightOk, HeldByTransition, Moves, EvidenceOk;
    forall other | other in c.flights && other != id ensures FlightOk(next, other, c.flights[other]) {
      FlightSurvives(c.provisioner, next, id, other, c.flights[other]);
    }
    forall t | t in c.transitions ensures HeldByTransition(next, c.transitions[t].epoch, c.transitions[t].takenAt) {
      TransitionSurvives(c.provisioner, next, id, c.transitions[t].epoch, c.transitions[t].takenAt);
    }
    SameEvidence(c, c.(provisioner := next));
  }

  lemma SameEvidence(c: Controller, next: Controller)
    requires EvidenceOk(c) && next.evidence == c.evidence && next.activationEpoch == c.activationEpoch
    requires next.managedProviderActive ==> c.managedProviderActive
    ensures EvidenceOk(next)
  {
  }

  lemma AdvanceKeepsBase(c: Controller, id: nat, epoch: nat)
    requires Base(c, id) && c.provisioner.issue.ToNobody? && epoch < c.provisioner.generation
    ensures Base(AdvanceActive(c, epoch), id)
  {
    hide EvidenceOk;
    if c.active.Some? && c.active.value in c.transitions && c.transitions[c.active.value].epoch == epoch {
      var next := AdvanceActive(c, epoch);
      forall other | other in c.flights && other != id ensures FlightOk(next.provisioner, other, c.flights[other]) {
        assert FlightOk(c.provisioner, other, c.flights[other]);
      }
      SameEvidence(c, next);
    }
  }

  lemma RevokeKeepsBase(c: Controller, id: nat, epoch: nat, reason: Reason)
    requires Base(c, id)
    ensures Base(RevokeCurrent(c, epoch, reason), id)
  {
    hide Base, AdvanceActive;
    if IsCurrent(c.provisioner, epoch) {
      var next := RevokeIfCurrent(c.provisioner, epoch, reason, c.now);
      MovesKeepBase(c, next, id);
      AdvanceKeepsBase(c.(provisioner := next), id, epoch);
    }
  }

  lemma PublishKeepsBase(c: Controller, id: nat, epoch: nat, ruleCount: int)
    requires Base(c, id)
    ensures Base(PublishCurrent(c, epoch, ruleCount), id)
  {
    hide AdvanceActive, TransitionsOk, FlightOk, EvidenceOk;
    var next := Publish(c.provisioner, epoch, ruleCount, c.now);
    if IsCurrent(c.provisioner, epoch) {
      MovesKeepBase(c, next, id);
      AdvanceKeepsBase(c.(provisioner := next), id, epoch);
    } else {
      assert c.(provisioner := next) == c;
    }
  }

  lemma LandOk(c: Controller, id: nat, flight: Flight)
    requires Base(c, id) && FlightOk(c.provisioner, id, flight) && id < c.nextId
    ensures Inv(Land(c, id, flight))
  {
    hide FlightOk, HeldByTransition, EvidenceOk;
    var next := Land(c, id, flight);
    SameEvidence(c, next);
  }

  lemma InvGivesBase(c: Controller, id: nat)
    requires Inv(c)
    ensures Base(c, id)
  {
    hide FlightOk, TransitionsOk, EvidenceOk;
  }

  // ---------- The stretches ----------

  lemma MarkKeepsBase(c: Controller, id: nat, activation: nat)
    requires Base(c, id)
    ensures Base(MarkInactiveIfCurrent(c, activation), id)
  {
    hide FlightOk, HeldByTransition;
  }

  lemma StartManagedOk(c: Controller, id: nat, managed: Managed, r: Resolution)
    requires Base(c, id) && id < c.nextId && ManagedOk(c.provisioner, id, managed)
    ensures Inv(StartManaged(c, id, managed, r))
  {
    hide Base, Inv, HeldByReconciliation, HeldByTransition, StoreReason;
    if !c.storeProvisioned && r.initialized {
      LandOk(c, id, Returned(managed.owner, Threw(StoreReason(c))));
    } else {
      LandOk(c, id, Applying(managed, if !c.storeProvisioned then Unprovisioned else if !r.target then NoTarget
          else Group));
    }
  }

  lemma FailManagedOk(c: Controller, id: nat, managed: Managed, reason: Reason, mark: bool)
    requires Base(c, id) && id < c.nextId && ManagedOk(c.provisioner, id, managed)
    ensures Inv(FailManaged(c, id, managed, reason, mark))
  {
    hide Base, Inv, HeldByReconciliation, HeldByTransition, RevokeCurrent;
    MarkKeepsBase(c, id, managed.activation);
    var marked := if mark then MarkInactiveIfCurrent(c, managed.activation) else c;
    RevokeKeepsBase(marked, id, managed.epoch, reason);
    RevokeKeepsIds(marked, managed.epoch, reason);
    var revoked := if managed.publish then RevokeCurrent(marked, managed.epoch, reason) else marked;
    LandOk(revoked, id, Returned(managed.owner, Failed(reason)));
  }

  lemma RevokeKeepsIds(c: Controller, epoch: nat, reason: Reason)
    ensures RevokeCurrent(c, epoch, reason).nextId == c.nextId
    ensures RevokeCurrent(c, epoch, reason).flights == c.flights
  {
  }

  lemma PublishKeepsIds(c: Controller, epoch: nat, ruleCount: int)
    ensures PublishCurrent(c, epoch, ruleCount).nextId == c.nextId
    ensures PublishCurrent(c, epoch, ruleCount).activationEpoch == c.activationEpoch
  {
  }

  lemma EndApplyingOk(c: Controller, id: nat, managed: Managed, target: Target, r: Resolution)
    requires Base(c, id) && id < c.nextId && ManagedOk(c.provisioner, id, managed)
    ensures Inv(EndApplying(c, id, managed, target, r))
  {
    hide Base, Inv, HeldByReconciliation, HeldByTransition, FailManaged, Land;
    MarkKeepsBase(c, id, managed.activation);
    if r.error.Some? || r.aborted {
      LandOk(c, id, Returned(managed.owner, Threw(if r.error.Some? then r.error.value else ProviderInactive)));
    } else if target.Unprovisioned? {
      LandOk(if r.applied then MarkInactiveIfCurrent(c, managed.activation) else c, id, Returned(managed.owner, Plain));
    } else if target.NoTarget? {
      FailManagedOk(c, id, managed, TargetChannelUnavailable, r.applied);
    } else if r.applied {
      LandOk(c, id, Verifying(managed));
    } else {
      FailManagedOk(c, id, managed, ProviderInactive, true);
    }
  }

  lemma ActivateKeepsBase(c: Controller, id: nat, managed: Managed, ruleCount: int)
    requires Base(c, id) && managed.activation == c.activationEpoch && Accepted(managed, ruleCount)
    ensures Base(Activate(c, managed, ruleCount), id)
  {
    hide FlightOk, HeldByTransition;
  }

  lemma EndVerifyingOk(c: Controller, id: nat, managed: Managed, r: Resolution)
    requires Base(c, id) && id < c.nextId && ManagedOk(c.provisioner, id, managed)
    ensures Inv(EndVerifying(c, id, managed, r))
  {
    hide Base, Inv, HeldByReconciliation, HeldByTransition, FailManaged, Land, PublishCurrent, IsCurrent, Activate,
      Accepted;
    var proven := Returned(managed.owner, Proven(r.ruleCount));
    if r.aborted {
      LandOk(c, id, Returned(managed.owner, Threw(ProviderInactive)));
    } else if r.error.Some? || !Accepted(managed, r.ruleCount) {
      FailManagedOk(c, id, managed, ProviderInactive, true);
    } else if managed.activation != c.activationEpoch {
      LandOk(c, id, proven);
    } else {
      ActivateKeepsBase(c, id, managed, r.ruleCount);
      ActivateKeepsIds(c, managed, r.ruleCount);
      if c.provisioner.mode.ReportMode? {
        LandOk(Activate(c, managed, r.ruleCount), id, proven);
      } else if managed.publish {
        PublishKeepsBase(c, id, managed.epoch, r.ruleCount);
        PublishKeepsIds(c, managed.epoch, r.ruleCount);
        var published := PublishCurrent(c, managed.epoch, r.ruleCount);
        ActivateKeepsBase(published, id, managed, r.ruleCount);
        ActivateKeepsIds(published, managed, r.ruleCount);
        LandOk(if IsCurrent(c.provisioner, managed.epoch) && ValidProof(r.ruleCount) then Activate(published, managed, r.ruleCount) else published,
               id, proven);
      } else {
        LandOk(if managed.epoch == c.provisioner.generation then Activate(c, managed, r.ruleCount) else c, id, proven);
      }
    }
  }

  lemma ActivateKeepsIds(c: Controller, managed: Managed, ruleCount: int)
    ensures Activate(c, managed, ruleCount).nextId == c.nextId
    ensures Activate(c, managed, ruleCount).provisioner == c.provisioner
  {
  }

  lemma RecoverConfigOk(c: Controller, id: nat, activation: nat, r: Resolution)
    requires Base(c, id) && id < c.nextId
    ensures Inv(RecoverConfig(c, id, activation, r))
  {
    hide Base, Inv, StartManaged, Land;
    if !c.storeProvisioned && r.initialized {
      LandOk(c, id, Done);
    } else {
      StartManagedOk(c, id, Managed(ByRecovery, false, c.provisioner.generation, c.now, None, activation), r);
    }
  }

  /** Fields outside the invariant. */
  lemma StoreFieldsKeepBase(c: Controller, next: Controller, id: nat)
    requires Base(c, id) && next.provisioner == c.provisioner && next.transitions == c.transitions
    requires next.flights == c.flights
    requires next.evidence == c.evidence && next.activationEpoch == c.activationEpoch
    requires next.managedProviderActive == c.managedProviderActive
    requires next.now == c.now && next.nextId == c.nextId
    ensures Base(next, id)
  {
    hide FlightOk, HeldByTransition;
  }

  lemma EnterReconciliationOk(c: Controller, id: nat, generation: nat, activation: nat)
    requires Base(c, id) && id < c.nextId && c.provisioner.mode.ApplyMode?
    ensures Inv(EnterReconciliation(c, id, generation, activation))
  {
    hide Base, Inv, Land;
    var noted := c.(provisioningResult := false, reconciliationActive := true,
        reconciliationActivation := Some(activation));
    StoreFieldsKeepBase(c, noted, id);
    var next := StartReconciliation(c.provisioner, id, c.now);
    MovesKeepBase(noted, next, id);
    LandOk(noted.(provisioner := next), id, ProvisionQueued(generation, activation, next.generation, c.now));
  }

  lemma FinishKeepsBase(c: Controller, id: nat, epoch: nat, takenAt: nat, outcome: Result<int, Reason>)
    requires Base(c, id) && HeldByReconciliation(c.provisioner, id, epoch, takenAt)
    ensures Base(c.(provisioner := FinishReconciliation(c.provisioner, epoch, outcome, c.now)), id)
  {
    hide TransitionsOk, FlightOk, EvidenceOk;
    var next := FinishReconciliation(c.provisioner, epoch, outcome, c.now);
    MovesKeepBase(c, next, id);
  }

  lemma ProvisionStagesOk(c: Controller, id: nat, flight: Flight, r: Resolution)
    requires Base(c, id) && id < c.nextId && FlightOk(c.provisioner, id, flight)
    requires flight.ProvisionQueued? || flight.Provisioning? || flight.Provisioned? || flight.ProvisionFailed?
    ensures Inv(ResolveFlight(c, id, flight, r))
  {
    hide Base, Inv, Land, StartManaged, FinishReconciliation, HeldByReconciliation;
    if flight.ProvisionQueued? {
      StoreFieldsKeepBase(c, c.(storeProvisioned := false, expectedRuleCount := None), id);
      LandOk(c, id, ProvisionEnded(flight.generation, flight.activation, r.aborted));
      LandOk(c.(storeProvisioned := false, expectedRuleCount := None), id,
             Provisioning(flight.generation, flight.activation, flight.epoch, flight.takenAt));
    } else if flight.Provisioning? {
      StoreFieldsKeepBase(c, c.(storeProvisioned := true, expectedRuleCount := Some(r.ruleCount)), id);
      LandOk(c, id, ProvisionEnded(flight.generation, flight.activation, true));
      if r.error.Some? {
        LandOk(c, id, ProvisionFailed(flight.generation, flight.activation, flight.epoch, flight.takenAt,
            r.error.value));
      }
      LandOk(c.(storeProvisioned := true, expectedRuleCount := Some(r.ruleCount)), id,
             Provisioned(flight.generation, flight.activation, flight.epoch, flight.takenAt));
    } else if flight.Provisioned? {
      ForceApplyOk(c, id, flight, r);
    } else {
      FinishKeepsBase(c, id, flight.epoch, flight.takenAt, Err(flight.reason));
      LandOk(c.(provisioner := FinishReconciliation(c.provisioner, flight.epoch, Err(flight.reason), c.now)), id,
             ProvisionEnded(flight.generation, flight.activation, false));
    }
  }

  lemma ForceApplyOk(c: Controller, id: nat, flight: Flight, r: Resolution)
    requires Base(c, id) && id < c.nextId && FlightOk(c.provisioner, id, flight) && flight.Provisioned?
    ensures Inv(ForceApply(c, id, flight, r))
  {
    hide Base, Inv, Land, StartManaged, HeldByReconciliation;
    var owner := ByReconciliation(flight.generation, flight.activation, flight.epoch, flight.takenAt);
    LandOk(c, id, ProvisionEnded(flight.generation, flight.activation, false));
    LandOk(c, id, Returned(owner, Threw(ProviderInactive)));
    var activation := if c.reconciliationActivation.Some? then c.reconciliationActivation.value else c.activationEpoch;
    StartManagedOk(c, id, Managed(owner, false, c.provisioner.generation, c.now, c.expectedRuleCount, activation), r);
  }

  lemma EndReconciliationOk(c: Controller, id: nat, owner: Owner, outcome: Outcome, r: Resolution)
    requires Base(c, id) && id < c.nextId && owner.ByReconciliation? && OwnerOk(c.provisioner, id, owner)
    ensures Inv(EndReconciliation(c, id, owner, outcome, r))
  {
    hide Base, Inv, Land, FinishReconciliation, ReconciliationResult;
    var noted := c.(provisioningResult := c.provisioningResult || !outcome.Threw?);
    StoreFieldsKeepBase(c, noted, id);
    LandOk(noted, id, ProvisionEnded(owner.generation, owner.activation, true));
    FinishKeepsBase(noted, id, owner.epoch, owner.takenAt, ReconciliationResult(outcome));
    LandOk(noted.(provisioner := FinishReconciliation(c.provisioner, owner.epoch, ReconciliationResult(outcome), c.now)), id,
           ProvisionEnded(owner.generation, owner.activation, false));
  }

  lemma LeaveReconciliationOk(c: Controller, id: nat, flight: Flight, r: Resolution)
    requires Base(c, id) && id < c.nextId && flight.ProvisionEnded?
    ensures Inv(LeaveReconciliation(c, id, flight, r))
  {
    hide Base, Inv, Land, RecoverConfig;
    var left := c.(reconciliationActive := false, reconciliationActivation := None);
    StoreFieldsKeepBase(c, left, id);
    LandOk(left, id, Done);
    RecoverConfigOk(left, id, flight.activation, r);
  }

  lemma EnterTransitionOk(c: Controller, id: nat, transition: nat, expected: Option<int>, r: Resolution)
    requires Base(c, id) && id < c.nextId && transition in c.transitions
    ensures Inv(EnterTransition(c, id, transition, expected, r))
  {
    hide Inv, Land, StartManaged, FlightOk, HeldByTransition, EvidenceOk;
    var held := c.transitions[transition];
    var managed := Managed(ByTransition(transition), true, held.epoch, held.takenAt,
                           if expected.Some? then expected else c.expectedRuleCount, held.activation);
    if r.error.Some? {
      ReturnedOk(c.provisioner, id, ByTransition(transition), Threw(r.error.value));
      LandOk(c, id, Returned(ByTransition(transition), Threw(r.error.value)));
    } else {
      StoreFieldsKeepBase(c, c.(active := Some(transition)), id);
      StartManagedOk(c.(active := Some(transition)), id, managed, r);
    }
  }

  lemma ReturnedOk(p: Provisioner, id: nat, owner: Owner, outcome: Outcome)
    requires OwnerOk(p, id, owner)
    ensures FlightOk(p, id, Returned(owner, outcome))
  {
  }

  lemma EndTransitionOk(c: Controller, id: nat, transition: nat, outcome: Outcome, r: Resolution)
    requires Base(c, id) && id < c.nextId && transition in c.transitions
    ensures Inv(EndTransition(c, id, transition, outcome, r))
  {
    hide Base, Inv, Land, RevokeCurrent;
    var revoked :=
      if outcome.Threw? then RevokeCurrent(c, c.transitions[transition].epoch, outcome.reason)
      else if r.error.Some? then RevokeCurrent(c, c.transitions[transition].epoch, r.error.value)
      else c;
    if outcome.Threw? {
      RevokeKeepsBase(c, id, c.transitions[transition].epoch, outcome.reason);
      RevokeKeepsIds(c, c.transitions[transition].epoch, outcome.reason);
    } else if r.error.Some? {
      RevokeKeepsBase(c, id, c.transitions[transition].epoch, r.error.value);
      RevokeKeepsIds(c, c.transitions[transition].epoch, r.error.value);
    }
    StoreFieldsKeepBase(revoked, revoked.(active := None), id);
    LandOk(revoked, id, Done);
    LandOk(revoked.(active := None), id, Done);
  }

  lemma EndReturnedOk(c: Controller, id: nat, owner: Owner, outcome: Outcome, r: Resolution)
    requires Base(c, id) && id < c.nextId && OwnerOk(c.provisioner, id, owner)
    ensures Inv(EndReturned(c, id, owner, outcome, r))
  {
    hide Base, Inv, Land, RevokeCurrent, EndReconciliation, EndTransition, OwnerOk;
    LandOk(c, id, Done);
    match owner
    case ByReconciliation(_, _, _, _) => EndReconciliationOk(c, id, owner, outcome, r);
    case ByRecovery =>
    case ByTransition(transition) => if transition in c.transitions { EndTransitionOk(c, id, transition, outcome, r); }
    case ByCaller(epoch) =>
      if outcome.Threw? {
        RevokeKeepsBase(c, id, epoch, outcome.reason);
        RevokeKeepsIds(c, epoch, outcome.reason);
        LandOk(RevokeCurrent(c, epoch, outcome.reason), id, Done);
      }
  }

  lemma ReconcileStagesOk(c: Controller, id: nat, flight: Flight, r: Resolution)
    requires Base(c, id) && id < c.nextId && (flight.ReconcileQueued? || flight.ReconcileWaiting? || flight.Inspecting?)
    ensures Inv(ResolveFlight(c, id, flight, r))
  {
    hide Base, Inv, Land, EnterReconciliation, RecoverConfig, Superseded;
    LandOk(c, id, Done);
    if flight.ReconcileQueued? {
      MarkKeepsBase(c, id, flight.activation);
      LandOk(MarkInactiveIfCurrent(c, flight.activation), id, ReconcileWaiting(flight.generation, flight.activation));
    } else if flight.ReconcileWaiting? {
      LandOk(c, id, Inspecting(flight.generation, flight.activation));
      if c.provisioner.mode.ApplyMode? {
        EnterReconciliationOk(c, id, flight.generation, flight.activation);
      }
    } else {
      StoreFieldsKeepBase(c, c.(storeProvisioned := r.inspected.Some?, expectedRuleCount := r.inspected), id);
      RecoverConfigOk(c.(storeProvisioned := r.inspected.Some?, expectedRuleCount := r.inspected), id,
          flight.activation, r);
    }
  }

  lemma ResolveKeeps(c: Controller, id: nat, r: Resolution)
    requires Inv(c) && id in c.flights
    ensures Inv(ResolveFlight(c, id, c.flights[id], r))
  {
    InvGivesBase(c, id);
    var flight := c.flights[id];
    assert FlightOk(c.provisioner, id, flight) && id < c.nextId;
    hide Base, Inv, ResolveFlight;
    match flight
    case ReconcileQueued(_, _) => ReconcileStagesOk(c, id, flight, r);
    case ReconcileWaiting(_, _) => ReconcileStagesOk(c, id, flight, r);
    case Inspecting(_, _) => ReconcileStagesOk(c, id, flight, r);
    case ProvisionQueued(_, _, _, _) => ProvisionStagesOk(c, id, flight, r);
    case Provisioning(_, _, _, _) => ProvisionStagesOk(c, id, flight, r);
    case Provisioned(_, _, _, _) => ProvisionStagesOk(c, id, flight, r);
    case ProvisionFailed(_, _, _, _, _) => ProvisionStagesOk(c, id, flight, r);
    case _ => OtherStagesOk(c, id, flight, r);
  }

  lemma OtherStagesOk(c: Controller, id: nat, flight: Flight, r: Resolution)
    requires Inv(c) && Base(c, id) && id in c.flights && c.flights[id] == flight && id < c.nextId
    requires FlightOk(c.provisioner, id, flight)
    requires flight.ProvisionEnded? || flight.TransitionWaiting? || flight.Applying? || flight.Verifying?
      || flight.Returned? || flight.Done?
    ensures Inv(ResolveFlight(c, id, flight, r))
  {
    hide Base, Inv, LeaveReconciliation, EnterTransition, EndApplying, EndVerifying, EndReturned, Land;
    LandOk(c, id, Done);
    match flight
    case ProvisionEnded(_, _, _) => LeaveReconciliationOk(c, id, flight, r);
    case TransitionWaiting(transition, expected) => if transition in c.transitions { EnterTransitionOk(c, id,
        transition, expected, r); }
    case Applying(managed, target) => EndApplyingOk(c, id, managed, target, r);
    case Verifying(managed) => EndVerifyingOk(c, id, managed, r);
    case Returned(owner, outcome) => EndReturnedOk(c, id, owner, outcome, r);
    case Done =>
  }

  // ---------- Calls and runs ----------

  lemma RevokeCallKeeps(c: Controller, next: Controller, reason: Reason)
    requires Inv(c) && next == c.(provisioner := Revoke(c.provisioner, reason, c.now))
    ensures Inv(next) && Base(next, c.nextId)
  {
    hide TransitionsOk, FlightOk, EvidenceOk, HeldByTransition;
    InvGivesBase(c, c.nextId);
    MovesKeepBase(c, next.provisioner, c.nextId);
  }

  /** A new activation epoch begins with an inactive provider. */
  lemma NewActivationKeeps(c: Controller, next: Controller)
    requires Inv(c) && next.provisioner == c.provisioner && next.transitions == c.transitions
    requires next.flights == c.flights
    requires !next.managedProviderActive && next.now == c.now && c.nextId <= next.nextId
    ensures Inv(next) && Base(next, c.nextId)
  {
    hide FlightOk, HeldByTransition;
  }

  lemma InvalidateKeeps(c: Controller)
    requires Inv(c)
    ensures Inv(InvalidateCall(c))
  {
    hide Inv, Base, Revoke;
    var raised := c.(activationEpoch := c.activationEpoch + 1, managedProviderActive := false);
    NewActivationKeeps(c, raised);
    RevokeCallKeeps(raised, InvalidateCall(c), ProviderInactive);
  }

  lemma ReconcileKeeps(c: Controller)
    requires Inv(c)
    ensures Inv(ReconcileCall(c))
  {
    hide Inv, Base, Revoke, Land;
    var raised := c.(reconciliationGeneration := c.reconciliationGeneration + 1,
        activationEpoch := c.activationEpoch + 1,
                     managedProviderActive := false);
    NewActivationKeeps(c, raised);
    var revoked := raised.(provisioner := Revoke(raised.provisioner, StoreUnavailable, raised.now));
    RevokeCallKeeps(raised, revoked, StoreUnavailable);
    var numbered := revoked.(nextId := c.nextId + 1);
    LaterIds(revoked, numbered);
    LandOk(numbered, c.nextId, ReconcileQueued(revoked.reconciliationGeneration, revoked.activationEpoch));
  }

  lemma LaterIds(c: Controller, next: Controller)
    requires Base(c, c.nextId) && next == c.(nextId := c.nextId + 1)
    ensures Base(next, c.nextId)
  {
    hide FlightOk, HeldByTransition, EvidenceOk;
    SameEvidence(c, next);
  }

  /** Reserving a generation for a transition. */
  lemma ReserveKeepsBase(c: Controller, id: nat)
    requires Base(c, id)
    ensures Base(c.(provisioner := Reserve(c.provisioner)), id)
    ensures HeldByTransition(Reserve(c.provisioner), Reserve(c.provisioner).generation, c.now)
  {
    hide TransitionsOk, FlightOk, EvidenceOk;
    MovesKeepBaseOrSame(c, Reserve(c.provisioner), id);
  }

  lemma MovesKeepBaseOrSame(c: Controller, next: Provisioner, id: nat)
    requires Base(c, id) && (Moves(c.provisioner, next, id) || next == c.provisioner) && next.revokedAt <= c.now
    ensures Base(c.(provisioner := next), id)
  {
    hide TransitionsOk, FlightOk, EvidenceOk, Moves;
    if next == c.provisioner {
      assert c.(provisioner := next) == c;
    } else {
      MovesKeepBase(c, next, id);
    }
  }

  lemma CoordinateKeeps(c: Controller, expected: Option<int>)
    requires Inv(c)
    ensures Inv(CoordinateCall(c, expected))
  {
    hide FlightOk, EvidenceOk, HeldByTransition, Land;
    var raised := c.(managedProviderActive := false, activationEpoch := c.activationEpoch + 1);
    NewActivationKeeps(c, raised);
    ReserveKeepsBase(raised, c.nextId);
    var reserved := raised.(provisioner := Reserve(c.provisioner));
    LaterIds(reserved, reserved.(nextId := c.nextId + 1));
    var held := Transition(reserved.provisioner.generation, c.now, c.activationEpoch + 1);
    var extended := reserved.(nextId := c.nextId + 1, transitions := c.transitions[c.nextId := held]);
    SameEvidence(reserved, extended);
    TransitionAdded(reserved.(nextId := c.nextId + 1), extended, c.nextId, held);
    WaitingOk(extended.provisioner, c.nextId, expected);
    LandOk(extended, c.nextId, TransitionWaiting(c.nextId, expected));
  }

  lemma WaitingOk(p: Provisioner, id: nat, expected: Option<int>)
    ensures FlightOk(p, id, TransitionWaiting(id, expected))
  {
  }

  lemma TransitionAdded(c: Controller, next: Controller, id: nat, held: Transition)
    requires Base(c, id) && HeldByTransition(c.provisioner, held.epoch, held.takenAt)
    requires next == c.(transitions := c.transitions[id := held])
    ensures Base(next, id)
  {
    hide FlightOk, EvidenceOk, HeldByTransition;
    SameEvidence(c, next);
  }

  lemma ApplyCurrentKeeps(c: Controller, r: Resolution)
    requires Inv(c)
    ensures Inv(ApplyCurrentCall(c, r))
  {
    hide FlightOk, EvidenceOk, HeldByTransition, StartManaged;
    var inactive := c.(managedProviderActive := false, nextId := c.nextId + 1);
    NewActivationKeeps(c, inactive);
    if c.active.Some? && c.active.value in c.transitions {
      var held := c.transitions[c.active.value];
      StartManagedOk(inactive, c.nextId,
          Managed(ByCaller(held.epoch), true, held.epoch, held.takenAt, c.expectedRuleCount, held.activation), r);
    } else {
      var raised := inactive.(activationEpoch := c.activationEpoch + 1);
      NewActivationKeeps(c, raised);
      ReserveKeepsBase(raised, c.nextId);
      var reserved := Reserve(c.provisioner);
      StartManagedOk(raised.(provisioner := reserved), c.nextId,
        Managed(ByCaller(reserved.generation), true, reserved.generation, c.now, c.expectedRuleCount,
            c.activationEpoch + 1), r);
    }
  }

  lemma ClockKeeps(c: Controller)
    requires Inv(c)
    ensures Inv(c.(now := c.now + 1))
  {
    hide FlightOk, HeldByTransition;
  }

  /** Every event keeps the invariant, whatever is in flight. */
  lemma StepKeeps(before: Controller, event: Event)
    requires Inv(before)
    ensures Inv(Step(before, event))
  {
    hide Inv, Base, InvalidateCall, ReconcileCall, CoordinateCall, ApplyCurrentCall, ResolveFlight, Revoke;
    ClockKeeps(before);
    var c := before.(now := before.now + 1);
    match event
    case Invalidate => InvalidateKeeps(c);
    case RevokeCall(reason) => RevokeCallKeeps(c, c.(provisioner := Revoke(c.provisioner, reason, c.now)), reason);
    case Reconcile => ReconcileKeeps(c);
    case Coordinate(expected) => CoordinateKeeps(c, expected);
    case ActivateCommitted(ruleCount) =>
      ExpectedKeeps(c, ruleCount);
      CoordinateKeeps(c.(expectedRuleCount := Some(ruleCount)), Some(ruleCount));
    case ApplyCurrent(r) => ApplyCurrentKeeps(c, r);
    case Resolve(flight, r) => if flight in c.flights { ResolveKeeps(c, flight, r); }
  }

  lemma ExpectedKeeps(c: Controller, ruleCount: int)
    requires Inv(c)
    ensures Inv(c.(expectedRuleCount := Some(ruleCount)))
  {
    hide FlightOk, HeldByTransition;
  }

  lemma {:induction false} RunKeeps(c: Controller, events: seq<Event>)
    requires Inv(c)
    ensures Inv(Run(c, events))
    decreases |events|
  {
    hide Inv, Step;
    if events != [] {
      StepKeeps(c, events[0]);
      RunKeeps(Step(c, events[0]), events[1..]);
    }
  }

  // ---------- Capability fencing ----------

  /** A valid proof from a holder of the current generation who took it no earlier than the last withdrawal. */
  predicate FreshProof(c: Controller, event: Event) {
    event.Resolve? && event.flight in c.flights &&
    (FreshTransition(c, c.flights[event.flight], event.resolution) || FreshReconciliation(c, c.flights[event.flight]))
  }

  predicate FreshTransition(c: Controller, flight: Flight, r: Resolution) {
    && flight.Verifying? && flight.managed.publish && flight.managed.epoch == c.provisioner.generation
    && c.provisioner.revokedAt <= flight.managed.takenAt && ValidProof(r.ruleCount)
    && Accepted(flight.managed, r.ruleCount)
  }

  predicate FreshReconciliation(c: Controller, flight: Flight) {
    && flight.Returned? && flight.owner.ByReconciliation? && flight.owner.epoch == c.provisioner.generation
    && c.provisioner.revokedAt <= flight.owner.takenAt && flight.outcome.Proven? && ValidProof(flight.outcome.ruleCount)
  }

  predicate BecomesReady(c: Controller, next: Controller) {
    !c.provisioner.capability.Ready? && next.provisioner.capability.Ready?
  }

  lemma ApplyingNeverGrants(c: Controller, id: nat, managed: Managed, target: Target, r: Resolution)
    ensures !BecomesReady(c, EndApplying(c, id, managed, target, r))
    ensures !managed.publish || managed.epoch != c.provisioner.generation ==>
      EndApplying(c, id, managed, target, r).provisioner == c.provisioner
    ensures managed.activation != c.activationEpoch ==>
      EndApplying(c, id, managed, target, r).managedProviderActive == c.managedProviderActive
  {
    hide Land, FailManaged, MarkInactiveIfCurrent;
  }

  lemma VerifyingGrants(c: Controller, id: nat, managed: Managed, r: Resolution)
    ensures BecomesReady(c, EndVerifying(c, id, managed, r)) ==>
      managed.publish && managed.epoch == c.provisioner.generation && ValidProof(r.ruleCount) && Accepted(managed,
          r.ruleCount)
    ensures managed.publish && managed.epoch != c.provisioner.generation ==>
      EndVerifying(c, id, managed, r).provisioner == c.provisioner
    ensures managed.activation != c.activationEpoch ==>
      EndVerifying(c, id, managed, r).managedProviderActive == c.managedProviderActive
  {
    hide Land, FailManaged;
  }

  lemma OnlyApplyModeGrants(c: Controller, id: nat, managed: Managed, r: Resolution)
    ensures BecomesReady(c, EndVerifying(c, id, managed, r)) ==> c.provisioner.mode.ApplyMode?
  {
    hide Land, FailManaged;
  }

  lemma ReturnedGrants(c: Controller, id: nat, owner: Owner, outcome: Outcome, r: Resolution)
    ensures BecomesReady(c, EndReturned(c, id, owner, outcome, r)) ==>
      owner.ByReconciliation? && owner.epoch == c.provisioner.generation && outcome.Proven? && ValidProof(outcome.ruleCount)
    ensures HolderEpoch(c, Returned(owner, outcome)).Some? && HolderEpoch(c, Returned(owner, outcome)).value != c.provisioner.generation ==>
      EndReturned(c, id, owner, outcome, r).provisioner == c.provisioner
  {
    hide Land, RevokeCurrent;
  }

  lemma OthersNeverGrant(c: Controller, id: nat, flight: Flight, r: Resolution)
    requires !flight.Applying? && !flight.Verifying? && !flight.Returned?
    ensures !BecomesReady(c, ResolveFlight(c, id, flight, r))
    ensures flight.ProvisionFailed? && flight.epoch != c.provisioner.generation ==>
      ResolveFlight(c, id, flight, r).provisioner == c.provisioner
  {
    hide Land, StartManaged, RecoverConfig, StartProvisioning, EndProvisioning, ForceApply, LeaveReconciliation,
      EnterTransition, MarkInactiveIfCurrent;
  }

  lemma OnlyProofsGrant(c: Controller, id: nat, r: Resolution)
    requires Inv(c) && id in c.flights && BecomesReady(c, ResolveFlight(c, id, c.flights[id], r))
    ensures FreshProof(c, Resolve(id, r))
  {
    var flight := c.flights[id];
    assert FlightOk(c.provisioner, id, flight);
    hide Inv, BecomesReady, EndApplying, EndVerifying, EndReturned;
    match flight
    case Applying(managed, target) => ApplyingNeverGrants(c, id, managed, target, r);
    case Verifying(managed) =>
      VerifyingGrants(c, id, managed, r);
      assert managed.publish ==> HeldByTransition(c.provisioner, managed.epoch, managed.takenAt);
      OnlyApplyModeGrants(c, id, managed, r);
    case Returned(owner, outcome) => ReturnedGrants(c, id, owner, outcome, r);
    case _ => OthersNeverGrant(c, id, flight, r);
  }

  lemma CallsNeverGrant(c: Controller, event: Event)
    requires !event.Resolve?
    ensures !BecomesReady(c, Step(c, event))
  {
  }

  /**
   In every run the capability becomes ready only through a valid proof whose holder took its epoch at or after the
   last withdrawal.
   */
  lemma ReadyOnlyByFreshProof(mode: Mode, events: seq<Event>, event: Event)
    ensures var c := Run(Start(mode), events);
      BecomesReady(c, Step(c, event)) ==> FreshProof(c.(now := c.now + 1), event)
  {
    hide Inv, Run, ResolveFlight;
    StartInv(mode);
    RunKeeps(Start(mode), events);
    var c := Run(Start(mode), events);
    if BecomesReady(c, Step(c, event)) {
      ClockKeeps(c);
      if event.Resolve? && event.flight in c.flights {
        OnlyProofsGrant(c.(now := c.now + 1), event.flight, event.resolution);
      } else if !event.Resolve? {
        CallsNeverGrant(c, event);
      }
    }
  }

  /** The capability epoch a flight acts under, if it acts on the capability at all. */
  function HolderEpoch(c: Controller, flight: Flight): Option<nat> {
    match flight
    case Applying(managed, _) => if managed.publish then Some(managed.epoch) else None
    case Verifying(managed) => if managed.publish then Some(managed.epoch) else None
    case ProvisionFailed(_, _, epoch, _, _) => Some(epoch)
    case Returned(owner, _) =>
      (match owner
       case ByReconciliation(_, _, epoch, _) => Some(epoch)
       case ByTransition(transition) => if transition in c.transitions then Some(c.transitions[transition].epoch)
           else None
       case ByCaller(epoch) => Some(epoch)
       case ByRecovery => None)
    case _ => None
  }

  /** A holder whose epoch is not the current generation changes nothing of the capability. */
  lemma StaleHolderChangesNothing(c: Controller, id: nat, r: Resolution)
    requires id in c.flights && HolderEpoch(c, c.flights[id]).Some?
    requires HolderEpoch(c, c.flights[id]).value != c.provisioner.generation
    ensures ResolveFlight(c, id, c.flights[id], r).provisioner == c.provisioner
  {
    hide EndApplying, EndVerifying, EndReturned, HolderEpoch;
    var flight := c.flights[id];
    HolderOf(c, flight);
    match flight
    case Applying(managed, target) => ApplyingNeverGrants(c, id, managed, target, r);
    case Verifying(managed) => VerifyingGrants(c, id, managed, r);
    case Returned(owner, outcome) => ReturnedGrants(c, id, owner, outcome, r);
    case ProvisionFailed(_, _, _, _, _) => OthersNeverGrant(c, id, flight, r);
    case _ =>
  }

  lemma HolderOf(c: Controller, flight: Flight)
    ensures HolderEpoch(c, flight).Some? ==>
      flight.Applying? || flight.Verifying? || flight.Returned? || flight.ProvisionFailed?
    ensures flight.Applying? && HolderEpoch(c, flight).Some? ==> HolderEpoch(c, flight) == Some(flight.managed.epoch)
    ensures flight.Verifying? && HolderEpoch(c, flight).Some? ==>
      flight.managed.publish && HolderEpoch(c, flight) == Some(flight.managed.epoch)
    ensures flight.ProvisionFailed? ==> HolderEpoch(c, flight) == Some(flight.epoch)
  {
  }

  // ---------- Activation fencing ----------

  /**
   In every run an active managed provider was proven under the current activation epoch, with the expected rule count.
   */
  lemma ActiveMeansProven(mode: Mode, events: seq<Event>)
    ensures var c := Run(Start(mode), events);
      c.managedProviderActive ==>
        (&& c.evidence.Some? && c.evidence.value.activation == c.activationEpoch
         && (c.evidence.value.expected.Some? ==> c.evidence.value.ruleCount == c.evidence.value.expected.value))
  {
    hide Run, TransitionsOk, FlightOk;
    StartInv(mode);
    RunKeeps(Start(mode), events);
  }

  /** Nothing that runs under an older activation epoch touches the managed provider's activity. */
  lemma StaleActivationChangesNothing(c: Controller, id: nat, r: Resolution)
    requires id in c.flights && (c.flights[id].Applying? || c.flights[id].Verifying?)
    requires c.flights[id].managed.activation != c.activationEpoch
    ensures ResolveFlight(c, id, c.flights[id], r).managedProviderActive == c.managedProviderActive
  {
    hide EndApplying, EndVerifying;
    match c.flights[id]
    case Applying(managed, target) => ApplyingNeverGrants(c, id, managed, target, r);
    case Verifying(managed) => VerifyingGrants(c, id, managed, r);
  }
}
