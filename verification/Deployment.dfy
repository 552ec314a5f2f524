/**
 The deployment controller: reconciliations, coordinated config applies and invalidations whose stretches between
 awaits interleave in any order. Epochs decide whose result may still count.
 */
module Deployment {
  import opened Wrappers
  import opened Provisioning

  /** Who waits for a managed config apply. */
  datatype Owner =
    | ByReconciliation(generation: nat, activation: nat, epoch: nat, takenAt: nat)
    | ByRecovery
    | ByTransition(transition: nat)
    | ByCaller(epoch: nat)

  /** The arguments of `applyManagedConfig`. `takenAt` is when the capability epoch was taken. */
  datatype Managed = Managed(owner: Owner, publish: bool, epoch: nat, takenAt: nat, expected: Option<int>,
      activation: nat)

  datatype Outcome = Proven(ruleCount: int) | Failed(reason: Reason) | Plain | Threw(reason: Reason)

  datatype Target = Unprovisioned | NoTarget | Group

  /** An asynchronous call and the await it is at. */
  datatype Flight =
    | ReconcileQueued(generation: nat, activation: nat)
    | ReconcileWaiting(generation: nat, activation: nat)
    | Inspecting(generation: nat, activation: nat)
    | ProvisionQueued(generation: nat, activation: nat, epoch: nat, takenAt: nat)
    | Provisioning(generation: nat, activation: nat, epoch: nat, takenAt: nat)
    | Provisioned(generation: nat, activation: nat, epoch: nat, takenAt: nat)
    | ProvisionFailed(generation: nat, activation: nat, epoch: nat, takenAt: nat, reason: Reason)
    | ProvisionEnded(generation: nat, activation: nat, threw: bool)
    | TransitionWaiting(transition: nat, expected: Option<int>)
    | Applying(managed: Managed, target: Target)
    | Verifying(managed: Managed)
    | Returned(owner: Owner, outcome: Outcome)
    | Done

  /** A transition's own epochs; the capability epoch moves on when the transition itself changes the capability. */
  datatype Transition = Transition(epoch: nat, takenAt: nat, activation: nat)

  /** What made the managed provider count as active. */
  datatype Evidence = Evidence(activation: nat, ruleCount: int, expected: Option<int>)

  datatype Controller = Controller(
    provisioner: Provisioner,
    activationEpoch: nat,
    managedProviderActive: bool,
    evidence: Option<Evidence>,
    storeProvisioned: bool,
    expectedRuleCount: Option<int>,
    active: Option<nat>,
    transitions: map<nat, Transition>,
    reconciliationGeneration: nat,
    reconciliationActive: bool,
    reconciliationActivation: Option<nat>,
    provisioningResult: bool,
    flights: map<nat, Flight>,
    nextId: nat,
    now: nat)

  /** How the awaited call ends, and what the deployment looks like then. */
  datatype Resolution = Resolution(
    aborted: bool, error: Option<Reason>, initialized: bool, target: bool, applied: bool, ruleCount: int,
    inspected: Option<int>)

  datatype Event =
    | Invalidate
    | RevokeCall(reason: Reason)
    | Reconcile
    | Coordinate(expected: Option<int>)
    | ActivateCommitted(ruleCount: int)
    | ApplyCurrent(resolution: Resolution)
    | Resolve(flight: nat, resolution: Resolution)

  // ---------- Small stretches ----------

  /** Neither the capability nor the provider's activity changed. */
  predicate SameStanding(c: Controller, next: Controller) {
    next.provisioner == c.provisioner && next.managedProviderActive == c.managedProviderActive
  }

  function Land(c: Controller, id: nat, flight: Flight): (next: Controller)
    ensures SameStanding(c, next)
  {
    c.(flights := c.flights[id := flight])
  }

  function MarkInactiveIfCurrent(c: Controller, activation: nat): (next: Controller)
    ensures next.provisioner == c.provisioner
    ensures activation != c.activationEpoch ==> next == c
  {
    if activation == c.activationEpoch then c.(managedProviderActive := false) else c
  }

  /** After the transition's own change of the capability it holds the new generation. */
  function AdvanceActive(c: Controller, epoch: nat): Controller {
    if c.active.Some? && c.active.value in c.transitions && c.transitions[c.active.value].epoch == epoch then
      var moved := c.transitions[c.active.value].(epoch := c.provisioner.generation, takenAt := c.now);
      c.(transitions := c.transitions[c.active.value := moved], provisioner := c.provisioner.(issue := ToTransition))
    else c
  }

  function RevokeCurrent(c: Controller, epoch: nat, reason: Reason): (next: Controller)
    ensures next.managedProviderActive == c.managedProviderActive
    ensures epoch != c.provisioner.generation ==> next.provisioner == c.provisioner
    ensures !next.provisioner.capability.Ready? || next.provisioner.capability == c.provisioner.capability
  {
    if !IsCurrent(c.provisioner, epoch) then c
    else AdvanceActive(c.(provisioner := RevokeIfCurrent(c.provisioner, epoch, reason, c.now)), epoch)
  }

  function PublishCurrent(c: Controller, epoch: nat, ruleCount: int): Controller {
    var published := c.(provisioner := Publish(c.provisioner, epoch, ruleCount, c.now));
    if IsCurrent(c.provisioner, epoch) && ValidProof(ruleCount) then AdvanceActive(published, epoch) else published
  }

  function StoreReason(c: Controller): Reason {
    match c.provisioner.capability
    case Unavailable(reason) =>
      if reason.ProviderInactive? || reason.TargetChannelUnavailable? then StoreUnavailable else reason
    case _ => StoreUnavailable
  }

  // ---------- Applying the managed config ----------

  function StartManaged(c: Controller, id: nat, managed: Managed, r: Resolution): (next: Controller)
    ensures SameStanding(c, next)
  {
    if !c.storeProvisioned && r.initialized then Land(c, id, Returned(managed.owner, Threw(StoreReason(c))))
    else Land(c, id, Applying(managed, if !c.storeProvisioned then Unprovisioned else if !r.target then NoTarget
        else Group))
  }

  function FailManaged(c: Controller, id: nat, managed: Managed, reason: Reason, mark: bool): (next: Controller)
    ensures managed.activation != c.activationEpoch ==> next.managedProviderActive == c.managedProviderActive
    ensures !managed.publish || managed.epoch != c.provisioner.generation ==> next.provisioner == c.provisioner
    ensures !next.provisioner.capability.Ready? || next.provisioner.capability == c.provisioner.capability
  {
    var marked := if mark then MarkInactiveIfCurrent(c, managed.activation) else c;
    var revoked := if managed.publish then RevokeCurrent(marked, managed.epoch, reason) else marked;
    Land(revoked, id, Returned(managed.owner, Failed(reason)))
  }

  function EndApplying(c: Controller, id: nat, managed: Managed, target: Target, r: Resolution): Controller {
    if r.error.Some? || r.aborted then
      Land(c, id, Returned(managed.owner, Threw(if r.error.Some? then r.error.value else ProviderInactive)))
    else
      match target
      case Unprovisioned =>
        Land(if r.applied then MarkInactiveIfCurrent(c, managed.activation) else c, id, Returned(managed.owner, Plain))
      case NoTarget => FailManaged(c, id, managed, TargetChannelUnavailable, r.applied)
      case Group => if r.applied then Land(c, id, Verifying(managed))
          else FailManaged(c, id, managed, ProviderInactive, true)
  }

  /** The rule count is checked whenever one was expected. */
  predicate Accepted(managed: Managed, ruleCount: int) {
    managed.expected.Some? ==> ruleCount == managed.expected.value
  }

  function Activate(c: Controller, managed: Managed, ruleCount: int): Controller {
    c.(managedProviderActive := true, evidence := Some(Evidence(managed.activation, ruleCount, managed.expected)))
  }

  function EndVerifying(c: Controller, id: nat, managed: Managed, r: Resolution): Controller {
    if r.aborted then Land(c, id, Returned(managed.owner, Threw(ProviderInactive)))
    else if r.error.Some? || !Accepted(managed, r.ruleCount) then FailManaged(c, id, managed, ProviderInactive, true)
    else if managed.activation != c.activationEpoch then Land(c, id, Returned(managed.owner, Proven(r.ruleCount)))
    else if c.provisioner.mode.ReportMode? then Land(Activate(c, managed, r.ruleCount), id,
        Returned(managed.owner, Proven(r.ruleCount)))
    else if managed.publish then
      var published := PublishCurrent(c, managed.epoch, r.ruleCount);
      var accepted := IsCurrent(c.provisioner, managed.epoch) && ValidProof(r.ruleCount);
      Land(if accepted then Activate(published, managed, r.ruleCount)
          else published, id, Returned(managed.owner, Proven(r.ruleCount)))
    else
      Land(if managed.epoch == c.provisioner.generation then Activate(c, managed, r.ruleCount) else c, id,
           Returned(managed.owner, Proven(r.ruleCount)))
  }

  // ---------- Reconciliation ----------

  predicate Superseded(c: Controller, generation: nat, activation: nat) {
    generation != c.reconciliationGeneration || activation != c.activationEpoch
  }

  /** Applying the config once the store's state is known. */
  function RecoverConfig(c: Controller, id: nat, activation: nat, r: Resolution): (next: Controller)
    ensures SameStanding(c, next)
  {
    if !c.storeProvisioned && r.initialized then Land(c, id, Done)
    else StartManaged(c, id, Managed(ByRecovery, false, c.provisioner.generation, c.now, None, activation), r)
  }

  function EnterReconciliation(c: Controller, id: nat, generation: nat, activation: nat): Controller {
    var started := c.(
      provisioningResult := false, reconciliationActive := true, reconciliationActivation := Some(activation),
      provisioner := StartReconciliation(c.provisioner, id, c.now));
    Land(started, id, ProvisionQueued(generation, activation, started.provisioner.generation, c.now))
  }

  function StartProvisioning(c: Controller, id: nat, flight: Flight, r: Resolution): (next: Controller)
    requires flight.ProvisionQueued?
    ensures SameStanding(c, next)
  {
    if r.aborted then Land(c, id, ProvisionEnded(flight.generation, flight.activation, true))
    else if flight.epoch != c.provisioner.generation then Land(c, id,
        ProvisionEnded(flight.generation, flight.activation, false))
    else
      Land(c.(storeProvisioned := false, expectedRuleCount := None), id,
           Provisioning(flight.generation, flight.activation, flight.epoch, flight.takenAt))
  }

  function EndProvisioning(c: Controller, id: nat, flight: Flight, r: Resolution): (next: Controller)
    requires flight.Provisioning?
    ensures SameStanding(c, next)
  {
    if r.aborted then Land(c, id, ProvisionEnded(flight.generation, flight.activation, true))
    else if r.error.Some? then
      Land(c, id, ProvisionFailed(flight.generation, flight.activation, flight.epoch, flight.takenAt, r.error.value))
    else
      Land(c.(storeProvisioned := true, expectedRuleCount := Some(r.ruleCount)), id,
           Provisioned(flight.generation, flight.activation, flight.epoch, flight.takenAt))
  }

  function ForceApply(c: Controller, id: nat, flight: Flight, r: Resolution): (next: Controller)
    requires flight.Provisioned?
    ensures SameStanding(c, next)
  {
    var owner := ByReconciliation(flight.generation, flight.activation, flight.epoch, flight.takenAt);
    if flight.epoch != c.provisioner.generation then Land(c, id,
        ProvisionEnded(flight.generation, flight.activation, false))
    else if !c.reconciliationActive then Land(c, id, Returned(owner, Threw(ProviderInactive)))
    else
      var activation := if c.reconciliationActivation.Some? then c.reconciliationActivation.value
          else c.activationEpoch;
      StartManaged(c, id, Managed(owner, false, c.provisioner.generation, c.now, c.expectedRuleCount, activation), r)
  }

  function ReconciliationResult(outcome: Outcome): Result<int, Reason> {
    match outcome
    case Proven(ruleCount) => Ok(ruleCount)
    case Failed(reason) => Err(if reason.TargetChannelUnavailable? then reason else ProviderInactive)
    case Plain => Err(ProviderInactive)
    case Threw(reason) => Err(if reason.TargetChannelUnavailable? then reason else ProviderInactive)
  }

  function EndReconciliation(c: Controller, id: nat, owner: Owner, outcome: Outcome, r: Resolution): Controller
    requires owner.ByReconciliation?
  {
    var noted := c.(provisioningResult := c.provisioningResult || !outcome.Threw?);
    if r.aborted then Land(noted, id, ProvisionEnded(owner.generation, owner.activation, true))
    else
      Land(noted.(provisioner := FinishReconciliation(c.provisioner, owner.epoch, ReconciliationResult(outcome), c.now)), id,
           ProvisionEnded(owner.generation, owner.activation, false))
  }

  function LeaveReconciliation(c: Controller, id: nat, flight: Flight, r: Resolution): (next: Controller)
    requires flight.ProvisionEnded?
    ensures SameStanding(c, next)
  {
    var left := c.(reconciliationActive := false, reconciliationActivation := None);
    if flight.threw || r.aborted || flight.generation != c.reconciliationGeneration || c.provisioningResult then Land(left, id, Done)
    else RecoverConfig(left, id, flight.activation, r)
  }

  // ---------- Coordinated transitions ----------

  function EnterTransition(c: Controller, id: nat, transition: nat, expected: Option<int>,
      r: Resolution): (next: Controller)
    requires transition in c.transitions
    ensures SameStanding(c, next)
  {
    if r.error.Some? then Land(c, id, Returned(ByTransition(transition), Threw(r.error.value)))
    else
      var held := c.transitions[transition];
      var managed := Managed(ByTransition(transition), true, held.epoch, held.takenAt,
                             if expected.Some? then expected else c.expectedRuleCount, held.activation);
      StartManaged(c.(active := Some(transition)), id, managed, r)
  }

  /** The coordinated apply returned, or the coordinator failed around it. */
  function EndTransition(c: Controller, id: nat, transition: nat, outcome: Outcome, r: Resolution): Controller
    requires transition in c.transitions
  {
    var revoked :=
      if outcome.Threw? then RevokeCurrent(c, c.transitions[transition].epoch, outcome.reason)
      else if r.error.Some? then RevokeCurrent(c, c.transitions[transition].epoch, r.error.value)
      else c;
    Land(if c.active == Some(transition) then revoked.(active := None) else revoked, id, Done)
  }

  function EndReturned(c: Controller, id: nat, owner: Owner, outcome: Outcome, r: Resolution): Controller {
    match owner
    case ByReconciliation(_, _, _, _) => EndReconciliation(c, id, owner, outcome, r)
    case ByRecovery => Land(c, id, Done)
    case ByTransition(transition) => if transition in c.transitions then EndTransition(c, id, transition, outcome, r)
        else Land(c, id, Done)
    case ByCaller(epoch) => Land(if outcome.Threw? then RevokeCurrent(c, epoch, outcome.reason) else c, id, Done)
  }

  function ResolveFlight(c: Controller, id: nat, flight: Flight, r: Resolution): Controller {
    match flight
    case ReconcileQueued(generation, activation) =>
      if r.aborted || Superseded(c, generation, activation) then Land(c, id, Done)
      else Land(MarkInactiveIfCurrent(c, activation), id, ReconcileWaiting(generation, activation))
    case ReconcileWaiting(generation, activation) =>
      if r.aborted || Superseded(c, generation, activation) then Land(c, id, Done)
      else if c.provisioner.mode.ReportMode? then Land(c, id, Inspecting(generation, activation))
      else EnterReconciliation(c, id, generation, activation)
    case Inspecting(generation, activation) =>
      if r.aborted || r.error.Some? then Land(c, id, Done)
      else RecoverConfig(c.(storeProvisioned := r.inspected.Some?, expectedRuleCount := r.inspected), id, activation, r)
    case ProvisionQueued(_, _, _, _) => StartProvisioning(c, id, flight, r)
    case Provisioning(_, _, _, _) => EndProvisioning(c, id, flight, r)
    case Provisioned(_, _, _, _) => ForceApply(c, id, flight, r)
    case ProvisionFailed(generation, activation, epoch, _, reason) =>
      Land(c.(provisioner := FinishReconciliation(c.provisioner, epoch, Err(reason), c.now)), id,
          ProvisionEnded(generation, activation, false))
    case ProvisionEnded(_, _, _) => LeaveReconciliation(c, id, flight, r)
    case TransitionWaiting(transition, expected) =>
      if transition in c.transitions then EnterTransition(c, id, transition, expected, r) else Land(c, id, Done)
    case Applying(managed, target) => EndApplying(c, id, managed, target, r)
    case Verifying(managed) => EndVerifying(c, id, managed, r)
    case Returned(owner, outcome) => EndReturned(c, id, owner, outcome, r)
    case Done => c
  }

  // ---------- Calls ----------

  function InvalidateCall(c: Controller): Controller {
    c.(activationEpoch := c.activationEpoch + 1, managedProviderActive := false,
        provisioner := Revoke(c.provisioner, ProviderInactive, c.now))
  }

  function ReconcileCall(c: Controller): Controller {
    var revoked := c.(
      reconciliationGeneration := c.reconciliationGeneration + 1, activationEpoch := c.activationEpoch + 1,
      managedProviderActive := false,
      provisioner := Revoke(c.provisioner, StoreUnavailable, c.now), nextId := c.nextId + 1);
    Land(revoked, c.nextId, ReconcileQueued(revoked.reconciliationGeneration, revoked.activationEpoch))
  }

  function CoordinateCall(c: Controller, expected: Option<int>): Controller {
    var reserved := Reserve(c.provisioner);
    var transition := Transition(reserved.generation, c.now, c.activationEpoch + 1);
    Land(c.(managedProviderActive := false, provisioner := reserved, activationEpoch := c.activationEpoch + 1,
            transitions := c.transitions[c.nextId := transition], nextId := c.nextId + 1),
         c.nextId, TransitionWaiting(c.nextId, expected))
  }

  function ApplyCurrentCall(c: Controller, r: Resolution): Controller {
    var inactive := c.(managedProviderActive := false, nextId := c.nextId + 1);
    if c.active.Some? && c.active.value in c.transitions then
      var held := c.transitions[c.active.value];
      StartManaged(inactive, c.nextId,
          Managed(ByCaller(held.epoch), true, held.epoch, held.takenAt, c.expectedRuleCount, held.activation), r)
    else
      var reserved := Reserve(c.provisioner);
      StartManaged(
        inactive.(provisioner := reserved, activationEpoch := c.activationEpoch + 1), c.nextId,
        Managed(ByCaller(reserved.generation), true, reserved.generation, c.now, c.expectedRuleCount, c.activationEpoch + 1), r)
  }

  /** Every event happens at a later time. */
  function Step(before: Controller, event: Event): Controller {
    var c := before.(now := before.now + 1);
    match event
    case Invalidate => InvalidateCall(c)
    case RevokeCall(reason) => c.(provisioner := Revoke(c.provisioner, reason, c.now))
    case Reconcile => ReconcileCall(c)
    case Coordinate(expected) => CoordinateCall(c, expected)
    case ActivateCommitted(ruleCount) => CoordinateCall(c.(expectedRuleCount := Some(ruleCount)), Some(ruleCount))
    case ApplyCurrent(resolution) => ApplyCurrentCall(c, resolution)
    case Resolve(flight, resolution) => if flight in c.flights then ResolveFlight(c, flight, c.flights[flight], resolution) else c
  }

  function Start(mode: Mode): Controller {
    Controller(Initial(mode), 0, false, None, false, None, None, map[], 0, false, None, false, map[], 0, 0)
  }

  function Run(c: Controller, events: seq<Event>): Controller
    decreases |events|
  {
    if events == [] then c else Run(Step(c, events[0]), events[1..])
  }
}
