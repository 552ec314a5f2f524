/**
 The deployment capability and its generation counter. Every grant of an epoch and every withdrawal is fenced by the
 generation, so that an old holder can no longer change the capability.
 */
module Provisioning {
  import opened Wrappers

  datatype Mode = ApplyMode | ReportMode
  datatype Reason =
    | ProviderInactive
    | TargetChannelUnavailable
    | StoreUnavailable
    | StoreUnsafe
    | StoreMigrationRequired
    | StoreReconciliationRequired
  datatype Capability = ReportOnly | Unavailable(reason: Reason) | Ready

  const MAX_SAFE_INTEGER := 9_007_199_254_740_991

  /** Whom the current generation was last handed to. */
  datatype Issue = ToNobody | ToTransition | ToReconciliation(flight: nat)

  /** `issue` and `revokedAt` are history: the holder of the current generation, and the time of the last withdrawal. */
  datatype Provisioner = Provisioner(mode: Mode, generation: nat, capability: Capability, issue: Issue, revokedAt: nat)

  predicate ValidProof(ruleCount: int) {
    0 <= ruleCount <= MAX_SAFE_INTEGER
  }

  function Initial(mode: Mode): Provisioner {
    Provisioner(mode, 0, if mode.ReportMode? then ReportOnly else Unavailable(StoreUnavailable), ToNobody, 0)
  }

  function Withdraw(p: Provisioner, reason: Reason, now: nat): Provisioner {
    p.(capability := Unavailable(reason), revokedAt := now)
  }

  function Reserve(p: Provisioner): Provisioner {
    if p.mode.ApplyMode? then p.(generation := p.generation + 1, issue := ToTransition) else p
  }

  function Revoke(p: Provisioner, reason: Reason, now: nat): Provisioner {
    if p.mode.ReportMode? then p else Withdraw(p.(generation := p.generation + 1, issue := ToNobody), reason, now)
  }

  predicate IsCurrent(p: Provisioner, epoch: nat) {
    p.mode.ApplyMode? && epoch == p.generation
  }

  function RevokeIfCurrent(p: Provisioner, epoch: nat, reason: Reason, now: nat): Provisioner {
    if IsCurrent(p, epoch) then Revoke(p, reason, now) else p
  }

  function Publish(p: Provisioner, epoch: nat, ruleCount: int, now: nat): Provisioner {
    if !IsCurrent(p, epoch) then p
    else
      var next := p.(generation := p.generation + 1, issue := ToNobody);
      if ValidProof(ruleCount) then next.(capability := Ready) else Withdraw(next, ProviderInactive, now)
  }

  /** The synchronous part of a reconciliation: it takes a fresh generation and withdraws the capability. */
  function StartReconciliation(p: Provisioner, flight: nat, now: nat): Provisioner {
    if p.mode.ReportMode? then p
    else Withdraw(p.(generation := p.generation + 1, issue := ToReconciliation(flight)), StoreUnavailable, now)
  }

  /** The end of a reconciliation that still holds the current generation. */
  function FinishReconciliation(p: Provisioner, generation: nat, outcome: Result<int, Reason>, now: nat): Provisioner {
    if generation != p.generation then p
    else if outcome.Err? then Withdraw(p, outcome.error, now)
    else if ValidProof(outcome.value) then p.(capability := Ready)
    else Withdraw(p, ProviderInactive, now)
  }

  class DomainRuleDeploymentProvisioner {
    const mode: Mode
    var capability: Capability
    var generation: nat
    ghost var issue: Issue
    ghost var revokedAt: nat

    ghost function View(): Provisioner
      reads this
    {
      Provisioner(mode, generation, capability, issue, revokedAt)
    }

    constructor (mode: Mode)
      ensures View() == Initial(mode)
    {
      this.mode := mode;
      capability := if mode.ReportMode? then ReportOnly else Unavailable(StoreUnavailable);
      generation, issue, revokedAt := 0, ToNobody, 0;
    }

    method ReserveCapabilityEpoch() returns (epoch: nat)
      modifies this
      ensures View() == Reserve(old(View())) && epoch == generation
      ensures generation == old(generation) + (if mode == ApplyMode then 1 else 0) && capability == old(capability)
    {
      if mode.ApplyMode? {
        generation := generation + 1;
        issue := ToTransition;
      }
      epoch := generation;
    }

    method RevokeCapability(reason: Reason, ghost now: nat)
      modifies this
      ensures View() == Revoke(old(View()), reason, now)
      ensures mode == ApplyMode ==> generation == old(generation) + 1 && capability == Unavailable(reason)
      ensures mode == ReportMode ==> generation == old(generation) && capability == old(capability)
    {
      if mode.ApplyMode? {
        generation := generation + 1;
        capability := Unavailable(reason);
        issue, revokedAt := ToNobody, now;
      }
    }

    method RevokeCapabilityIfCurrent(epoch: nat, reason: Reason, ghost now: nat) returns (revoked: bool)
      modifies this
      ensures revoked == IsCurrent(old(View()), epoch)
      ensures View() == RevokeIfCurrent(old(View()), epoch, reason, now)
      ensures if mode == ApplyMode && epoch == old(generation)
        then revoked && generation == old(generation) + 1 && capability == Unavailable(reason)
        else !revoked && generation == old(generation) && capability == old(capability)
    {
      if mode.ReportMode? || epoch != generation {
        return false;
      }
      RevokeCapability(reason, now);
      revoked := true;
    }

    method PublishActivationProof(epoch: nat, ruleCount: int, ghost now: nat) returns (published: bool)
      modifies this
      ensures published == (IsCurrent(old(View()), epoch) && ValidProof(ruleCount))
      ensures View() == Publish(old(View()), epoch, ruleCount, now)
      ensures if mode == ReportMode || epoch != old(generation)
        then !published && generation == old(generation) && capability == old(capability)
        else
          && generation == old(generation) + 1 && (published <==> 0 <= ruleCount <= 9_007_199_254_740_991)
          && capability == (if published then Ready else Unavailable(ProviderInactive))
    {
      if mode.ReportMode? || epoch != generation {
        return false;
      }
      generation := generation + 1;
      issue := ToNobody;
      published := ValidProof(ruleCount);
      if published {
        capability := Ready;
      } else {
        capability := Unavailable(ProviderInactive);
        revokedAt := now;
      }
    }

    /** The start of `reconcile`, up to its first await. */
    method BeginReconciliation(ghost flight: nat, ghost now: nat) returns (epoch: nat)
      modifies this
      ensures View() == StartReconciliation(old(View()), flight, now) && epoch == generation
      ensures mode == ApplyMode ==> generation == old(generation) + 1 && capability == Unavailable(StoreUnavailable)
    {
      if mode.ApplyMode? {
        generation := generation + 1;
        capability := Unavailable(StoreUnavailable);
        issue, revokedAt := ToReconciliation(flight), now;
      }
      epoch := generation;
    }

    /** The last stretch of `executeReconciliation`, after its last await. */
    method EndReconciliation(epoch: nat, outcome: Result<int, Reason>, ghost now: nat)
      modifies this
      ensures View() == FinishReconciliation(old(View()), epoch, outcome, now)
      ensures generation == old(generation)
      ensures capability ==
        if epoch != old(generation) then old(capability)
        else if outcome.Err? then Unavailable(outcome.error)
        else if 0 <= outcome.value <= 9_007_199_254_740_991 then Ready else Unavailable(ProviderInactive)
    {
      if epoch != generation {
        return;
      }
      if outcome.Ok? && ValidProof(outcome.value) {
        capability := Ready;
      } else {
        capability := Unavailable(if outcome.Err? then outcome.error else ProviderInactive);
        revokedAt := now;
      }
    }
  }
}
