/** Context ownership: the durable lease with its monotonic epoch, and the fence that every side
    effect of a task must pass. */
module Ownership {
  import opened Options

  type Id = string

  datatype Lease = Lease(owner: Id, epoch: nat, deadline: int, token: Id)

  /** What a task captured when it was created. */
  datatype Held = Held(context: Id, epoch: int, binding: Id)

  datatype Fence = Pass | LeaseMissing | EpochStale

  /** The ownership fields of a plan, any of which may be missing. */
  datatype Stamp = Stamp(context: Option<Id>, epoch: Option<int>, binding: Option<Id>)

  /** heldOwnershipFromPlan: a task without a usable triple is unbound. */
  function HeldFromPlan(s: Stamp): Option<Held> {
    if s.context.None? || s.context.value == "" || s.epoch.None? || s.binding.None? || s.binding.value == "" then None
    else Some(Held(s.context.value, s.epoch.value, s.binding.value))
  }

  /** checkOwnershipFence. */
  function CheckFence(held: Option<Held>, live: Option<Lease>, now: int): Fence {
    if held.None? then Pass
    else if live.None? then LeaseMissing
    else if live.value.epoch != held.value.epoch || live.value.owner != held.value.binding || live.value.deadline <= now
    then EpochStale
    else Pass
  }

  predicate LeaseMatches(lease: Lease, epoch: int, binding: Id) {
    lease.epoch == epoch && lease.owner == binding
  }

  predicate IsLeaseValid(lease: Lease, now: int) {
    now <= lease.deadline
  }

  /** The fence is stricter than the lease's own validity by the instant of the deadline: a
      matching lease passes exactly when it is valid and its deadline has not come. */
  lemma FenceAgainstValidity(held: Held, lease: Lease, now: int)
    requires LeaseMatches(lease, held.epoch, held.binding)
    ensures CheckFence(Some(held), Some(lease), now) == Pass <==> IsLeaseValid(lease, now) && now != lease.deadline
  {
  }
}
