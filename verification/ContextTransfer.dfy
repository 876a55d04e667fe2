/** The transfer service over the persisted tables: prepare, approve, commit and cancel. */
module ContextTransfer {
  import opened Options
  import opened Ownership
  import opened Handoff

  /** What a call returns to the Owner Console. The others are the
      errors it throws. */
  datatype Reply = Done(intent: nat) | NotBound | InProgress | Inactive | Collision | InvalidIntent | RolledBack

  class TransferService {
    var leases: map<Id, Lease>
    var contexts: map<Id, ContextState>
    var intents: seq<Intent>
    /** What calls in any process hold between two of their database calls. */
    var drafts: set<Draft>
    var cleared: set<Draft>
    var armed: set<nat>

    function State(): Registry
      reads this
    {
      Registry(leases, contexts, intents, drafts, cleared, armed)
    }

    constructor (contexts: map<Id, ContextState>)
      ensures State() == Fresh(contexts)
    {
      leases, this.contexts, intents, drafts, cleared, armed := map[], contexts, [], {}, {}, {};
    }

    /** What other processes do. */
    method Others(actions: seq<Action>)
      modifies this
      ensures State() == Run(old(State()), actions)
    {
      var r := Run(State(), actions);
      leases, contexts, intents := r.leases, r.contexts, r.intents;
      drafts, cleared, armed := r.drafts, r.cleared, r.armed;
    }

    method HasOpenIntent(context: Id) returns (open: bool)
      ensures open <==> Open(State(), context)
    {
      for i := 0 to |intents|
        invariant forall k :: 0 <= k < i ==> intents[k].context != context || Terminal(intents[k].state)
      {
        if intents[i].context == context && !Terminal(intents[i].state) {
          return true;
        }
      }
      open := false;
    }

    method IsTicketHashTaken(hash: Id) returns (taken: bool)
      ensures taken <==> TicketTaken(State(), hash)
    {
      for i := 0 to |intents|
        invariant forall k :: 0 <= k < i ==> intents[k].ticketHash != hash
      {
        if intents[i].ticketHash == hash {
          return true;
        }
      }
      taken := false;
    }

    /** prepareHandoff: the lease is read, open intents are looked for, the ticket is looked up and
        the intent is inserted, in four database calls; `meanwhile` is what other processes do after
        each of the first three. */
    method PrepareHandoff(context: Id, binding: Id, target: Id, ticketHash: Id, now: int,
                          meanwhile: (seq<Action>, seq<Action>, seq<Action>))
      returns (reply: Reply)
      modifies this
      ensures State() == Preparing(old(State()), context, binding, target, ticketHash, now, meanwhile)
      ensures reply.Done? ==>
        && Drafts(old(State()), context, binding, target)
        && reply.intent == |intents| - 1
        && intents[reply.intent] ==
           NewIntent(Draft(context, binding, target, old(leases)[context].epoch), ticketHash, now)
    {
      if context == "" || binding == "" || target == "" {
        return NotBound;
      }
      if context !in leases || leases[context].owner == target {
        return NotBound;
      }
      var draft := Draft(context, binding, target, leases[context].epoch);
      drafts := drafts + {draft};
      Others(meanwhile.0);
      RunsHold(Step(old(State()), ReadLease(context, binding, target)), meanwhile.0);
      var open := HasOpenIntent(context);
      if open {
        return InProgress;
      }
      cleared := cleared + {draft};
      ghost var looked := State();
      Others(meanwhile.1);
      RunsHold(looked, meanwhile.1);
      var taken := IsTicketHashTaken(ticketHash);
      if taken {
        return Collision;
      }
      if ticketHash == "" || draft.epoch < 1 {
        return InvalidIntent;
      }
      ghost var checked := State();
      Others(meanwhile.2);
      RunsHold(checked, meanwhile.2);
      reply := InsertIntent(draft, ticketHash, now);
    }

    /** insertIntent: the table keeps ticket hashes unique, and nothing else. */
    method InsertIntent(draft: Draft, ticketHash: Id, now: int) returns (reply: Reply)
      requires draft in cleared && draft.epoch >= 1 && ticketHash != ""
      modifies this
      ensures State() == Step(old(State()), Insert(draft, ticketHash, now))
      ensures reply.Done? <==> Inserts(old(State()), draft, ticketHash)
      ensures reply.Done? ==>
        reply.intent == |old(intents)| && intents == old(intents) + [NewIntent(draft, ticketHash, now)]
    {
      var taken := IsTicketHashTaken(ticketHash);
      if taken {
        return Collision;
      }
      reply := Done(|intents|);
      intents := intents + [Intent(draft.context, draft.binding, draft.target, draft.epoch, ticketHash,
                                   now + INTENT_TTL, now, Prepared, None, None, None)];
    }

    method ApproveHandoff(i: nat, owner: Id, ticketHash: Id, now: int) returns (reply: Reply)
      modifies this
      ensures State() == Step(old(State()), Approve(i, owner, ticketHash, now))
      ensures reply.Done? <==> i < |intents| && old(intents)[i].state == Prepared && intents[i].state == Approved
      ensures !reply.Done? ==> State() == old(State())
    {
      if i >= |intents| || owner == "" || ticketHash == "" {
        return Inactive;
      }
      if intents[i].state != Prepared || intents[i].ticketHash != ticketHash || intents[i].expiresAt <= now {
        return Inactive;
      }
      intents := intents[i := intents[i].(state := Approved, approvedBy := Some(owner), approvedAt := Some(now))];
      reply := Done(i);
    }

    /** commitHandoff: the pre-flight, whatever other processes do in between, and the
        transaction. */
    method CommitHandoff(i: nat, binding: Id, token: Id, now: int, meanwhile: seq<Action>) returns (reply: Reply)
      modifies this
      ensures State() == if binding == "" then old(State())
        else Committing(old(State()), i, binding, token, now, meanwhile)
      ensures reply.Done? ==> i < |intents| && intents[i].state == Committed
    {
      if binding == "" {
        return NotBound;
      }
      var refusal := BeginCommit(i);
      if refusal.Some? {
        return refusal.value;
      }
      ghost var ready := State();
      Others(meanwhile);
      RunsHold(ready, meanwhile);
      reply := FinishCommit(i, binding, token, now);
    }

    /** The pre-flight; `None` means that the transaction may start. */
    method BeginCommit(i: nat) returns (refusal: Option<Reply>)
      modifies this
      ensures State() == Step(old(State()), Preflight(i))
      ensures refusal.None? <==> PassesPreflight(old(State()), i)
      ensures refusal.None? ==> i in armed
      ensures refusal.Some? ==> !refusal.value.Done?
    {
      if i >= |intents| {
        return Some(NotBound);
      }
      var t := intents[i];
      if t.state != Approved {
        return Some(if Terminal(t.state) then Inactive else InProgress);
      }
      if t.context !in leases {
        return Some(NotBound);
      }
      if !LeaseMatches(leases[t.context], t.sourceEpoch, t.sourceBinding) {
        intents := intents[i := t.(state := Failed)];
        return Some(Inactive);
      }
      armed := armed + {i};
      refusal := None;
    }

    /** The transaction: the context is active before and after it, the lease is rebound, the
        intent is committed; otherwise nothing is written. */
    method FinishCommit(i: nat, binding: Id, token: Id, now: int) returns (reply: Reply)
      requires binding != "" && i in armed
      modifies this
      ensures State() == Step(old(State()), Transact(i, binding, token, now))
      ensures reply.Done? <==> Commits(old(State()), i, binding, now)
      ensures reply.Done? ==> i < |intents| && intents[i].state == Committed
    {
      if i >= |intents| || intents[i].state != Approved {
        return Inactive;
      }
      var t := intents[i];
      if t.context !in contexts || t.context !in leases {
        return NotBound;
      }
      if contexts[t.context] != Active {
        return RolledBack;
      }
      var lease := leases[t.context];
      if t.context == "" || lease.owner == "" || lease.owner == binding || lease.epoch < 1 ||
        now + TRANSFERRED_LEASE_TTL <= 0 {
        return RolledBack;
      }
      leases := leases[t.context := Lease(binding, lease.epoch + 1, now + TRANSFERRED_LEASE_TTL, token)];
      intents := intents[i := t.(state := Committed, committedAt := Some(now))];
      reply := Done(i);
    }

    method CancelHandoff(i: nat) returns (reply: Reply)
      modifies this
      ensures State() == Step(old(State()), Cancel(i))
      ensures reply.Done? <==> i < |intents| && !Terminal(old(intents)[i].state)
    {
      if i >= |intents| {
        return NotBound;
      }
      if Terminal(intents[i].state) {
        return Inactive;
      }
      intents := intents[i := intents[i].(state := Cancelled)];
      reply := Done(i);
    }
  }

  predicate PassesPreflight(r: Registry, i: nat) {
    && i < |r.intents| && r.intents[i].state == Approved && r.intents[i].context in r.leases
    && LeaseMatches(r.leases[r.intents[i].context], r.intents[i].sourceEpoch, r.intents[i].sourceBinding)
  }

  /** What a call holds in memory stays with it. */
  lemma {:induction false} RunsHold(r: Registry, actions: seq<Action>)
    ensures r.drafts <= Run(r, actions).drafts && r.cleared <= Run(r, actions).cleared
    ensures r.armed <= Run(r, actions).armed
    decreases |actions|
  {
    hide Step;
    if |actions| > 0 {
      StepHolds(r, actions[0]);
      RunsHold(Step(r, actions[0]), actions[1..]);
    }
  }

  lemma StepHolds(r: Registry, a: Action)
    ensures r.drafts <= Step(r, a).drafts && r.cleared <= Step(r, a).cleared && r.armed <= Step(r, a).armed
  {
    hide Open, TicketTaken, Commits;
  }

  /** A preparation as the actions it consists of. */
  function Preparing(r: Registry, context: Id, binding: Id, target: Id, ticketHash: Id, now: int,
                     meanwhile: (seq<Action>, seq<Action>, seq<Action>)): Registry {
    if !Drafts(r, context, binding, target) then r
    else
      var draft := Draft(context, binding, target, r.leases[context].epoch);
      var before := Run(Step(r, ReadLease(context, binding, target)), meanwhile.0);
      if Open(before, context) then before
      else
        var after := Run(Step(before, CheckOpen(draft)), meanwhile.1);
        if TicketTaken(after, ticketHash) || ticketHash == "" || draft.epoch < 1 then after
        else Step(Run(after, meanwhile.2), Insert(draft, ticketHash, now))
  }

  /** A commit as the actions it consists of. */
  function Committing(r: Registry, i: nat, binding: Id, token: Id, now: int, meanwhile: seq<Action>): Registry {
    var ready := Step(r, Preflight(i));
    if !PassesPreflight(r, i) then ready
    else Step(Run(ready, meanwhile), Transact(i, binding, token, now))
  }
}
