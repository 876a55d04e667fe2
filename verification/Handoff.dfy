/** The two-phase transfer of a context to another binding, over the persisted leases, contexts
    and intents. */
module Handoff {
  import opened Options
  import opened Ownership

  // ---------------------------------------------------------------------------
  // Intents
  // ---------------------------------------------------------------------------

  datatype IntentState = Prepared | Approved | Draining | Committed | Cancelled | Expired | Failed

  /** The declared transition table. */
  predicate CanTransition(from: IntentState, to: IntentState) {
    match from
    case Prepared => to == Approved || to == Cancelled || to == Expired || to == Failed
    case Approved => to == Draining || to == Cancelled || to == Expired || to == Failed
    case Draining => to == Committed || to == Failed
    case _ => false
  }

  predicate Terminal(s: IntentState) {
    s == Committed || s == Cancelled || s == Expired || s == Failed
  }

  datatype Intent = Intent(
    context: Id, sourceBinding: Id, target: Id, sourceEpoch: nat, ticketHash: Id, expiresAt: int, createdAt: int,
    state: IntentState, approvedBy: Option<Id>, approvedAt: Option<int>, committedAt: Option<int>)

  datatype ContextState = Active | Frozen | Transferring | Archived

  predicate CanMoveContext(from: ContextState, to: ContextState) {
    match from
    case Active => to == Frozen || to == Transferring || to == Archived
    case Frozen => to == Active || to == Archived
    case Transferring => to == Active || to == Archived
    case Archived => false
  }

  /** What a call of prepareHandoff has read of the lease, before it inserts its intent. */
  datatype Draft = Draft(context: Id, binding: Id, target: Id, epoch: nat)

  /** The persisted tables, in which intents are numbered as they come, and what calls in any number
      of processes may hold in memory between two of their database calls: the drafts that have been
      read, those that then found no open intent, and the intents whose commit has passed its
      pre-flight. Nothing that a call may still hold is ever taken back: another process may have
      read the same at the same moment. */
  datatype Registry = Registry(
    leases: map<Id, Lease>, contexts: map<Id, ContextState>, intents: seq<Intent>,
    drafts: set<Draft>, cleared: set<Draft>, armed: set<nat>)

  const MIN_TTL := 1000
  const MAX_TTL := 24 * 60 * 60000
  const INTENT_TTL := 15 * 60 * 1000
  const TRANSFERRED_LEASE_TTL := 5 * 60 * 1000

  predicate Open(r: Registry, context: Id) {
    exists i :: 0 <= i < |r.intents| && r.intents[i].context == context && !Terminal(r.intents[i].state)
  }

  predicate TicketTaken(r: Registry, hash: Id) {
    exists i :: 0 <= i < |r.intents| && r.intents[i].ticketHash == hash
  }

  // ---------------------------------------------------------------------------
  // Actions
  // ---------------------------------------------------------------------------

  datatype Action =
    | Acquire(context: Id, binding: Id, ttl: int, now: int, token: Id)
    | Advance(context: Id, epoch: int, binding: Id, token: Id, deadline: int)
    | Release(context: Id, binding: Id, token: Id, now: int)
    | MoveContext(context: Id, next: ContextState)
    | ReadLease(context: Id, binding: Id, target: Id)
    | CheckOpen(draft: Draft)
    | Insert(draft: Draft, ticketHash: Id, now: int)
    | Approve(intent: nat, owner: Id, ticketHash: Id, now: int)
    | Preflight(intent: nat)
    | Transact(intent: nat, binding: Id, token: Id, now: int)
    | Cancel(intent: nat)

  function SetIntent(r: Registry, i: nat, t: Intent): Registry
    requires i < |r.intents|
  {
    r.(intents := r.intents[i := t])
  }

  /** acquireOwnershipLease: a first lease, or one over an expired lease; the epoch goes up. */
  function Acquired(r: Registry, context: Id, binding: Id, ttl: int, now: int, token: Id): Registry {
    if ttl < MIN_TTL || ttl > MAX_TTL || context == "" || binding == "" then r
    else if context !in r.leases then r.(leases := r.leases[context := Lease(binding, 1, now + ttl, token)])
    else if r.leases[context].deadline > now then r
    else r.(leases := r.leases[context := Lease(binding, r.leases[context].epoch + 1, now + ttl, token)])
  }

  /** advanceOwnershipEpoch: a renewal by the holder of the expected epoch. */
  function Advanced(r: Registry, context: Id, epoch: int, binding: Id, token: Id, deadline: int): Registry {
    if context == "" || binding == "" || epoch < 1 || deadline <= 0 then r
    else if context !in r.leases || !LeaseMatches(r.leases[context], epoch, binding) then r
    else r.(leases := r.leases[context := Lease(binding, r.leases[context].epoch + 1, deadline, token)])
  }

  function Released(r: Registry, context: Id, binding: Id, token: Id, now: int): Registry {
    if context !in r.leases || r.leases[context].owner != binding || r.leases[context].token != token then r
    else r.(leases := r.leases[context := r.leases[context].(deadline := now)])
  }

  function Moved(r: Registry, context: Id, next: ContextState): Registry {
    if context in r.contexts && CanMoveContext(r.contexts[context], next) then
      r.(contexts := r.contexts[context := next])
    else r
  }

  /** A draft can be read of the lease as it is. */
  predicate Drafts(r: Registry, context: Id, binding: Id, target: Id) {
    && context != "" && binding != "" && target != ""
    && context in r.leases && r.leases[context].owner != target
  }

  /** prepareHandoff, first call: getLease. */
  function LeaseRead(r: Registry, context: Id, binding: Id, target: Id): Registry {
    if !Drafts(r, context, binding, target) then r
    else r.(drafts := r.drafts + {Draft(context, binding, target, r.leases[context].epoch)})
  }

  /** Second call: hasOpenIntent. */
  function OpenChecked(r: Registry, d: Draft): Registry {
    if d !in r.drafts || Open(r, d.context) then r else r.(cleared := r.cleared + {d})
  }

  /** The last call, insertIntent, goes through: nothing but the ticket is looked at again. */
  predicate Inserts(r: Registry, d: Draft, ticketHash: Id) {
    d in r.cleared && d.epoch >= 1 && ticketHash != "" && !TicketTaken(r, ticketHash)
  }

  function NewIntent(d: Draft, ticketHash: Id, now: int): Intent {
    Intent(d.context, d.binding, d.target, d.epoch, ticketHash, now + INTENT_TTL, now, Prepared, None, None, None)
  }

  function IntentInserted(r: Registry, d: Draft, ticketHash: Id, now: int): Registry {
    if !Inserts(r, d, ticketHash) then r else r.(intents := r.intents + [NewIntent(d, ticketHash, now)])
  }

  /** approveIntent. */
  function ApprovedHandoff(r: Registry, i: nat, owner: Id, ticketHash: Id, now: int): Registry {
    if i >= |r.intents| || owner == "" || ticketHash == "" then r
    else
      var t := r.intents[i];
      if t.state != Prepared || t.ticketHash != ticketHash || t.expiresAt <= now then r
      else SetIntent(r, i, t.(state := Approved, approvedBy := Some(owner), approvedAt := Some(now)))
  }

  /** The first half of commitTransfer: a stale intent fails, a current one may go on. */
  function Preflighted(r: Registry, i: nat): Registry {
    if i >= |r.intents| || r.intents[i].state != Approved || r.intents[i].context !in r.leases then r
    else
      var t := r.intents[i];
      if LeaseMatches(r.leases[t.context], t.sourceEpoch, t.sourceBinding) then r.(armed := r.armed + {i})
      else SetIntent(r, i, t.(state := Failed))
  }

  /** The transaction goes through: the intent is still approved, the context active, and the
      lease as it is now belongs to another binding than the new one. */
  predicate Commits(r: Registry, i: nat, binding: Id, now: int) {
    && i in r.armed && i < |r.intents| && r.intents[i].state == Approved
    && var c := r.intents[i].context;
       && c in r.contexts && r.contexts[c] == Active
       && c in r.leases && binding != "" && binding != r.leases[c].owner && r.leases[c].owner != ""
       && c != "" && r.leases[c].epoch >= 1 && now + TRANSFERRED_LEASE_TTL > 0
  }

  /** The second half of commitTransfer, in one transaction: it rebinds whatever lease it finds. */
  function Transacted(r: Registry, i: nat, binding: Id, token: Id, now: int): Registry {
    if !Commits(r, i, binding, now) then r
    else
      var t := r.intents[i];
      var lease := Lease(binding, r.leases[t.context].epoch + 1, now + TRANSFERRED_LEASE_TTL, token);
      SetIntent(r, i, t.(state := Committed, committedAt := Some(now)))
        .(leases := r.leases[t.context := lease])
  }

  /** cancelHandoff. */
  function CancelledHandoff(r: Registry, i: nat): Registry {
    if i >= |r.intents| || Terminal(r.intents[i].state) then r
    else SetIntent(r, i, r.intents[i].(state := Cancelled))
  }

  function Step(r: Registry, a: Action): Registry {
    match a
    case Acquire(context, binding, ttl, now, token) => Acquired(r, context, binding, ttl, now, token)
    case Advance(context, epoch, binding, token, deadline) => Advanced(r, context, epoch, binding, token, deadline)
    case Release(context, binding, token, now) => Released(r, context, binding, token, now)
    case MoveContext(context, next) => Moved(r, context, next)
    case ReadLease(context, binding, target) => LeaseRead(r, context, binding, target)
    case CheckOpen(d) => OpenChecked(r, d)
    case Insert(d, ticketHash, now) => IntentInserted(r, d, ticketHash, now)
    case Approve(i, owner, ticketHash, now) => ApprovedHandoff(r, i, owner, ticketHash, now)
    case Preflight(i) => Preflighted(r, i)
    case Transact(i, binding, token, now) => Transacted(r, i, binding, token, now)
    case Cancel(i) => CancelledHandoff(r, i)
  }

  function Run(r: Registry, actions: seq<Action>): Registry
    decreases |actions|
  {
    if |actions| == 0 then r else Run(Step(r, actions[0]), actions[1..])
  }

  /** Nothing is leased, no intent exists. */
  function Fresh(contexts: map<Id, ContextState>): Registry {
    Registry(map[], contexts, [], {}, {}, {})
  }

  // ---------------------------------------------------------------------------
  // One step
  // ---------------------------------------------------------------------------

  /** What a step may do to a lease: an epoch never goes back, and the owner and the token change
      only with the epoch. */
  ghost predicate LeaseMoves(before: Lease, after: Lease) {
    && before.epoch <= after.epoch
    && (before.epoch == after.epoch ==> before.owner == after.owner && before.token == after.token)
  }

  ghost predicate LeasesMove(before: map<Id, Lease>, after: map<Id, Lease>) {
    forall c :: c in before ==> c in after && LeaseMoves(before[c], after[c])
  }

  /** What a step may do to an intent: identity and stamps stay, and its state moves along
      prepared, approved, committed, or ends early. */
  ghost predicate IntentMoves(before: Intent, after: Intent) {
    && after.(state := before.state, approvedBy := before.approvedBy, approvedAt := before.approvedAt,
              committedAt := before.committedAt) == before
    && (before.state != after.state ==> Rank(before.state) < Rank(after.state))
    && (before.state == after.state ==> before == after)
    && (before.approvedAt.Some? ==> after.approvedAt == before.approvedAt && after.approvedBy == before.approvedBy)
    && (before.committedAt.Some? ==> after.committedAt == before.committedAt)
    && (after.state == Committed ==> before.state == Approved || before.state == Committed)
  }

  function Rank(s: IntentState): nat {
    match s
    case Prepared => 0
    case Approved => 1
    case _ => 2
  }

  ghost predicate IntentsMove(before: seq<Intent>, after: seq<Intent>) {
    |before| <= |after| && forall i :: 0 <= i < |before| ==> IntentMoves(before[i], after[i])
  }

  // ---------------------------------------------------------------------------
  // Invariants
  // ---------------------------------------------------------------------------

  /** The stamps tell the state, and no intent is ever draining or expired. */
  ghost predicate IntentFits(t: Intent) {
    && t.state != Draining && t.state != Expired
    && (t.committedAt.Some? <==> t.state == Committed)
    && (t.state == Prepared ==> t.approvedAt.None?)
    && (t.state == Approved || t.state == Committed ==> t.approvedAt.Some? && t.approvedBy.Some?)
    && t.sourceEpoch >= 1
  }

  ghost predicate OneOpen(intents: seq<Intent>) {
    forall i, j :: 0 <= i < j < |intents| && intents[i].context == intents[j].context ==>
      Terminal(intents[i].state) || Terminal(intents[j].state)
  }

  ghost predicate TicketsDiffer(intents: seq<Intent>) {
    forall i, j :: 0 <= i < j < |intents| ==> intents[i].ticketHash != intents[j].ticketHash
  }

  function CommittedCount(intents: seq<Intent>, context: Id): nat {
    if |intents| == 0 then 0
    else
      var last := intents[|intents| - 1];
      CommittedCount(intents[..|intents| - 1], context) +
      if last.context == context && last.state == Committed then 1 else 0
  }

  ghost predicate LeaseBehind(r: Registry, i: nat)
    requires i < |r.intents|
  {
    r.intents[i].context in r.leases && r.intents[i].sourceEpoch <= r.leases[r.intents[i].context].epoch
  }

  /** A committed intent has raised the epoch above the one it was prepared at. */
  ghost predicate LeasePast(r: Registry, i: nat)
    requires i < |r.intents|
  {
    r.intents[i].state == Committed ==>
      r.intents[i].context in r.leases && r.intents[i].sourceEpoch < r.leases[r.intents[i].context].epoch
  }

  /** The lease may have moved on since it was read. */
  ghost predicate DraftFits(r: Registry, d: Draft) {
    d.context in r.leases && d.epoch <= r.leases[d.context].epoch
  }

  /** A commit that passed its pre-flight finds the recorded owner as long as the epoch is the
      recorded one. */
  ghost predicate ArmedFits(r: Registry, i: nat) {
    && i < |r.intents| && LeaseBehind(r, i) && r.intents[i].state != Prepared
    && var t := r.intents[i];
       r.leases[t.context].epoch == t.sourceEpoch ==> r.leases[t.context].owner == t.sourceBinding
  }

  /** Each transfer has raised the epoch of its context. */
  ghost predicate EpochsCount(r: Registry) {
    forall c :: CommittedCount(r.intents, c) == 0 || (c in r.leases && CommittedCount(r.intents, c) < r.leases[c].epoch)
  }

  /** What every run keeps. That a context has one open intent is not part of it. */
  ghost predicate Sound(r: Registry) {
    && (forall i :: 0 <= i < |r.intents| ==> IntentFits(r.intents[i]) && LeaseBehind(r, i) && LeasePast(r, i))
    && (forall c :: c in r.leases ==> r.leases[c].epoch >= 1)
    && TicketsDiffer(r.intents)
    && r.cleared <= r.drafts && (forall d :: d in r.drafts ==> DraftFits(r, d))
    && (forall i :: i in r.armed ==> ArmedFits(r, i))
    && EpochsCount(r)
  }
}
