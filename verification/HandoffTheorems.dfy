/** What holds of every run of lease operations and transfers. */
module HandoffTheorems {
  import opened Options
  import opened Ownership
  import opened Handoff

  // ---------------------------------------------------------------------------
  // One step
  // ---------------------------------------------------------------------------

  lemma StepMovesLeases(r: Registry, a: Action)
    ensures LeasesMove(r.leases, Step(r, a).leases)
  {
  }

  lemma StepMovesIntents(r: Registry, a: Action)
    requires forall i :: 0 <= i < |r.intents| ==> IntentFits(r.intents[i])
    ensures IntentsMove(r.intents, Step(r, a).intents)
    ensures forall i :: 0 <= i < |Step(r, a).intents| ==> IntentFits(Step(r, a).intents[i])
  {
    if a.Transact? {
      TransactMovesIntents(r, a.intent, a.binding, a.token, a.now);
    } else if a.Insert? || a.Approve? {
      OpeningMovesIntents(r, a);
    } else {
      hide Transacted, IntentInserted, ApprovedHandoff, Open, TicketTaken;
    }
  }

  lemma TransactMovesIntents(r: Registry, i: nat, binding: Id, token: Id, now: int)
    requires forall i :: 0 <= i < |r.intents| ==> IntentFits(r.intents[i])
    ensures var s := Transacted(r, i, binding, token, now);
            IntentsMove(r.intents, s.intents) && forall i :: 0 <= i < |s.intents| ==> IntentFits(s.intents[i])
  {
  }

  lemma OpeningMovesIntents(r: Registry, a: Action)
    requires forall i :: 0 <= i < |r.intents| ==> IntentFits(r.intents[i])
    requires a.Insert? || a.Approve?
    ensures IntentsMove(r.intents, Step(r, a).intents)
    ensures forall i :: 0 <= i < |Step(r, a).intents| ==> IntentFits(Step(r, a).intents[i])
  {
    hide Open, TicketTaken;
  }

  lemma StepKeepsTickets(r: Registry, a: Action)
    requires TicketsDiffer(r.intents)
    ensures TicketsDiffer(Step(r, a).intents)
  {
    hide Open;
  }

  /** Every step but an insertion leaves at most one intent of a context open. */
  lemma OthersKeepOneOpen(r: Registry, a: Action)
    requires OneOpen(r.intents) && !a.Insert?
    requires forall i :: 0 <= i < |r.intents| ==> IntentFits(r.intents[i])
    ensures OneOpen(Step(r, a).intents)
  {
    hide Step, IntentFits;
    StepMovesIntents(r, a);
    NoneInserted(r, a);
    var s := Step(r, a);
    forall i, j | 0 <= i < j < |s.intents| && s.intents[i].context == s.intents[j].context
      ensures Terminal(s.intents[i].state) || Terminal(s.intents[j].state)
    {
      assert IntentMoves(r.intents[i], s.intents[i]) && IntentMoves(r.intents[j], s.intents[j]);
    }
  }

  lemma NoneInserted(r: Registry, a: Action)
    requires !a.Insert?
    ensures |Step(r, a).intents| == |r.intents|
  {
    hide Open;
  }

  /** An insertion that goes through leaves one open intent of each context if and only if its
      context had none at that moment. */
  lemma InsertionKeepsOneOpen(r: Registry, d: Draft, ticketHash: Id, now: int)
    requires OneOpen(r.intents) && Inserts(r, d, ticketHash)
    ensures OneOpen(Step(r, Insert(d, ticketHash, now)).intents) <==> !Open(r, d.context)
  {
    var s := Step(r, Insert(d, ticketHash, now));
    var n := |r.intents|;
    if Open(r, d.context) {
      var i :| 0 <= i < n && r.intents[i].context == d.context && !Terminal(r.intents[i].state);
      assert s.intents[i] == r.intents[i] && s.intents[n].context == d.context;
    }
  }

  /** Changing the state of one intent changes the count of committed ones by that intent. */
  lemma {:induction false} CountChanges(intents: seq<Intent>, i: nat, t: Intent, c: Id)
    requires i < |intents| && t.context == intents[i].context
    ensures CommittedCount(intents[i := t], c) + Weight(intents[i], c) == CommittedCount(intents, c) + Weight(t, c)
  {
    var n := |intents| - 1;
    if i == n {
      assert intents[i := t][..n] == intents[..n];
    } else {
      assert intents[i := t][..n] == intents[..n][i := t];
      CountChanges(intents[..n], i, t, c);
    }
  }

  function Weight(t: Intent, c: Id): nat {
    if t.context == c && t.state == Committed then 1 else 0
  }

  lemma {:induction false} CountAppends(intents: seq<Intent>, t: Intent, c: Id)
    ensures CommittedCount(intents + [t], c) == CommittedCount(intents, c) + Weight(t, c)
  {
    assert (intents + [t])[..|intents|] == intents;
  }

  /** The count of a context after a step: one more exactly when its transfer commits. */
  lemma {:induction false} StepCounts(r: Registry, a: Action, c: Id)
    requires forall i :: 0 <= i < |r.intents| ==> IntentFits(r.intents[i])
    ensures CommittedCount(Step(r, a).intents, c) == CommittedCount(r.intents, c) +
            (if a.Transact? && Commits(r, a.intent, a.binding, a.now) && r.intents[a.intent].context == c then 1 else 0)
  {
    hide Open, TicketTaken, CommittedCount;
    var s := Step(r, a);
    if a.Insert? && |s.intents| > |r.intents| {
      CountAppends(r.intents, s.intents[|r.intents|], c);
    } else if (a.Approve? || a.Preflight? || a.Transact? || a.Cancel?) && a.intent < |r.intents| {
      CountChanges(r.intents, a.intent, s.intents[a.intent], c);
      assert s.intents == r.intents[a.intent := s.intents[a.intent]];
    }
  }

  lemma CommitRaises(r: Registry, a: Action, c: Id)
    requires a.Transact? && Commits(r, a.intent, a.binding, a.now) && r.intents[a.intent].context == c
    ensures c in r.leases && c in Step(r, a).leases && Step(r, a).leases[c].epoch == r.leases[c].epoch + 1
  {
  }

  lemma StepKeepsCounts(r: Registry, a: Action)
    requires EpochsCount(r) && forall i :: 0 <= i < |r.intents| ==> IntentFits(r.intents[i])
    requires forall c :: c in r.leases ==> r.leases[c].epoch >= 1
    ensures EpochsCount(Step(r, a)) && forall c :: c in Step(r, a).leases ==> Step(r, a).leases[c].epoch >= 1
  {
    var s := Step(r, a);
    StepMovesLeases(r, a);
    forall c ensures CommittedCount(s.intents, c) == 0 ||
      (c in s.leases && CommittedCount(s.intents, c) < s.leases[c].epoch) {
      hide Step, CommittedCount, Commits;
      StepCounts(r, a, c);
      assert CommittedCount(r.intents, c) == 0 || (c in r.leases && CommittedCount(r.intents, c) < r.leases[c].epoch);
      if a.Transact? && Commits(r, a.intent, a.binding, a.now) && r.intents[a.intent].context == c {
        CommitRaises(r, a, c);
      }
    }
  }

  lemma StepKeepsBehind(r: Registry, a: Action)
    requires forall i :: 0 <= i < |r.intents| ==> LeaseBehind(r, i)
    requires r.cleared <= r.drafts && forall d :: d in r.drafts ==> DraftFits(r, d)
    ensures forall i :: 0 <= i < |Step(r, a).intents| ==> LeaseBehind(Step(r, a), i)
  {
    var s := Step(r, a);
    StepMovesLeases(r, a);
    forall i | 0 <= i < |s.intents| ensures LeaseBehind(s, i) {
      if i < |r.intents| {
        assert LeaseBehind(r, i);
        assert s.intents[i].context == r.intents[i].context && s.intents[i].sourceEpoch == r.intents[i].sourceEpoch;
      }
    }
  }

  /** A commit raises the epoch above the one that its intent records. */
  lemma StepKeepsPast(r: Registry, a: Action)
    requires forall i :: 0 <= i < |r.intents| ==> LeaseBehind(r, i) && LeasePast(r, i) && IntentFits(r.intents[i])
    ensures forall i :: 0 <= i < |Step(r, a).intents| ==> LeasePast(Step(r, a), i)
  {
    hide Step, IntentFits;
    var s := Step(r, a);
    StepMovesLeases(r, a);
    StepMovesIntents(r, a);
    forall i | 0 <= i < |s.intents| && s.intents[i].state == Committed ensures LeasePast(s, i) {
      CommitsHere(r, a, i);
      if i < |r.intents| {
        assert LeaseBehind(r, i) && LeasePast(r, i) && IntentMoves(r.intents[i], s.intents[i]);
        if r.intents[i].state != Committed {
          CommitRaises(r, a, r.intents[i].context);
        }
      }
    }
  }

  /** Only the transaction of an intent commits it. */
  lemma CommitsHere(r: Registry, a: Action, i: nat)
    requires i < |Step(r, a).intents| && Step(r, a).intents[i].state == Committed
    ensures i < |r.intents|
    ensures r.intents[i].state != Committed ==>
      a.Transact? && a.intent == i && Commits(r, i, a.binding, a.now)
  {
    hide Open, TicketTaken;
  }

  lemma StepKeepsDrafts(r: Registry, a: Action)
    requires r.cleared <= r.drafts && forall d :: d in r.drafts ==> DraftFits(r, d)
    ensures Step(r, a).cleared <= Step(r, a).drafts
    ensures forall d :: d in Step(r, a).drafts ==> DraftFits(Step(r, a), d)
  {
    hide Open, TicketTaken, Commits;
    StepMovesLeases(r, a);
  }

  lemma StepKeepsArmed(r: Registry, a: Action)
    requires forall i :: 0 <= i < |r.intents| ==> LeaseBehind(r, i) && IntentFits(r.intents[i])
    requires forall i :: i in r.armed ==> ArmedFits(r, i)
    ensures forall i :: i in Step(r, a).armed ==> ArmedFits(Step(r, a), i)
  {
    hide Step, IntentFits;
    var s := Step(r, a);
    StepMovesLeases(r, a);
    StepMovesIntents(r, a);
    StepArms(r, a);
    forall i | i in s.armed ensures ArmedFits(s, i) {
      if i in r.armed {
        assert ArmedFits(r, i);
        assert IntentMoves(r.intents[i], s.intents[i]);
      }
    }
  }

  /** Only a pre-flight arms a commit, and only for the recorded epoch and owner. */
  lemma StepArms(r: Registry, a: Action)
    requires forall i :: 0 <= i < |r.intents| ==> LeaseBehind(r, i)
    ensures forall i :: i in Step(r, a).armed && i !in r.armed ==> ArmedFits(Step(r, a), i)
  {
  }

  lemma StepSound(r: Registry, a: Action)
    requires Sound(r)
    ensures Sound(Step(r, a))
  {
    hide Step, IntentFits, LeaseBehind, LeasePast, DraftFits, ArmedFits, TicketsDiffer, EpochsCount;
    StepMovesIntents(r, a);
    StepKeepsTickets(r, a);
    StepKeepsPast(r, a);
    StepKeepsDrafts(r, a);
    StepKeepsCounts(r, a);
    StepKeepsBehind(r, a);
    StepKeepsArmed(r, a);
  }

  // ---------------------------------------------------------------------------
  // Whole runs
  // ---------------------------------------------------------------------------

  lemma FreshSound(contexts: map<Id, ContextState>)
    ensures Sound(Fresh(contexts))
  {
    assert forall c :: CommittedCount(Fresh(contexts).intents, c) == 0;
  }

  lemma {:induction false} RunsSound(r: Registry, actions: seq<Action>)
    requires Sound(r)
    ensures Sound(Run(r, actions))
    decreases |actions|
  {
    hide Sound, Step;
    if |actions| > 0 {
      StepSound(r, actions[0]);
      RunsSound(Step(r, actions[0]), actions[1..]);
    }
  }

  lemma LeasesMoveOn(a: map<Id, Lease>, b: map<Id, Lease>, c: map<Id, Lease>)
    requires LeasesMove(a, b) && LeasesMove(b, c)
    ensures LeasesMove(a, c)
  {
  }

  /** Epochs never go back, over any run. */
  lemma {:induction false} RunsMoveLeases(r: Registry, actions: seq<Action>)
    ensures LeasesMove(r.leases, Run(r, actions).leases)
    decreases |actions|
  {
    hide Step;
    if |actions| > 0 {
      StepMovesLeases(r, actions[0]);
      RunsMoveLeases(Step(r, actions[0]), actions[1..]);
      LeasesMoveOn(r.leases, Step(r, actions[0]).leases, Run(r, actions).leases);
    }
  }

  // ---------------------------------------------------------------------------
  // Theorems
  // ---------------------------------------------------------------------------

  function Live(r: Registry, context: Id): Option<Lease> {
    if context in r.leases then Some(r.leases[context]) else None
  }

  /** A task that captured its ownership before a transfer committed is fenced at every later
      point of every run, whatever happens to the lease, even if its own binding gets it back. */
  lemma {:induction false} TransferFencesForever(
    r: Registry, i: nat, binding: Id, token: Id, at: int, actions: seq<Action>, held: Held, now: int)
    requires Commits(r, i, binding, at)
    requires held.context == r.intents[i].context && held.epoch <= r.leases[held.context].epoch
    ensures var later := Run(Step(r, Transact(i, binding, token, at)), actions);
            CheckFence(Some(held), Live(later, held.context), now) == EpochStale
  {
    var s := Step(r, Transact(i, binding, token, at));
    RunsMoveLeases(s, actions);
    assert LeaseMoves(s.leases[held.context], Run(s, actions).leases[held.context]);
  }

  /** Two tasks of one context pass the fence, one at an earlier and one at a later point of a run.
      The earlier one held the lease of that moment, which was valid; it never holds the later
      epoch, two that hold one epoch have one binding, and at the later point it still passes
      exactly when it holds the same epoch. */
  lemma {:induction false} PassingTasksAgree(
    contexts: map<Id, ContextState>, before: seq<Action>, between: seq<Action>,
    a: Stamp, b: Stamp, early: int, late: int)
    requires HeldFromPlan(a).Some? && HeldFromPlan(b).Some? && a.context == b.context
    requires var r := Run(Fresh(contexts), before);
             CheckFence(HeldFromPlan(a), Live(r, a.context.value), early) == Pass
    requires var s := Run(Run(Fresh(contexts), before), between);
             CheckFence(HeldFromPlan(b), Live(s, b.context.value), late) == Pass
    ensures var r := Run(Fresh(contexts), before);
            && a.context.value in r.leases && IsLeaseValid(r.leases[a.context.value], early)
            && LeaseMatches(r.leases[a.context.value], a.epoch.value, a.binding.value)
    ensures 1 <= a.epoch.value <= b.epoch.value
    ensures a.epoch == b.epoch ==> a.binding == b.binding
    ensures var s := Run(Run(Fresh(contexts), before), between);
            CheckFence(HeldFromPlan(a), Live(s, a.context.value), late) == Pass <==> a.epoch == b.epoch
  {
    hide Run;
    var r := Run(Fresh(contexts), before);
    FreshSound(contexts);
    RunsSound(Fresh(contexts), before);
    RunsMoveLeases(r, between);
    assert LeaseMoves(r.leases[a.context.value], Run(r, between).leases[a.context.value]);
  }

  /** In every reachable state no ticket is used twice, the stamps of an intent tell how far it came,
      and a context's epoch exceeds the number of its transfers. */
  lemma {:induction false} IntentsAreWellKept(contexts: map<Id, ContextState>, actions: seq<Action>)
    ensures var r := Run(Fresh(contexts), actions);
            && TicketsDiffer(r.intents) && EpochsCount(r)
            && forall i :: 0 <= i < |r.intents| ==> IntentFits(r.intents[i])
  {
    FreshSound(contexts);
    RunsSound(Fresh(contexts), actions);
  }

  /** How often the state of intent `i` changes along a run. */
  function StateChanges(r: Registry, actions: seq<Action>, i: nat): nat
    decreases |actions|
  {
    if |actions| == 0 then 0
    else
      var s := Step(r, actions[0]);
      StateChanges(s, actions[1..], i) +
      if i < |r.intents| && i < |s.intents| && r.intents[i].state != s.intents[i].state then 1 else 0
  }

  /** An intent changes its state at most twice, and its identity and stamps stay as they are
      once set. */
  lemma {:induction false} IntentsChangeTwice(r: Registry, actions: seq<Action>, i: nat)
    requires Sound(r) && i < |r.intents|
    ensures i < |Run(r, actions).intents|
    ensures StateChanges(r, actions, i) + Rank(r.intents[i].state) <= 2
    ensures var before, after := r.intents[i], Run(r, actions).intents[i];
            && (before.approvedAt.Some? ==>
                  after.approvedAt == before.approvedAt && after.approvedBy == before.approvedBy)
            && (before.committedAt.Some? ==> after.committedAt == before.committedAt)
            && after.context == before.context && after.sourceEpoch == before.sourceEpoch
            && after.sourceBinding == before.sourceBinding && after.target == before.target
            && after.ticketHash == before.ticketHash
            && after.expiresAt == before.expiresAt && after.createdAt == before.createdAt
    decreases |actions|
  {
    hide Sound, Step;
    if |actions| > 0 {
      var s := Step(r, actions[0]);
      SoundMoves(r, actions[0], i);
      StepSound(r, actions[0]);
      IntentsChangeTwice(s, actions[1..], i);
    }
  }

  lemma SoundMoves(r: Registry, a: Action, i: nat)
    requires Sound(r) && i < |r.intents|
    ensures i < |Step(r, a).intents| && IntentMoves(r.intents[i], Step(r, a).intents[i])
  {
    hide Step;
    StepMovesIntents(r, a);
  }

  /** An intent becomes committed only from approved, in the transaction of an armed commit; that
      raises the epoch of its context by one and gives it to the new binding. */
  lemma CommittedOnlyFromApproved(r: Registry, a: Action, i: nat)
    requires Sound(r) && i < |r.intents| && r.intents[i].state != Committed && Step(r, a).intents[i].state == Committed
    ensures a.Transact? && a.intent == i && i in r.armed && r.intents[i].state == Approved
    ensures var c := r.intents[i].context;
            && c in r.leases && c in Step(r, a).leases
            && Step(r, a).leases[c].epoch == r.leases[c].epoch + 1 && Step(r, a).leases[c].owner == a.binding
  {
    hide TicketsDiffer, EpochsCount, Open, TicketTaken;
  }

  /** The transaction compares the lease with itself, not with the intent: an armed commit takes
      the context from the binding that asked for the transfer exactly when the epoch is still
      the recorded one. */
  lemma CommitTakesFromSource(r: Registry, i: nat, binding: Id, now: int)
    requires Sound(r) && Commits(r, i, binding, now)
    ensures var t := r.intents[i];
            LeaseMatches(r.leases[t.context], t.sourceEpoch, t.sourceBinding) <==>
              r.leases[t.context].epoch == t.sourceEpoch
  {
    assert ArmedFits(r, i);
  }

  // ---------------------------------------------------------------------------
  // One open intent
  // ---------------------------------------------------------------------------

  /** Every insertion of the run that goes through finds no open intent of its context. */
  predicate InsertsAlone(r: Registry, actions: seq<Action>)
    decreases |actions|
  {
    |actions| > 0 ==>
      && (actions[0].Insert? && Inserts(r, actions[0].draft, actions[0].ticketHash) ==>
            !Open(r, actions[0].draft.context))
      && InsertsAlone(Step(r, actions[0]), actions[1..])
  }

  /** A context has at most one open intent at every point of a run if and only if every insertion
      found none. */
  lemma {:induction false} OneOpenThroughout(r: Registry, actions: seq<Action>)
    requires Sound(r) && OneOpen(r.intents)
    ensures InsertsAlone(r, actions) <==> forall n :: 0 <= n <= |actions| ==> OneOpen(Run(r, actions[..n]).intents)
    decreases |actions|
  {
    hide Step, Sound, OneOpen, Open, Inserts;
    if |actions| == 0 {
      assert forall n :: 0 <= n <= |actions| ==> actions[..n] == [];
    } else {
      var s := Step(r, actions[0]);
      assert actions[..0] == [] && actions[..1] == [actions[0]];
      assert Run(r, actions[..1]) == s by {
        assert [actions[0]][1..] == [];
      }
      StepSound(r, actions[0]);
      StepOpens(r, actions[0]);
      forall n | 0 < n <= |actions| ensures Run(r, actions[..n]) == Run(s, actions[1..][..n - 1]) {
        assert actions[..n][1..] == actions[1..][..n - 1];
      }
      if OneOpen(s.intents) {
        OneOpenThroughout(s, actions[1..]);
        assert forall n :: 0 <= n < |actions| ==> Run(s, actions[1..][..n]) == Run(r, actions[..n + 1]);
      } else {
        assert !OneOpen(Run(r, actions[..1]).intents);
      }
    }
  }

  /** One step of a run that has kept to one open intent. */
  lemma StepOpens(r: Registry, a: Action)
    requires Sound(r) && OneOpen(r.intents)
    ensures OneOpen(Step(r, a).intents) <==>
      !(a.Insert? && Inserts(r, a.draft, a.ticketHash) && Open(r, a.draft.context))
  {
    hide Open, TicketTaken;
    if !a.Insert? {
      hide Step;
      OthersKeepOneOpen(r, a);
    } else if Inserts(r, a.draft, a.ticketHash) {
      InsertionKeepsOneOpen(r, a.draft, a.ticketHash, a.now);
    }
  }

  /** A preparation that nothing disturbs keeps it: if no intent of the context is inserted between
      its check and its own insertion, the insertion finds none. */
  lemma {:induction false} UndisturbedInsertion(r: Registry, d: Draft, between: seq<Action>)
    requires Sound(r) && !Open(r, d.context)
    requires forall a :: a in between && a.Insert? ==> a.draft.context != d.context
    ensures !Open(Run(r, between), d.context)
    decreases |between|
  {
    hide Sound, Step, Open;
    if |between| > 0 {
      assert between[0] in between;
      StaysClosed(r, between[0], d.context);
      StepSound(r, between[0]);
      UndisturbedInsertion(Step(r, between[0]), d, between[1..]);
    }
  }

  lemma StaysClosed(r: Registry, a: Action, c: Id)
    requires Sound(r) && !Open(r, c) && (a.Insert? ==> a.draft.context != c)
    ensures !Open(Step(r, a), c)
  {
    hide Step;
    var s := Step(r, a);
    StepMovesIntents(r, a);
    forall i | 0 <= i < |s.intents| ensures s.intents[i].context != c || Terminal(s.intents[i].state) {
      if i < |r.intents| {
        assert IntentMoves(r.intents[i], s.intents[i]);
      } else {
        InsertedIs(r, a);
      }
    }
  }

  lemma InsertedIs(r: Registry, a: Action)
    requires |Step(r, a).intents| > |r.intents|
    ensures a.Insert? && Step(r, a).intents == r.intents + [NewIntent(a.draft, a.ticketHash, a.now)]
  {
    hide Open, TicketTaken;
  }

  // ---------------------------------------------------------------------------
  // Two commits
  // ---------------------------------------------------------------------------

  /** An intent of the context that can no longer be committed: the epoch is past the recorded one,
      and it is not approved with its pre-flight behind it. */
  ghost predicate Spent(r: Registry, j: nat) {
    && j < |r.intents| && LeaseBehind(r, j) && r.intents[j].state != Committed
    && r.intents[j].sourceEpoch < r.leases[r.intents[j].context].epoch
    && !(r.intents[j].state == Approved && j in r.armed)
  }

  lemma StaysSpent(r: Registry, a: Action, j: nat)
    requires Sound(r) && Spent(r, j)
    ensures Spent(Step(r, a), j)
  {
    hide Step, Sound;
    var s := Step(r, a);
    SoundMoves(r, a, j);
    StepMovesLeases(r, a);
    assert LeaseMoves(r.leases[r.intents[j].context], s.leases[r.intents[j].context]);
    if s.intents[j].state == Committed {
      CommitsHere(r, a, j);
    }
    SpentUnarmed(r, a, j);
  }

  /** A pre-flight of such an intent does not pass. */
  lemma SpentUnarmed(r: Registry, a: Action, j: nat)
    requires Sound(r) && Spent(r, j)
    ensures j in Step(r, a).armed && j < |Step(r, a).intents| && Step(r, a).intents[j].state == Approved ==>
      j in r.armed && r.intents[j].state == Approved
  {
    hide Open, TicketTaken, TicketsDiffer, EpochsCount;
    if j in r.armed {
      assert ArmedFits(r, j);
    }
  }

  lemma {:induction false} RunsStaySpent(r: Registry, actions: seq<Action>, j: nat)
    requires Sound(r) && Spent(r, j)
    ensures Spent(Run(r, actions), j)
    decreases |actions|
  {
    hide Sound, Spent, Step;
    if |actions| > 0 {
      StaysSpent(r, actions[0], j);
      StepSound(r, actions[0]);
      RunsStaySpent(Step(r, actions[0]), actions[1..], j);
    }
  }

  /** Intent `j` is committed at the end of the run. */
  ghost predicate EndsCommitted(r: Registry, actions: seq<Action>, j: nat) {
    j < |Run(r, actions).intents| && Run(r, actions).intents[j].state == Committed
  }

  /** When two transfers of one context can both commit: once the first has, another intent of the
      context can still be committed if and only if it is committed already, or was approved with its
      pre-flight passed when the first committed. */
  lemma {:induction false} SecondCommit(r: Registry, i: nat, binding: Id, token: Id, at: int, j: nat)
    requires Sound(r) && Commits(r, i, binding, at)
    requires j < |r.intents| && j != i && r.intents[j].context == r.intents[i].context
    ensures r.intents[j].state == Committed || (r.intents[j].state == Approved && j in r.armed) <==>
      exists actions :: EndsCommitted(Step(r, Transact(i, binding, token, at)), actions, j)
  {
    var s := Step(r, Transact(i, binding, token, at));
    StepSound(r, Transact(i, binding, token, at));
    hide Sound;
    if r.intents[j].state == Committed {
      assert EndsCommitted(s, [], j);
    } else if r.intents[j].state == Approved && j in r.armed {
      var other := if binding == "x" then "y" else "x";
      assert Commits(s, j, other, 0);
      RunEndsWith(s, [], Transact(j, other, "t", 0));
      assert EndsCommitted(s, [] + [Transact(j, other, "t", 0)], j);
    } else {
      SoundBehind(r, j);
      assert Spent(s, j);
      forall actions ensures !EndsCommitted(s, actions, j) {
        RunsStaySpent(s, actions, j);
      }
    }
  }

  lemma SoundBehind(r: Registry, j: nat)
    requires Sound(r) && j < |r.intents|
    ensures LeaseBehind(r, j)
  {
  }

  /** Every intent of the context from number `n` on that records an epoch before `e` is spent. */
  ghost predicate LateAreSpent(r: Registry, n: nat, c: Id, e: nat) {
    && c in r.leases && r.leases[c].epoch >= e
    && forall k :: n <= k < |r.intents| && r.intents[k].context == c && r.intents[k].sourceEpoch < e ==> Spent(r, k)
  }

  lemma StepLate(r: Registry, a: Action, n: nat, c: Id, e: nat)
    requires Sound(r) && LateAreSpent(r, n, c, e)
    ensures LateAreSpent(Step(r, a), n, c, e)
  {
    hide Step, Spent, Sound;
    var s := Step(r, a);
    StepMovesLeases(r, a);
    assert LeaseMoves(r.leases[c], s.leases[c]);
    forall k | n <= k < |s.intents| && s.intents[k].context == c && s.intents[k].sourceEpoch < e ensures Spent(s, k) {
      if k < |r.intents| {
        SoundMoves(r, a, k);
        StaysSpent(r, a, k);
      } else {
        NewIsSpent(r, a, k);
      }
    }
  }

  /** An intent inserted behind its epoch is spent from the start. */
  lemma NewIsSpent(r: Registry, a: Action, k: nat)
    requires Sound(r) && |r.intents| <= k < |Step(r, a).intents|
    requires var t := Step(r, a).intents[k];
      t.context in Step(r, a).leases && t.sourceEpoch < Step(r, a).leases[t.context].epoch
    ensures Spent(Step(r, a), k)
  {
    hide Step, Sound;
    InsertedIs(r, a);
    StepSound(r, a);
    SoundBehind(Step(r, a), k);
  }

  lemma {:induction false} RunsLate(r: Registry, actions: seq<Action>, n: nat, c: Id, e: nat)
    requires Sound(r) && LateAreSpent(r, n, c, e)
    ensures LateAreSpent(Run(r, actions), n, c, e)
    decreases |actions|
  {
    hide Sound, LateAreSpent, Step;
    if |actions| > 0 {
      StepLate(r, actions[0], n, c, e);
      StepSound(r, actions[0]);
      RunsLate(Step(r, actions[0]), actions[1..], n, c, e);
    }
  }

  /** Two transfers of a context that commit from one recorded epoch: when the first of them did, the
      other was there, approved, with its pre-flight passed (or had committed before). */
  lemma {:induction false} SharedEpochs(
    r: Registry, i: nat, binding: Id, token: Id, at: int, actions: seq<Action>, j: nat)
    requires Sound(r) && Commits(r, i, binding, at) && j != i
    requires var s := Run(Step(r, Transact(i, binding, token, at)), actions);
      && j < |s.intents| && s.intents[j].context == r.intents[i].context
      && s.intents[j].sourceEpoch == r.intents[i].sourceEpoch && s.intents[j].state == Committed
    ensures j < |r.intents| && (r.intents[j].state == Committed || (r.intents[j].state == Approved && j in r.armed))
  {
    var c := r.intents[i].context;
    var a := Transact(i, binding, token, at);
    var s := Step(r, a);
    SoundBehind(r, i);
    StepSound(r, a);
    assert |s.intents| == |r.intents| && LateAreSpent(s, |r.intents|, c, r.leases[c].epoch + 1);
    hide Sound, Step, Spent, Commits;
    RunsLate(s, actions, |r.intents|, c, r.leases[c].epoch + 1);
    NotCommittedYet(Run(s, actions), j);
    if j < |r.intents| {
      RunsKeepIdentity(s, actions, j);
      SecondCommit(r, i, binding, token, at, j);
      assert EndsCommitted(s, actions, j);
    }
  }

  lemma NotCommittedYet(r: Registry, j: nat)
    ensures Spent(r, j) ==> j < |r.intents| && r.intents[j].state != Committed
  {
  }

  lemma {:induction false} RunsKeepIdentity(r: Registry, actions: seq<Action>, j: nat)
    requires Sound(r) && j < |r.intents|
    ensures j < |Run(r, actions).intents| && Run(r, actions).intents[j].context == r.intents[j].context
    decreases |actions|
  {
    IntentsChangeTwice(r, actions, j);
  }

  /** A committed intent and another one of its context: if that one is committed too it records
      another epoch, and if it is approved with its pre-flight passed it records a later one. */
  ghost predicate PairFits(r: Registry, i: nat, j: nat)
    requires i < |r.intents| && j < |r.intents|
  {
    var t, u := r.intents[i], r.intents[j];
    t.context == u.context && t.state == Committed ==>
      && (u.state == Committed ==> t.sourceEpoch != u.sourceEpoch)
      && (u.state == Approved && j in r.armed ==> t.sourceEpoch < u.sourceEpoch)
  }

  ghost predicate EpochsDiffer(r: Registry) {
    forall i, j :: 0 <= i < |r.intents| && 0 <= j < |r.intents| && i != j ==> PairFits(r, i, j)
  }

  /** As long as each context has one open intent, no two transfers of it commit from one epoch. */
  lemma {:induction false} OneOpenEpochsDiffer(r: Registry, actions: seq<Action>)
    requires Sound(r) && OneOpen(r.intents) && EpochsDiffer(r) && InsertsAlone(r, actions)
    ensures EpochsDiffer(Run(r, actions))
    decreases |actions|
  {
    hide Step, Sound, OneOpen, EpochsDiffer, Open, Inserts;
    if |actions| > 0 {
      StepDiffers(r, actions[0]);
      StepSound(r, actions[0]);
      StepOpens(r, actions[0]);
      OneOpenEpochsDiffer(Step(r, actions[0]), actions[1..]);
    }
  }

  lemma StepDiffers(r: Registry, a: Action)
    requires Sound(r) && OneOpen(r.intents) && EpochsDiffer(r)
    ensures EpochsDiffer(Step(r, a))
  {
    hide Step, PairFits;
    var s := Step(r, a);
    forall i, j | 0 <= i < |s.intents| && 0 <= j < |s.intents| && i != j ensures PairFits(s, i, j) {
      PairDiffers(r, a, i, j);
    }
  }

  lemma PairDiffers(r: Registry, a: Action, i: nat, j: nat)
    requires Sound(r) && OneOpen(r.intents) && EpochsDiffer(r) && i != j
    requires i < |Step(r, a).intents| && j < |Step(r, a).intents|
    ensures PairFits(Step(r, a), i, j)
  {
    hide Step, TicketsDiffer, EpochsCount;
    var s := Step(r, a);
    if s.intents[i].context == s.intents[j].context && s.intents[i].state == Committed {
      StepMovesIntents(r, a);
      CommitsHere(r, a, i);
      if j < |r.intents| {
        assert IntentMoves(r.intents[i], s.intents[i]) && IntentMoves(r.intents[j], s.intents[j]);
        assert LeasePast(r, i) && LeasePast(r, j) && PairFits(r, i, j) && PairFits(r, j, i);
        if s.intents[j].state == Committed {
          CommitsHere(r, a, j);
        } else if s.intents[j].state == Approved && j in s.armed {
          ArmsHere(r, a, j);
        }
      } else {
        InsertedIs(r, a);
      }
    }
  }

  /** Only its own pre-flight arms an intent, at the epoch that it records. */
  lemma ArmsHere(r: Registry, a: Action, j: nat)
    requires j < |r.intents| && j in Step(r, a).armed
    ensures j in r.armed ||
      (a == Preflight(j) && r.intents[j].context in r.leases && r.intents[j].state == Approved &&
       r.leases[r.intents[j].context].epoch == r.intents[j].sourceEpoch)
  {
    hide Open, TicketTaken;
  }

  lemma {:induction false} RunEndsWith(r: Registry, actions: seq<Action>, last: Action)
    ensures Run(r, actions + [last]) == Step(Run(r, actions), last)
    decreases |actions|
  {
    hide Step;
    if |actions| == 0 {
      assert (actions + [last])[1..] == [];
    } else {
      assert (actions + [last])[1..] == actions[1..] + [last];
      RunEndsWith(Step(r, actions[0]), actions[1..], last);
    }
  }
}
