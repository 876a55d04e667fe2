/** Runs in which the transfer of a context does not do what its design says. */
module HandoffRuns {
  import opened Options
  import opened Ownership
  import opened Handoff
  import opened HandoffTheorems

  lemma {:induction false} RunJoins(r: Registry, a: seq<Action>, b: seq<Action>)
    ensures Run(r, a + b) == Run(Run(r, a), b)
    decreases |a|
  {
    hide Step;
    if |a| == 0 {
      assert a + b == b;
    } else {
      assert (a + b)[1..] == a[1..] + b;
      RunJoins(Step(r, a[0]), a[1..], b);
    }
  }

  lemma {:induction false} RunTwo(r: Registry, a: Action, b: Action)
    ensures Run(r, [a, b]) == Step(Step(r, a), b)
  {
    hide Step;
    assert [a, b][1..] == [b];
    RunOne(Step(r, a), b);
  }

  lemma {:induction false} RunOne(r: Registry, a: Action)
    ensures Run(r, [a]) == Step(r, a)
  {
    hide Step;
    assert [a][1..] == [];
  }

  /** The registry of these runs: one active context, leased to binding "a" at epoch 1. */
  function Held(lease: Lease, intents: seq<Intent>, drafts: set<Draft>, armed: set<nat>): Registry {
    Registry(map["c" := lease], map["c" := Active], intents, drafts, drafts, armed)
  }

  const START := Fresh(map["c" := Active])
  const LEASE := Lease("a", 1, 60000, "t1")
  const TO_B := Draft("c", "a", "b", 1)
  const TO_D := Draft("c", "a", "d", 1)

  function At(d: Draft, ticketHash: Id, state: IntentState, committedAt: Option<int>): Intent {
    var t := NewIntent(d, ticketHash, 1);
    if state == Prepared then t
    else t.(state := state, approvedBy := Some("owner"), approvedAt := Some(2), committedAt := committedAt)
  }

  /** The lease is acquired. */
  lemma Acquires()
    ensures Run(START, [Acquire("c", "a", 60000, 0, "t1")]) == Held(LEASE, [], {}, {})
  {
    RunOne(START, Acquire("c", "a", 60000, 0, "t1"));
  }

  /** A lease is read and no intent is found open. */
  lemma Clears(d: Draft, drafts: set<Draft>)
    requires d == TO_B || d == TO_D
    ensures Run(Held(LEASE, [], drafts, {}), [ReadLease("c", "a", d.target), CheckOpen(d)]) ==
            Held(LEASE, [], drafts + {d}, {})
  {
    var r := Held(LEASE, [], drafts, {});
    RunTwo(r, ReadLease("c", "a", d.target), CheckOpen(d));
    assert !Open(r.(drafts := drafts + {d}), "c");
  }

  // ---------------------------------------------------------------------------
  // One transfer
  // ---------------------------------------------------------------------------

  /** Up to the pre-flight. */
  const PREPARED: seq<Action> :=
    [Acquire("c", "a", 60000, 0, "t1")] + [ReadLease("c", "a", "b"), CheckOpen(TO_B)] +
    [Insert(TO_B, "h", 1), Approve(0, "owner", "h", 2)] + [Preflight(0)]

  lemma PreparedRun()
    ensures Run(START, PREPARED) == Held(LEASE, [At(TO_B, "h", Approved, None)], {TO_B}, {0})
  {
    var a, b := [Acquire("c", "a", 60000, 0, "t1")], [ReadLease("c", "a", "b"), CheckOpen(TO_B)];
    var c := [Insert(TO_B, "h", 1), Approve(0, "owner", "h", 2)];
    hide Run;
    RunJoins(START, a + b + c, [Preflight(0)]);
    RunJoins(START, a + b, c);
    RunJoins(START, a, b);
    Acquires();
    Clears(TO_B, {});
    assert {} + {TO_B} == {TO_B};
    InsertsAndApproves();
    Passes();
  }

  lemma Passes()
    ensures Run(Held(LEASE, [At(TO_B, "h", Approved, None)], {TO_B}, {}), [Preflight(0)]) ==
            Held(LEASE, [At(TO_B, "h", Approved, None)], {TO_B}, {0})
  {
    RunOne(Held(LEASE, [At(TO_B, "h", Approved, None)], {TO_B}, {}), Preflight(0));
  }

  lemma InsertsAndApproves()
    ensures Run(Held(LEASE, [], {TO_B}, {}), [Insert(TO_B, "h", 1), Approve(0, "owner", "h", 2)]) ==
            Held(LEASE, [At(TO_B, "h", Approved, None)], {TO_B}, {})
  {
    var r := Held(LEASE, [], {TO_B}, {});
    RunTwo(r, Insert(TO_B, "h", 1), Approve(0, "owner", "h", 2));
    assert !TicketTaken(r, "h");
    assert Step(r, Insert(TO_B, "h", 1)).intents == [At(TO_B, "h", Prepared, None)];
  }

  /** The designed lifecycle passes through draining. The code never does: it commits straight
      from approved, a move that the transition table does not have. */
  lemma CommitSkipsDraining()
    ensures var r := Run(START, PREPARED + [Transact(0, "b", "t2", 3)]);
            |r.intents| == 1 && r.intents[0].state == Committed
    ensures !CanTransition(Approved, Committed)
    ensures forall contexts, actions: seq<Action>, i ::
              var r := Run(Fresh(contexts), actions);
              0 <= i < |r.intents| ==> r.intents[i].state != Draining
  {
    PreparedRun();
    RunEndsWith(START, PREPARED, Transact(0, "b", "t2", 3));
    forall contexts, actions: seq<Action>, i | 0 <= i < |Run(Fresh(contexts), actions).intents|
      ensures Run(Fresh(contexts), actions).intents[i].state != Draining
    {
      IntentsAreWellKept(contexts, actions);
    }
  }

  /** The lease expires, and a third binding acquires it, between the pre-flight and the
      transaction: the transfer takes the context from a binding that its intent does not name. */
  lemma StaleTransferCommits()
    ensures var late := PREPARED + [Acquire("c", "x", 60000, 60000, "t3")];
            var taken, after := Run(START, late), Run(START, late + [Transact(0, "b", "t2", 60001)]);
            && "c" in taken.leases && taken.leases["c"].owner == "x"
            && |after.intents| == 1 && after.intents[0].state == Committed && after.intents[0].sourceBinding == "a"
            && "c" in after.leases && after.leases["c"].owner == "b" && after.leases["c"].epoch == 3
  {
    var late := PREPARED + [Acquire("c", "x", 60000, 60000, "t3")];
    PreparedRun();
    RunEndsWith(START, PREPARED, Acquire("c", "x", 60000, 60000, "t3"));
    RunEndsWith(START, late, Transact(0, "b", "t2", 60001));
  }

  // ---------------------------------------------------------------------------
  // Two transfers at once
  // ---------------------------------------------------------------------------

  /** Two calls read the lease and find no open intent before either of them inserts its own. */
  const BOTH_OPEN: seq<Action> :=
    [Acquire("c", "a", 60000, 0, "t1")] + [ReadLease("c", "a", "b"), CheckOpen(TO_B)] +
    [ReadLease("c", "a", "d"), CheckOpen(TO_D)] + [Insert(TO_B, "h1", 1), Insert(TO_D, "h2", 1)]

  const BOTH_COMMIT: seq<Action> :=
    [Approve(0, "owner", "h1", 2), Approve(1, "owner", "h2", 2)] + [Preflight(0), Preflight(1)] +
    [Transact(0, "b", "t2", 3), Transact(1, "d", "t3", 4)]

  lemma BothOpen()
    ensures Run(START, BOTH_OPEN) ==
            Held(LEASE, [At(TO_B, "h1", Prepared, None), At(TO_D, "h2", Prepared, None)], {TO_B, TO_D}, {})
  {
    var a, b := [Acquire("c", "a", 60000, 0, "t1")], [ReadLease("c", "a", "b"), CheckOpen(TO_B)];
    var c, d := [ReadLease("c", "a", "d"), CheckOpen(TO_D)], [Insert(TO_B, "h1", 1), Insert(TO_D, "h2", 1)];
    RunJoins(START, a + b + c, d);
    RunJoins(START, a + b, c);
    RunJoins(START, a, b);
    Acquires();
    Clears(TO_B, {});
    assert {} + {TO_B} == {TO_B};
    Clears(TO_D, {TO_B});
    BothInsert();
  }

  lemma BothInsert()
    ensures Run(Held(LEASE, [], {TO_B} + {TO_D}, {}), [Insert(TO_B, "h1", 1), Insert(TO_D, "h2", 1)]) ==
            Held(LEASE, [At(TO_B, "h1", Prepared, None), At(TO_D, "h2", Prepared, None)], {TO_B, TO_D}, {})
  {
    var r := Held(LEASE, [], {TO_B} + {TO_D}, {});
    RunTwo(r, Insert(TO_B, "h1", 1), Insert(TO_D, "h2", 1));
    assert !TicketTaken(r, "h1");
    var s := Step(r, Insert(TO_B, "h1", 1));
    assert s.intents == [At(TO_B, "h1", Prepared, None)];
    assert "h1" != "h2";
    assert !TicketTaken(s, "h2");
    assert {TO_B} + {TO_D} == {TO_B, TO_D};
  }

  lemma BothPass()
    ensures var r := Held(LEASE, [At(TO_B, "h1", Prepared, None), At(TO_D, "h2", Prepared, None)], {TO_B, TO_D}, {});
      Run(r, [Approve(0, "owner", "h1", 2), Approve(1, "owner", "h2", 2)] + [Preflight(0), Preflight(1)]) ==
      Held(LEASE, [At(TO_B, "h1", Approved, None), At(TO_D, "h2", Approved, None)], {TO_B, TO_D}, {0, 1})
  {
    var r := Held(LEASE, [At(TO_B, "h1", Prepared, None), At(TO_D, "h2", Prepared, None)], {TO_B, TO_D}, {});
    var s := Held(LEASE, [At(TO_B, "h1", Approved, None), At(TO_D, "h2", Approved, None)], {TO_B, TO_D}, {});
    RunJoins(r, [Approve(0, "owner", "h1", 2), Approve(1, "owner", "h2", 2)], [Preflight(0), Preflight(1)]);
    RunTwo(r, Approve(0, "owner", "h1", 2), Approve(1, "owner", "h2", 2));
    assert Step(Step(r, Approve(0, "owner", "h1", 2)), Approve(1, "owner", "h2", 2)).intents == s.intents;
    RunTwo(s, Preflight(0), Preflight(1));
    assert {} + {0} + {1} == {0, 1};
  }

  /** Two intents of one context are open at once, and both commit from the same epoch: the context
      is rebound twice. */
  lemma TwoTransfersCommit()
    ensures !OneOpen(Run(START, BOTH_OPEN).intents)
    ensures var r := Run(START, BOTH_OPEN + BOTH_COMMIT);
      && |r.intents| == 2 && r.intents[0].context == r.intents[1].context == "c"
      && r.intents[0].state == Committed && r.intents[1].state == Committed
      && r.intents[0].sourceEpoch == r.intents[1].sourceEpoch == 1
      && "c" in r.leases && r.leases["c"].owner == "d" && r.leases["c"].epoch == 3
  {
    BothOpen();
    var r := Run(START, BOTH_OPEN);
    assert r.intents[0].context == r.intents[1].context;
    var pass := [Approve(0, "owner", "h1", 2), Approve(1, "owner", "h2", 2)] + [Preflight(0), Preflight(1)];
    var last := [Transact(0, "b", "t2", 3), Transact(1, "d", "t3", 4)];
    RunJoins(START, BOTH_OPEN, BOTH_COMMIT);
    RunJoins(r, pass, last);
    BothPass();
    RunTwo(Run(r, pass), Transact(0, "b", "t2", 3), Transact(1, "d", "t3", 4));
  }
}
