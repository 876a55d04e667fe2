/** Runs in which approvals go wrong, for every plan they can go wrong for. */
module EngineApprovals {
  import opened Options
  import opened TaskDomain
  import opened TaskEngine
  import opened EngineCoherence
  import opened EngineFinality
  import opened EnginePlaces
  import opened EngineReplay
  import opened EngineScenarios

  lemma AllPending(plan: Plan)
    requires ValidPlan(plan) && |plan| > 0
    ensures var rows := Created(plan).store.rows;
      && First(rows, {Pending}) == Some(0) && First(rows, UNRESOLVED) == Some(0)
      && First(rows, NOT_COMPLETED) == Some(0)
      && !HasUnknown(rows) && RunStart(plan, rows, Planning) == Some(0) && Runs(plan, rows, 0)
  {
    FirstHasNoDeps(plan);
  }

  // ---------------------------------------------------------------------------
  // A pause during recovery
  // ---------------------------------------------------------------------------

  /** A run that was interrupted before its first step. */
  lemma Interrupted(plan: Plan)
    requires ValidPlan(plan) && |plan| > 0
    ensures var w := Created(plan);
      var v := Execute(w, [Run(1)] + Ticks([Proceed]) + [Crash]);
      v == w.(store := w.store.(task := Executing))
  {
    hide Execute, RunStart, First, Ahead;
    var w := Created(plan);
    AllPending(plan);
    var p := NewPass(w.store.rows, Planning, 0, 1, None, ByRun);
    Entered(w, Run(1), p);
    ExecuteJoins(w, [Run(1)] + Ticks([Proceed]), [Crash]);
    ExecuteOne(Execute(w, [Run(1)] + Ticks([Proceed])), Crash);
  }

  /** Every plan has a run after which its task is lost: interrupted, recovered, and paused for an
      approval by the recovery, which then stores a name that is no state. */
  lemma RecoveryCanLoseATask(plan: Plan) returns (inputs: seq<Input>)
    requires ValidPlan(plan) && |plan| > 0
    ensures var v := Execute(Created(plan), inputs);
      v.pass.None? && v.store.task == NotAState
  {
    hide Execute, RunStart, First, Ahead, Next;
    var first, again := [Run(1)] + Ticks([Proceed]) + [Crash], [Recover] + Ticks([Proceed]);
    var w := Execute(Created(plan), first);
    Interrupted(plan);
    AllPending(plan);
    Recovers(w);
    var p := NewPass(w.store.rows, Executing, 0, 1, None, ByRecovery);
    Entered(w, Recover, p);
    StepAsks(Execute(w, again), 0, w.store.rows, None, ByRecovery);
    inputs := first + (again + Ticks(ASK + SAVE));
    ExecuteJoins(Created(plan), first, again + Ticks(ASK + SAVE));
    ExecuteJoins(w, again, Ticks(ASK + SAVE));
  }

  lemma Recovers(w: World)
    requires Shaped(w) && w.pass.None? && w.store.task == Executing && !HasUnknown(w.store.rows)
    requires First(w.store.rows, NOT_COMPLETED) == Some(0) && w.store.rows[0].status == Pending
    ensures Next(w, Recover).pass == Some(NewPass(w.store.rows, Executing, 0, 1, None, ByRecovery))
  {
    hide First, HasUnknown;
  }

  // ---------------------------------------------------------------------------
  // A second grant for the same step
  // ---------------------------------------------------------------------------

  /** Two steps that depend on nothing. */
  function Pair(): Plan {
    [StepSpec(1, Some(Mutation), Mutation, [], OnSuccess), StepSpec(2, Some(Mutation), Mutation, [], OnSuccess)]
  }

  /** No pass is running, and every checkpoint is kept. */
  ghost predicate Resting(w: World, task: TaskState, rows: seq<Row>, approvals: seq<Approval>) {
    && Shaped(w) && w.plan == Pair() && |rows| == 2 && w.pass.None? && w.telemetry
    && w.store.rows == rows && w.store.approvals == approvals && w.store.task == task
    && NoUnknown(rows)
  }

  lemma PairRuns(rows: seq<Row>, k: nat)
    requires |rows| == 2 && k < 2 && !Resolved(rows[k].status)
    ensures Runs(Pair(), rows, k)
  {
  }

  function Failing(r: Row): Row {
    FailedRow(StartedRow(r), Failed)
  }

  function Asking(r: Row): Row {
    r.(status := PendingApproval)
  }

  /** A run from the first step: it exits non-zero, and the second step asks. */
  lemma {:induction false} RunFailsThenAsks(w: World, task: TaskState, rows: seq<Row>, approvals: seq<Approval>)
    returns (inputs: seq<Input>)
    requires Resting(w, task, rows, approvals) && CanMove(task, Executing)
    requires RunStart(Pair(), rows, task) == Some(0)
    requires !Resolved(rows[0].status) && !Resolved(rows[1].status)
    ensures var v := Execute(w, inputs);
      && v.store.checkpoint == Some(1) && GoesOn(w, v)
      && Resting(v, WaitingApproval, [Failing(rows[0]), Asking(rows[1])], approvals + [Approval(1, Asked)])
    ensures forall i :: i in inputs ==> !i.Resume?
  {
    hide Execute, RunStart, Breaks, CanMove, Runs;
    UnknownIsUnknown(rows);
    var p := NewPass(rows, task, 0, 1, None, ByRun);
    var start, fail, ask := [Run(1)] + Ticks([Proceed]), Ticks(INVOKE + Exit(true)), Ticks(ASK + SAVE);
    Entered(w, Run(1), p);
    var u := Execute(w, start);
    PairRuns(rows, 0);
    StepEnds(u, 0, rows, None, ByRun, true);
    var x := Execute(u, fail);
    var after := [Failing(rows[0]), rows[1]];
    assert rows[0 := Verdicted(StartedRow(rows[0]), true)] == after;
    PairRuns(after, 1);
    StepAsks(x, 1, after, None, ByRun);
    inputs := start + (fail + ask);
    ExecuteJoins(w, start, fail + ask);
    ExecuteJoins(u, fail, ask);
    GoesOnJoins(u, x, Execute(x, ask));
    assert [Failing(rows[0]), Asking(rows[1])] == after[1 := Asking(rows[1])];
  }

  /** Grant a request of the second step and resume: it is reset to pending. */
  lemma {:induction false} ResumeStarts(w: World, task: TaskState, rows: seq<Row>, approvals: seq<Approval>, a: nat)
    requires Resting(w, task, rows, approvals) && w.store.checkpoint == Some(1)
    requires task == WaitingApproval || task == TaskFailed
    requires a < |approvals| && approvals[a] == Approval(1, Asked)
    ensures var v := Execute(w, [Grant(a)] + ([Resume(a, 1)] + Ticks([Proceed])));
      && GoesOn(w, v) && v.store.approvals == approvals[a := Approval(1, Consumed)]
      && Ahead(v, 1, rows[1 := rows[1].(status := Pending)], Some(1), ByResume)
  {
    var u := Next(w, Grant(a));
    var reset := rows[1 := rows[1].(status := Pending)];
    var p := NewPass(reset, task, 1, 1, Some(1), ByResume);
    assert Next(u, Resume(a, 1)).pass == Some(p);
    assert Next(u, Resume(a, 1)).store.approvals == approvals[a := Approval(1, Consumed)];
    hide Execute, Next, Ahead;
    UnknownIsUnknown(reset);
    ExecuteJoins(w, [Grant(a)], [Resume(a, 1)] + Ticks([Proceed]));
    ExecuteOne(w, Grant(a));
    Entered(u, Resume(a, 1), p);
  }

  /** The resumption completes the second step; the task fails, because the first one did. */
  lemma {:induction false} ResumeCompletes(w: World, rows: seq<Row>, approvals: seq<Approval>, a: nat)
    returns (inputs: seq<Input>)
    requires Resting(w, WaitingApproval, rows, approvals) && w.store.checkpoint == Some(1) && rows[0].status == Failed
    requires a < |approvals| && approvals[a] == Approval(1, Asked)
    ensures var v := Execute(w, inputs);
      var done := CompletedRow(StartedRow(rows[1].(status := Pending)));
      && GoesOn(w, v) && Saved(1, Completed) in v.log && v.store.checkpoint == Some(1)
      && Resting(v, TaskFailed, [rows[0], done], approvals[a := Approval(1, Consumed)])
  {
    hide Execute, Breaks, First;
    var reset := rows[1 := rows[1].(status := Pending)];
    var start, end := [Grant(a)] + ([Resume(a, 1)] + Ticks([Proceed])), Ticks(INVOKE + Exit(false));
    ResumeStarts(w, WaitingApproval, rows, approvals, a);
    var u := Execute(w, start);
    PairRuns(reset, 1);
    StepEnds(u, 1, reset, Some(1), ByResume, false);
    var x := Execute(u, end);
    var after := [rows[0], CompletedRow(StartedRow(reset[1]))];
    assert reset[1 := Verdicted(StartedRow(reset[1]), false)] == after;
    assert after[0].status in UNRESOLVED;
    assert First(after, UNRESOLVED).Some?;
    PlanFails(x, after, Some(1), ByResume);
    var v := Execute(x, Ticks(SAVE));
    inputs := start + (end + Ticks(SAVE));
    ExecuteJoins(w, start, end + Ticks(SAVE));
    ExecuteJoins(u, end, Ticks(SAVE));
    Remains(u, x, v, Saved(1, Completed));
    GoesOnJoins(w, u, v);
  }

  lemma Remains(u: World, x: World, v: World, e: Event)
    requires GoesOn(u, x) && GoesOn(x, v) && e in x.log
    ensures GoesOn(u, v) && e in v.log
  {
    GoesOnJoins(u, x, v);
    var i :| 0 <= i < |x.log| && x.log[i] == e;
    assert v.log[..|x.log|][i] == e;
  }

  /** The run: twice, the first step exits non-zero and the second one asks, so that two requests
      are open for it. Resuming the first completes it; resuming the second, from the failed task,
      resets it and invokes it again. Every checkpoint is kept. */
  lemma {:induction false} SecondGrantRepeatsAStep() returns (inputs: seq<Input>)
    ensures !CompletedIsFinal(Execute(Created(Pair()), inputs).log)
  {
    hide Execute, CompletedIsFinal, RunStart, GoesOn;
    var b := Blank();
    var w0 := Created(Pair());
    FirstStarts();
    var i1 := RunFailsThenAsks(w0, Planning, [b, b], []);
    var w1 := Execute(w0, i1);
    SecondStarts();
    var i2 := RunFailsThenAsks(w1, WaitingApproval, [Failing(b), Asking(b)], [Approval(1, Asked)]);
    var w2 := Execute(w1, i2);
    var i3 := RepeatsFrom(w2);
    inputs := i1 + (i2 + i3);
    ExecuteJoins(w0, i1, i2 + i3);
    ExecuteJoins(w1, i2, i3);
  }

  lemma FirstStarts()
    ensures var w := Created(Pair());
      Resting(w, Planning, [Blank(), Blank()], []) && RunStart(Pair(), [Blank(), Blank()], Planning) == Some(0)
  {
    assert Created(Pair()).store.rows == [Blank(), Blank()];
    assert First([Blank(), Blank()], {Pending}) == Some(0);
  }

  lemma SecondStarts()
    ensures RunStart(Pair(), [Failing(Blank()), Asking(Blank())], WaitingApproval) == Some(0)
  {
    var rows := [Failing(Blank()), Asking(Blank())];
    assert First(rows, {Pending}).None?;
    assert First(rows, {Failed, OutcomeUnknown, PendingApproval}) == Some(0);
    assert First(rows, {OutcomeUnknown}).None?;
  }

  lemma {:induction false} RepeatsFrom(w: World) returns (inputs: seq<Input>)
    requires Resting(w, WaitingApproval, [Failing(Failing(Blank())), Asking(Asking(Blank()))],
                     [Approval(1, Asked), Approval(1, Asked)])
    requires w.store.checkpoint == Some(1)
    ensures !CompletedIsFinal(Execute(w, inputs).log)
  {
    hide Execute, Breaks, CompletedIsFinal;
    var rows, approvals := w.store.rows, w.store.approvals;
    var first := ResumeCompletes(w, rows, approvals, 0);
    var v := Execute(w, first);
    var later, left := v.store.rows, v.store.approvals;
    ResumeStarts(v, TaskFailed, later, left, 1);
    var start := [Grant(1)] + ([Resume(1, 1)] + Ticks([Proceed]));
    var u := Execute(v, start);
    var reset := later[1 := later[1].(status := Pending)];
    PairRuns(reset, 1);
    var x, q := StepInvoked(u, 1, reset, Some(1), ByResume);
    inputs := first + (start + Ticks(INVOKE));
    ExecuteJoins(w, first, start + Ticks(INVOKE));
    ExecuteJoins(v, start, Ticks(INVOKE));
    RepeatShows(v, u, x, 1);
  }

  lemma RepeatShows(v: World, u: World, x: World, k: nat)
    requires GoesOn(v, u) && GoesOn(u, x) && Saved(k, Completed) in v.log && |x.log| > |u.log|
    requires x.log[|x.log| - 1].Dispatched? && x.log[|x.log| - 1].step == k
    ensures !CompletedIsFinal(x.log)
  {
    GoesOnJoins(v, u, x);
    var i :| 0 <= i < |v.log| && v.log[i] == Saved(k, Completed);
    assert x.log[..|v.log|][i] == x.log[i];
  }
}
