/** What an invoked step may rely on. A success-only step runs after the success of those of its
    dependencies that its own pass has walked; an earlier one has succeeded exactly if it had when
    the pass was started. */
module EngineDependencies {
  import opened Options
  import opened TaskDomain
  import opened TaskEngine
  import opened EngineCoherence
  import opened EngineReceipts
  import opened EnginePass
  import opened EngineTheorems
  import opened EngineReplay
  import opened EngineScenarios

  predicate Succeeded(s: Status) {
    s == Completed || s == ReconciledSucceeded
  }

  /** The pass has invoked a success-only step that depends on `d`. */
  predicate InvokedOn(w: World, d: int)
    requires Shaped(w)
  {
    && w.pass.Some? && w.pass.value.control == Await
    && w.plan[w.pass.value.index].runWhen == OnSuccess && d in w.plan[w.pass.value.index].deps
  }

  /** In every run of a valid plan, when a success-only step has been invoked, no dependency of it
      has failed, been blocked or been skipped; and a dependency has succeeded exactly when it is
      at or after the start of the pass, or had succeeded when the pass was started. */
  lemma {:induction false} SuccessStepsFollowSuccess(plan: Plan, inputs: seq<Input>, d: int)
    requires ValidPlan(plan) && InvokedOn(Execute(Created(plan), inputs), d)
    ensures var p := Execute(Created(plan), inputs).pass.value;
      var at := Find(plan, d);
      && at.Some? && at.value < p.index && !Fails(p.rows[at.value].status)
      && (Succeeded(p.rows[at.value].status) <==> p.start <= at.value || Succeeded(p.entry[at.value].status))
  {
    hide Coherent, Accounted, Counting, Execute, Counted, DispatchedTaken;
    CreatedConsistent(plan);
    RunsWalk(Created(plan), inputs);
    var p := Execute(Created(plan), inputs).pass.value;
    var i := Find(plan, d).value;
    assert !Breaks(plan, p.rows, p.index);
    assert !DependencyFails(plan, p.rows, d);
    assert p.start <= i ==> Walked(plan, p.entry, p.rows, i);
  }

  // ---------------------------------------------------------------------------
  // Before a run is started
  // ---------------------------------------------------------------------------

  /** The inputs of a pass that is neither crashed nor followed by another command. */
  predicate OfOnePass(inputs: seq<Input>) {
    forall i :: 0 <= i < |inputs| ==> inputs[i].Tick? || inputs[i].Telemetry? || inputs[i].Grant?
  }

  lemma AdvanceKeepsStart(w: World, a: Answer)
    requires Shaped(w) && w.pass.Some?
    ensures var v := Advance(w, a);
      v.pass.Some? ==> v.pass.value.start == w.pass.value.start && v.pass.value.entry == w.pass.value.entry
  {
    hide First, CanMove, Breaks, Latest, BackoffDelay, WithStepTimeout;
  }

  /** A pass remembers what it was started from. */
  lemma {:induction false} PassKeepsStart(w: World, inputs: seq<Input>)
    requires Shaped(w) && OfOnePass(inputs)
    ensures var v := Execute(w, inputs);
      v.pass.Some? ==>
        && w.pass.Some?
        && v.pass.value.start == w.pass.value.start && v.pass.value.entry == w.pass.value.entry
    decreases |inputs|
  {
    hide Advance;
    if |inputs| > 0 {
      if w.pass.Some? && inputs[0].Tick? {
        AdvanceKeepsStart(w, inputs[0].answer);
      }
      PassKeepsStart(Next(w, inputs[0]), inputs[1..]);
    }
  }

  /** What a caller can tell before `run`: in the pass it starts, a dependency of an invoked
      success-only step has succeeded exactly when it lies at or after the start step, or is
      stored as succeeded now. */
  lemma {:induction false} RunFollowsSuccess(plan: Plan, before: seq<Input>, m: nat, turns: seq<Input>, d: int)
    requires ValidPlan(plan) && OfOnePass(turns)
    requires var w := Execute(Created(plan), before);
      w.pass.None? && InvokedOn(Execute(w, [Run(m)] + turns), d)
    ensures var w := Execute(Created(plan), before);
      var start := RunStart(plan, w.store.rows, w.store.task);
      var rows := Execute(w, [Run(m)] + turns).pass.value.rows;
      var at := Find(plan, d);
      && start.Some? && at.Some?
      && (Succeeded(rows[at.value].status) <==>
            start.value <= at.value || Succeeded(w.store.rows[at.value].status))
  {
    hide Execute, RunStart;
    var w := Execute(Created(plan), before);
    ExecuteJoins(Created(plan), before, [Run(m)] + turns);
    ExecuteJoins(w, [Run(m)], turns);
    ExecuteOne(w, Run(m));
    PassKeepsStart(Next(w, Run(m)), turns);
    SuccessStepsFollowSuccess(plan, before + ([Run(m)] + turns), d);
  }

  // ---------------------------------------------------------------------------
  // A dependency that waits for an approval does not hold its dependents back
  // ---------------------------------------------------------------------------

  /** Two independent steps, and one that runs on the success of the first. */
  function Three(): Plan {
    [ StepSpec(1, Some(Mutation), Mutation, [], OnSuccess),
      StepSpec(2, Some(Mutation), Mutation, [], OnSuccess),
      StepSpec(3, Some(Mutation), Mutation, [1], OnSuccess) ]
  }

  function Waiting(): seq<Row> {
    [Blank().(status := PendingApproval), Blank(), Blank()]
  }

  lemma NothingBreaks(rows: seq<Row>)
    requires |rows| == 3 && !Fails(rows[0].status)
    ensures forall k :: 0 <= k < 3 ==> !Breaks(Three(), rows, k)
  {
    var plan := Three();
    assert Find(plan, 1) == Some(0);
    assert !DependencyFails(plan, rows, 1);
    assert forall d :: d in plan[2].deps ==> d == 1;
  }

  lemma ThreeStarts()
    ensures var w := Created(Three());
      && w.store.rows == [Blank(), Blank(), Blank()] && !HasUnknown(w.store.rows)
      && Next(w, Run(1)) == w.(pass := Some(NewPass(w.store.rows, Planning, 0, 1, None, ByRun)))
  {
    var rows := Created(Three()).store.rows;
    assert rows == [Blank(), Blank(), Blank()];
    assert First(rows, {Pending}) == Some(0) && First(rows, UNRESOLVED) == Some(0);
  }

  /** The first run starts at the first step, and pauses there. */
  lemma Pauses()
    ensures var v := Execute(Created(Three()), [Run(1)] + Ticks([Proceed]) + Ticks(ASK + SAVE));
      Shaped(v) && v.plan == Three() && v.pass.None? && v.store.rows == Waiting() && v.store.task == WaitingApproval
  {
    hide Execute, Next, Breaks, Ahead, HasUnknown;
    var w := Created(Three());
    var rows := w.store.rows;
    ThreeStarts();
    var p := NewPass(rows, Planning, 0, 1, None, ByRun);
    Entered(w, Run(1), p);
    var v := Execute(w, [Run(1)] + Ticks([Proceed]));
    NothingBreaks(rows);
    StepAsks(v, 0, rows, None, ByRun);
    ExecuteJoins(w, [Run(1)] + Ticks([Proceed]), Ticks(ASK + SAVE));
  }

  /** The second run starts at the second step. */
  lemma {:induction false} WaitingStarts(w: World)
    requires Shaped(w) && w.plan == Three() && w.pass.None? && w.store.rows == Waiting() &&
      w.store.task == WaitingApproval
    ensures var v := Execute(w, [Run(1)] + Ticks([Proceed]));
      v.plan == w.plan && Ahead(v, 1, Waiting(), None, ByRun)
  {
    var rows := w.store.rows;
    assert First(rows, {Pending}, 1) == Some(1);
    assert First(rows, {Pending}) == Some(1) && First(rows, UNRESOLVED) == Some(0);
    var p := NewPass(rows, WaitingApproval, 1, 1, None, ByRun);
    assert Next(w, Run(1)).pass == Some(p);
    hide Execute, Next, First, Ahead;
    Entered(w, Run(1), p);
  }

  /** With the first step waiting for its approval, a second run completes the second step and
      invokes the third, although the step it depends on has not run. */
  lemma WaitingDependencyIsIgnored() returns (inputs: seq<Input>)
    ensures var v := Execute(Created(Three()), inputs);
      && v.pass.Some? && v.pass.value.rows[0].status == PendingApproval
      && |v.log| > 0 && v.log[|v.log| - 1] == Dispatched(2, 1)
  {
    hide Execute, Breaks, Ahead;
    var pause, start := [Run(1)] + Ticks([Proceed]) + Ticks(ASK + SAVE), [Run(1)] + Ticks([Proceed]);
    var w0 := Created(Three());
    Pauses();
    var w := Execute(w0, pause);
    WaitingStarts(w);
    var v := Execute(w, start);
    NothingBreaks(Waiting());
    StepEnds(v, 1, Waiting(), None, ByRun, false);
    var done := Ticks(INVOKE + Exit(false));
    var u := Execute(v, done);
    var after := Waiting()[1 := CompletedRow(StartedRow(Blank()))];
    NothingBreaks(after);
    var x, q := StepInvoked(u, 2, after, None, ByRun);
    inputs := pause + (start + (done + Ticks(INVOKE)));
    ExecuteJoins(w0, pause, start + (done + Ticks(INVOKE)));
    ExecuteJoins(w, start, done + Ticks(INVOKE));
    ExecuteJoins(v, done, Ticks(INVOKE));
  }
}
