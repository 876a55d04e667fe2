/** The callers of the loop: running a task, resuming it with an approval, and crash recovery.
    Each one is the command of the transition system followed by the pass it starts. */
module TaskRuntime {
  import opened Options
  import opened TaskDomain
  import opened TaskEngine
  import opened EngineCoherence
  import opened EngineFinality
  import opened EnginePass
  import opened EngineTheorems
  import opened EngineReplay
  import opened ClosedAgentLoop

  datatype Outcome =
    | Refused
    | NothingToRun(result: Result)
    | Skipped
    | IllegalState
    | Walked(result: Result)

  class Task {
    const plan: Plan
    /** The retry policy; zero means no limit. */
    const maxTotalAttempts: nat
    const maxConsecutiveFailures: nat

    /** The persisted tables. */
    var store: Store
    /** Whether best-effort writes are being kept. */
    var telemetry: bool
    var runs: nat
    ghost var log: seq<Event>

    ghost function Stored(): World
      reads this
    {
      World(plan, store, log, None, telemetry)
    }

    /** A created task. */
    constructor (plan: Plan, maxTotalAttempts: nat, maxConsecutiveFailures: nat)
      ensures Stored() == Created(plan) && runs == 0
      ensures this.plan == plan
      ensures this.maxTotalAttempts == maxTotalAttempts && this.maxConsecutiveFailures == maxConsecutiveFailures
    {
      this.plan := plan;
      this.maxTotalAttempts, this.maxConsecutiveFailures := maxTotalAttempts, maxConsecutiveFailures;
      store := Store(seq(|plan|, _ => Row(Pending, 0, 0, [])), [], Planning, [], None);
      telemetry, runs, log := true, 0, [];
    }

    /** Walk the plan from `start` and save it, as run and resume do; crash recovery stores the
        name of the result instead of the state. */
    method Walk(env: Environment, clock: nat, steps: seq<Row>, state: TaskState, start: nat, maxRecovery: nat,
                approved: Option<nat>, caller: Caller)
      returns (result: Option<Result>, ghost trace: seq<Input>)
      requires var p := NewPass(steps, state, start, maxRecovery, approved, caller);
               Coherent(Stored().(pass := Some(p)))
      modifies this
      ensures var p := NewPass(steps, state, start, maxRecovery, approved, caller);
              Stored() == Execute(old(Stored()).(pass := Some(p)), trace) && OfThePass(trace)
      ensures result.None? <==> DeadState(state)
      ensures runs == old(runs)
    {
      hide Coherent, Execute, Turn, Loop.Coupled, Follows, Walking, OfThePass;
      var loop := new Loop(plan, env, clock, store, telemetry, steps, state, start, maxRecovery, approved, caller, log);
      ghost var w := loop.model;
      result := loop.RunClosedAgentLoop();
      trace := loop.trace + [Tick(Proceed)];
      Closes(w, loop.trace, loop.model);
      SaveAfter(loop, result);
    }

    /** The caller's save, after the loop ended or its first move threw. */
    method SaveAfter(loop: Loop, result: Option<Result>)
      requires loop.plan == plan
      requires if result.Some? then loop.At(Post(result.value)) else loop.At(Broken)
      modifies this
      ensures Stored() == Turn(loop.model, Proceed) && runs == old(runs)
    {
      hide Coherent, Turn, Loop.Coupled;
      log := loop.model.log;
      telemetry := loop.telemetry;
      if result.Some? {
        loop.PostSaves(result.value);
        store := loop.store.(rows := loop.steps,
                             task := if loop.caller == ByRecovery then ResultAsState(result.value) else loop.state);
      } else {
        loop.BrokenSaves();
        store := loop.store;
      }
    }

    /** TaskRuntimeService.run. A task is refused when an effect is unknown, when an approval is
        pending, when a dependency of the first runnable step is unmet, or when a retry budget
        is spent. */
    method Run(env: Environment, clock: nat, maxRecovery: nat) returns (outcome: Outcome, ghost trace: seq<Input>)
      requires Shaped(Stored())
      modifies this
      ensures outcome.Walked? <==>
        && RunStart(plan, old(store.rows), old(store.task)).Some? && !DeadState(old(store.task))
        && WithinBudget(old(store.rows), old(runs), RunStart(plan, old(store.rows), old(store.task)).value)
      ensures outcome == NothingToRun(LoopCompleted) <==>
        !HasUnknown(old(store.rows)) && old(store.task) != TaskCancelled && First(old(store.rows), UNRESOLVED).None?
      ensures runs == old(runs) + (if outcome.Walked? then 1 else 0) && OfThePass(trace)
      ensures if outcome.Walked? || outcome.IllegalState?
              then Stored() == Execute(old(Stored()), [TaskEngine.Run(maxRecovery)] + trace)
              else Stored() == old(Stored())
    {
      hide Coherent, Execute, HasUnknown, First;
      trace := [];
      if HasUnknown(store.rows) {
        return Refused, [];
      }
      if store.task == TaskCancelled {
        return Skipped, [];
      }
      if First(store.rows, UNRESOLVED).None? {
        return NothingToRun(LoopCompleted), [];
      }
      var start := First(store.rows, {Pending});
      if start.None? {
        start := First(store.rows, {Failed, OutcomeUnknown, PendingApproval});
      }
      if start.None? {
        return NothingToRun(LoopFailed), [];
      }
      if store.rows[start.value].status == PendingApproval {
        return Refused, [];
      }
      var met := DependenciesMet(start.value);
      if !met || !WithinBudget(store.rows, runs, start.value) {
        return Refused, [];
      }
      ghost var before := Stored();
      StartsAs(before, TaskEngine.Run(maxRecovery));
      var result;
      result, trace := Walk(env, clock, store.rows, store.task, start.value, maxRecovery, None, ByRun);
      if result.None? {
        return IllegalState, trace;
      }
      runs := runs + 1;
      outcome := Walked(result.value);
    }

    /** The two retry limits; a pending step is not held to the second. */
    predicate WithinBudget(rows: seq<Row>, runs: nat, start: nat)
      requires start < |rows|
    {
      && (maxTotalAttempts == 0 || runs + 1 <= maxTotalAttempts)
      && (maxConsecutiveFailures == 0 || rows[start].status == Pending ||
          rows[start].failures < maxConsecutiveFailures)
    }

    /** The dependency gate of the first runnable step. */
    method DependenciesMet(start: nat) returns (met: bool)
      requires |plan| == |store.rows| && start < |plan|
      ensures var corrective := store.rows[start].status == Pending && |plan[start].deps| > 0;
              met <==> forall d | d in plan[start].deps :: DependencyAllowsStart(plan, store.rows, d, corrective)
    {
      var deps := plan[start].deps;
      var corrective := store.rows[start].status == Pending && |deps| > 0;
      for i := 0 to |deps|
        invariant forall k :: 0 <= k < i ==> DependencyAllowsStart(plan, store.rows, deps[k], corrective)
      {
        if !DependencyAllowsStart(plan, store.rows, deps[i], corrective) {
          assert deps[i] in plan[start].deps;
          return false;
        }
      }
      met := true;
    }

    /** recoverInterruptedTasks, for one task. */
    method Recover(env: Environment, clock: nat) returns (outcome: Outcome, ghost trace: seq<Input>)
      requires Shaped(Stored())
      modifies this
      ensures Stored() == Execute(old(Stored()), [TaskEngine.Recover] + trace) && OfThePass(trace)
      ensures runs == old(runs)
    {
      hide Coherent, Execute, HasUnknown, First, FinishReceipt;
      trace := [];
      ghost var before := Stored();
      StartsAs(before, TaskEngine.Recover);
      NoTurns(before, TaskEngine.Recover);
      if store.task != Executing && store.task != Recovering && store.task != Verifying {
        return Skipped, [];
      }
      var first := First(store.rows, NOT_COMPLETED);
      if first.None? {
        store := store.(task := TaskCompleted);
        return NothingToRun(LoopCompleted), [];
      }
      if HasUnknown(store.rows) {
        store := store.(task := TaskFailed);
        return Refused, [];
      }
      var k := first.value;
      if store.rows[k].status == Running && !ProvenReadOnly(plan[k]) {
        trace := Quarantines(k);
        return Refused, trace;
      }
      if store.rows[k].status == PendingApproval {
        return Skipped, [];
      }
      var steps := if store.rows[k].status == Running then store.rows[k := store.rows[k].(status := Pending)]
        else store.rows;
      var state := store.task;
      store := store.(task := Executing);
      var result;
      result, trace := Walk(env, clock, steps, state, k, 1, None, ByRecovery);
      outcome := if result.Some? then Walked(result.value) else IllegalState;
    }

    /** An interrupted mutation is never replayed: its receipt, if open, and its step become
        unknown, and the task fails. */
    method Quarantines(k: nat) returns (ghost trace: seq<Input>)
      requires Shaped(Stored()) && First(store.rows, NOT_COMPLETED) == Some(k) && !HasUnknown(store.rows)
      requires store.task == Executing || store.task == Recovering || store.task == Verifying
      requires store.rows[k].status == Running && !ProvenReadOnly(plan[k])
      modifies this
      ensures Stored() == Execute(old(Stored()), [TaskEngine.Recover] + trace) && OfThePass(trace)
      ensures runs == old(runs)
    {
      hide Coherent, Execute, HasUnknown, First, Latest, Advance;
      ghost var before := Stored();
      ghost var started := Next(before, TaskEngine.Recover);
      StartsAs(before, TaskEngine.Recover);
      trace := [Tick(Proceed)];
      ExecuteOne(started, Tick(Proceed));
      AdvanceQuarantine(started, started.pass.value, Proceed);
      var at := Latest(store.receipts, k);
      if at.Some? && store.receipts[at.value].status == Started {
        var unknown := store.receipts[at.value].(status := UnknownOutcome);
        log := log + [Finished(k, unknown.attempt, UnknownOutcome)];
        store := store.(receipts := store.receipts[at.value := unknown]);
      }
      log := log + [Saved(k, OutcomeUnknown)];
      store := store.(rows := store.rows[k := store.rows[k].(status := OutcomeUnknown)], task := TaskFailed);
    }

    /** TaskRuntimeService.resume, with a grant whose fingerprint still matches. The grant must be
        for the step of the latest checkpoint. */
    method Resume(env: Environment, clock: nat, a: nat, maxRecovery: nat)
      returns (outcome: Outcome, ghost trace: seq<Input>)
      requires Shaped(Stored())
      modifies this
      ensures Stored() == Execute(old(Stored()), [TaskEngine.Resume(a, maxRecovery)] + trace)
      ensures outcome.Refused? <==>
        !ForCheckpoint(old(store), a) || old(store.task) !in {WaitingApproval, Executing, TaskFailed, Verifying}
      ensures outcome.Refused? ==> Stored() == old(Stored())
      ensures OfThePass(trace)
      ensures runs == old(runs)
    {
      hide Coherent, Execute;
      trace := [];
      ghost var before := Stored();
      StartsAs(before, TaskEngine.Resume(a, maxRecovery));
      NoTurns(before, TaskEngine.Resume(a, maxRecovery));
      if a >= |store.approvals| || store.approvals[a].status != Granted {
        return Refused, [];
      }
      var k := store.approvals[a].step;
      if k >= |store.rows| || store.checkpoint != Some(k) {
        return Refused, [];
      }
      if store.task !in {WaitingApproval, Executing, TaskFailed, Verifying} {
        return Refused, [];
      }
      store := store.(approvals := store.approvals[a := Approval(k, Consumed)]);
      var steps := store.rows[k := store.rows[k].(status := Pending)];
      var result;
      result, trace := Walk(env, clock, steps, store.task, k, maxRecovery, Some(k), ByResume);
      outcome := if result.Some? then Walked(result.value) else IllegalState;
    }
  }

  /** recoverInterruptedTasks: each discovered task is recovered on its own, in order, and no
      other task is touched. */
  method RecoverInterruptedTasks(tasks: seq<Task>, env: Environment, clock: nat)
    returns (outcomes: seq<Outcome>, ghost traces: seq<seq<Input>>)
    requires forall i, j :: 0 <= i < j < |tasks| ==> tasks[i] != tasks[j]
    requires forall i :: 0 <= i < |tasks| ==> Shaped(tasks[i].Stored())
    modifies tasks
    ensures |outcomes| == |traces| == |tasks|
    ensures forall i :: 0 <= i < |tasks| ==>
      && tasks[i].Stored() == Execute(old(tasks[i].Stored()), [TaskEngine.Recover] + traces[i])
      && OfThePass(traces[i])
  {
    hide Execute, Shaped;
    outcomes, traces := [], [];
    for n := 0 to |tasks|
      invariant |outcomes| == |traces| == n
      invariant forall i :: 0 <= i < n ==>
        && tasks[i].Stored() == Execute(old(tasks[i].Stored()), [TaskEngine.Recover] + traces[i])
        && OfThePass(traces[i])
      invariant forall i :: n <= i < |tasks| ==> tasks[i].Stored() == old(tasks[i].Stored())
    {
      var outcome, trace := tasks[n].Recover(env, clock);
      outcomes, traces := outcomes + [outcome], traces + [trace];
    }
  }

  /** A command, then the pass it started. */
  lemma {:induction false} StartsAs(w: World, i: Input)
    requires Shaped(w) && w.pass.None?
    ensures Coherent(Next(w, i))
    ensures forall t: seq<Input> :: Execute(w, [i] + t) == Execute(Next(w, i), t)
  {
    hide Next, Execute;
    assert Coherent(w);
    NextCoherent(w, i);
    ExecuteOne(w, i);
    forall t: seq<Input> ensures Execute(w, [i] + t) == Execute(Next(w, i), t) {
      ExecuteJoins(w, [i], t);
    }
  }

  lemma NoTurns(w: World, i: Input)
    requires Shaped(w)
    ensures Execute(Next(w, i), []) == Next(w, i)
  {
    hide Next;
  }

  /** The caller's own last step. */
  lemma {:induction false} Closes(w: World, t: seq<Input>, v: World)
    requires Shaped(w) && Shaped(v) && v.pass.Some? && Follows(w, [], v, t)
    ensures Execute(w, t + [Tick(Proceed)]) == Turn(v, Proceed)
    ensures OfThePass(t + [Tick(Proceed)])
  {
    hide Execute, Turn;
    assert t[0..] == t;
    ExecuteOne(v, Tick(Proceed));
    ExecuteJoins(w, t, [Tick(Proceed)]);
  }
}
