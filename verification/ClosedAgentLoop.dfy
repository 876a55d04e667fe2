/** The loop itself: imperative, over the fields it updates. Every statement that writes to the
    store, or hands a step to its tool, is matched by one step of the transition system, so
    whatever holds of all runs of the transition system holds of the loop at each of those
    points. */
module ClosedAgentLoop {
  import opened Options
  import opened TaskDomain
  import opened TaskEngine
  import opened EngineCoherence
  import opened EnginePass
  import opened EngineTheorems
  import opened EngineReplay

  datatype Governance = BadArguments | AskFirst | Refuse | Permit

  datatype Templates = NoTemplates | ResolvedTemplates | TemplatesThrow(code: Code)

  /** Everything the loop does not decide, as it answers at each point in time. */
  datatype Environment = Environment(
    governance: nat -> Governance,
    templates: nat -> Templates,
    fenced: nat -> bool,
    configuration: nat -> Option<Code>,
    tool: nat -> Race,
    finding: nat -> Reason,
    telemetry: nat -> bool)

  /** The inputs of a pass: its own steps, and best-effort writes that begin or cease to be kept.
      No command and no crash is among them. */
  ghost predicate OfThePass(t: seq<Input>) {
    forall k :: 0 <= k < |t| ==> t[k].Tick? || t[k].Telemetry?
  }

  /** `w` came from `w0` by the inputs added to the trace. */
  ghost predicate Follows(w0: World, t0: seq<Input>, w: World, t: seq<Input>)
    requires Shaped(w0)
  {
    |t0| <= |t| && t[..|t0|] == t0 && w == Execute(w0, t[|t0|..]) && OfThePass(t[|t0|..])
  }

  lemma {:induction false} FollowsItself(w: World, t: seq<Input>)
    requires Shaped(w)
    ensures Follows(w, t, w, t)
  {
  }

  lemma {:induction false} FollowsStep(w: World, t: seq<Input>, i: Input)
    requires Shaped(w) && (i.Tick? || i.Telemetry?)
    ensures Follows(w, t, Next(w, i), t + [i])
  {
    hide Next;
    assert (t + [i])[|t|..] == [i];
    ExecuteOne(w, i);
  }

  lemma {:induction false} FollowsJoins(
    w0: World, t0: seq<Input>, w1: World, t1: seq<Input>, w2: World, t2: seq<Input>)
    requires Shaped(w0) && Follows(w0, t0, w1, t1) && Follows(w1, t1, w2, t2)
    ensures Follows(w0, t0, w2, t2)
  {
    hide Execute;
    assert t2[..|t0|] == t2[..|t1|][..|t0|];
    assert t2[|t0|..] == t1[|t0|..] + t2[|t1|..] by {
      assert t1 == t2[..|t1|];
    }
    ExecuteJoins(w0, t1[|t0|..], t2[|t1|..]);
  }

  lemma {:induction false} FollowsWalks(w0: World, t0: seq<Input>, w: World, t: seq<Input>)
    requires Shaped(w0) && Coherent(w0) && ValidPlan(w0.plan) && Walking(w0) && Follows(w0, t0, w, t)
    ensures Walking(w)
  {
    hide Walking, Coherent, Execute;
    RunsWalk(w0, t[|t0|..]);
  }

  /** The moves of the loop after the first, by the point at which each is made. */
  ghost predicate Moves(at: Control, to: TaskState) {
    match at
    case Head => to == Executing
    case AskMove => to == WaitingApproval
    case AskSave => to == WaitingApproval
    case Mend(_) => to == Recovering
    case Decide => to == Executing
    case FailTask => to == TaskFailed
    case Verify => to == Verifying
    case Conclude => to == TaskFailed || to == TaskCompleted
    case _ => false
  }

  class Loop {
    const plan: Plan
    const env: Environment
    const start: nat
    const maxRecovery: nat
    const approved: Option<nat>
    const caller: Caller

    // the persisted tables
    var store: Store

    // the plan and the variables of the pass
    var steps: seq<Row>
    var state: TaskState
    var index: nat
    var recoveries: nat
    var backoff: nat
    var clock: nat
    /** Whether the next best-effort write will be kept. */
    var telemetry: bool

    // the transition system, kept in step
    ghost const entry: seq<Row>
    ghost const entryState: TaskState
    ghost var dispatches: seq<nat>
    ghost var model: World
    ghost var trace: seq<Input>

    ghost predicate Coupled()
      reads `store, `steps, `state, `index, `recoveries, `backoff, `telemetry, `dispatches, `model
    {
      && Shaped(model) && Coherent(model)
      && model.plan == plan
      && model.store == store
      && model.telemetry == telemetry
      && model.pass.Some?
      && model.pass.value ==
         Pass(steps, state, start, index, recoveries, maxRecovery, approved, caller,
              model.pass.value.control, entry, entryState, dispatches, backoff)
    }

    ghost predicate At(c: Control)
      reads `store, `steps, `state, `index, `recoveries, `backoff, `telemetry, `dispatches, `model
    {
      Shaped(model) && Coupled() && model.pass.Some? && model.pass.value.control == c
    }

    /** One step of the transition system that is not followed by a checkpoint. */
    ghost method Advances(a: Answer)
      requires Shaped(model) && Coherent(model) && model.pass.Some? && !Checkpoints(model.pass.value, a)
      modifies `model, `trace
      ensures Shaped(model) && Coherent(model)
      ensures model == Advance(old(model), a)
      ensures Follows(old(model), old(trace), model, trace)
    {
      hide Advance, Coherent, Checkpoints;
      TurnCoherent(model, a);
      FollowsStep(model, trace, Tick(a));
      model, trace := Turn(model, a), trace + [Tick(a)];
    }

    /** One step of the transition system, followed by a checkpoint of the current step. */
    ghost method AdvancesNoting(a: Answer)
      requires Shaped(model) && Coherent(model) && model.pass.Some? && Checkpoints(model.pass.value, a)
      modifies `model, `trace
      ensures Shaped(model) && Coherent(model)
      ensures var v := Advance(old(model), a);
        model == v.(store := v.store.(checkpoint :=
          if old(model).telemetry then Some(old(model).pass.value.index) else v.store.checkpoint))
      ensures Follows(old(model), old(trace), model, trace)
    {
      hide Advance, Coherent, Checkpoints;
      TurnCoherent(model, a);
      FollowsStep(model, trace, Tick(a));
      model, trace := Turn(model, a), trace + [Tick(a)];
    }

    /** The next checkpoint is kept or lost. */
    method NextTelemetry()
      requires model.pass.Some? && At(model.pass.value.control)
      modifies `telemetry, `clock, `model, `trace
      ensures model.pass.Some? && old(model.pass.Some?) && model.pass == old(model.pass)
      ensures At(model.pass.value.control)
      ensures Follows(old(model), old(trace), model, trace)
    {
      hide Follows, Coherent;
      telemetry := env.telemetry(clock);
      clock := clock + 1;
      NotedCoherent(model, model.(telemetry := telemetry));
      FollowsStep(model, trace, Telemetry(telemetry));
      model, trace := model.(telemetry := telemetry), trace + [Telemetry(telemetry)];
    }

    /** checkpointStep, for step `k`: best effort. */
    method CheckpointStep(k: nat)
      modifies `store
      ensures store == old(store).(checkpoint := if telemetry then Some(k) else old(store).checkpoint)
    {
      if telemetry {
        store := store.(checkpoint := Some(k));
      }
    }

    /** Every move of the loop after the first is legal: the task state is the one that belongs to
        the point the pass is at. */
    lemma MoveIsLegal(to: TaskState)
      requires Coupled() && Moves(model.pass.value.control, to)
      requires model.pass.value.control == Verify ==> state != Recovering
      ensures CanMove(state, to)
      ensures model.pass.value.control == AskSave ==> state == to
    {
      hide CanMove;
      LegalMoves();
    }

    lemma OnCurrent()
      requires Coupled() && OnStep(model.pass.value.control)
      ensures index < |plan|
    {
    }

    /** Only a mutation has an open receipt. */
    lemma CaughtMutates()
      requires Coupled() && model.pass.value.control.Caught?
      ensures model.pass.value.control.open ==> plan[index].selected == Mutation
    {
    }

    /** saveTaskStep, for the current step. */
    method SaveTaskStep(step: Row)
      requires index < |steps| == |store.rows|
      modifies `steps, `store
      ensures steps == old(steps)[index := step]
      ensures store == old(store).(rows := old(store).rows[index := step])
    {
      steps := steps[index := step];
      store := store.(rows := store.rows[index := step]);
    }

    /** The current step with one more failed attempt. */
    method FailedStep(status: Status) returns (step: Row)
      requires index < |steps|
      ensures step == FailedRow(steps[index], status)
    {
      var s := steps[index];
      step := s.(status := status, failures := s.failures + 1, history := s.history + [AttemptFailed(s.attempts)]);
    }

    /** finishStepExecutionReceipt, for the active receipt of the current step. */
    method FinishReceiptOfStep(to: ReceiptStatus)
      modifies `store
      ensures store == FinishReceipt(model.(store := old(store)), index, to).store
    {
      var at := Latest(store.receipts, index);
      if at.Some? && store.receipts[at.value].status == Started {
        var finished := store.receipts[at.value].(status := to);
        store := store.(receipts := store.receipts[at.value := finished]);
      }
    }

    // -------------------------------------------------------------------------
    // Deciding on a step
    // -------------------------------------------------------------------------

    /** Walk past a resolved step. */
    method SkipResolved()
      requires At(Head) && index < |steps| && Resolved(steps[index].status)
      modifies this
      ensures At(Head) && index == old(index) + 1 && recoveries == old(recoveries)
      ensures Follows(old(model), old(trace), model, trace)
    {
      hide Follows, Breaks, Coherent, Advance;
      AdvanceHead(model, model.pass.value, Proceed);
      index := index + 1;
      Advances(Proceed);
    }

    /** Skip a step whose run condition is broken. */
    method CancelStep()
      requires At(Head) && index < |steps| && !Resolved(steps[index].status) && Breaks(plan, steps, index)
      modifies this
      ensures At(Head) && index == old(index) + 1 && recoveries == old(recoveries)
      ensures Follows(old(model), old(trace), model, trace)
    {
      hide Follows, Breaks, Coherent, Advance;
      AdvanceHead(model, model.pass.value, Proceed);
      SaveTaskStep(steps[index].(status := Cancelled));
      CheckpointStep(index);
      index := index + 1;
      AdvancesNoting(Proceed);
    }

    /** Back to executing, before the step is put to the policy. */
    method MoveToExecuting()
      requires At(Head) && index < |steps| && !Resolved(steps[index].status) && !Breaks(plan, steps, index)
      modifies this
      ensures At(Govern) && index == old(index) && recoveries == old(recoveries)
      ensures Follows(old(model), old(trace), model, trace)
    {
      hide Follows, Breaks, Coherent, Advance, CanMove;
      MoveIsLegal(Executing);
      AdvanceHead(model, model.pass.value, Proceed);
      state := Executing;
      store := store.(task := Executing);
      CheckpointStep(index);
      AdvancesNoting(Proceed);
    }

    /** Unresolvable arguments fail the step, a refusal blocks it; neither invokes anything. */
    method RejectStep(blocked: bool)
      requires At(Govern)
      modifies this
      ensures At(Head) && index == old(index) + 1 && recoveries == old(recoveries)
      ensures Follows(old(model), old(trace), model, trace)
    {
      hide Follows, Coherent, Advance, FailedRow;
      ghost var answer := if blocked then Deny else ArgumentError;
      AdvanceGovern(model, model.pass.value, answer);
      var step := FailedStep(if blocked then Blocked else Failed);
      SaveTaskStep(step);
      CheckpointStep(index);
      index := index + 1;
      AdvancesNoting(answer);
    }

    /** Pause: the step, the task, the request and the whole plan are saved in this order. */
    method PauseForApproval() returns (result: Result)
      requires At(Govern) && approved != Some(index)
      modifies this
      ensures At(Post(result)) && result == LoopPendingApproval
      ensures Follows(old(model), old(trace), model, trace)
    {
      hide Follows, Coherent, Advance;
      AdvanceGovern(model, model.pass.value, NeedsApproval);
      SaveTaskStep(steps[index].(status := PendingApproval));
      Advances(NeedsApproval);
      ghost var whenAsked, traceAsked := model, trace;
      result := CreateApproval();
      FollowsJoins(old(model), old(trace), whenAsked, traceAsked, model, trace);
    }

    method CreateApproval() returns (result: Result)
      requires At(AskMove)
      modifies this
      ensures At(Post(result)) && result == LoopPendingApproval
      ensures Follows(old(model), old(trace), model, trace)
    {
      hide Coupled, Follows;
      NextTelemetry();
      ghost var whenPaused, tracePaused := model, trace;
      MoveToWaiting();
      FollowsJoins(old(model), old(trace), whenPaused, tracePaused, model, trace);
      ghost var whenMoved, traceMoved := model, trace;
      CreateRequest();
      FollowsJoins(old(model), old(trace), whenMoved, traceMoved, model, trace);
      ghost var whenCreated, traceCreated := model, trace;
      SavePausedPlan();
      FollowsJoins(old(model), old(trace), whenCreated, traceCreated, model, trace);
      result := LoopPendingApproval;
    }

    method MoveToWaiting()
      requires At(AskMove)
      modifies this
      ensures At(AskCreate)
      ensures Follows(old(model), old(trace), model, trace)
    {
      hide Follows, Coherent, Advance, CanMove;
      MoveIsLegal(WaitingApproval);
      AdvanceAsk(model, model.pass.value, Proceed);
      state := WaitingApproval;
      store := store.(rows := steps, task := state);
      CheckpointStep(index);
      AdvancesNoting(Proceed);
    }

    method CreateRequest()
      requires At(AskCreate)
      modifies this
      ensures At(AskSave)
      ensures Follows(old(model), old(trace), model, trace)
    {
      hide Follows, Coherent, Advance;
      AdvanceAsk(model, model.pass.value, Proceed);
      store := store.(approvals := store.approvals + [Approval(index, Asked)]);
      Advances(Proceed);
    }

    method SavePausedPlan()
      requires At(AskSave)
      modifies this
      ensures At(Post(LoopPendingApproval))
      ensures Follows(old(model), old(trace), model, trace)
    {
      hide Follows, Coherent, Advance, CanMove;
      MoveIsLegal(WaitingApproval);
      AdvanceAsk(model, model.pass.value, Proceed);
      store := store.(rows := steps, task := state);
      Advances(Proceed);
    }

    // -------------------------------------------------------------------------
    // Invoking a step
    // -------------------------------------------------------------------------

    /** Mark the step running and count the attempt, in memory. */
    method StartAttempt(ghost answer: Answer)
      requires At(Govern) && (answer == Allow || (answer == NeedsApproval && approved == Some(index)))
      modifies this
      ensures At(Begin(false)) && index == old(index) && recoveries == old(recoveries)
      ensures Follows(old(model), old(trace), model, trace)
    {
      hide Follows, Coherent, Advance;
      AdvanceGovern(model, model.pass.value, answer);
      var s := steps[index];
      steps := steps[index := s.(status := Running, attempts := s.attempts + 1)];
      Advances(answer);
    }

    /** Resolve templates and persist the running step; a mutation commits its receipt in the
        same write, unless the ownership fence refuses it. */
    method BeginAttempt() returns (thrown: Option<Code>)
      requires At(Begin(false))
      modifies this
      ensures index == old(index) && recoveries == old(recoveries)
      ensures if thrown.Some? then At(Caught(thrown.value, false)) else At(Launch)
      ensures Follows(old(model), old(trace), model, trace)
    {
      hide Coupled, Follows;
      FollowsItself(model, trace);
      var templates := env.templates(clock);
      clock := clock + 1;
      match templates {
        case TemplatesThrow(code) =>
          ThrowEarly(EarlyThrow(code), code);
          return Some(code);
        case ResolvedTemplates =>
          SaveResolvedTemplates();
        case NoTemplates =>
      }
      ghost var whenReady, traceReady := model, trace;
      OnCurrent();
      var refused := plan[index].selected == Mutation && env.fenced(clock);
      clock := clock + 1;
      thrown := None;
      if refused {
        ThrowEarly(FenceRefusal, EpochStale);
        thrown := Some(EpochStale);
      } else {
        OpenReceipt();
      }
      FollowsJoins(old(model), old(trace), whenReady, traceReady, model, trace);
    }

    method ThrowEarly(ghost answer: Answer, ghost code: Code)
      requires model.pass.Some? && At(model.pass.value.control) && model.pass.value.control.Begin?
      requires answer == EarlyThrow(code) ||
        (answer == FenceRefusal && code == EpochStale && plan[index].selected == Mutation)
      modifies this
      ensures At(Caught(code, false)) && index == old(index) && recoveries == old(recoveries)
      ensures Follows(old(model), old(trace), model, trace)
    {
      hide Follows, Coherent, Advance;
      AdvanceBegin(model, model.pass.value, answer);
      Advances(answer);
    }

    method SaveResolvedTemplates()
      requires At(Begin(false))
      modifies this
      ensures At(Begin(true)) && index == old(index) && recoveries == old(recoveries)
      ensures Follows(old(model), old(trace), model, trace)
    {
      hide Follows, Coherent, Advance;
      AdvanceBegin(model, model.pass.value, Templated);
      SaveTaskStep(steps[index]);
      Advances(Templated);
    }

    /** Persist the running step, with its receipt when it is a mutation. */
    method OpenReceipt()
      requires model.pass.Some? && At(model.pass.value.control) && model.pass.value.control.Begin?
      modifies this
      ensures index == old(index) && recoveries == old(recoveries) && At(Launch)
      ensures Follows(old(model), old(trace), model, trace)
    {
      hide Follows, Coherent, Advance;
      AdvanceBegin(model, model.pass.value, Proceed);
      if plan[index].selected == Mutation {
        store := store.(rows := store.rows[index := steps[index]],
                        receipts := store.receipts + [Receipt(index, steps[index].attempts, Started)]);
      } else {
        SaveTaskStep(steps[index]);
      }
      Advances(Proceed);
    }

    /** The configuration is rejected after the receipt was opened. */
    method RejectConfiguration(code: Code)
      requires At(Launch)
      modifies this
      ensures index == old(index) < |plan| && recoveries == old(recoveries)
      ensures At(Caught(code, plan[index].selected == Mutation))
      ensures Follows(old(model), old(trace), model, trace)
    {
      hide Follows, Coherent, Advance;
      AdvanceLaunch(model, model.pass.value, ConfigThrow(code));
      Advances(ConfigThrow(code));
    }

    /** Hand the step to its tool. */
    method Dispatch()
      requires At(Launch)
      modifies this
      ensures index == old(index) && recoveries == old(recoveries) && At(Await)
      ensures Follows(old(model), old(trace), model, trace)
    {
      hide Follows, Coherent, Advance;
      AdvanceLaunch(model, model.pass.value, Proceed);
      dispatches := dispatches + [index];
      Advances(Proceed);
    }

    /** The tool rejected before its deadline. */
    method ToolThrew(race: Race, code: Code)
      requires At(Await) && WithStepTimeout(race) == Threw(code)
      modifies this
      ensures index == old(index) < |plan| && recoveries == old(recoveries)
      ensures At(Caught(code, plan[index].selected == Mutation))
      ensures Follows(old(model), old(trace), model, trace)
    {
      hide Follows, Coherent, Advance, Latest, WithStepTimeout;
      AdvanceAwait(model, model.pass.value, Outcome(race));
      Advances(Outcome(race));
    }

    /** The tool gave a result, late or not, or nothing came of it: the receipt is finalised. */
    method ToolEnded(race: Race, verdict: Verdict)
      requires At(Await)
      requires WithStepTimeout(race) ==
               (match verdict
                case SettleUnknown => NoResult
                case SettleFailed => Value(true)
                case SettleCompleted => Value(false))
      modifies this
      ensures At(Closing(verdict)) && index == old(index) && recoveries == old(recoveries)
      ensures Follows(old(model), old(trace), model, trace)
    {
      hide Follows, Coherent, Advance, Latest, WithStepTimeout;
      AdvanceAwait(model, model.pass.value, Outcome(race));
      if plan[index].selected == Mutation {
        FinishReceiptOfStep(
          match verdict
          case SettleUnknown => UnknownOutcome
          case SettleFailed => FailedKnown
          case SettleCompleted => Succeeded);
      }
      Advances(Outcome(race));
    }

    // -------------------------------------------------------------------------
    // Recording what became of it
    // -------------------------------------------------------------------------

    /** Save the step whose outcome is unknown, and leave the loop. */
    method RecordUnknown()
      requires At(Closing(SettleUnknown))
      modifies this
      ensures At(FailTask) && index == old(index) && recoveries == old(recoveries)
      ensures Follows(old(model), old(trace), model, trace)
    {
      hide Follows, Coherent, Advance, FailedRow;
      AdvanceClosing(model, model.pass.value, Proceed);
      var step := FailedStep(OutcomeUnknown);
      SaveTaskStep(step);
      CheckpointStep(index);
      AdvancesNoting(Proceed);
    }

    /** Save a completed or failed step, and go on. */
    method RecordKnown(verdict: Verdict)
      requires At(Closing(verdict)) && verdict != SettleUnknown
      modifies this
      ensures At(Head) && index == old(index) + 1 && recoveries == old(recoveries)
      ensures Follows(old(model), old(trace), model, trace)
    {
      hide Follows, Coherent, Advance, FailedRow;
      AdvanceClosing(model, model.pass.value, Proceed);
      var step := steps[index];
      if verdict == SettleCompleted {
        step := step.(status := Completed, history := step.history + [AttemptCompleted(step.attempts)]);
      } else {
        step := FailedStep(Failed);
      }
      SaveTaskStep(step);
      CheckpointStep(index);
      index := index + 1;
      AdvancesNoting(Proceed);
    }

    /** A fence failure or an uncertain timeout makes the outcome unknown; any other throw
        finalises the open receipt as a known failure. */
    method Catch(code: Code, open: bool) returns (unknown: bool)
      requires At(Caught(code, open))
      modifies this
      ensures index == old(index) && recoveries == old(recoveries)
      ensures if unknown then At(Closing(SettleUnknown)) else At(Settling(code))
      ensures Follows(old(model), old(trace), model, trace)
    {
      hide Follows, Coherent, Advance, Latest;
      CaughtMutates();
      AdvanceCaught(model, model.pass.value, Proceed);
      if code == EpochStale {
        unknown := true;
      } else {
        unknown := open && code == Timeout;
        if open {
          FinishReceiptOfStep(if code == Timeout then UnknownOutcome else FailedKnown);
        }
      }
      Advances(Proceed);
    }

    /** Missing variables and security blocks are final: save the failed or blocked step and go
        on. */
    method FailFinally(code: Code)
      requires At(Settling(code)) && (code == MissingVariable || code == SecurityBlock)
      modifies this
      ensures At(Head) && index == old(index) + 1 && recoveries == old(recoveries)
      ensures Follows(old(model), old(trace), model, trace)
    {
      hide Follows, Coherent, Advance, FailedRow;
      AdvanceSettling(model, model.pass.value, Proceed);
      var step := FailedStep(if code == SecurityBlock then Blocked else Failed);
      SaveTaskStep(step);
      CheckpointStep(index);
      index := index + 1;
      AdvancesNoting(Proceed);
    }

    /** Any other throw saves the failed step, and may be mended. */
    method FailStep(code: Code)
      requires At(Settling(code)) && code != MissingVariable && code != SecurityBlock
      modifies this
      ensures At(Mend(code)) && index == old(index) && recoveries == old(recoveries)
      ensures Follows(old(model), old(trace), model, trace)
    {
      hide Follows, Coherent, Advance, FailedRow;
      AdvanceSettling(model, model.pass.value, Proceed);
      var step := FailedStep(Failed);
      SaveTaskStep(step);
      CheckpointStep(index);
      AdvancesNoting(Proceed);
    }

    /** Retry a transient failure while the recovery budget lasts. */
    method Mends(code: Code)
      requires At(Mend(code)) && recoveries <= maxRecovery
      modifies this
      ensures At(Head) && GoesOn(old(index), old(recoveries))
      ensures Follows(old(model), old(trace), model, trace)
    {
      hide Coupled, Follows;
      if recoveries >= maxRecovery || !Transient(code) {
        GiveUp(code);
      } else {
        MoveToRecovering(code);
        ghost var whenMoved, traceMoved := model, trace;
        DecideRecovery();
        FollowsJoins(old(model), old(trace), whenMoved, traceMoved, model, trace);
      }
    }

    method GiveUp(code: Code)
      requires At(Mend(code)) && (recoveries >= maxRecovery || !Transient(code))
      modifies this
      ensures At(Head) && recoveries == old(recoveries) && index == old(index) + 1
      ensures Follows(old(model), old(trace), model, trace)
    {
      hide Follows, Coherent, Advance;
      AdvanceMend(model, model.pass.value, Proceed);
      index := index + 1;
      Advances(Proceed);
    }

    method MoveToRecovering(code: Code)
      requires At(Mend(code)) && recoveries < maxRecovery && Transient(code)
      modifies this
      ensures At(Decide) && recoveries == old(recoveries) && index == old(index)
      ensures Follows(old(model), old(trace), model, trace)
    {
      hide Follows, Coherent, Advance, CanMove;
      MoveIsLegal(Recovering);
      AdvanceMend(model, model.pass.value, Proceed);
      state := Recovering;
      store := store.(rows := steps, task := state);
      Advances(Proceed);
    }

    method DecideRecovery()
      requires At(Decide)
      modifies this
      ensures At(Head) && recoveries == old(recoveries) + 1 && old(index) <= index <= old(index) + 1
      ensures Follows(old(model), old(trace), model, trace)
    {
      hide Coupled, Follows;
      var reason := env.finding(clock);
      clock := clock + 1;
      if CanAutoRecover(RecoveryDecision(reason)) {
        RetryStep(reason);
      } else {
        StopRecovering(reason);
      }
    }

    method RetryStep(ghost reason: Reason)
      requires At(Decide) && CanAutoRecover(RecoveryDecision(reason))
      modifies this
      ensures At(Head) && recoveries == old(recoveries) + 1 && index == old(index)
      ensures Follows(old(model), old(trace), model, trace)
    {
      hide Follows, Coherent, Advance, BackoffDelay, RecoveryDecision, CanMove;
      MoveIsLegal(Executing);
      AdvanceDecide(model, model.pass.value, Diagnosis(reason));
      recoveries := recoveries + 1;
      backoff := backoff + BackoffDelay(recoveries);
      steps := steps[index := steps[index].(status := Pending)];
      state := Executing;
      store := store.(task := state);
      Advances(Diagnosis(reason));
    }

    method StopRecovering(ghost reason: Reason)
      requires At(Decide) && !CanAutoRecover(RecoveryDecision(reason))
      modifies this
      ensures At(Head) && recoveries == old(recoveries) + 1 && index == old(index) + 1
      ensures Follows(old(model), old(trace), model, trace)
    {
      hide Follows, Coherent, Advance, BackoffDelay, RecoveryDecision;
      AdvanceDecide(model, model.pass.value, Diagnosis(reason));
      recoveries := recoveries + 1;
      index := index + 1;
      Advances(Diagnosis(reason));
    }

    // -------------------------------------------------------------------------
    // Leaving the loop
    // -------------------------------------------------------------------------

    method FailForUnknown() returns (result: Result)
      requires At(FailTask)
      modifies this
      ensures At(Post(result)) && result == LoopFailed
      ensures Follows(old(model), old(trace), model, trace)
    {
      hide Follows, Coherent, Advance, First, CanMove;
      MoveIsLegal(TaskFailed);
      AdvanceEnd(model, model.pass.value, Proceed);
      state := TaskFailed;
      store := store.(rows := steps, task := state);
      Advances(Proceed);
      result := LoopFailed;
    }

    method EndOfPlan()
      requires At(Head) && index == |steps|
      modifies this
      ensures At(Verify)
      ensures Follows(old(model), old(trace), model, trace)
    {
      hide Follows, Coherent, Advance, Breaks;
      AdvanceHead(model, model.pass.value, Proceed);
      Advances(Proceed);
    }

    method LeaveRecovering()
      requires At(Verify) && state == Recovering
      modifies this
      ensures At(Verify) && state == Executing
      ensures Follows(old(model), old(trace), model, trace)
    {
      hide Follows, Coherent, Advance, First;
      AdvanceEnd(model, model.pass.value, Proceed);
      state := Executing;
      store := store.(task := state);
      Advances(Proceed);
    }

    method MoveToVerifying()
      requires At(Verify) && state != Recovering
      modifies this
      ensures At(Conclude)
      ensures Follows(old(model), old(trace), model, trace)
    {
      hide Follows, Coherent, Advance, First, CanMove;
      MoveIsLegal(Verifying);
      AdvanceEnd(model, model.pass.value, Proceed);
      state := Verifying;
      store := store.(task := state);
      Advances(Proceed);
    }

    /** The verdict is a property of the whole plan, not of the steps this pass walked. */
    method ConcludeTask() returns (result: Result)
      requires At(Conclude)
      modifies this
      ensures At(Post(result))
      ensures result == if First(old(steps), UNRESOLVED).Some? then LoopFailed else LoopCompleted
      ensures Follows(old(model), old(trace), model, trace)
    {
      hide Coupled, Follows, First;
      result := if First(steps, UNRESOLVED).Some? then LoopFailed else LoopCompleted;
      MoveToResult(result);
    }

    method MoveToResult(result: Result)
      requires At(Conclude)
      requires result == if First(steps, UNRESOLVED).Some? then LoopFailed else LoopCompleted
      modifies this
      ensures At(Post(result))
      ensures Follows(old(model), old(trace), model, trace)
    {
      hide Follows, Coherent, Advance, First, CanMove;
      MoveIsLegal(PairedState(result));
      AdvanceEnd(model, model.pass.value, Proceed);
      state := PairedState(result);
      store := store.(rows := steps, task := state);
      Advances(Proceed);
    }

    /** Verify the plan as a whole; a pass that was still recovering goes back to executing
        first. */
    method VerifyTask() returns (result: Result)
      requires At(Head) && index == |steps|
      modifies this
      ensures At(Post(result))
      ensures Follows(old(model), old(trace), model, trace)
    {
      hide Coupled, Follows, First;
      EndOfPlan();
      ghost var whenEnded, traceEnded := model, trace;
      if state == Recovering {
        LeaveRecovering();
        FollowsJoins(old(model), old(trace), whenEnded, traceEnded, model, trace);
      }
      ghost var whenExecuted, traceExecuted := model, trace;
      MoveToVerifying();
      FollowsJoins(old(model), old(trace), whenExecuted, traceExecuted, model, trace);
      ghost var whenVerified, traceVerified := model, trace;
      result := ConcludeTask();
      FollowsJoins(old(model), old(trace), whenVerified, traceVerified, model, trace);
    }

    // -------------------------------------------------------------------------
    // The loop
    // -------------------------------------------------------------------------

    /** What a step leaves behind when the loop goes on: it has been walked past, or one more
        recovery has been spent on it. */
    ghost predicate GoesOn(index0: nat, recoveries0: nat)
      reads this
    {
      && recoveries <= maxRecovery
      && ((recoveries == recoveries0 && index == index0 + 1) ||
          (recoveries == recoveries0 + 1 && index0 <= index <= index0 + 1))
    }

    /** The catch clause. */
    method HandleThrow(code: Code, open: bool) returns (result: Option<Result>)
      requires At(Caught(code, open)) && recoveries <= maxRecovery
      modifies this
      ensures result.None? ==> At(Head) && GoesOn(old(index), old(recoveries))
      ensures result.Some? ==> At(Post(result.value))
      ensures Follows(old(model), old(trace), model, trace)
    {
      hide Coupled, Follows;
      result := None;
      var unknown := Catch(code, open);
      ghost var whenClassified, traceClassified := model, trace;
      if unknown {
        var r := FinishUnknown();
        result := Some(r);
      } else {
        SettleFailure(code);
      }
      FollowsJoins(old(model), old(trace), whenClassified, traceClassified, model, trace);
    }

    /** Record the unknown outcome and fail the task. */
    method FinishUnknown() returns (result: Result)
      requires At(Closing(SettleUnknown))
      modifies this
      ensures At(Post(result)) && result == LoopFailed
      ensures Follows(old(model), old(trace), model, trace)
    {
      hide Coupled, Follows;
      NextTelemetry();
      ghost var whenEnded, traceEnded := model, trace;
      RecordUnknown();
      FollowsJoins(old(model), old(trace), whenEnded, traceEnded, model, trace);
      ghost var whenRecorded, traceRecorded := model, trace;
      result := FailForUnknown();
      FollowsJoins(old(model), old(trace), whenRecorded, traceRecorded, model, trace);
    }

    /** Record a completed or failed step, and go on. */
    method FinishKnown(verdict: Verdict)
      requires At(Closing(verdict)) && verdict != SettleUnknown
      modifies this
      ensures At(Head) && recoveries == old(recoveries) && index == old(index) + 1
      ensures Follows(old(model), old(trace), model, trace)
    {
      hide Coupled, Follows;
      NextTelemetry();
      ghost var whenEnded, traceEnded := model, trace;
      RecordKnown(verdict);
      FollowsJoins(old(model), old(trace), whenEnded, traceEnded, model, trace);
    }

    method SettleFailure(code: Code)
      requires At(Settling(code)) && recoveries <= maxRecovery
      modifies this
      ensures At(Head) && GoesOn(old(index), old(recoveries))
      ensures Follows(old(model), old(trace), model, trace)
    {
      hide Coupled, Follows;
      NextTelemetry();
      ghost var whenCaught, traceCaught := model, trace;
      if code == MissingVariable || code == SecurityBlock {
        FailFinally(code);
        FollowsJoins(old(model), old(trace), whenCaught, traceCaught, model, trace);
      } else {
        FailStep(code);
        FollowsJoins(old(model), old(trace), whenCaught, traceCaught, model, trace);
        ghost var whenSettled, traceSettled := model, trace;
        Mends(code);
        FollowsJoins(old(model), old(trace), whenSettled, traceSettled, model, trace);
      }
    }

    /** Wait for the tool under the step deadline. A result, late or not, is a result; anything
        else after the deadline proves nothing. */
    method AwaitTool() returns (result: Option<Result>)
      requires At(Await) && recoveries <= maxRecovery
      modifies this
      ensures result.None? ==> At(Head) && GoesOn(old(index), old(recoveries))
      ensures result.Some? ==> At(Post(result.value))
      ensures Follows(old(model), old(trace), model, trace)
    {
      hide Coupled, Follows;
      var race := env.tool(clock);
      clock := clock + 1;
      match WithStepTimeout(race) {
        case Threw(code) =>
          ToolThrew(race, code);
          ghost var whenThrown, traceThrown := model, trace;
          result := HandleThrow(code, plan[index].selected == Mutation);
          FollowsJoins(old(model), old(trace), whenThrown, traceThrown, model, trace);
        case NoResult =>
          ToolEnded(race, SettleUnknown);
          ghost var whenUnknown, traceUnknown := model, trace;
          var r := FinishUnknown();
          result := Some(r);
          FollowsJoins(old(model), old(trace), whenUnknown, traceUnknown, model, trace);
        case Value(nonZeroExit) =>
          var verdict := if nonZeroExit then SettleFailed else SettleCompleted;
          ToolEnded(race, verdict);
          ghost var whenKnown, traceKnown := model, trace;
          FinishKnown(verdict);
          result := None;
          FollowsJoins(old(model), old(trace), whenKnown, traceKnown, model, trace);
      }
    }

    /** The try block, from the persisted attempt on. */
    method InvokeStep() returns (result: Option<Result>)
      requires At(Begin(false)) && recoveries <= maxRecovery
      modifies this
      ensures result.None? ==> At(Head) && GoesOn(old(index), old(recoveries))
      ensures result.Some? ==> At(Post(result.value))
      ensures Follows(old(model), old(trace), model, trace)
    {
      hide Coupled, Follows;
      var early := BeginAttempt();
      ghost var whenBegun, traceBegun := model, trace;
      if early.Some? {
        result := HandleThrow(early.value, false);
      } else {
        result := LaunchStep();
      }
      FollowsJoins(old(model), old(trace), whenBegun, traceBegun, model, trace);
    }

    method LaunchStep() returns (result: Option<Result>)
      requires At(Launch) && recoveries <= maxRecovery
      modifies this
      ensures result.None? ==> At(Head) && GoesOn(old(index), old(recoveries))
      ensures result.Some? ==> At(Post(result.value))
      ensures Follows(old(model), old(trace), model, trace)
    {
      hide Coupled, Follows;
      var invalid := env.configuration(clock);
      clock := clock + 1;
      if invalid.Some? {
        RejectConfiguration(invalid.value);
        ghost var whenRejected, traceRejected := model, trace;
        result := HandleThrow(invalid.value, plan[index].selected == Mutation);
        FollowsJoins(old(model), old(trace), whenRejected, traceRejected, model, trace);
      } else {
        Dispatch();
        ghost var whenLaunched, traceLaunched := model, trace;
        result := AwaitTool();
        FollowsJoins(old(model), old(trace), whenLaunched, traceLaunched, model, trace);
      }
    }

    /** Put the step to the policy, and act on the verdict. */
    method GovernStep() returns (result: Option<Result>)
      requires At(Govern) && recoveries <= maxRecovery
      modifies this
      ensures result.None? ==> At(Head) && GoesOn(old(index), old(recoveries))
      ensures result.Some? ==> At(Post(result.value))
      ensures Follows(old(model), old(trace), model, trace)
    {
      hide Coupled, Follows;
      result := None;
      var verdict := env.governance(clock);
      clock := clock + 1;
      if verdict == BadArguments || verdict == Refuse {
        NextTelemetry();
        ghost var whenRuled, traceRuled := model, trace;
        RejectStep(verdict == Refuse);
        FollowsJoins(old(model), old(trace), whenRuled, traceRuled, model, trace);
        return;
      }
      if verdict == AskFirst && approved != Some(index) {
        var r := PauseForApproval();
        return Some(r);
      }
      StartAttempt(if verdict == AskFirst then NeedsApproval else Allow);
      ghost var whenStarted, traceStarted := model, trace;
      result := InvokeStep();
      FollowsJoins(old(model), old(trace), whenStarted, traceStarted, model, trace);
    }

    /** One iteration of the loop. */
    method WalkStep() returns (result: Option<Result>)
      requires At(Head) && index < |steps| && |steps| == |plan| && recoveries <= maxRecovery
      modifies this
      ensures result.None? ==> At(Head) && GoesOn(old(index), old(recoveries))
      ensures result.Some? ==> At(Post(result.value))
      ensures Follows(old(model), old(trace), model, trace)
    {
      hide Coupled, Follows, Breaks;
      result := None;
      if Resolved(steps[index].status) {
        SkipResolved();
        return;
      }
      NextTelemetry();
      ghost var whenMet, traceMet := model, trace;
      if Breaks(plan, steps, index) {
        CancelStep();
        FollowsJoins(old(model), old(trace), whenMet, traceMet, model, trace);
        return;
      }
      MoveToExecuting();
      FollowsJoins(old(model), old(trace), whenMet, traceMet, model, trace);
      ghost var whenExecuting, traceExecuting := model, trace;
      result := GovernStep();
      FollowsJoins(old(model), old(trace), whenExecuting, traceExecuting, model, trace);
    }

    /** The shape of the state, at any point. */
    lemma Fits()
      requires Coupled()
      ensures |steps| == |plan| && index <= |plan|
      ensures Coherent(model) && model.plan == plan
    {
    }

    /** The walk over the plan. The loop ends for every environment: each iteration either moves
        past a step or spends one of the recoveries. */
    method WalkPlan() returns (result: Result)
      requires At(Head) && recoveries <= maxRecovery
      modifies this
      ensures At(Post(result))
      ensures Follows(old(model), old(trace), model, trace)
    {
      hide Coupled, Follows;
      FollowsItself(model, trace);
      Fits();
      while index < |steps|
        invariant At(Head) && recoveries <= maxRecovery && index <= |steps| == |plan|
        invariant Follows(old(model), old(trace), model, trace)
        decreases maxRecovery - recoveries, |plan| - index
      {
        ghost var w, t := model, trace;
        var exit := WalkStep();
        FollowsJoins(old(model), old(trace), w, t, model, trace);
        if exit.Some? {
          return exit.value;
        }
        Fits();
      }
      ghost var w, t := model, trace;
      result := VerifyTask();
      FollowsJoins(old(model), old(trace), w, t, model, trace);
    }

    /** The first move, before the plan is looked at: it throws from a state that cannot go back
        to executing. */
    method EnterLoop() returns (entered: bool)
      requires At(Enter)
      modifies this
      ensures entered <==> !DeadState(old(state))
      ensures recoveries == old(recoveries)
      ensures At(if !entered then Broken else if HasUnknown(old(steps)) then FailTask else Head)
      ensures Follows(old(model), old(trace), model, trace)
    {
      hide Follows, Coherent, Advance, HasUnknown;
      AdvanceEnter(model, model.pass.value, Proceed);
      entered := CanMove(state, Executing);
      if entered {
        state := Executing;
        store := store.(task := Executing);
      }
      Advances(Proceed);
    }

    /** runClosedAgentLoop. The answer is `None` when the first move throws. */
    method RunClosedAgentLoop() returns (result: Option<Result>)
      requires At(Enter) && recoveries <= maxRecovery
      modifies this
      ensures result.None? <==> DeadState(old(state))
      ensures result.None? ==> At(Broken)
      ensures result.Some? ==> At(Post(result.value)) && store.task == state == PairedState(result.value)
      ensures Follows(old(model), old(trace), model, trace)
      ensures result.Some? && ValidPlan(plan) && old(Walking(model)) ==>
        && |dispatches| <= |plan| - start + recoveries
        && recoveries <= maxRecovery
        && backoff <= TotalBackoff(recoveries)
    {
      hide Coupled, Follows, Walking;
      var unknown := HasUnknown(steps);
      ghost var first := model;
      Fits();
      var entered := EnterLoop();
      ghost var whenEntered, traceEntered := model, trace;
      if !entered {
        return None;
      }
      var r: Result;
      if unknown {
        r := FailForUnknown();
      } else {
        r := WalkPlan();
      }
      FollowsJoins(old(model), old(trace), whenEntered, traceEntered, model, trace);
      result := Some(r);
      Posted(r);
      if ValidPlan(plan) && old(Walking(model)) {
        FollowsWalks(first, old(trace), model, trace);
        PostedWalks(r);
      }
    }

    lemma Posted(r: Result)
      requires At(Post(r))
      ensures store.task == state == PairedState(r)
    {
    }

    lemma PostedWalks(r: Result)
      requires At(Post(r)) && Walking(model)
      ensures |dispatches| <= |plan| - start + recoveries
      ensures recoveries <= maxRecovery
      ensures backoff <= TotalBackoff(recoveries)
    {
    }

    /** The caller's last save, for a pass that ran to its end. */
    lemma PostSaves(r: Result)
      requires At(Post(r))
      ensures Turn(model, Proceed) ==
              World(plan, store.(rows := steps, task := if caller == ByRecovery then ResultAsState(r) else state),
                    model.log, None, telemetry)
    {
      hide Advance, Coherent;
      AdvancePost(model, model.pass.value, Proceed);
    }

    lemma BrokenSaves()
      requires At(Broken)
      ensures Turn(model, Proceed) == World(plan, store, model.log, None, telemetry)
    {
      hide Advance, Coherent;
      AdvanceBroken(model, model.pass.value, Proceed);
    }

    /** A loop over the given store, about to be entered. */
    constructor (plan: Plan, env: Environment, clock: nat,
                 store: Store, telemetry: bool,
                 steps: seq<Row>, state: TaskState, start: nat, maxRecovery: nat,
                 approved: Option<nat>, caller: Caller, ghost log: seq<Event>)
      requires var p := NewPass(steps, state, start, maxRecovery, approved, caller);
               Coherent(World(plan, store, log, Some(p), telemetry))
      ensures At(Enter) && recoveries == 0 && trace == []
      ensures this.plan == plan && this.steps == steps && this.state == state && this.start == start
      ensures this.maxRecovery == maxRecovery && this.caller == caller
      ensures model == World(plan, store, log,
                             Some(NewPass(steps, state, start, maxRecovery, approved, caller)), telemetry)
    {
      this.plan, this.env, this.clock := plan, env, clock;
      this.store, this.telemetry := store, telemetry;
      this.steps, this.state, this.start, this.index := steps, state, start, start;
      this.recoveries, this.maxRecovery, this.backoff := 0, maxRecovery, 0;
      this.approved, this.caller := approved, caller;
      this.entry, this.entryState, this.dispatches, this.trace := steps, state, [], [];
      this.model := World(plan, store, log,
                          Some(NewPass(steps, state, start, maxRecovery, approved, caller)), telemetry);
    }
  }
}
