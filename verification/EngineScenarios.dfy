/** Building blocks of concrete runs: what a pass does with one step, from the head of the loop. */
module EngineScenarios {
  import opened Options
  import opened TaskDomain
  import opened TaskEngine
  import opened EngineCoherence
  import opened EngineReplay

  /** The pass stands before step `index`, with these rows. */
  ghost predicate Ahead(w: World, index: nat, rows: seq<Row>, approved: Option<nat>, caller: Caller) {
    && Shaped(w) && w.pass.Some? && w.pass.value.control == Head && w.pass.value.index == index
    && w.pass.value.state == Executing && w.pass.value.rows == rows
    && w.pass.value.approved == approved && w.pass.value.caller == caller
  }

  /** The step is open and its run condition holds. */
  predicate Runs(plan: Plan, rows: seq<Row>, index: nat) {
    |plan| == |rows| && index < |plan| && !Resolved(rows[index].status) && !Breaks(plan, rows, index)
  }

  /** A step that was never attempted. */
  function Blank(): Row {
    Row(Pending, 0, 0, [])
  }

  /** The run goes on: the plan stays, the log only grows, and so does the list of approvals. */
  ghost predicate GoesOn(w: World, v: World) {
    v.plan == w.plan && v.telemetry == w.telemetry && |w.log| <= |v.log| && v.log[..|w.log|] == w.log
  }

  lemma GoesOnJoins(u: World, v: World, w: World)
    requires GoesOn(u, v) && GoesOn(v, w)
    ensures GoesOn(u, w)
  {
    assert w.log[..|u.log|] == w.log[..|v.log|][..|u.log|];
  }

  /** From the head of the loop to the policy. */
  lemma Governed(w: World, index: nat, rows: seq<Row>, approved: Option<nat>, caller: Caller)
    requires Ahead(w, index, rows, approved, caller) && Runs(w.plan, rows, index)
    ensures var v := Turn(w, Proceed);
      && v.log == w.log && v.telemetry == w.telemetry && v.pass == Some(w.pass.value.(control := Govern))
      && v.store == w.store.(task := Executing, checkpoint := if w.telemetry then Some(index) else w.store.checkpoint)
  {
    hide Advance, Breaks;
    AdvanceHead(w, w.pass.value, Proceed);
  }

  const INVOKE: seq<Answer> := [Proceed, Allow, Proceed, Proceed]

  /** Up to the invocation of the tool. */
  lemma {:induction false} StepInvoked(w: World, index: nat, rows: seq<Row>, approved: Option<nat>, caller: Caller)
    returns (v: World, q: Pass)
    requires Ahead(w, index, rows, approved, caller) && Runs(w.plan, rows, index)
    ensures v == Execute(w, Ticks(INVOKE)) && Shaped(v) && GoesOn(w, v) && v.store.approvals == w.store.approvals
    ensures v.pass == Some(q) && q.control == Await && q.index == index && q.state == Executing
    ensures q.approved == approved && q.caller == caller && q.rows == rows[index := StartedRow(rows[index])]
    ensures |v.log| > |w.log| && v.log[|v.log| - 1] == Dispatched(index, rows[index].attempts + 1)
  {
    hide Advance, Breaks, Execute;
    Governed(w, index, rows, approved, caller);
    TicksTurn(w, INVOKE);
    assert INVOKE[1..] == [Allow, Proceed, Proceed];
    v, q := Launches(Turn(w, Proceed), w.pass.value.(control := Govern), 0);
  }

  /** The tool ends with this exit, and the verdict is saved. */
  function Exit(failed: bool): seq<Answer> {
    [Outcome(InTime(Fulfilled(failed))), Proceed]
  }

  function Verdicted(r: Row, failed: bool): Row {
    if failed then FailedRow(r, Failed) else CompletedRow(r)
  }

  lemma {:induction false} Settles(v: World, q: Pass, failed: bool)
    requires Shaped(v) && v.pass == Some(q) && q.control == Await && q.state == Executing
    ensures var u := Execute(v, Ticks(Exit(failed)));
      && GoesOn(v, u) && u.store.approvals == v.store.approvals
      && (v.telemetry ==> u.store.checkpoint == Some(q.index))
      && Saved(q.index, if failed then Failed else Completed) in u.log
      && Ahead(u, q.index + 1, q.rows[q.index := Verdicted(q.rows[q.index], failed)], q.approved, q.caller)
  {
    hide Advance, Execute, Latest;
    var exit := Exit(failed);
    TicksTurn(v, exit);
    AdvanceAwait(v, q, exit[0]);
    var u := Turn(v, exit[0]);
    TicksTurn(u, exit[1..]);
    AdvanceClosing(u, u.pass.value, Proceed);
    assert Turn(u, Proceed).log[|u.log|] == Saved(q.index, if failed then Failed else Completed);
  }

  /** The step is invoked and ends. */
  lemma {:induction false} StepEnds(
    w: World, index: nat, rows: seq<Row>, approved: Option<nat>, caller: Caller, failed: bool)
    requires Ahead(w, index, rows, approved, caller) && Runs(w.plan, rows, index)
    ensures var v := Execute(w, Ticks(INVOKE + Exit(failed)));
      && GoesOn(w, v) && v.store.approvals == w.store.approvals
      && (w.telemetry ==> v.store.checkpoint == Some(index))
      && Saved(index, if failed then Failed else Completed) in v.log
      && Ahead(v, index + 1, rows[index := Verdicted(StartedRow(rows[index]), failed)], approved, caller)
  {
    hide Execute, Breaks;
    var v, q := StepInvoked(w, index, rows, approved, caller);
    Settles(v, q, failed);
    assert Ticks(INVOKE + Exit(failed)) == Ticks(INVOKE) + Ticks(Exit(failed));
    ExecuteJoins(w, Ticks(INVOKE), Ticks(Exit(failed)));
    GoesOnJoins(w, v, Execute(v, Ticks(Exit(failed))));
    assert q.rows[index := Verdicted(q.rows[index], failed)] ==
      rows[index := Verdicted(StartedRow(rows[index]), failed)];
  }

  const SAVE: seq<Answer> := [Proceed, Proceed, Proceed, Proceed]

  /** The plan is saved, by the loop and by its caller. */
  lemma {:induction false} AskedSaves(w: World, p: Pass)
    requires Shaped(w) && w.pass == Some(p) && p.control == AskSave && p.state == WaitingApproval
    ensures var v := Execute(w, Ticks([Proceed, Proceed]));
      && GoesOn(w, v) && v.pass.None?
      && v.store == w.store.(rows := p.rows, task := if p.caller == ByRecovery then NotAState else WaitingApproval)
  {
    hide Advance, Execute, CanMove;
    LegalMoves();
    var answers := [Proceed, Proceed];
    TicksTurn(w, answers);
    AdvanceAsk(w, p, Proceed);
    var u := Turn(w, Proceed);
    TicksTurn(u, answers[1..]);
    AdvancePost(u, u.pass.value, Proceed);
  }

  lemma AskedMoves(w: World, p: Pass) returns (u: World)
    requires Shaped(w) && w.pass == Some(p) && p.control == AskMove && p.state == Executing
    ensures u == Turn(w, Proceed) && Shaped(u) && u.plan == w.plan && u.log == w.log && u.telemetry == w.telemetry
    ensures u.pass == Some(p.(state := WaitingApproval, control := AskCreate))
    ensures u.store == w.store.(rows := p.rows, task := WaitingApproval,
                                checkpoint := if w.telemetry then Some(p.index) else w.store.checkpoint)
  {
    hide Advance, CanMove;
    LegalMoves();
    AdvanceAsk(w, p, Proceed);
    u := Turn(w, Proceed);
  }

  /** The task state, the request, the plan, and the caller's save. */
  lemma {:induction false} AskedPauses(w: World, p: Pass)
    requires Shaped(w) && w.pass == Some(p) && p.control == AskMove && p.state == Executing
    ensures var v := Execute(w, Ticks(SAVE));
      && GoesOn(w, v) && v.pass.None?
      && v.store == Store(p.rows, w.store.receipts, if p.caller == ByRecovery then NotAState else WaitingApproval,
                          w.store.approvals + [Approval(p.index, Asked)],
                          if w.telemetry then Some(p.index) else w.store.checkpoint)
  {
    hide Advance, Execute, CanMove;
    LegalMoves();
    TicksTurn(w, SAVE);
    var u := AskedMoves(w, p);
    TicksTurn(u, SAVE[1..]);
    AdvanceAsk(u, u.pass.value, Proceed);
    var v := Turn(u, Proceed);
    assert SAVE[1..][1..] == [Proceed, Proceed];
    AskedSaves(v, v.pass.value);
  }

  const ASK: seq<Answer> := [Proceed, NeedsApproval]

  /** The policy asks for an approval and the pass ends. */
  lemma {:induction false} StepAsks(w: World, index: nat, rows: seq<Row>, approved: Option<nat>, caller: Caller)
    requires Ahead(w, index, rows, approved, caller) && Runs(w.plan, rows, index) && approved != Some(index)
    ensures var v := Execute(w, Ticks(ASK + SAVE));
      && Shaped(v) && GoesOn(w, v) && v.pass.None?
      && v.store.rows == rows[index := rows[index].(status := PendingApproval)]
      && v.store.task == (if caller == ByRecovery then NotAState else WaitingApproval)
      && v.store.approvals == w.store.approvals + [Approval(index, Asked)]
      && (w.telemetry ==> v.store.checkpoint == Some(index))
  {
    hide Advance, Execute, Breaks, Turn;
    assert Ticks(ASK + SAVE) == Ticks(ASK) + Ticks(SAVE);
    ExecuteJoins(w, Ticks(ASK), Ticks(SAVE));
    Governed(w, index, rows, approved, caller);
    var v := Turn(w, Proceed);
    TicksTurn(w, ASK);
    TicksTurn(v, ASK[1..]);
    PolicyAsks(v, v.pass.value);
    var u := Turn(v, NeedsApproval);
    AskedPauses(u, u.pass.value);
    GoesOnJoins(w, u, Execute(u, Ticks(SAVE)));
  }

  lemma PolicyAsks(w: World, p: Pass)
    requires Shaped(w) && w.pass == Some(p) && p.control == Govern && p.approved != Some(p.index)
    ensures var rows := p.rows[p.index := p.rows[p.index].(status := PendingApproval)];
      var v := Turn(w, NeedsApproval);
      && Shaped(v) && GoesOn(w, v) && v.pass == Some(p.(rows := rows, control := AskMove))
      && v.store == w.store.(rows := v.store.rows)
  {
    hide Advance;
    AdvanceGovern(w, p, NeedsApproval);
  }

  /** The pass has walked the whole plan and some step is unresolved: the task fails. */
  lemma {:induction false} PlanFails(w: World, rows: seq<Row>, approved: Option<nat>, caller: Caller)
    requires Ahead(w, |w.plan|, rows, approved, caller) && First(rows, UNRESOLVED).Some?
    ensures var v := Execute(w, Ticks(SAVE));
      && Shaped(v) && GoesOn(w, v) && v.pass.None?
      && v.store == w.store.(rows := rows, task := TaskFailed)
  {
    hide Advance, Execute, CanMove, First;
    LegalMoves();
    TicksTurn(w, SAVE);
    AdvanceHead(w, w.pass.value, Proceed);
    var u := Turn(w, Proceed);
    TicksTurn(u, SAVE[1..]);
    AdvanceEnd(u, u.pass.value, Proceed);
    var v := Turn(u, Proceed);
    assert SAVE[1..][1..] == [Proceed, Proceed];
    Concludes(v, v.pass.value);
  }

  lemma {:induction false} Concludes(w: World, p: Pass)
    requires Shaped(w) && w.pass == Some(p) && p.control == Conclude && p.state == Verifying
    requires First(p.rows, UNRESOLVED).Some?
    ensures var v := Execute(w, Ticks([Proceed, Proceed]));
      && GoesOn(w, v) && v.pass.None? && v.store == w.store.(rows := p.rows, task := TaskFailed)
  {
    hide Advance, Execute, CanMove, First;
    LegalMoves();
    var answers := [Proceed, Proceed];
    TicksTurn(w, answers);
    AdvanceEnd(w, p, Proceed);
    var u := Turn(w, Proceed);
    TicksTurn(u, answers[1..]);
    AdvancePost(u, u.pass.value, Proceed);
  }

  /** A pass that was just started enters the loop. */
  lemma {:induction false} Entered(w: World, i: Input, p: Pass)
    requires Shaped(w) && Next(w, i).pass == Some(p) && p.control == Enter
    requires !HasUnknown(p.rows) && CanMove(p.state, Executing)
    ensures var v := Execute(w, [i] + Ticks([Proceed]));
      && Ahead(v, p.index, p.rows, p.approved, p.caller)
      && v.plan == w.plan && v.telemetry == Next(w, i).telemetry
      && v.store == Next(w, i).store.(task := Executing) && v.log == Next(w, i).log
  {
    hide Advance, Execute, Next, CanMove, HasUnknown;
    var v := Next(w, i);
    ExecuteJoins(w, [i], Ticks([Proceed]));
    ExecuteOne(w, i);
    TicksTurn(v, [Proceed]);
    AdvanceEnter(v, p, Proceed);
  }
}
