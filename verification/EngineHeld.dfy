/** The other way in which a mutation is invoked again. A step that waits for an approval is neither
    failed nor completed, and a second run starts behind it when its own dependencies allow; the
    resumption of the waiting step then walks into what that run left in flight. */
module EngineHeld {
  import opened Options
  import opened TaskDomain
  import opened TaskEngine
  import opened EngineCoherence
  import opened EngineReceipts
  import opened EngineFinality
  import opened EnginePlaces
  import opened EngineAtMostOnce
  import opened EngineTheorems
  import opened EngineReplay
  import opened EngineScenarios

  // ---------------------------------------------------------------------------
  // Walking over steps other than `j`
  // ---------------------------------------------------------------------------

  /** The run goes on without touching step `j`. */
  ghost predicate Apart(w: World, v: World, j: nat) {
    && v.plan == w.plan && v.telemetry == w.telemetry && v.store.approvals == w.store.approvals
    && Grown(w.log, v.log, j) && Aside(w, v, j)
    && (!w.telemetry ==> v.store.checkpoint == w.store.checkpoint)
  }

  lemma ApartJoins(u: World, v: World, w: World, j: nat)
    requires Apart(u, v, j) && Apart(v, w, j)
    ensures Apart(u, w, j)
  {
    hide ReceiptOf;
    GrownJoins(u.log, v.log, w.log, j);
  }

  /** The pass stands before step `k`; what it holds of the other steps is what is stored. */
  ghost predicate Here(w: World, k: nat, rows: seq<Row>, approved: Option<nat>, caller: Caller) {
    && Ahead(w, k, rows, approved, caller) && w.store.task == Executing
    && forall h :: 0 <= h < |w.plan| && h != k ==> w.store.rows[h] == rows[h]
  }

  /** Step `t` runs whatever becomes of the open steps before it. */
  ghost predicate RunsOver(plan: Plan, rows: seq<Row>, t: nat)
    requires t < |plan| == |rows|
  {
    || plan[t].runWhen == Always || |plan[t].deps| == 0
    || (plan[t].runWhen == OnSuccess && forall k :: 0 <= k < t ==> !Fails(rows[k].status))
  }

  lemma RunsOverIsUnbroken(plan: Plan, rows: seq<Row>, t: nat)
    requires ValidPlan(plan) && t < |plan| == |rows| && RunsOver(plan, rows, t)
    ensures !Breaks(plan, rows, t)
  {
  }

  /** Complete one open step. */
  lemma {:induction false} MarchStep(w: World, k: nat, rows: seq<Row>, approved: Option<nat>, caller: Caller, j: nat)
    returns (v: World, done: Row)
    requires Here(w, k, rows, approved, caller) && k != j < |w.plan| && Runs(w.plan, rows, k)
    ensures v == Execute(w, Ticks(INVOKE + DONE)) && done.status == Completed
    ensures Here(v, k + 1, rows[k := done], approved, caller) && v.store.rows == rows[k := done] && Apart(w, v, j)
  {
    hide Advance, Execute, Breaks, ReceiptOf, Grown;
    Governed(w, k, rows, approved, caller);
    var w1 := Turn(w, Proceed);
    TicksTurn(w, INVOKE);
    assert INVOKE[1..] == [Allow, Proceed, Proceed];
    var w2, q := Launches(w1, w1.pass.value, j);
    assert Ticks(INVOKE + DONE) == Ticks(INVOKE) + Ticks(DONE);
    ExecuteJoins(w, Ticks(INVOKE), Ticks(DONE));
    v, done := MarchEnds(w2, q, j);
    MarchGrows(w1.log, w2.log, v.log, j);
  }

  /** The tool succeeds and the step is saved as completed. */
  lemma {:induction false} MarchEnds(w: World, q: Pass, j: nat) returns (v: World, done: Row)
    requires Shaped(w) && w.pass == Some(q) && q.control == Await && q.index != j < |w.plan| && q.state == Executing
    ensures v == Execute(w, Ticks(DONE)) && Shaped(v) && done.status == Completed
    ensures v.pass == Some(q.(control := Head, index := q.index + 1, rows := q.rows[q.index := done]))
    ensures v.store.rows == w.store.rows[q.index := done] && v.store.task == w.store.task && Apart(w, v, j)
  {
    hide Advance, Execute, ReceiptOf, Grown, Turn, Aside;
    TicksTurn(w, DONE);
    var u := Ends(w, q, j);
    TicksTurn(u, DONE[1..]);
    v, done := ClosesAt(u, u.pass.value, j);
    EndsApart(w, u, v, j);
  }

  lemma EndsApart(w: World, u: World, v: World, j: nat)
    requires u.plan == w.plan && u.telemetry == w.telemetry && u.store == w.store.(receipts := u.store.receipts)
    requires Grown(w.log, u.log, j) && Aside(w, u, j) && Apart(u, v, j)
    ensures Apart(w, v, j)
  {
    ApartJoins(w, u, v, j);
  }

  lemma ClosesAt(u: World, q: Pass, j: nat) returns (v: World, done: Row)
    requires Shaped(u) && u.pass == Some(q) && q.control == Closing(SettleCompleted) && q.index != j < |u.plan|
    ensures v == Turn(u, Proceed) && Shaped(v) && done.status == Completed
    ensures v.pass == Some(q.(control := Head, index := q.index + 1, rows := q.rows[q.index := done]))
    ensures v.store.rows == u.store.rows[q.index := done] && v.store.task == u.store.task && Apart(u, v, j)
  {
    hide Advance, ReceiptOf;
    AdvanceClosing(u, q, Proceed);
    v := Turn(u, Proceed);
    done := CompletedRow(q.rows[q.index]);
  }

  lemma MarchGrows(a: seq<Event>, b: seq<Event>, c: seq<Event>, j: nat)
    requires Grown(a, b, j) && Grown(b, c, j)
    ensures Grown(a, c, j)
  {
    GrownJoins(a, b, c, j);
  }

  /** Walk past a completed step. */
  lemma {:induction false} MarchPast(w: World, k: nat, rows: seq<Row>, approved: Option<nat>, caller: Caller, j: nat)
    requires Here(w, k, rows, approved, caller) && k < |w.plan| && j < |w.plan|
    requires rows[k].status == Completed && w.store.rows == rows
    ensures var v := Execute(w, Ticks([Proceed]));
      Here(v, k + 1, rows, approved, caller) && v.store.rows == rows && Apart(w, v, j)
  {
    hide Advance, Execute, Breaks;
    TicksTurn(w, [Proceed]);
    AdvanceHead(w, w.pass.value, Proceed);
  }

  /** What lies ahead up to `end`: completed steps, and open ones that will run. */
  ghost predicate Clear(plan: Plan, rows: seq<Row>, k: nat, end: nat) {
    && k <= end <= |plan| == |rows|
    && forall t :: k <= t < end ==>
         rows[t].status == Completed || (rows[t].status == Pending && RunsOver(plan, rows, t))
  }

  /** Complete every open step up to `end`. */
  lemma {:induction false} March(
    w: World, k: nat, rows: seq<Row>, approved: Option<nat>, caller: Caller, end: nat, j: nat)
    returns (answers: seq<Answer>, after: seq<Row>)
    requires Here(w, k, rows, approved, caller) && ValidPlan(w.plan) && end <= j < |w.plan|
    requires Clear(w.plan, rows, k, end)
    requires w.store.rows == rows || (k < end && rows[k].status != Completed)
    ensures |after| == |rows|
    ensures forall h :: 0 <= h < |rows| ==>
      if k <= h < end then after[h].status == Completed else after[h] == rows[h]
    ensures var v := Execute(w, Ticks(answers));
      Here(v, end, after, approved, caller) && v.store.rows == after && Apart(w, v, j)
    decreases end - k
  {
    hide Execute, Breaks, ValidPlan, Apart, ReceiptOf;
    if k == end {
      answers, after := [], rows;
      NoTicks(w);
      ApartItself(w, j);
    } else {
      var first, mid, v;
      if rows[k].status == Completed {
        first, mid := [Proceed], rows;
        MarchPast(w, k, rows, approved, caller, j);
        v := Execute(w, Ticks(first));
      } else {
        RunsOverIsUnbroken(w.plan, rows, k);
        first := INVOKE + DONE;
        var done;
        v, done := MarchStep(w, k, rows, approved, caller, j);
        mid := rows[k := done];
      }
      StillClear(w.plan, rows, mid, k, end);
      var rest;
      rest, after := March(v, k + 1, mid, approved, caller, end, j);
      answers := first + rest;
      assert Ticks(answers) == Ticks(first) + Ticks(rest);
      ExecuteJoins(w, Ticks(first), Ticks(rest));
      ApartJoins(w, v, Execute(v, Ticks(rest)), j);
    }
  }

  lemma ApartItself(w: World, j: nat)
    requires j < |w.store.rows|
    ensures Apart(w, w, j)
  {
  }

  lemma StillClear(plan: Plan, rows: seq<Row>, mid: seq<Row>, k: nat, end: nat)
    requires Clear(plan, rows, k, end) && k < end && |mid| == |rows| && mid[k].status == Completed
    requires forall h :: 0 <= h < |rows| && h != k ==> mid[h] == rows[h]
    ensures Clear(plan, mid, k + 1, end)
  {
  }

  const ERRS: seq<Answer> := [Proceed, ArgumentError]

  /** The arguments of a step cannot be resolved: it fails without being invoked. */
  lemma {:induction false} MarchErrs(w: World, k: nat, rows: seq<Row>, approved: Option<nat>, caller: Caller, j: nat)
    requires Here(w, k, rows, approved, caller) && w.store.rows == rows && k != j < |w.plan| && Runs(w.plan, rows, k)
    ensures var v := Execute(w, Ticks(ERRS));
      var after := rows[k := FailedRow(rows[k], Failed)];
      Here(v, k + 1, after, approved, caller) && v.store.rows == after && Apart(w, v, j)
  {
    hide Advance, Execute, Breaks, ReceiptOf, FailedRow;
    Governed(w, k, rows, approved, caller);
    var u := Turn(w, Proceed);
    TicksTurn(w, ERRS);
    TicksTurn(u, ERRS[1..]);
    ErrsAt(u, u.pass.value, j);
  }

  lemma ErrsAt(u: World, p: Pass, j: nat)
    requires Shaped(u) && u.pass == Some(p) && p.control == Govern && p.rows == u.store.rows && p.index != j < |u.plan|
    ensures var v := Turn(u, ArgumentError);
      var after := p.rows[p.index := FailedRow(p.rows[p.index], Failed)];
      && v.pass == Some(p.(rows := after, index := p.index + 1, control := Head))
      && v.store.rows == after && v.store.task == u.store.task && Apart(u, v, j)
  {
    hide Advance, ReceiptOf;
    AdvanceGovern(u, p, ArgumentError);
  }

  // ---------------------------------------------------------------------------
  // The run
  // ---------------------------------------------------------------------------

  /** Step `s` does not depend on step `i`, although every step between them runs whatever became of
      `i`; and no step up to `j` waits for a failure. */
  ghost predicate Loose(plan: Plan, i: nat, s: nat, j: nat) {
    && ValidPlan(plan) && i < s <= j < |plan| && LaxBetween(plan, i, s) && plan[i].id !in plan[s].deps
    && forall k :: 0 <= k <= j ==> plan[k].runWhen == OnFailure ==> |plan[k].deps| == 0
  }

  /** Completed up to `s`, but for step `i`; nothing from `s` on was looked at. */
  ghost predicate Gap(rows: seq<Row>, i: nat, s: nat, status: Status) {
    && i < s < |rows| && rows[i].status == status
    && (forall k :: 0 <= k < s && k != i ==> rows[k].status == Completed)
    && (forall k :: s <= k < |rows| ==> rows[k].status == Pending)
  }

  /** No pass is running. */
  ghost predicate Parked(w: World, plan: Plan, task: TaskState, approvals: seq<Approval>) {
    && Shaped(w) && w.plan == plan && w.pass.None? && w.store.task == task && w.store.approvals == approvals
  }

  lemma {:induction false} Crashes(w: World)
    requires Shaped(w)
    ensures Execute(w, [Crash]) == w.(pass := None)
  {
    ExecuteOne(w, Crash);
  }

  lemma FirstRun(plan: Plan)
    requires ValidPlan(plan) && |plan| > 0
    ensures var w := Created(plan);
      Next(w, Run(0)) == w.(pass := Some(NewPass(w.store.rows, Planning, 0, 0, None, ByRun)))
  {
    var w := Created(plan);
    FirstHasNoDeps(plan);
    assert First(w.store.rows, {Pending}) == Some(0);
    assert First(w.store.rows, UNRESOLVED) == Some(0);
    assert First(w.store.rows, {OutcomeUnknown}).None?;
  }

  /** First, step `i` fails while all the others up to `s` complete, and the process dies. */
  lemma {:induction false} FirstFails(plan: Plan, i: nat, s: nat, j: nat) returns (inputs: seq<Input>)
    requires Loose(plan, i, s, j)
    ensures var v := Execute(Created(plan), inputs);
      Parked(v, plan, Executing, []) && v.telemetry && Gap(v.store.rows, i, s, Failed)
  {
    hide Execute, Next, Breaks, ValidPlan, Apart, CanMove, HasUnknown, FailedRow;
    var w := Created(plan);
    FirstRun(plan);
    UnknownIsUnknown(w.store.rows);
    LegalStarts();
    Entered(w, Run(0), NewPass(w.store.rows, Planning, 0, 0, None, ByRun));
    var start := [Run(0)] + Ticks([Proceed]);
    var w1 := Execute(w, start);
    var a1, rows1 := March(w1, 0, w.store.rows, None, ByRun, i, j);
    var w2 := Execute(w1, Ticks(a1));
    assert RunsOver(plan, rows1, i);
    RunsOverIsUnbroken(plan, rows1, i);
    MarchErrs(w2, i, rows1, None, ByRun, j);
    FailedStatus(rows1[i]);
    var w3 := Execute(w2, Ticks(ERRS));
    var rows2 := rows1[i := FailedRow(rows1[i], Failed)];
    var a3, rows3 := March(w3, i + 1, rows2, None, ByRun, s, j);
    var w4 := Execute(w3, Ticks(a3));
    Crashes(w4);
    inputs := start + (Ticks(a1) + (Ticks(ERRS) + (Ticks(a3) + [Crash])));
    ExecuteJoins(w, start, Ticks(a1) + (Ticks(ERRS) + (Ticks(a3) + [Crash])));
    ExecuteJoins(w1, Ticks(a1), Ticks(ERRS) + (Ticks(a3) + [Crash]));
    ExecuteJoins(w2, Ticks(ERRS), Ticks(a3) + [Crash]);
    ExecuteJoins(w3, Ticks(a3), [Crash]);
    KeepsApart(w1, w2, w3, w4, j);
  }

  lemma LegalStarts()
    ensures CanMove(Planning, Executing) && CanMove(WaitingApproval, Executing) && CanMove(Executing, Executing)
  {
  }

  lemma KeepsApart(w1: World, w2: World, w3: World, w4: World, j: nat)
    requires Apart(w1, w2, j) && Apart(w2, w3, j) && Apart(w3, w4, j)
    ensures w4.plan == w1.plan && w4.telemetry == w1.telemetry && w4.store.approvals == w1.store.approvals
  {
  }

  lemma Recovers(w: World, plan: Plan, i: nat, s: nat)
    requires Parked(w, plan, Executing, []) && Gap(w.store.rows, i, s, Failed)
    ensures Next(w, Recover) == w.(pass := Some(NewPass(w.store.rows, Executing, i, 1, None, ByRecovery)))
    ensures !HasUnknown(w.store.rows)
  {
    var first := First(w.store.rows, NOT_COMPLETED);
    assert first == Some(i);
    assert First(w.store.rows, {OutcomeUnknown}).None?;
  }

  const ASKED: seq<Answer> := [Proceed, NeedsApproval, Proceed, Proceed]

  /** The step asks for an approval, and the request is recorded. */
  lemma {:induction false} MarchAsks(w: World, k: nat, rows: seq<Row>, caller: Caller)
    requires Here(w, k, rows, None, caller) && w.store.rows == rows && Runs(w.plan, rows, k) && w.telemetry
    ensures var v := Execute(w, Ticks(ASKED));
      && v.plan == w.plan && v.telemetry
      && v.store.rows == rows[k := rows[k].(status := PendingApproval)] && v.store.task == WaitingApproval
      && v.store.approvals == w.store.approvals + [Approval(k, Asked)] && v.store.checkpoint == Some(k)
  {
    hide Advance, Execute, Breaks;
    Governed(w, k, rows, None, caller);
    var u := Turn(w, Proceed);
    TicksTurn(w, ASKED);
    TicksTurn(u, ASKED[1..]);
    PolicyAsks(u, u.pass.value);
    var x := Turn(u, NeedsApproval);
    assert ASKED[1..][1..] == [Proceed, Proceed];
    TicksTurn(x, [Proceed, Proceed]);
    var y := AskedMoves(x, x.pass.value);
    TicksTurn(y, [Proceed, Proceed][1..]);
    AdvanceAsk(y, y.pass.value, Proceed);
  }

  /** Then crash recovery starts at step `i` again, which now asks for an approval; the process dies
      once the request is recorded. */
  lemma {:induction false} ThenAsks(w: World, plan: Plan, i: nat, s: nat, j: nat) returns (inputs: seq<Input>)
    requires Loose(plan, i, s, j)
    requires Parked(w, plan, Executing, []) && w.telemetry && Gap(w.store.rows, i, s, Failed)
    ensures var v := Execute(w, inputs);
      && Parked(v, plan, WaitingApproval, [Approval(i, Asked)]) && v.store.checkpoint == Some(i)
      && Gap(v.store.rows, i, s, PendingApproval)
  {
    hide Execute, Next, Breaks, ValidPlan, CanMove, HasUnknown;
    Recovers(w, plan, i, s);
    LegalStarts();
    Entered(w, Recover, NewPass(w.store.rows, Executing, i, 1, None, ByRecovery));
    var start := [Recover] + Ticks([Proceed]);
    var w1 := Execute(w, start);
    assert RunsOver(plan, w.store.rows, i);
    RunsOverIsUnbroken(plan, w.store.rows, i);
    MarchAsks(w1, i, w.store.rows, ByRecovery);
    var w2 := Execute(w1, Ticks(ASKED));
    Crashes(w2);
    inputs := start + (Ticks(ASKED) + [Crash]);
    ExecuteJoins(w, start, Ticks(ASKED) + [Crash]);
    ExecuteJoins(w1, Ticks(ASKED), [Crash]);
  }

  /** A second run starts behind the waiting step. */
  lemma {:induction false} RunStartsBehind(plan: Plan, rows: seq<Row>, i: nat, s: nat, j: nat)
    requires Loose(plan, i, s, j) && |rows| == |plan| && Gap(rows, i, s, PendingApproval)
    ensures RunStart(plan, rows, WaitingApproval) == Some(s) && !HasUnknown(rows)
  {
    assert rows[s].status == Pending;
    assert First(rows, {Pending}) == Some(s);
    assert First(rows, {OutcomeUnknown}).None?;
    assert rows[i].status in UNRESOLVED;
    assert First(rows, UNRESOLVED).Some?;
    forall d | d in plan[s].deps ensures DependencyAllowsStart(plan, rows, d, true) {
      assert Find(plan, d).Some? && Find(plan, d).value < s;
      assert plan[Find(plan, d).value].id == d;
    }
  }

  /** Every step but `i` and those from `j` on is completed, and `j` is in flight. */
  ghost predicate Stranded(rows: seq<Row>, i: nat, j: nat) {
    && i < j < |rows| && rows[i].status == PendingApproval && rows[j].status == Running
    && (forall k :: 0 <= k < j && k != i ==> rows[k].status == Completed)
    && NoUnknown(rows)
  }

  /** Next, without checkpoints, a run starts at `s`. */
  lemma {:induction false} StartsBehind(w: World, plan: Plan, i: nat, s: nat, j: nat) returns (inputs: seq<Input>)
    requires Loose(plan, i, s, j)
    requires Parked(w, plan, WaitingApproval, [Approval(i, Asked)]) && w.store.checkpoint == Some(i)
    requires Gap(w.store.rows, i, s, PendingApproval)
    ensures var v := Execute(w, inputs);
      && Here(v, s, w.store.rows, None, ByRun) && v.plan == plan && !v.telemetry
      && v.store == w.store.(task := Executing)
  {
    hide Execute, Next, Loose, Gap, CanMove, HasUnknown, RunStart;
    var rows := w.store.rows;
    RunStartsBehind(plan, rows, i, s, j);
    LegalStarts();
    var w1 := w.(telemetry := false);
    ExecuteOne(w, Telemetry(false));
    var p := NewPass(rows, WaitingApproval, s, 0, None, ByRun);
    RunIs(w, w1, s, p);
    Entered(w1, Run(0), p);
    var start := [Run(0)] + Ticks([Proceed]);
    inputs := [Telemetry(false)] + start;
    ExecuteJoins(w, [Telemetry(false)], start);
  }

  /** That run completes everything up to `j` and invokes it; the process dies. */
  lemma {:induction false} RunsBehind(w: World, plan: Plan, i: nat, s: nat, j: nat) returns (inputs: seq<Input>)
    requires Loose(plan, i, s, j)
    requires Parked(w, plan, WaitingApproval, [Approval(i, Asked)]) && w.store.checkpoint == Some(i)
    requires Gap(w.store.rows, i, s, PendingApproval)
    ensures var v := Execute(w, inputs);
      && v.pass.Some? && v.pass.value.control == Await && v.pass.value.index == j && v.pass.value.rows == v.store.rows
      && v.plan == plan && !v.telemetry && v.store.task == Executing
      && v.store.approvals == [Approval(i, Asked)] && v.store.checkpoint == Some(i)
      && Stranded(v.store.rows, i, j)
      && |v.log| > 0 && v.log[|v.log| - 1] == Dispatched(j, v.store.rows[j].attempts)
  {
    hide Execute, Breaks, ValidPlan, Apart, Here;
    var rows := w.store.rows;
    var start := StartsBehind(w, plan, i, s, j);
    var w2 := Execute(w, start);
    var a2, after := March(w2, s, rows, None, ByRun, j, j);
    var w3 := Execute(w2, Ticks(a2));
    inputs := start + (Ticks(a2) + Ticks(INVOKE));
    ExecuteJoins(w, start, Ticks(a2) + Ticks(INVOKE));
    ExecuteJoins(w2, Ticks(a2), Ticks(INVOKE));
    assert after[j].status == Pending;
    assert RunsOver(plan, after, j);
    RunsOverIsUnbroken(plan, after, j);
    ApartKeeps(w2, w3, j);
    var q := MarchInvokes(w3, j, after, None, ByRun);
  }

  lemma RunIs(w: World, w1: World, s: nat, p: Pass)
    requires Shaped(w) && w.pass.None? && w1 == w.(telemetry := false)
    requires RunStart(w.plan, w.store.rows, w.store.task) == Some(s)
    requires p == NewPass(w.store.rows, w.store.task, s, 0, None, ByRun)
    ensures Next(w, Telemetry(false)) == w1 && Next(w1, Run(0)) == w1.(pass := Some(p))
  {
    hide RunStart;
  }

  lemma ApartKeeps(w: World, v: World, j: nat)
    requires Apart(w, v, j)
    ensures v.plan == w.plan && v.telemetry == w.telemetry && v.store.approvals == w.store.approvals
    ensures !w.telemetry ==> v.store.checkpoint == w.store.checkpoint
  {
  }

  lemma {:induction false} MarchInvokes(w: World, j: nat, rows: seq<Row>, approved: Option<nat>, caller: Caller)
    returns (q: Pass)
    requires Here(w, j, rows, approved, caller) && Runs(w.plan, rows, j) && w.store.rows == rows
    ensures var v := Execute(w, Ticks(INVOKE));
      && v.pass == Some(q) && q.control == Await && q.index == j && q.rows == v.store.rows
      && v.plan == w.plan && v.telemetry == w.telemetry && v.store.task == Executing
      && v.store.approvals == w.store.approvals && (!w.telemetry ==> v.store.checkpoint == w.store.checkpoint)
      && v.store.rows == rows[j := StartedRow(rows[j])] && Grown(w.log, v.log, j)
      && |v.log| > |w.log| && v.log[|v.log| - 1] == Dispatched(j, rows[j].attempts + 1)
  {
    hide Advance, Execute, Breaks, Grown;
    Governed(w, j, rows, approved, caller);
    var u := Turn(w, Proceed);
    TicksTurn(w, INVOKE);
    assert INVOKE[1..] == [Allow, Proceed, Proceed];
    var v;
    v, q := Launches(u, u.pass.value, j);
  }

  /** The request for step `i` is granted and resumed. */
  lemma Resumes(w: World, i: nat, j: nat)
    requires Shaped(w) && w.pass.None? && w.store.task == Executing && w.store.checkpoint == Some(i)
    requires w.store.approvals == [Approval(i, Asked)] && Stranded(w.store.rows, i, j)
    ensures var u := Next(w, Grant(0));
      var v := Next(u, Resume(0, 0));
      var rows := w.store.rows[i := w.store.rows[i].(status := Pending)];
      && Shaped(u) && v == u.(store := v.store, pass := Some(NewPass(rows, Executing, i, 0, Some(i), ByResume)))
      && v.log == w.log && v.plan == w.plan && v.telemetry == w.telemetry
      && v.store == w.store.(approvals := v.store.approvals)
      && !HasUnknown(rows)
  {
    UnknownIsUnknown(w.store.rows[i := w.store.rows[i].(status := Pending)]);
  }

  /** Last, step `i` is approved and completes, and the pass comes to `j`, still in flight. */
  lemma {:induction false} ResumesInto(w: World, plan: Plan, i: nat, s: nat, j: nat)
    returns (inputs: seq<Input>, rows: seq<Row>)
    requires Loose(plan, i, s, j) && Shaped(w) && w.plan == plan && w.pass.None? && !w.telemetry
    requires w.store.task == Executing && w.store.checkpoint == Some(i)
    requires w.store.approvals == [Approval(i, Asked)] && Stranded(w.store.rows, i, j)
    ensures var v := Execute(w, inputs);
      && Here(v, j, rows, Some(i), ByResume) && v.plan == plan && v.store.rows == rows
      && Grown(w.log, v.log, j) && Aside(w, v, j) && rows[j].status == Running && Runs(plan, rows, j)
  {
    hide Execute, Next, Breaks, ValidPlan, Apart, CanMove, HasUnknown, Grown, ReceiptOf;
    Resumes(w, i, j);
    LegalStarts();
    var u := Next(w, Grant(0));
    var before := w.store.rows[i := w.store.rows[i].(status := Pending)];
    Entered(u, Resume(0, 0), NewPass(before, Executing, i, 0, Some(i), ByResume));
    var start := [Resume(0, 0)] + Ticks([Proceed]);
    var w1 := Execute(u, start);
    var answers;
    answers, rows := March(w1, i, before, Some(i), ByResume, j, j);
    inputs := [Grant(0)] + (start + Ticks(answers));
    ExecuteJoins(w, [Grant(0)], start + Ticks(answers));
    ExecuteOne(w, Grant(0));
    ExecuteJoins(u, start, Ticks(answers));
    assert RunsOver(plan, rows, j);
    RunsOverIsUnbroken(plan, rows, j);
    StaysAside(w, w1, Execute(w1, Ticks(answers)), j);
  }

  lemma StaysAside(w: World, u: World, v: World, j: nat)
    requires j < |w.store.rows| && j < |u.store.rows| && u.store.rows[j] == w.store.rows[j]
    requires u.store.receipts == w.store.receipts && u.log == w.log && Apart(u, v, j)
    ensures Grown(w.log, v.log, j) && Aside(w, v, j)
  {
  }

  /** The whole run: a pass comes to step `j` a second time while its invocation is on record, at
      position `x` of the log, and its receipt is open. */
  lemma {:induction false} HeldReturns(plan: Plan, i: nat, s: nat, j: nat)
    returns (inputs: seq<Input>, rows: seq<Row>, x: nat)
    requires Loose(plan, i, s, j) && Mutates(plan, j)
    ensures var v := Execute(Created(plan), inputs);
      && Here(v, j, rows, Some(i), ByResume) && v.plan == plan && v.store.rows == rows
      && j < |rows| && rows[j].status == Running && Runs(plan, rows, j)
      && x < |v.log| && v.log[x].Dispatched? && v.log[x].step == j
      && (forall z :: x < z < |v.log| && v.log[z].Finished? ==> v.log[z].step != j)
      && ReceiptOf(v.store.receipts, j, rows[j].attempts) == Some(Started)
  {
    hide Execute, Loose, Gap, Stranded, Here, Runs, ReceiptOf;
    var w := Created(plan);
    var i1 := FirstFails(plan, i, s, j);
    var w1 := Execute(w, i1);
    var i2 := ThenAsks(w1, plan, i, s, j);
    var w2 := Execute(w1, i2);
    var i3 := RunsBehind(w2, plan, i, s, j);
    var w3 := Execute(w2, i3);
    ExecuteJoins(w, i1, i2);
    ExecuteJoins(w, i1 + i2, i3);
    InFlightIsOpen(plan, i1 + i2 + i3);
    Crashes(w3);
    var dead := w3.(pass := None);
    var i4;
    i4, rows := ResumesInto(dead, plan, i, s, j);
    x := |w3.log| - 1;
    inputs := i1 + i2 + i3 + ([Crash] + i4);
    ExecuteJoins(w, i1 + i2 + i3, [Crash] + i4);
    ExecuteJoins(w3, [Crash], i4);
    var v := Execute(dead, i4);
    assert v.log[x] == v.log[..|w3.log|][x];
    assert forall h :: 0 <= h < |rows| ==> v.store.rows[h] == rows[h];
  }

  /** A mutation behind a step that some step up to it does not depend on, although nothing between
      them runs only on success, has a run that invokes it twice with no known failure in between. */
  lemma {:induction false} HeldMutationIsReplayed(plan: Plan, i: nat, s: nat, j: nat) returns (inputs: seq<Input>)
    requires Loose(plan, i, s, j) && Mutates(plan, j)
    ensures !OnceOf(Execute(Created(plan), inputs).log, j)
  {
    hide Execute, Loose, ReceiptOf, Breaks;
    var w := Created(plan);
    var first, rows, x := HeldReturns(plan, i, s, j);
    var v := Execute(w, first);
    var q := MarchInvokes(v, j, rows, Some(i), ByResume);
    var u := Execute(v, Ticks(INVOKE));
    inputs := first + Ticks(INVOKE);
    ExecuteJoins(w, first, Ticks(INVOKE));
    assert u.log[x] == u.log[..|v.log|][x] == v.log[x];
    assert forall z :: x < z < |v.log| ==> u.log[z] == u.log[..|v.log|][z];
    NotOnce(u.log, x, |u.log| - 1, j);
  }

  // ---------------------------------------------------------------------------
  // The exact condition
  // ---------------------------------------------------------------------------

  /** Some choice of outcomes lets a first pass come to step `j`. */
  ghost predicate CanBeReached(plan: Plan, j: nat) {
    exists support :: Supports(plan, support, j)
  }

  /** A step that can be reached, but only when all the steps before it are completed, has no step
      before it that waits for a failure. */
  lemma FullSupport(plan: Plan, support: set<nat>, j: nat, k: nat)
    requires ValidPlan(plan) && Supports(plan, support, j) && k <= j && plan[k].runWhen == OnFailure
    requires forall i :: 0 <= i < j ==> i in support
    ensures |plan[k].deps| == 0
  {
    hide ValidPlan, Find;
    assert RunsOn(plan, support, k);
  }

  /** A step off the spine runs without any of the steps before it. */
  lemma {:induction false} SomeSupport(plan: Plan, j: nat) returns (support: set<nat>)
    requires ValidPlan(plan) && CanBeReached(plan, j)
    ensures Supports(plan, support, j)
    ensures j < |plan| && (!OnSpine(plan, j) ==> j > 0 && j - 1 !in support)
  {
    support :| Supports(plan, support, j);
    if !OnSpine(plan, j) {
      support := {};
      if |plan[j].deps| > 0 {
        assert plan[j].deps[0] in plan[j].deps;
      }
    }
  }

  /** An unguarded mutation has a run that invokes it twice. */
  lemma {:induction false} UnguardedIsReplayed(plan: Plan, j: nat) returns (inputs: seq<Input>)
    requires ValidPlan(plan) && CanBeReached(plan, j) && Mutates(plan, j) && !Guarded(plan, j)
    ensures !OnceOf(Execute(Created(plan), inputs).log, j)
  {
    hide Execute, OnceOf, ValidPlan, Supports;
    var support := SomeSupport(plan, j);
    if h :| 0 <= h < j && h !in support {
      inputs := StaleMutationIsReplayed(plan, support, j, h);
    } else {
      var i, s := FindsLoose(plan, support, j);
      inputs := HeldMutationIsReplayed(plan, i, s, j);
    }
  }

  lemma FindsLoose(plan: Plan, support: set<nat>, j: nat) returns (i: nat, s: nat)
    requires ValidPlan(plan) && Supports(plan, support, j) && !Guarded(plan, j)
    requires forall h :: 0 <= h < j ==> h in support
    requires OnSpine(plan, j)
    ensures Loose(plan, i, s, j)
  {
    hide ValidPlan;
    i, s :| 0 <= i < s <= j && LaxBetween(plan, i, s) && plan[i].id !in plan[s].deps;
    forall k | 0 <= k <= j && plan[k].runWhen == OnFailure ensures |plan[k].deps| == 0 {
      FullSupport(plan, support, j, k);
    }
  }

  /** For every mutation of every valid plan that some first pass can reach: in all runs it is
      invoked at most once unless it is known to have failed, if and only if it is guarded. */
  lemma {:induction false} ExactlyGuardedRunsAtMostOnce(plan: Plan, j: nat)
    requires ValidPlan(plan) && Mutates(plan, j) && CanBeReached(plan, j)
    ensures Guarded(plan, j) <==> forall inputs :: OnceOf(Execute(Created(plan), inputs).log, j)
  {
    hide Execute, OnceOf, Guarded, ValidPlan, AllDone, CanBeReached;
    if Guarded(plan, j) {
      forall inputs ensures OnceOf(Execute(Created(plan), inputs).log, j) {
        GuardedRunsAtMostOnce(plan, inputs, j);
      }
    } else {
      var inputs := UnguardedIsReplayed(plan, j);
    }
  }

  /** Every mutation is guarded. */
  ghost predicate AllGuarded(plan: Plan) {
    forall j :: Mutates(plan, j) ==> Guarded(plan, j)
  }

  /** The same for whole plans. */
  lemma {:induction false} ExactlyGuardedPlans(plan: Plan)
    requires ValidPlan(plan) && forall j :: Mutates(plan, j) ==> CanBeReached(plan, j)
    ensures AllGuarded(plan) <==> forall inputs :: AtMostOnce(plan, Execute(Created(plan), inputs).log)
  {
    hide Execute, OnceOf, Guarded, ValidPlan, AllDone, CanBeReached;
    if AllGuarded(plan) {
      forall inputs, j | Mutates(plan, j) ensures OnceOf(Execute(Created(plan), inputs).log, j) {
        GuardedRunsAtMostOnce(plan, inputs, j);
      }
    } else {
      var j :| Mutates(plan, j) && !Guarded(plan, j);
      var inputs := UnguardedIsReplayed(plan, j);
      assert !AtMostOnce(plan, Execute(Created(plan), inputs).log);
    }
  }

  /** Without steps that wait for a failure, every step can be reached. */
  lemma {:induction false} AllCanBeReached(plan: Plan, j: nat)
    requires ValidPlan(plan) && j < |plan|
    requires forall k :: 0 <= k <= j && plan[k].runWhen == OnFailure ==> |plan[k].deps| == 0
    ensures CanBeReached(plan, j)
  {
    forall k | 0 <= k <= j ensures RunsOn(plan, Below(j), k) {
      assert forall d :: d in plan[k].deps ==> Find(plan, d).Some? && Find(plan, d).value < k;
    }
    assert Supports(plan, Below(j), j);
  }
}
