/** The durable task engine as a transition system.

    Every call of `Next` that advances a pass performs at most one durable write, or hands the
    step to its tool, or changes only what is held in memory; a crash may come between any two
    of them and drops the pass. The tools, the governance policy, template resolution and the
    ownership fence are unconstrained: they are the answers carried by the inputs. */
module TaskEngine {
  import opened Options
  import opened TaskDomain

  // ---------------------------------------------------------------------------
  // State
  // ---------------------------------------------------------------------------

  /** What survives a crash. `checkpoint` is the step of the latest checkpoint. */
  datatype Store = Store(
    rows: seq<Row>, receipts: seq<Receipt>, task: TaskState, approvals: seq<Approval>, checkpoint: Option<nat>)

  /** What an observer sees, in order: receipts begun and finished, tool invocations, and step
      statuses persisted. */
  datatype Event =
    | Begun(step: nat, attempt: nat)
    | Dispatched(step: nat, attempt: nat)
    | Finished(step: nat, attempt: nat, outcome: ReceiptStatus)
    | Saved(step: nat, status: Status)

  datatype Caller = ByRun | ByRecovery | ByResume

  datatype Result = LoopCompleted | LoopFailed | LoopPendingApproval

  datatype Verdict = SettleUnknown | SettleFailed | SettleCompleted

  /** Where a pass of the loop stands, between two durable writes. */
  datatype Control =
    | Enter
    | Head
    | Govern
    | Begin(templated: bool)
    | Launch
    | Await
    | Closing(verdict: Verdict)
    | Caught(code: Code, open: bool)
    | Settling(code: Code)
    | Mend(code: Code)
    | Decide
    | AskMove | AskCreate | AskSave
    | FailTask
    | Verify
    | Conclude
    | Post(result: Result)
    | Quarantine
    | Broken

  /** One pass of the loop, held in memory. `entry`, `entryState`, `dispatches` and `backoff`
      only record the pass: what it started from, how often it invoked a tool, how long it
      slept. */
  datatype Pass = Pass(
    rows: seq<Row>, state: TaskState, start: nat, index: nat, recoveries: nat, maxRecovery: nat,
    approved: Option<nat>, caller: Caller, control: Control,
    entry: seq<Row>, entryState: TaskState, dispatches: seq<nat>, backoff: nat)

  /** `telemetry` says whether best-effort writes are being kept; it may change at any time. */
  datatype World = World(plan: Plan, store: Store, log: seq<Event>, pass: Option<Pass>, telemetry: bool)

  // ---------------------------------------------------------------------------
  // Inputs
  // ---------------------------------------------------------------------------

  datatype Answer =
    | Proceed
    | ArgumentError | NeedsApproval | Deny | Allow
    | Templated | EarlyThrow(code: Code) | FenceRefusal
    | ConfigThrow(code: Code)
    | Outcome(race: Race)
    | Diagnosis(reason: Reason)

  datatype Input =
    | Run(maxRecovery: nat)
    | Recover
    | Grant(approval: nat)
    | Resume(approval: nat, maxRecovery: nat)
    | Cancel
    | Telemetry(kept: bool)
    | Tick(answer: Answer)
    | Crash

  // ---------------------------------------------------------------------------
  // Reading the rows
  // ---------------------------------------------------------------------------

  /** The first row at or after `from` whose status is among `wanted`. */
  function First(rows: seq<Row>, wanted: set<Status>, from: nat := 0): (r: Option<nat>)
    requires from <= |rows|
    ensures r.Some? ==> from <= r.value < |rows| && rows[r.value].status in wanted
    ensures r.Some? ==> forall k :: from <= k < r.value ==> rows[k].status !in wanted
    ensures r.None? ==> forall k :: from <= k < |rows| ==> rows[k].status !in wanted
    decreases |rows| - from
  {
    if from == |rows| then None
    else if rows[from].status in wanted then Some(from)
    else First(rows, wanted, from + 1)
  }

  const NOT_COMPLETED: set<Status> :=
    {Pending, Running, Failed, PendingApproval, Blocked, Cancelled, OutcomeUnknown,
     ReconciledSucceeded, ReconciledFailed}

  const UNRESOLVED: set<Status> :=
    {Pending, Running, Failed, PendingApproval, Blocked, OutcomeUnknown, ReconciledFailed}

  predicate HasUnknown(rows: seq<Row>) {
    First(rows, {OutcomeUnknown}).Some?
  }

  /** The latest receipt of a step, which is what a hydrated plan carries. */
  function Latest(receipts: seq<Receipt>, step: nat): (r: Option<nat>)
    ensures r.Some? ==> r.value < |receipts| && receipts[r.value].step == step
    ensures r.Some? ==> forall k :: r.value < k < |receipts| ==> receipts[k].step != step
    ensures r.None? ==> forall k :: 0 <= k < |receipts| ==> receipts[k].step != step
  {
    if |receipts| == 0 then None
    else if receipts[|receipts| - 1].step == step then Some(|receipts| - 1)
    else Latest(receipts[..|receipts| - 1], step)
  }

  // ---------------------------------------------------------------------------
  // Row updates
  // ---------------------------------------------------------------------------

  /** A failed attempt: the status, the counter and the history move together. */
  function FailedRow(r: Row, status: Status): Row {
    r.(status := status, failures := r.failures + 1,
       history := r.history + [AttemptFailed(r.attempts)])
  }

  function CompletedRow(r: Row): Row {
    r.(status := Completed, history := r.history + [AttemptCompleted(r.attempts)])
  }

  function StartedRow(r: Row): Row {
    r.(status := Running, attempts := r.attempts + 1)
  }

  function ClosedRow(r: Row, v: Verdict): Row {
    match v
    case SettleUnknown => FailedRow(r, OutcomeUnknown)
    case SettleFailed => FailedRow(r, Failed)
    case SettleCompleted => CompletedRow(r)
  }

  function SettledRow(r: Row, code: Code): Row {
    FailedRow(r, if code == SecurityBlock then Blocked else Failed)
  }

  // ---------------------------------------------------------------------------
  // Durable writes
  // ---------------------------------------------------------------------------

  /** `move` to a cheap state: only the task status is written. */
  function StatusMove(w: World, p: Pass, to: TaskState, next: Control): World {
    if CanMove(p.state, to) then
      w.(store := w.store.(task := to), pass := Some(p.(state := to, control := next)))
    else
      w.(pass := Some(p.(control := Broken)))
  }

  /** `move` to any other state: the whole plan is written. */
  function PlanMove(w: World, p: Pass, to: TaskState, next: Control): World {
    if CanMove(p.state, to) then
      w.(store := w.store.(rows := p.rows, task := to),
         pass := Some(p.(state := to, control := next)))
    else
      w.(pass := Some(p.(control := Broken)))
  }

  /** saveTaskStep for the current step. */
  function SaveRow(w: World, p: Pass, r: Row, index: nat, next: Control): World
    requires p.index < |p.rows| == |w.store.rows|
  {
    w.(store := w.store.(rows := w.store.rows[p.index := r]),
       log := w.log + [Saved(p.index, r.status)],
       pass := Some(p.(rows := p.rows[p.index := r], index := index, control := next)))
  }

  /** beginStepExecutionReceipt: the running row and the started receipt commit together. */
  function BeginReceipt(w: World, p: Pass, next: Control): World
    requires p.index < |p.rows| == |w.store.rows|
  {
    var r := p.rows[p.index];
    w.(store := w.store.(rows := w.store.rows[p.index := r],
                         receipts := w.store.receipts + [Receipt(p.index, r.attempts, Started)]),
       log := w.log + [Begun(p.index, r.attempts), Saved(p.index, r.status)],
       pass := Some(p.(control := next)))
  }

  /** finishStepExecutionReceipt: only a started receipt can be finalised. */
  function FinishReceipt(w: World, step: nat, to: ReceiptStatus): World {
    var at := Latest(w.store.receipts, step);
    if at.None? || w.store.receipts[at.value].status != Started then w
    else
      var open := w.store.receipts[at.value];
      w.(store := w.store.(receipts := w.store.receipts[at.value := open.(status := to)]),
         log := w.log + [Finished(step, open.attempt, to)])
  }

  // ---------------------------------------------------------------------------
  // Starting a pass
  // ---------------------------------------------------------------------------

  function NewPass(rows: seq<Row>, state: TaskState, start: nat, maxRecovery: nat,
                   approved: Option<nat>, caller: Caller): Pass {
    Pass(rows, state, start, start, 0, maxRecovery, approved, caller, Enter, rows, state, [], 0)
  }

  predicate DependencyAllowsStart(plan: Plan, rows: seq<Row>, dep: int, corrective: bool)
    requires |plan| == |rows|
  {
    var at := Find(plan, dep);
    at.Some? &&
    var s := rows[at.value].status;
    s == Completed || s == ReconciledSucceeded ||
    (corrective && (s == Failed || s == OutcomeUnknown))
  }

  /** TaskRuntimeService.run up to the loop: the step to start from, if the run is not refused
      or answered without walking the plan. */
  function RunStart(plan: Plan, rows: seq<Row>, task: TaskState): (r: Option<nat>)
    requires |plan| == |rows|
    ensures r.Some? ==> r.value < |rows|
  {
    if HasUnknown(rows) || task == TaskCancelled || First(rows, UNRESOLVED).None? then None
    else
      var pending := First(rows, {Pending});
      var start := if pending.Some? then pending else First(rows, {Failed, OutcomeUnknown, PendingApproval});
      if start.None? || rows[start.value].status == PendingApproval then None
      else
        var corrective := rows[start.value].status == Pending && |plan[start.value].deps| > 0;
        if forall d | d in plan[start.value].deps ::
             DependencyAllowsStart(plan, rows, d, corrective)
        then start else None
  }

  function StartRun(w: World, maxRecovery: nat): World
    requires |w.plan| == |w.store.rows|
  {
    var start := RunStart(w.plan, w.store.rows, w.store.task);
    if start.None? then w
    else
      w.(pass := Some(NewPass(w.store.rows, w.store.task, start.value, maxRecovery, None, ByRun)))
  }

  /** recoverInterruptedTasks for one task: only the first step that is not completed is looked
      at. */
  function StartRecovery(w: World): World
    requires |w.plan| == |w.store.rows|
  {
    var rows := w.store.rows;
    if w.store.task !in {Executing, Recovering, Verifying} then w
    else
      var first := First(rows, NOT_COMPLETED);
      if first.None? then w.(store := w.store.(task := TaskCompleted))
      else if HasUnknown(rows) then w.(store := w.store.(task := TaskFailed))
      else
        var k := first.value;
        if rows[k].status == Running && !ProvenReadOnly(w.plan[k]) then
          FinishReceipt(w, k, UnknownOutcome).(pass := Some(
            NewPass(rows, w.store.task, k, 1, None, ByRecovery).(control := Quarantine)))
        else if rows[k].status == PendingApproval then w
        else
          var plan := if rows[k].status == Running then rows[k := rows[k].(status := Pending)] else rows;
          w.(store := w.store.(task := Executing),
             pass := Some(NewPass(plan, w.store.task, k, 1, None, ByRecovery)))
  }

  /** TaskRuntimeService.resume and resumeApprovedTask: the step is that of the latest checkpoint,
      and the grant must be for it. The grant is consumed and the step is reset to pending,
      whatever its row says. */
  function StartResume(w: World, a: nat, maxRecovery: nat): World
    requires |w.plan| == |w.store.rows|
  {
    if a >= |w.store.approvals| || w.store.approvals[a].status != Granted then w
    else
      var k := w.store.approvals[a].step;
      if k >= |w.store.rows| || w.store.checkpoint != Some(k) then w
      else if w.store.task !in {WaitingApproval, Executing, TaskFailed, Verifying} then w
      else
        var rows := w.store.rows[k := w.store.rows[k].(status := Pending)];
        w.(store := w.store.(approvals := w.store.approvals[a := Approval(k, Consumed)]),
           pass := Some(NewPass(rows, w.store.task, k, maxRecovery, Some(k), ByResume)))
  }

  function GrantApproval(w: World, a: nat): World {
    if a < |w.store.approvals| && w.store.approvals[a].status == Asked && w.store.task != TaskCancelled then
      w.(store := w.store.(approvals := w.store.approvals[a := w.store.approvals[a].(status := Granted)]))
    else w
  }

  function RevokeAll(approvals: seq<Approval>): (r: seq<Approval>)
    ensures |r| == |approvals|
    ensures forall k :: 0 <= k < |r| ==> r[k].step == approvals[k].step
    ensures forall k :: 0 <= k < |r| ==> r[k].status in {Consumed, Revoked}
  {
    seq(|approvals|, k requires 0 <= k < |approvals| =>
      if approvals[k].status == Consumed then approvals[k] else approvals[k].(status := Revoked))
  }

  function CancelTask(w: World): World {
    if w.store.task == TaskCompleted || w.store.task == TaskCancelled then w
    else w.(store := w.store.(task := TaskCancelled, approvals := RevokeAll(w.store.approvals)))
  }

  // ---------------------------------------------------------------------------
  // Advancing a pass
  // ---------------------------------------------------------------------------

  /** Math.min(1000 * 2 ** Math.max(0, attempt - 1), 30000). */
  function BackoffDelay(attempt: nat): nat {
    var d := 1000 * Pow2(if attempt == 0 then 0 else attempt - 1);
    if d <= 30000 then d else 30000
  }

  function Pow2(n: nat): nat {
    if n == 0 then 1 else 2 * Pow2(n - 1)
  }

  /** The controls at which the pass works on the step under its index. */
  predicate OnStep(c: Control) {
    !c.Enter? && !c.Head? && !c.FailTask? && !c.Verify? && !c.Conclude? && !c.Broken? && !c.Post?
  }

  ghost predicate ShapedPass(plan: Plan, p: Pass) {
    && |p.rows| == |p.entry| == |plan|
    && p.start <= p.index <= |plan|
    && (OnStep(p.control) ==> p.index < |plan|)
  }

  ghost predicate Shaped(w: World) {
    && |w.plan| == |w.store.rows|
    && (w.pass.Some? ==> ShapedPass(w.plan, w.pass.value))
  }

  /** Every pass moves to executing first; an unresolved effect then stops it. */
  function AtEnter(w: World, p: Pass): (r: World)
    requires Shaped(w) && w.pass == Some(p) && p.control == Enter
    ensures Shaped(r) && r.plan == w.plan && r.telemetry == w.telemetry
  {
    StatusMove(w, p, Executing, if HasUnknown(p.rows) then FailTask else Head)
  }

  function AtHead(w: World, p: Pass): (r: World)
    requires Shaped(w) && w.pass == Some(p) && p.control == Head
    ensures Shaped(r) && r.plan == w.plan && r.telemetry == w.telemetry
  {
    if p.index >= |p.rows| then w.(pass := Some(p.(control := Verify)))
    else if Resolved(p.rows[p.index].status) then w.(pass := Some(p.(index := p.index + 1)))
    else if Breaks(w.plan, p.rows, p.index) then
      SaveRow(w, p, p.rows[p.index].(status := Cancelled), p.index + 1, Head)
    else StatusMove(w, p, Executing, Govern)
  }

  function AtGovern(w: World, p: Pass, a: Answer): (r: World)
    requires Shaped(w) && w.pass == Some(p) && p.control == Govern
    ensures Shaped(r) && r.plan == w.plan && r.telemetry == w.telemetry
  {
    var row := p.rows[p.index];
    match a
    case ArgumentError => SaveRow(w, p, FailedRow(row, Failed), p.index + 1, Head)
    case Deny => SaveRow(w, p, FailedRow(row, Blocked), p.index + 1, Head)
    case NeedsApproval =>
      if p.approved == Some(p.index) then StartStep(w, p)
      else SaveRow(w, p, row.(status := PendingApproval), p.index, AskMove)
    case Allow => StartStep(w, p)
    case _ => w
  }

  function StartStep(w: World, p: Pass): World
    requires p.index < |p.rows|
  {
    w.(pass := Some(p.(rows := p.rows[p.index := StartedRow(p.rows[p.index])], control := Begin(false))))
  }

  function AtBegin(w: World, p: Pass, a: Answer): (r: World)
    requires Shaped(w) && w.pass == Some(p) && p.control.Begin?
    ensures Shaped(r) && r.plan == w.plan && r.telemetry == w.telemetry
  {
    var mutating := w.plan[p.index].selected == Mutation;
    match a
    case Templated =>
      if p.control.templated then w else SaveRow(w, p, p.rows[p.index], p.index, Begin(true))
    case EarlyThrow(code) => w.(pass := Some(p.(control := Caught(code, false))))
    case FenceRefusal =>
      if mutating then w.(pass := Some(p.(control := Caught(EpochStale, false)))) else w
    case Proceed =>
      if mutating then BeginReceipt(w, p, Launch) else SaveRow(w, p, p.rows[p.index], p.index, Launch)
    case _ => w
  }

  function AtLaunch(w: World, p: Pass, a: Answer): (r: World)
    requires Shaped(w) && w.pass == Some(p) && p.control == Launch
    ensures Shaped(r) && r.plan == w.plan && r.telemetry == w.telemetry
  {
    match a
    case ConfigThrow(code) =>
      w.(pass := Some(p.(control := Caught(code, w.plan[p.index].selected == Mutation))))
    case Proceed =>
      w.(log := w.log + [Dispatched(p.index, p.rows[p.index].attempts)],
         pass := Some(p.(control := Await, dispatches := p.dispatches + [p.index])))
    case _ => w
  }

  /** Finalise the receipt when the step is a mutation, then go on. */
  function Close(w: World, p: Pass, to: ReceiptStatus, next: Control): World
    requires p.index < |w.plan|
  {
    (if w.plan[p.index].selected == Mutation then FinishReceipt(w, p.index, to) else w)
      .(pass := Some(p.(control := next)))
  }

  function AtAwait(w: World, p: Pass, a: Answer): (r: World)
    requires Shaped(w) && w.pass == Some(p) && p.control == Await
    ensures Shaped(r) && r.plan == w.plan && r.telemetry == w.telemetry
  {
    if !a.Outcome? then w
    else
      match WithStepTimeout(a.race)
      case NoResult => Close(w, p, UnknownOutcome, Closing(SettleUnknown))
      case Value(nonZero) =>
        if nonZero then Close(w, p, FailedKnown, Closing(SettleFailed))
        else Close(w, p, Succeeded, Closing(SettleCompleted))
      case Threw(code) =>
        w.(pass := Some(p.(control := Caught(code, w.plan[p.index].selected == Mutation))))
  }

  function AtClosing(w: World, p: Pass): (r: World)
    requires Shaped(w) && w.pass == Some(p) && p.control.Closing?
    ensures Shaped(r) && r.plan == w.plan && r.telemetry == w.telemetry
  {
    var v := p.control.verdict;
    var row := ClosedRow(p.rows[p.index], v);
    if v == SettleUnknown then SaveRow(w, p, row, p.index, FailTask)
    else SaveRow(w, p, row, p.index + 1, Head)
  }

  function AtCaught(w: World, p: Pass): (r: World)
    requires Shaped(w) && w.pass == Some(p) && p.control.Caught?
    ensures Shaped(r) && r.plan == w.plan && r.telemetry == w.telemetry
  {
    var code := p.control.code;
    if code == EpochStale then w.(pass := Some(p.(control := Closing(SettleUnknown))))
    else if !p.control.open then w.(pass := Some(p.(control := Settling(code))))
    else if code == Timeout then Close(w, p, UnknownOutcome, Closing(SettleUnknown))
    else Close(w, p, FailedKnown, Settling(code))
  }

  function AtSettling(w: World, p: Pass): (r: World)
    requires Shaped(w) && w.pass == Some(p) && p.control.Settling?
    ensures Shaped(r) && r.plan == w.plan && r.telemetry == w.telemetry
  {
    var code := p.control.code;
    var row := SettledRow(p.rows[p.index], code);
    if code == MissingVariable || code == SecurityBlock then SaveRow(w, p, row, p.index + 1, Head)
    else SaveRow(w, p, row, p.index, Mend(code))
  }

  function AtMend(w: World, p: Pass): (r: World)
    requires Shaped(w) && w.pass == Some(p) && p.control.Mend?
    ensures Shaped(r) && r.plan == w.plan && r.telemetry == w.telemetry
  {
    if p.recoveries >= p.maxRecovery || !Transient(p.control.code) then
      w.(pass := Some(p.(index := p.index + 1, control := Head)))
    else PlanMove(w, p, Recovering, Decide)
  }

  function AtDecide(w: World, p: Pass, a: Answer): (r: World)
    requires Shaped(w) && w.pass == Some(p) && p.control == Decide
    ensures Shaped(r) && r.plan == w.plan && r.telemetry == w.telemetry
  {
    if !a.Diagnosis? then w
    else
      var q := p.(recoveries := p.recoveries + 1);
      if !CanAutoRecover(RecoveryDecision(a.reason)) then
        w.(pass := Some(q.(index := p.index + 1, control := Head)))
      else
        var row := p.rows[p.index].(status := Pending);
        StatusMove(w, q.(rows := p.rows[p.index := row], backoff := p.backoff + BackoffDelay(q.recoveries)),
                   Executing, Head)
  }

  /** Pause for approval: the state, the request, then the whole plan are written. */
  function AtAsk(w: World, p: Pass): (r: World)
    requires Shaped(w) && w.pass == Some(p) && (p.control == AskMove || p.control == AskCreate || p.control == AskSave)
    ensures Shaped(r) && r.plan == w.plan && r.telemetry == w.telemetry
  {
    if p.control == AskMove then PlanMove(w, p, WaitingApproval, AskCreate)
    else if p.control == AskCreate then
      w.(store := w.store.(approvals := w.store.approvals + [Approval(p.index, Asked)]),
         pass := Some(p.(control := AskSave)))
    else PlanMove(w, p, WaitingApproval, Post(LoopPendingApproval))
  }

  /** Leave the loop: an unknown outcome fails the task; otherwise it is verified over all its
      steps. */
  function AtEnd(w: World, p: Pass): (r: World)
    requires Shaped(w) && w.pass == Some(p) && (p.control == FailTask || p.control == Verify || p.control == Conclude)
    ensures Shaped(r) && r.plan == w.plan && r.telemetry == w.telemetry
  {
    if p.control == FailTask then PlanMove(w, p, TaskFailed, Post(LoopFailed))
    else if p.control == Verify then
      if p.state == Recovering then StatusMove(w, p, Executing, Verify)
      else StatusMove(w, p, Verifying, Conclude)
    else if First(p.rows, UNRESOLVED).Some? then PlanMove(w, p, TaskFailed, Post(LoopFailed))
    else PlanMove(w, p, TaskCompleted, Post(LoopCompleted))
  }

  /** The task state whose name a loop result is. */
  function ResultAsState(r: Result): TaskState {
    match r
    case LoopCompleted => TaskCompleted
    case LoopFailed => TaskFailed
    case LoopPendingApproval => NotAState
  }

  /** The caller's final save: run and resume keep the loop's state, crash recovery stores the
      result's name. */
  function AtPost(w: World, p: Pass): (r: World)
    requires Shaped(w) && w.pass == Some(p) && p.control.Post?
    ensures Shaped(r) && r.plan == w.plan && r.telemetry == w.telemetry
  {
    var task := if p.caller == ByRecovery then ResultAsState(p.control.result) else p.state;
    w.(store := w.store.(rows := p.rows, task := task), pass := None)
  }

  function AtQuarantine(w: World, p: Pass): (r: World)
    requires Shaped(w) && w.pass == Some(p) && p.control == Quarantine
    ensures Shaped(r) && r.plan == w.plan && r.telemetry == w.telemetry
  {
    var row := p.rows[p.index].(status := OutcomeUnknown);
    w.(store := w.store.(rows := p.rows[p.index := row], task := TaskFailed),
       log := w.log + [Saved(p.index, OutcomeUnknown)], pass := None)
  }

  function Advance(w: World, a: Answer): (r: World)
    requires Shaped(w)
    requires w.pass.Some?
    ensures Shaped(r) && r.plan == w.plan && r.telemetry == w.telemetry
  {
    var p := w.pass.value;
    match p.control
    case Enter => AtEnter(w, p)
    case Head => AtHead(w, p)
    case Govern => AtGovern(w, p, a)
    case Begin(_) => AtBegin(w, p, a)
    case Launch => AtLaunch(w, p, a)
    case Await => AtAwait(w, p, a)
    case Closing(_) => AtClosing(w, p)
    case Caught(_, _) => AtCaught(w, p)
    case Settling(_) => AtSettling(w, p)
    case Mend(_) => AtMend(w, p)
    case Decide => AtDecide(w, p, a)
    case AskMove => AtAsk(w, p)
    case AskCreate => AtAsk(w, p)
    case AskSave => AtAsk(w, p)
    case FailTask => AtEnd(w, p)
    case Verify => AtEnd(w, p)
    case Conclude => AtEnd(w, p)
    case Post(_) => AtPost(w, p)
    case Quarantine => AtQuarantine(w, p)
    case Broken => w.(pass := None)
  }

  /** The steps of a pass that are followed by a checkpoint of the current step. */
  predicate Checkpoints(p: Pass, a: Answer) {
    match p.control
    case Head => p.index < |p.rows| && !Resolved(p.rows[p.index].status)
    case Govern => a == ArgumentError || a == Deny
    case AskMove => true
    case Closing(_) => true
    case Settling(_) => true
    case _ => false
  }

  /** checkpointStep, best effort: `v` is what a step of `p` made. */
  function Noted(v: World, p: Pass, a: Answer): (r: World)
    ensures r == v.(store := v.store.(checkpoint := r.store.checkpoint))
    ensures r.store.checkpoint == if v.telemetry && Checkpoints(p, a) then Some(p.index) else v.store.checkpoint
  {
    if v.telemetry && Checkpoints(p, a) then v.(store := v.store.(checkpoint := Some(p.index))) else v
  }

  /** One step of a pass, and its checkpoint. */
  function Turn(w: World, a: Answer): (r: World)
    requires Shaped(w)
    requires w.pass.Some?
    ensures Shaped(r) && r.plan == w.plan && r.telemetry == w.telemetry
  {
    Noted(Advance(w, a), w.pass.value, a)
  }

  /** One step of the engine. A command is only accepted while no pass is running (one lease
      holder per task); a crash drops the pass. */
  function Next(w: World, i: Input): (r: World)
    requires Shaped(w)
    ensures Shaped(r) && r.plan == w.plan
  {

    match i
    case Crash => w.(pass := None)
    case Telemetry(kept) => w.(telemetry := kept)
    case Tick(a) => if w.pass.Some? then Turn(w, a) else w
    case Run(m) => if w.pass.Some? then w else StartRun(w, m)
    case Recover => if w.pass.Some? then w else StartRecovery(w)
    case Grant(a) => GrantApproval(w, a)
    case Resume(a, m) => if w.pass.Some? then w else StartResume(w, a, m)
    case Cancel => if w.pass.Some? then w else CancelTask(w)
  }

  /** Execute a sequence of inputs. */
  function Execute(w: World, inputs: seq<Input>): (r: World)
    requires Shaped(w)
    ensures Shaped(r)
    ensures r.plan == w.plan
    decreases |inputs|
  {
    if |inputs| == 0 then w
    else
      Execute(Next(w, inputs[0]), inputs[1..])
  }

  /** A created task: every step pending, nothing attempted. */
  function Created(plan: Plan): (w: World)
    ensures Shaped(w)
  {
    World(plan, Store(seq(|plan|, _ => Row(Pending, 0, 0, [])), [], Planning, [], None), [], None, true)
  }
}
