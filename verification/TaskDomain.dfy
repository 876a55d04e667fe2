/** The vocabulary of the durable task engine: step rows, mutation receipts, the task state
    machine, the error taxonomy and the built-in recovery policy. */
module TaskDomain {
  import opened Options

  // ---------------------------------------------------------------------------
  // Task states
  // ---------------------------------------------------------------------------

  /** `NotAState` stands for any stored string that is outside the union, such as the result
      name "pending_approval". */
  datatype TaskState =
    | Planning | Ready | Executing | WaitingApproval | Reconciling | Recovering | Verifying
    | TaskCompleted | TaskFailed | TaskCancelled
    | NotAState

  /** The transition table. */
  predicate CanTransition(from: TaskState, to: TaskState) {
    match from
    case Planning => to == WaitingApproval || to == Executing || to == TaskFailed || to == TaskCancelled
    case Ready => to == Executing || to == TaskCancelled
    case WaitingApproval => to == Executing || to == TaskFailed || to == TaskCancelled
    case Executing =>
      to == WaitingApproval || to == Recovering || to == Verifying || to == TaskFailed || to == TaskCancelled
    case Reconciling => to == Executing || to == Planning || to == TaskFailed || to == TaskCancelled
    case Recovering => to == Executing || to == WaitingApproval || to == TaskFailed || to == TaskCancelled
    case Verifying =>
      to == Executing || to == TaskCompleted || to == Recovering || to == TaskFailed || to == TaskCancelled
    case TaskCompleted => to == Planning
    case TaskFailed => to == Executing || to == TaskCancelled || to == Planning
    case TaskCancelled => to == Planning
    case NotAState => false
  }

  /** `move` skips the table when the state does not change. */
  predicate CanMove(from: TaskState, to: TaskState) {
    from == to || CanTransition(from, to)
  }

  // ---------------------------------------------------------------------------
  // Step rows
  // ---------------------------------------------------------------------------

  datatype Status =
    | Pending | Running | Completed | Failed | PendingApproval | Blocked | Cancelled
    | OutcomeUnknown | ReconciledSucceeded | ReconciledFailed

  datatype RunWhen = OnSuccess | OnFailure | Always

  datatype Effect = ReadOnly | Mutation

  datatype Attempt = AttemptFailed(number: nat) | AttemptCompleted(number: nat)

  /** The immutable part of a step. `declared` is the effect class of the tool named by the
      step, if one is named; `selected` is that of the tool the selector picks for it. */
  datatype StepSpec = StepSpec(
    id: int, declared: Option<Effect>, selected: Effect, deps: seq<int>, runWhen: RunWhen)

  type Plan = seq<StepSpec>

  /** The mutable part of a step, as it is persisted. */
  datatype Row = Row(status: Status, attempts: nat, failures: nat, history: seq<Attempt>)

  /** A named tool is the selected one. */
  predicate ToolConsistent(s: StepSpec) {
    s.declared.Some? ==> s.declared.value == s.selected
  }

  predicate ProvenReadOnly(s: StepSpec) {
    s.declared == Some(ReadOnly)
  }

  /** Completed, independently reconciled as succeeded, or intentionally skipped. */
  predicate Resolved(s: Status) {
    s == Completed || s == ReconciledSucceeded || s == Cancelled
  }

  /** The dependency outcomes that count as a failed dependency. */
  predicate Fails(s: Status) {
    s == Failed || s == Blocked || s == Cancelled
  }

  /** The first step carrying `id`, as Array.find does. */
  function Find(plan: Plan, id: int): (r: Option<nat>)
    ensures r.Some? ==> 0 <= r.value < |plan| && plan[r.value].id == id
    ensures r.Some? ==> forall k :: 0 <= k < r.value ==> plan[k].id != id
    ensures r.None? ==> forall k :: 0 <= k < |plan| ==> plan[k].id != id
  {
    if |plan| == 0 then None
    else if plan[0].id == id then Some(0)
    else
      var rest := Find(plan[1..], id);
      assert forall k :: 0 < k < |plan| ==> plan[k] == plan[1..][k - 1];
      if rest.None? then None else Some(rest.value + 1)
  }

  predicate DependencyFails(plan: Plan, rows: seq<Row>, dep: int)
    requires |plan| == |rows|
  {
    var at := Find(plan, dep);
    at.Some? && Fails(rows[at.value].status)
  }

  predicate AnyDependencyFails(plan: Plan, rows: seq<Row>, deps: seq<int>)
    requires |plan| == |rows|
  {
    exists d :: d in deps && DependencyFails(plan, rows, d)
  }

  /** The dependency outcomes break the step's run condition, so it must be skipped. */
  predicate Breaks(plan: Plan, rows: seq<Row>, k: nat)
    requires |plan| == |rows|
    requires k < |plan|
  {
    |plan[k].deps| > 0 &&
    match plan[k].runWhen
    case OnSuccess => AnyDependencyFails(plan, rows, plan[k].deps)
    case OnFailure => !AnyDependencyFails(plan, rows, plan[k].deps)
    case Always => false
  }

  /** What the plan validator accepts: distinct ids, and dependencies on earlier steps only. */
  ghost predicate ValidPlan(plan: Plan) {
    && (forall a, b :: 0 <= a < b < |plan| ==> plan[a].id != plan[b].id)
    && (forall k :: 0 <= k < |plan| ==> ToolConsistent(plan[k]))
    && (forall k, d :: 0 <= k < |plan| && d in plan[k].deps ==>
          Find(plan, d).Some? && Find(plan, d).value < k)
  }

  // ---------------------------------------------------------------------------
  // Receipts and approvals
  // ---------------------------------------------------------------------------

  datatype ReceiptStatus = Started | Succeeded | FailedKnown | UnknownOutcome

  /** One row per attempted mutation; `step` is the position of the step it belongs to. */
  datatype Receipt = Receipt(step: nat, attempt: nat, status: ReceiptStatus)

  datatype ApprovalStatus = Asked | Granted | Consumed | Revoked

  datatype Approval = Approval(step: nat, status: ApprovalStatus)

  // ---------------------------------------------------------------------------
  // Errors and recovery decisions
  // ---------------------------------------------------------------------------

  /** The error codes the loop distinguishes. `SecurityBlock` covers SECURITY_POLICY,
      APPROVAL_REQUIRED and GOVERNANCE_BLOCKED. */
  datatype Code = Timeout | Network | EpochStale | MissingVariable | SecurityBlock | OtherError

  predicate Transient(c: Code) {
    c == Timeout || c == Network
  }

  datatype Recovery =
    | Retry | Rollback | ModifyInput | ChangeTool | Replan | AskApproval | CreateStep | Stop

  /** The classified reason of a failure finding. */
  datatype Reason =
    | RMissingVariable | RSecurity | RTimeout | RNetwork | RApproval | RUnknownTool
    | RFileNotFound | RInvalidArgument | ROther(mentionsRollback: bool, mentionsVerification: bool)

  function RecoveryDecision(r: Reason): Recovery {
    match r
    case RMissingVariable => Stop
    case RSecurity => Stop
    case RTimeout => Retry
    case RNetwork => Retry
    case RApproval => AskApproval
    case RUnknownTool => ChangeTool
    case RFileNotFound => Stop
    case RInvalidArgument => ModifyInput
    case ROther(rollback, verification) =>
      if rollback then Rollback else if verification then Replan else Stop
  }

  predicate CanAutoRecover(a: Recovery) {
    a == Retry || a == CreateStep
  }

  // ---------------------------------------------------------------------------
  // The step deadline
  // ---------------------------------------------------------------------------

  /** What the tool promise does in the end. `nonZeroExit` is a process that ran and failed. */
  datatype Settlement = Fulfilled(nonZeroExit: bool) | Rejected(code: Code)

  /** When it does so: before the deadline (or with no deadline), within the grace period, or
      not at all. */
  datatype Race = InTime(s: Settlement) | InGrace(s: Settlement) | Silent

  datatype TimedResult = Value(nonZeroExit: bool) | NoResult | Threw(code: Code)

  /** The deadline only asks for cancellation: a late value is a value, a late rejection proves
      nothing. */
  function WithStepTimeout(r: Race): TimedResult {
    match r
    case InTime(Fulfilled(nonZero)) => Value(nonZero)
    case InTime(Rejected(code)) => Threw(code)
    case InGrace(Fulfilled(nonZero)) => Value(nonZero)
    case InGrace(Rejected(_)) => NoResult
    case Silent => NoResult
  }
}
