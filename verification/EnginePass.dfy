/** What one pass of the loop computes: the declarative meaning of the run conditions over the
    final statuses of the steps, within a bounded number of tool invocations and a bounded
    total back-off. */
module EnginePass {
  import opened Options
  import opened TaskDomain
  import opened TaskEngine
  import opened EngineCoherence

  // ---------------------------------------------------------------------------
  // The invariant
  // ---------------------------------------------------------------------------

  /** A step the pass has left behind: an already resolved one is as it was; another one has
      been decided, and skipped exactly when its dependencies break its run condition. */
  ghost predicate Walked(plan: Plan, entry: seq<Row>, rows: seq<Row>, k: nat)
    requires |plan| == |entry| == |rows| && k < |plan|
  {
    if Resolved(entry[k].status) then rows[k] == entry[k]
    else
      && (rows[k].status == Completed || Fails(rows[k].status))
      && (rows[k].status == Cancelled <==> Breaks(plan, rows, k))
  }

  ghost predicate WalkedAll(plan: Plan, p: Pass)
    requires ShapedPass(plan, p)
  {
    && (forall k :: 0 <= k < |plan| && (k < p.start || p.index < k) ==> p.rows[k] == p.entry[k])
    && (forall k :: p.start <= k < p.index ==> Walked(plan, p.entry, p.rows, k))
  }

  /** The step under the index. */
  ghost predicate AtIndex(plan: Plan, p: Pass)
    requires ShapedPass(plan, p)
  {
    p.index < |plan| ==>
      var taken := !Resolved(p.entry[p.index].status) && !Breaks(plan, p.rows, p.index);
      match p.control
      case Enter => p.rows[p.index] == p.entry[p.index] && p.dispatches == []
      case Head =>
        || (p.rows[p.index] == p.entry[p.index] && p.index !in p.dispatches)
        || (p.rows[p.index].status == Pending && taken)
      case FailTask => true
      case Post(_) => true
      case Verify => false
      case Conclude => false
      case _ => taken
  }

  ghost predicate DispatchedTaken(plan: Plan, p: Pass)
    requires ShapedPass(plan, p)
  {
    forall x :: 0 <= x < |p.dispatches| ==>
      var d := p.dispatches[x];
      p.start <= d <= p.index && d < |plan| && !Resolved(p.entry[d].status) && !Breaks(plan, p.rows, d)
  }

  /** One more invocation than steps passed and recoveries spent, once the step under the index
      has been invoked. */
  predicate Invoked(c: Control) {
    c.Await? || c.Closing? || c.Caught? || c.Settling? || c.Mend? || c.Decide? || c.FailTask?
  }

  ghost predicate Counted(plan: Plan, p: Pass)
    requires ShapedPass(plan, p)
  {
    && p.recoveries <= p.maxRecovery
    && p.backoff <= TotalBackoff(p.recoveries)
    && (p.control.Decide? ==> p.recoveries < p.maxRecovery)
    && (if p.control.Post? then |p.dispatches| <= |plan| - p.start + p.recoveries
        else if p.control.FailTask? && p.index == |plan| then |p.dispatches| <= p.index - p.start + p.recoveries
        else |p.dispatches| <= p.index - p.start + p.recoveries + (if Invoked(p.control) then 1 else 0))
  }

  function TotalBackoff(recoveries: nat): nat {
    if recoveries == 0 then 0 else TotalBackoff(recoveries - 1) + BackoffDelay(recoveries)
  }

  ghost predicate Walking(w: World)
    requires Shaped(w)
  {
    w.pass.Some? && w.pass.value.control != Quarantine && w.pass.value.control != Broken ==>
      && WalkedAll(w.plan, w.pass.value)
      && AtIndex(w.plan, w.pass.value)
      && DispatchedTaken(w.plan, w.pass.value)
      && Counted(w.plan, w.pass.value)
  }

  // ---------------------------------------------------------------------------
  // Run conditions only look back
  // ---------------------------------------------------------------------------

  lemma BreaksLooksBack(plan: Plan, before: seq<Row>, after: seq<Row>, k: nat)
    requires ValidPlan(plan) && |before| == |after| == |plan| && k < |plan|
    requires forall j :: 0 <= j < k ==> before[j] == after[j]
    ensures Breaks(plan, before, k) == Breaks(plan, after, k)
  {
    assert forall d :: d in plan[k].deps ==> DependencyFails(plan, before, d) == DependencyFails(plan, after, d);
  }

  /** Changing the current row disturbs nothing decided before. */
  lemma RowChanges(plan: Plan, p: Pass, q: Pass)
    requires ValidPlan(plan) && ShapedPass(plan, p) && ShapedPass(plan, q)
    requires q.entry == p.entry && q.start == p.start && p.index < |plan|
    requires forall k :: 0 <= k < |plan| && k != p.index ==> p.rows[k] == q.rows[k]
    requires p.index <= q.index <= p.index + 1
    requires q.index == p.index + 1 ==> Walked(plan, q.entry, q.rows, p.index)
    requires WalkedAll(plan, p) && DispatchedTaken(plan, p)
    requires q.dispatches == p.dispatches
    ensures WalkedAll(plan, q) && DispatchedTaken(plan, q)
    ensures Breaks(plan, p.rows, p.index) == Breaks(plan, q.rows, p.index)
  {
    hide Breaks;
    forall k | 0 <= k <= p.index ensures Breaks(plan, p.rows, k) == Breaks(plan, q.rows, k) {
      BreaksLooksBack(plan, p.rows, q.rows, k);
    }
    forall k | p.start <= k < p.index ensures Walked(plan, q.entry, q.rows, k) {
      assert Walked(plan, p.entry, p.rows, k);
    }
  }

  // ---------------------------------------------------------------------------
  // Every step keeps the invariant
  // ---------------------------------------------------------------------------

  /** A pass that goes on without changing rows or index. */
  lemma StayWalks(plan: Plan, p: Pass, q: Pass)
    requires ShapedPass(plan, p) && ShapedPass(plan, q)
    requires q.entry == p.entry && q.start == p.start && q.rows == p.rows && q.index == p.index &&
      q.dispatches == p.dispatches
    requires WalkedAll(plan, p) && DispatchedTaken(plan, p)
    ensures WalkedAll(plan, q) && DispatchedTaken(plan, q)
  {
  }

  lemma SaveWalks(w: World, p: Pass, r: Row, index: nat, next: Control)
    requires Shaped(w) && ValidPlan(w.plan) && Walking(w) && w.pass == Some(p) && p.index < |w.plan|
    requires p.control != Quarantine && p.control != Broken
    requires p.index <= index <= p.index + 1 &&
      (if index == p.index then OnStep(next) || next == FailTask else next == Head)
    requires next != Quarantine && (next.Decide? ==> p.control.Decide?)
    requires !Resolved(p.entry[p.index].status)
    requires r.status != Cancelled ==> !Breaks(w.plan, p.rows, p.index)
    requires index == p.index ==> !Breaks(w.plan, p.rows, p.index)
    requires index > p.index ==>
      (r.status == Completed || Fails(r.status)) && (r.status == Cancelled ==> Breaks(w.plan, p.rows, p.index))
    requires !p.control.Post? && (p.control.FailTask? ==> false)
    requires if index == p.index then Invoked(p.control) ==> Invoked(next) else true
    ensures Shaped(SaveRow(w, p, r, index, next)) && Walking(SaveRow(w, p, r, index, next))
  {
    hide Breaks, BackoffDelay;
    var q := SaveRow(w, p, r, index, next).pass.value;
    BreaksLooksBack(w.plan, p.rows, q.rows, p.index);
    RowChanges(w.plan, p, q);
    if index > p.index && index < |w.plan| {
      assert q.rows[index] == p.rows[index];
    }
  }

  lemma HeadWalks(w: World, p: Pass)
    requires Coherent(w) && ValidPlan(w.plan) && Walking(w) && w.pass == Some(p) && p.control == Head
    ensures Walking(AtHead(w, p))
  {
    hide Breaks, BackoffDelay, PassAgrees, CanMove, ValidPlan;
    LegalMoves();
    if p.index >= |w.plan| {
      StayWalks(w.plan, p, AtHead(w, p).pass.value);
    } else if Resolved(p.rows[p.index].status) {
      RowChanges(w.plan, p, AtHead(w, p).pass.value);
    } else if Breaks(w.plan, p.rows, p.index) {
      SaveWalks(w, p, p.rows[p.index].(status := Cancelled), p.index + 1, Head);
    } else {
      StayWalks(w.plan, p, p.(state := Executing, control := Govern));
    }
  }

  lemma GovernWalks(w: World, p: Pass, a: Answer)
    requires Shaped(w) && ValidPlan(w.plan) && Walking(w) && w.pass == Some(p) && p.control == Govern
    ensures Walking(AtGovern(w, p, a))
  {
    hide Breaks, BackoffDelay;
    var v, r := AtGovern(w, p, a), p.rows[p.index];
    if a == ArgumentError {
      SaveWalks(w, p, FailedRow(r, Failed), p.index + 1, Head);
    } else if a == Deny {
      SaveWalks(w, p, FailedRow(r, Blocked), p.index + 1, Head);
    } else if a == NeedsApproval && p.approved != Some(p.index) {
      SaveWalks(w, p, r.(status := PendingApproval), p.index, AskMove);
    } else if v != w {
      RowChanges(w.plan, p, v.pass.value);
    }
  }

  lemma BeginWalks(w: World, p: Pass, a: Answer)
    requires Shaped(w) && ValidPlan(w.plan) && Walking(w) && w.pass == Some(p) && p.control.Begin?
    requires p.rows[p.index].status == Running
    ensures Walking(AtBegin(w, p, a))
  {
    hide Breaks, BackoffDelay;
    var v, r := AtBegin(w, p, a), p.rows[p.index];
    if a == Proceed && w.plan[p.index].selected != Mutation {
      SaveWalks(w, p, r, p.index, Launch);
    } else if a == Templated {
      if v != w {
        SaveWalks(w, p, r, p.index, Begin(true));
      }
    } else {
      StayWalks(w.plan, p, v.pass.value);
    }
  }

  lemma LaunchWalks(w: World, p: Pass, a: Answer)
    requires Shaped(w) && ValidPlan(w.plan) && Walking(w) && w.pass == Some(p) && p.control == Launch
    ensures Walking(AtLaunch(w, p, a))
  {
    hide Breaks, BackoffDelay;
  }

  lemma FlightWalks(w: World, p: Pass, a: Answer)
    requires Shaped(w) && ValidPlan(w.plan) && Walking(w) && w.pass == Some(p)
    ensures p.control == Await ==> Walking(AtAwait(w, p, a))
    ensures p.control.Caught? ==> Walking(AtCaught(w, p))
  {
    hide Breaks, BackoffDelay, FinishReceipt, WithStepTimeout, ValidPlan, WalkedAll, DispatchedTaken;
    if p.control == Await {
      StayWalks(w.plan, p, AtAwait(w, p, a).pass.value);
    } else if p.control.Caught? {
      StayWalks(w.plan, p, AtCaught(w, p).pass.value);
    }
  }

  lemma ClosingWalks(w: World, p: Pass)
    requires Shaped(w) && ValidPlan(w.plan) && Walking(w) && w.pass == Some(p)
    ensures p.control.Closing? ==> Walking(AtClosing(w, p))
    ensures p.control.Settling? ==> Walking(AtSettling(w, p))
  {
    hide Breaks, BackoffDelay;
    if p.control.Closing? {
      var v := p.control.verdict;
      var r := ClosedRow(p.rows[p.index], v);
      if v == SettleUnknown {
        SaveWalks(w, p, r, p.index, FailTask);
      } else {
        SaveWalks(w, p, r, p.index + 1, Head);
      }
    } else if p.control.Settling? {
      var code := p.control.code;
      var r := SettledRow(p.rows[p.index], code);
      if code == MissingVariable || code == SecurityBlock {
        SaveWalks(w, p, r, p.index + 1, Head);
      } else {
        SaveWalks(w, p, r, p.index, Mend(code));
      }
    }
  }

  lemma MendWalks(w: World, p: Pass)
    requires Shaped(w) && ValidPlan(w.plan) && Walking(w) && w.pass == Some(p) && p.control.Mend?
    requires p.rows[p.index].status == Failed
    ensures Walking(AtMend(w, p))
  {
    hide Breaks, BackoffDelay;
    RowChanges(w.plan, p, AtMend(w, p).pass.value);
  }

  lemma DecideWalks(w: World, p: Pass, a: Answer)
    requires Shaped(w) && ValidPlan(w.plan) && Walking(w) && w.pass == Some(p) && p.control == Decide
    requires p.rows[p.index].status == Failed && p.state == Recovering
    ensures Walking(AtDecide(w, p, a))
  {
    hide Breaks, BackoffDelay, ValidPlan, RecoveryDecision, WalkedAll, AtIndex, DispatchedTaken, Counted, CanMove;
    LegalMoves();
    if a.Diagnosis? {
      if CanAutoRecover(RecoveryDecision(a.reason)) {
        RetryWalks(w.plan, p, AtDecide(w, p, a).pass.value);
      } else {
        StopWalks(w.plan, p, AtDecide(w, p, a).pass.value);
      }
    }
  }

  /** The failed step is left behind. */
  lemma StopWalks(plan: Plan, p: Pass, q: Pass)
    requires ShapedPass(plan, p) && ShapedPass(plan, q) && ValidPlan(plan) && p.control == Decide
    requires WalkedAll(plan, p) && AtIndex(plan, p) && DispatchedTaken(plan, p) && Counted(plan, p)
    requires p.rows[p.index].status == Failed
    requires q == p.(recoveries := p.recoveries + 1, index := p.index + 1, control := Head)
    ensures WalkedAll(plan, q) && AtIndex(plan, q) && DispatchedTaken(plan, q) && Counted(plan, q)
  {
    hide Breaks, BackoffDelay, ValidPlan;
    RowChanges(plan, p, q);
    assert TotalBackoff(q.recoveries) == TotalBackoff(p.recoveries) + BackoffDelay(q.recoveries);
  }

  /** The failed step is put in front once more. */
  lemma RetryWalks(plan: Plan, p: Pass, q: Pass)
    requires ShapedPass(plan, p) && ShapedPass(plan, q) && ValidPlan(plan) && p.control == Decide
    requires WalkedAll(plan, p) && AtIndex(plan, p) && DispatchedTaken(plan, p) && Counted(plan, p)
    requires q == p.(recoveries := p.recoveries + 1, control := Head, state := Executing,
                     rows := p.rows[p.index := p.rows[p.index].(status := Pending)],
                     backoff := p.backoff + BackoffDelay(p.recoveries + 1))
    ensures WalkedAll(plan, q) && AtIndex(plan, q) && DispatchedTaken(plan, q) && Counted(plan, q)
  {
    hide Breaks, BackoffDelay, ValidPlan;
    RowChanges(plan, p, q);
    assert TotalBackoff(q.recoveries) == TotalBackoff(p.recoveries) + BackoffDelay(q.recoveries);
  }

  lemma EnterWalks(w: World, p: Pass)
    requires Shaped(w) && Walking(w) && w.pass == Some(p) && p.control == Enter
    ensures Walking(AtEnter(w, p))
  {
    hide Breaks, BackoffDelay, First;
    StayWalks(w.plan, p, AtEnter(w, p).pass.value);
  }

  lemma AskWalks(w: World, p: Pass)
    requires Shaped(w) && Walking(w) && w.pass == Some(p)
    requires p.control == AskMove || p.control == AskCreate || p.control == AskSave
    ensures Walking(AtAsk(w, p))
  {
    hide Breaks, BackoffDelay, CanMove;
    StayWalks(w.plan, p, AtAsk(w, p).pass.value);
  }

  lemma EndWalks(w: World, p: Pass)
    requires Shaped(w) && Walking(w) && w.pass == Some(p)
    requires p.control == FailTask || p.control == Verify || p.control == Conclude
    ensures Walking(AtEnd(w, p))
  {
    hide Breaks, BackoffDelay, First, CanMove, WalkedAll, DispatchedTaken;
    StayWalks(w.plan, p, AtEnd(w, p).pass.value);
  }

  lemma AdvanceWalks(w: World, a: Answer)
    requires Shaped(w) && Coherent(w) && ValidPlan(w.plan) && Walking(w) && w.pass.Some?
    ensures Walking(Advance(w, a))
  {
    hide AtEnter, AtHead, AtGovern, AtBegin, AtLaunch, AtAwait, AtClosing, AtCaught, AtSettling;
    hide AtMend, AtDecide, AtAsk, AtEnd, ValidPlan;
    hide WalkedAll, AtIndex, DispatchedTaken, Counted;
    var p := w.pass.value;
    match p.control
    case Enter => EnterWalks(w, p);
    case Head => HeadWalks(w, p);
    case Govern => GovernWalks(w, p, a);
    case Begin(_) => BeginWalks(w, p, a);
    case Launch => LaunchWalks(w, p, a);
    case Await => FlightWalks(w, p, a);
    case Closing(_) => ClosingWalks(w, p);
    case Caught(_, _) => FlightWalks(w, p, a);
    case Settling(_) => ClosingWalks(w, p);
    case Mend(_) => MendWalks(w, p);
    case Decide => DecideWalks(w, p, a);
    case AskMove => AskWalks(w, p);
    case AskCreate => AskWalks(w, p);
    case AskSave => AskWalks(w, p);
    case FailTask => EndWalks(w, p);
    case Verify => EndWalks(w, p);
    case Conclude => EndWalks(w, p);
    case Post(_) =>
    case Quarantine =>
    case Broken =>
  }

  /** Every input keeps the invariant. */
  lemma NextWalks(w: World, i: Input)
    requires Shaped(w) && Coherent(w) && ValidPlan(w.plan) && Walking(w)
    ensures Walking(Next(w, i))
  {
    hide Advance, Coherent, ValidPlan, RunStart, First, RevokeAll;
    if i.Tick? && w.pass.Some? {
      AdvanceWalks(w, i.answer);
    }
  }
}
