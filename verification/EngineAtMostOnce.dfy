/** The at-most-once theorem: a guarded mutation of a valid plan is not invoked twice without its
    earlier attempt being recorded as a known failure in between, whatever the interleaving of runs,
    crashes, recoveries, approvals and resumptions. */
module EngineAtMostOnce {
  import opened Options
  import opened TaskDomain
  import opened TaskEngine
  import opened EngineCoherence
  import opened EngineReceipts
  import opened EngineFinality
  import opened EnginePlaces

  /** Step `k` runs on the success of the step before it. */
  predicate Linked(plan: Plan, k: nat)
    requires 0 < k < |plan|
  {
    plan[k].runWhen == OnSuccess && plan[k - 1].id in plan[k].deps
  }

  /** Every step but the first runs on the success of its predecessor. */
  ghost predicate SuccessChain(plan: Plan) {
    ValidPlan(plan) && forall k :: 0 < k < |plan| ==> Linked(plan, k)
  }

  /** Every step of a chain is guarded. */
  lemma ChainIsGuarded(plan: Plan, j: nat)
    requires SuccessChain(plan) && j < |plan|
    ensures Guarded(plan, j)
  {
    forall i, s | 0 <= i < s <= j && LaxBetween(plan, i, s) ensures plan[i].id in plan[s].deps {
      assert Linked(plan, i + 1);
    }
    if j > 0 {
      assert Linked(plan, j);
    }
  }

  // ---------------------------------------------------------------------------
  // The property of the log
  // ---------------------------------------------------------------------------

  /** `e` occurs strictly between positions `x` and `y`. */
  ghost predicate Between(log: seq<Event>, x: nat, y: nat, e: Event)
    requires x < y <= |log|
  {
    e in log[x + 1..y]
  }

  /** Two invocations of step `j` have the known failure of the first between them. */
  ghost predicate OnceOf(log: seq<Event>, j: nat) {
    forall x, y :: 0 <= x < y < |log| && log[x].Dispatched? && log[y].Dispatched? &&
                   log[x].step == j && log[y].step == j ==>
      Between(log, x, y, Finished(j, log[x].attempt, FailedKnown))
  }

  /** No mutation is invoked again unless its invocation is known to have failed. */
  ghost predicate AtMostOnce(plan: Plan, log: seq<Event>) {
    forall j :: Mutates(plan, j) ==> OnceOf(log, j)
  }

  // ---------------------------------------------------------------------------
  // The invariant
  // ---------------------------------------------------------------------------

  /** A status from which a step may be invoked again. */
  predicate Reopenable(s: Status) {
    s != Running && s != Completed && s != OutcomeUnknown
  }

  /** Every invocation of step `k`, but perhaps that of attempt `a`, is recorded as failed. */
  ghost predicate ClearedBut(log: seq<Event>, k: nat, a: Option<nat>) {
    forall x :: 0 <= x < |log| && log[x].Dispatched? && log[x].step == k && a != Some(log[x].attempt) ==>
      Between(log, x, |log|, Finished(k, log[x].attempt, FailedKnown))
  }

  /** Where the pass stands with step `j`: before it, the step is untouched or skipped; at it, a step
      that is yet to be decided on is not a stale one. */
  ghost predicate Approaching(rows: seq<Row>, p: Pass, j: nat)
    requires j < |rows| == |p.rows|
  {
    Standing(p.control) ==>
      && (p.index < j ==> !Active(rows[j].status))
      && (p.index == j && (p.control == Enter || p.control == Head || p.control == Govern) ==>
            Reopenable(rows[j].status))
      && (p.index == j && p.control == FailTask && p.rows[j] != rows[j] ==> Reopenable(rows[j].status))
  }

  ghost predicate PassCleared(log: seq<Event>, p: Pass, j: nat)
    requires j < |p.rows|
  {
    p.index == j ==>
      match p.control
      case Begin(_) => ClearedBut(log, j, None)
      case Launch => ClearedBut(log, j, None)
      case Await => ClearedBut(log, j, Some(p.rows[j].attempts))
      case Caught(_, open) => ClearedBut(log, j, if open then Some(p.rows[j].attempts) else None)
      case Closing(v) => v == SettleFailed ==> ClearedBut(log, j, None)
      case Settling(_) => ClearedBut(log, j, None)
      case _ => true
  }

  ghost predicate LogOnce(rows: seq<Row>, log: seq<Event>, j: nat)
    requires j < |rows|
  {
    OnceOf(log, j) && (Reopenable(rows[j].status) ==> ClearedBut(log, j, None))
  }

  ghost predicate Once(w: World, j: nat)
    requires Shaped(w) && j < |w.plan|
  {
    && LogOnce(w.store.rows, w.log, j)
    && (w.pass.Some? ==> Approaching(w.store.rows, w.pass.value, j) && PassCleared(w.log, w.pass.value, j))
  }

  /** Everything known of a world, about a guarded mutation. */
  ghost predicate Sound(w: World, j: nat) {
    && Shaped(w) && Coherent(w) && Accounted(w) && j < |w.plan|
    && ValidPlan(w.plan) && Guarded(w.plan, j) && Mutates(w.plan, j)
    && Placed(w, j) && Once(w, j)
  }

  // ---------------------------------------------------------------------------
  // The log
  // ---------------------------------------------------------------------------

  lemma BetweenExtends(log: seq<Event>, ext: seq<Event>)
    ensures forall x, y, e :: 0 <= x < y <= |log| && Between(log, x, y, e) ==> Between(log + ext, x, y, e)
    ensures forall x, e :: 0 <= x < |log| && Between(log, x, |log|, e) ==> Between(log + ext, x, |log + ext|, e)
  {
    forall x, y, e | 0 <= x < y <= |log| && Between(log, x, y, e)
      ensures Between(log + ext, x, y, e)
    {
      assert (log + ext)[x + 1..y] == log[x + 1..y];
    }
    forall x, e | 0 <= x < |log| && Between(log, x, |log|, e)
      ensures Between(log + ext, x, |log + ext|, e)
    {
      assert (log + ext)[x + 1..|log + ext|] == log[x + 1..|log|] + ext;
    }
  }

  /** Events that do not invoke step `j`. */
  ghost predicate Elsewhere(ext: seq<Event>, j: nat) {
    forall x :: 0 <= x < |ext| && ext[x].Dispatched? ==> ext[x].step != j
  }

  lemma LogExtends(log: seq<Event>, ext: seq<Event>, j: nat)
    requires Elsewhere(ext, j)
    ensures OnceOf(log, j) ==> OnceOf(log + ext, j)
    ensures forall a :: ClearedBut(log, j, a) ==> ClearedBut(log + ext, j, a)
  {
    BetweenExtends(log, ext);
  }

  lemma ClearedDispatches(log: seq<Event>, j: nat, a: nat)
    requires OnceOf(log, j) && ClearedBut(log, j, None)
    ensures OnceOf(log + [Dispatched(j, a)], j) && ClearedBut(log + [Dispatched(j, a)], j, Some(a))
  {
    BetweenExtends(log, [Dispatched(j, a)]);
  }

  lemma ClearedFinishes(log: seq<Event>, k: nat, a: nat)
    requires ClearedBut(log, k, Some(a))
    ensures ClearedBut(log + [Finished(k, a, FailedKnown)], k, None)
  {
    var after := log + [Finished(k, a, FailedKnown)];
    BetweenExtends(log, [Finished(k, a, FailedKnown)]);
    forall x | 0 <= x < |after| && after[x].Dispatched? && after[x].step == k
      ensures Between(after, x, |after|, Finished(k, after[x].attempt, FailedKnown))
    {
      assert after[x] == log[x];
      assert after[x + 1..|after|][|log| - x - 1] == Finished(k, a, FailedKnown);
    }
  }

  lemma ClearedWeakens(log: seq<Event>, k: nat)
    ensures forall a :: ClearedBut(log, k, None) ==> ClearedBut(log, k, Some(a))
  {
  }

  // ---------------------------------------------------------------------------
  // Where a pass can start
  // ---------------------------------------------------------------------------

  /** Once a guarded step has been looked at and not skipped, all before it is completed, and its
      requests are in order. */
  lemma TouchedIsDone(w: World, j: nat)
    requires Shaped(w) && j < |w.plan| && Guarded(w.plan, j) && Placed(w, j)
    ensures Active(w.store.rows[j].status) || HasRequest(w.store.approvals, j) ==>
      AllDone(w.store.rows, j) && RequestsFit(w.plan, w.store, j)
  {
    hide BlockSettled, RequestsFit;
    assert PlacedAt(w, j);
    var touched := Touched(w.store, j);
    if AllDone(w.store.rows, j) && w.store.rows[j].status != Cancelled {
      assert Live(w.plan, w.store.rows, j);
    }
  }

  lemma RunApproaches(w: World, m: nat, j: nat)
    requires Sound(w, j) && w.pass.None?
    ensures Once(StartRun(w, m), j)
  {
    hide ValidPlan, Guarded, Accounted, RunStart, RequestsFit, HasRequest, LogOnce;
    var s := RunStart(w.plan, w.store.rows, w.store.task);
    if s.Some? {
      RunAt(w, s.value);
      TouchedIsDone(w, j);
    }
  }

  lemma RecoveryApproaches(w: World, j: nat)
    requires Sound(w, j) && w.pass.None?
    ensures var v := StartRecovery(w); Shaped(v) && Once(v, j)
  {
    hide ValidPlan, Guarded, Accounted, RequestsFit, HasRequest, HasUnknown, First, Latest, LogOnce;
    TouchedIsDone(w, j);
    NotCompleted(w.store.rows);
    UnknownIsUnknown(w.store.rows);
    RecoveryLog(w, j);
    assert !ProvenReadOnly(w.plan[j]) by {
      SelectedIsDeclared(w.plan, j);
    }
  }

  lemma SelectedIsDeclared(plan: Plan, j: nat)
    requires ValidPlan(plan) && Mutates(plan, j)
    ensures !ProvenReadOnly(plan[j])
  {
    assert ToolConsistent(plan[j]);
  }

  lemma RecoveryLog(w: World, j: nat)
    requires Sound(w, j) && w.pass.None?
    ensures var v := StartRecovery(w);
      v.plan == w.plan && v.store.rows == w.store.rows && LogOnce(v.store.rows, v.log, j)
  {
    hide ValidPlan, Guarded, Accounted, Placed, OnceOf, ClearedBut, HasUnknown, First, Latest;
    var v := StartRecovery(w);
    assert v.log == w.log + v.log[|w.log|..];
    LogExtends(w.log, v.log[|w.log|..], j);
  }

  lemma ResumeApproaches(w: World, a: nat, m: nat, j: nat)
    requires Sound(w, j) && w.pass.None?
    ensures var v := StartResume(w, a, m); Shaped(v) && Once(v, j)
  {
    hide ValidPlan, Guarded, Accounted, LogOnce, Placed, BlockSettled;
    TouchedIsDone(w, j);
    var v := StartResume(w, a, m);
    if v != w {
      assert HasRequest(w.store.approvals, w.store.approvals[a].step);
      assert w.store.approvals[a].step <= j ==> OpenUpTo(w.store.approvals, a, j);
    }
  }

  // ---------------------------------------------------------------------------
  // Every step keeps the invariant
  // ---------------------------------------------------------------------------

  /** Moving on with the rows and the log as they are. */
  lemma MoveOnce(w: World, v: World, j: nat)
    requires Shaped(w) && Shaped(v) && j < |w.plan| && v.plan == w.plan && Once(w, j)
    requires v.store.rows == w.store.rows && v.log == w.log
    requires v.pass.Some? ==> Approaching(v.store.rows, v.pass.value, j) && PassCleared(v.log, v.pass.value, j)
    ensures Once(v, j)
  {
    hide OnceOf, ClearedBut;
  }

  /** What saving the current row asks for, when it is that of step `j`. */
  ghost predicate Reopens(w: World, p: Pass, r: Row, next: Control, j: nat)
    requires Shaped(w) && w.pass == Some(p) && j < |w.plan|
  {
    p.index == j ==>
      && (Reopenable(r.status) ==> Reopenable(w.store.rows[j].status) || ClearedBut(w.log, j, None))
      && (next.Begin? || next == Launch ==> ClearedBut(w.log, j, None))
  }

  /** Saving the current row. */
  lemma SaveOnce(w: World, p: Pass, r: Row, index: nat, next: Control, j: nat)
    requires Shaped(w) && j < |w.plan| && Once(w, j) && w.pass == Some(p) && p.index < |w.plan|
    requires Standing(p.control) && Reopens(w, p, r, next, j)
    requires if index == p.index
      then next == FailTask || next == AskMove || next.Begin? || next == Launch || next.Mend?
      else index == p.index + 1 && next == Head
    ensures var v := SaveRow(w, p, r, index, next); Shaped(v) && Once(v, j)
  {
    hide OnceOf, ClearedBut;
    var ext := [Saved(p.index, r.status)];
    LogExtends(w.log, ext, j);
  }

  lemma HeadOnce(w: World, p: Pass, j: nat)
    requires Sound(w, j) && w.pass == Some(p) && p.control == Head
    ensures Once(AtHead(w, p), j)
  {
    hide Accounted, ValidPlan, Guarded, Placed, Breaks, LogOnce, StateFits, PassAgrees, CanMove, SaveRow;
    if p.index < |w.plan| && !Resolved(p.rows[p.index].status) && Breaks(w.plan, p.rows, p.index) {
      SaveOnce(w, p, p.rows[p.index].(status := Cancelled), p.index + 1, Head, j);
    } else {
      MoveOnce(w, AtHead(w, p), j);
    }
  }

  lemma GovernOnce(w: World, p: Pass, a: Answer, j: nat)
    requires Sound(w, j) && w.pass == Some(p) && p.control == Govern
    ensures Once(AtGovern(w, p, a), j)
  {
    hide Accounted, ValidPlan, Guarded, Placed, ClearedBut, OnceOf, Coherent, SaveRow, FailedRow;
    var r := p.rows[p.index];
    if a == ArgumentError {
      SaveOnce(w, p, FailedRow(r, Failed), p.index + 1, Head, j);
    } else if a == Deny {
      SaveOnce(w, p, FailedRow(r, Blocked), p.index + 1, Head, j);
    } else if a == NeedsApproval && p.approved != Some(p.index) {
      SaveOnce(w, p, r.(status := PendingApproval), p.index, AskMove, j);
    } else {
      MoveOnce(w, AtGovern(w, p, a), j);
    }
  }

  lemma BeginOnce(w: World, p: Pass, a: Answer, j: nat)
    requires Sound(w, j) && w.pass == Some(p) && p.control.Begin?
    ensures Once(AtBegin(w, p, a), j)
  {
    hide Accounted, ValidPlan, Guarded, Placed, ClearedBut, OnceOf, StateFits, SaveRow, BeginReceipt;
    var v, r := AtBegin(w, p, a), p.rows[p.index];
    if a == Proceed && w.plan[p.index].selected == Mutation {
      BeginOpensOnce(w, p, j);
    } else if a == Proceed {
      SaveOnce(w, p, r, p.index, Launch, j);
    } else if a == Templated && !p.control.templated {
      SaveOnce(w, p, r, p.index, Begin(true), j);
    } else {
      MoveOnce(w, v, j);
    }
  }

  lemma BeginOpensOnce(w: World, p: Pass, j: nat)
    requires Shaped(w) && Coherent(w) && j < |w.plan| && Once(w, j) && w.pass == Some(p) && p.control.Begin?
    ensures var v := BeginReceipt(w, p, Launch); Shaped(v) && Once(v, j)
  {
    hide OnceOf, ClearedBut, StateFits;
    var r := p.rows[p.index];
    LogExtends(w.log, [Begun(p.index, r.attempts), Saved(p.index, r.status)], j);
  }

  lemma LaunchOnce(w: World, p: Pass, a: Answer, j: nat)
    requires Sound(w, j) && w.pass == Some(p) && p.control == Launch
    ensures Once(AtLaunch(w, p, a), j)
  {
    hide Accounted, ValidPlan, Guarded, Placed, ClearedBut, OnceOf, StateFits;
    if a == Proceed {
      if p.index == j {
        ClearedDispatches(w.log, j, p.rows[j].attempts);
      } else {
        LogExtends(w.log, [Dispatched(p.index, p.rows[p.index].attempts)], j);
      }
    } else {
      ClearedWeakens(w.log, j);
      MoveOnce(w, AtLaunch(w, p, a), j);
    }
  }

  /** Finalising the receipt of the attempt in flight. */
  lemma CloseOnce(w: World, p: Pass, to: ReceiptStatus, next: Control, j: nat)
    requires Sound(w, j) && w.pass == Some(p) && (p.control == Await || (p.control.Caught? && p.control.open))
    requires to != Started && (next.Settling? || next.Closing?)
    requires next.Settling? || next == Closing(SettleFailed) ==> to == FailedKnown
    ensures Shaped(Close(w, p, to, next)) && Once(Close(w, p, to, next), j)
  {
    hide ValidPlan, Guarded, Placed, ClearedBut, OnceOf, StateFits, Latest, ReceiptsFit, DispatchesFit, FinishesFit;
    var v := Close(w, p, to, next);
    if Mutates(w.plan, p.index) {
      var ext := [Finished(p.index, p.rows[p.index].attempts, to)];
      LogExtends(w.log, ext, j);
      assert v.log == w.log + ext;
      if to == FailedKnown && p.index == j {
        ClearedFinishes(w.log, j, p.rows[j].attempts);
      }
    } else {
      MoveOnce(w, v, j);
    }
  }

  lemma FlightOnce(w: World, p: Pass, a: Answer, j: nat)
    requires Sound(w, j) && w.pass == Some(p)
    ensures p.control == Await ==> Once(AtAwait(w, p, a), j)
    ensures p.control.Caught? ==> Once(AtCaught(w, p), j)
  {
    hide Accounted, ValidPlan, Guarded, Placed, ClearedBut, OnceOf, Close, WithStepTimeout;
    hide Coherent;
    if p.control == Await && a.Outcome? {
      match WithStepTimeout(a.race)
      case NoResult => CloseOnce(w, p, UnknownOutcome, Closing(SettleUnknown), j);
      case Value(nonZero) =>
        if nonZero {
          CloseOnce(w, p, FailedKnown, Closing(SettleFailed), j);
        } else {
          CloseOnce(w, p, Succeeded, Closing(SettleCompleted), j);
        }
      case Threw(_) => MoveOnce(w, AtAwait(w, p, a), j);
    } else if p.control.Caught? {
      if p.control.code == EpochStale || !p.control.open {
        MoveOnce(w, AtCaught(w, p), j);
      } else if p.control.code == Timeout {
        CloseOnce(w, p, UnknownOutcome, Closing(SettleUnknown), j);
      } else {
        CloseOnce(w, p, FailedKnown, Settling(p.control.code), j);
      }
    }
  }

  lemma ClosingOnce(w: World, p: Pass, j: nat)
    requires Sound(w, j) && w.pass == Some(p)
    ensures p.control.Closing? ==> Once(AtClosing(w, p), j)
    ensures p.control.Settling? ==> Once(AtSettling(w, p), j)
  {
    hide Accounted, ValidPlan, Guarded, Placed, ClearedBut, OnceOf, Coherent, SaveRow;
    if p.control.Closing? {
      var v := p.control.verdict;
      if v == SettleUnknown {
        SaveOnce(w, p, ClosedRow(p.rows[p.index], v), p.index, FailTask, j);
      } else {
        SaveOnce(w, p, ClosedRow(p.rows[p.index], v), p.index + 1, Head, j);
      }
    } else if p.control.Settling? {
      var code := p.control.code;
      if code == MissingVariable || code == SecurityBlock {
        SaveOnce(w, p, SettledRow(p.rows[p.index], code), p.index + 1, Head, j);
      } else {
        SaveOnce(w, p, SettledRow(p.rows[p.index], code), p.index, Mend(code), j);
      }
    }
  }

  /** Outside the step, and with the memory as stored, nothing changes for step `j`. */
  lemma LeavesOnce(w: World, p: Pass, v: World, j: nat)
    requires Sound(w, j) && w.pass == Some(p) && Standing(p.control) && p.control != Enter && p.control != Head
    requires p.control.Mend? || p.control == Decide || p.control == AskMove || p.control == AskCreate
      || p.control == AskSave || p.control == Verify || p.control == Conclude
    requires Shaped(v) && v.plan == w.plan && v.pass.Some? && v.store.rows == w.store.rows && v.log == w.log
    requires var q := v.pass.value;
      && p.index <= q.index <= p.index + 1 && !q.control.Begin? && q.control != Launch && q.control != Await
      && !q.control.Caught? && !q.control.Closing? && !q.control.Settling? && q.control != FailTask
      && (q.index == p.index && (q.control == Enter || q.control == Head || q.control == Govern) ==>
            p.control == Decide)
    requires p.control == Decide ==> w.store.rows[p.index].status == Failed
    ensures Once(v, j)
  {
    hide Coherent, Accounted, ValidPlan, Guarded, Placed, LogOnce;
    MoveOnce(w, v, j);
  }

  lemma MendOnce(w: World, p: Pass, a: Answer, j: nat)
    requires Sound(w, j) && w.pass == Some(p)
    ensures p.control.Mend? ==> Once(AtMend(w, p), j)
    ensures p.control == Decide ==> Once(AtDecide(w, p, a), j)
  {
    hide Accounted, ValidPlan, Guarded, Placed, Once, CanMove, BackoffDelay, RecoveryDecision, StateFits;
    if p.control.Mend? {
      assert w.store.rows == p.rows;
      LeavesOnce(w, p, AtMend(w, p), j);
    } else if p.control == Decide {
      LeavesOnce(w, p, AtDecide(w, p, a), j);
    }
  }

  lemma AskOnce(w: World, p: Pass, j: nat)
    requires Sound(w, j) && w.pass == Some(p)
    requires p.control == AskMove || p.control == AskCreate || p.control == AskSave
    ensures Once(AtAsk(w, p), j)
  {
    hide Accounted, ValidPlan, Guarded, Placed, Once, CanMove, StateFits;
    assert w.store.rows == p.rows;
    LeavesOnce(w, p, AtAsk(w, p), j);
  }

  lemma EnterOnce(w: World, p: Pass, j: nat)
    requires Sound(w, j) && w.pass == Some(p) && p.control == Enter
    ensures Once(AtEnter(w, p), j)
  {
    hide Accounted, ValidPlan, Guarded, Placed, LogOnce, CanMove, HasUnknown, Coherent;
    MoveOnce(w, AtEnter(w, p), j);
  }

  lemma EndOnce(w: World, p: Pass, j: nat)
    requires Sound(w, j) && w.pass == Some(p) && (p.control == Verify || p.control == Conclude)
    ensures Once(AtEnd(w, p), j)
  {
    hide Accounted, ValidPlan, Guarded, Placed, LogOnce, CanMove, First;
    assert w.store.rows == p.rows;
    MoveOnce(w, AtEnd(w, p), j);
  }

  /** The whole plan is saved, with the current row as the pass holds it. */
  lemma FailOnce(w: World, p: Pass, j: nat)
    requires Sound(w, j) && w.pass == Some(p) && p.control == FailTask
    ensures Once(AtEnd(w, p), j)
  {
    hide Accounted, ValidPlan, Guarded, Placed, ClearedBut, OnceOf, CanMove, First;
  }

  lemma LeaveOnce(w: World, p: Pass, j: nat)
    requires Sound(w, j) && w.pass == Some(p)
    ensures p.control.Post? ==> Once(AtPost(w, p), j)
    ensures Shaped(w.(pass := None)) && Once(w.(pass := None), j)
  {
    hide Accounted, ValidPlan, Guarded, Placed, LogOnce;
    MoveOnce(w, w.(pass := None), j);
    if p.control.Post? {
      assert w.store.rows == p.rows;
      MoveOnce(w, AtPost(w, p), j);
    }
  }

  lemma QuarantineOnce(w: World, p: Pass, j: nat)
    requires Sound(w, j) && w.pass == Some(p) && p.control == Quarantine
    ensures Once(AtQuarantine(w, p), j)
  {
    hide Accounted, ValidPlan, Guarded, Placed, OnceOf, ClearedBut, StateFits;
    LogExtends(w.log, [Saved(p.index, OutcomeUnknown)], j);
  }

  lemma AdvanceOnce(w: World, a: Answer, j: nat)
    requires Shaped(w) && j < |w.plan| && Sound(w, j) && w.pass.Some?
    ensures Once(Advance(w, a), j)
  {
    hide AtEnter, AtHead, AtGovern, AtBegin, AtLaunch, AtAwait, AtClosing, AtCaught, AtSettling;
    hide AtMend, AtDecide, AtAsk, AtEnd, AtPost, AtQuarantine, Sound, Once;
    var p := w.pass.value;
    match p.control
    case Enter => EnterOnce(w, p, j);
    case Head => HeadOnce(w, p, j);
    case Govern => GovernOnce(w, p, a, j);
    case Begin(_) => BeginOnce(w, p, a, j);
    case Launch => LaunchOnce(w, p, a, j);
    case Await => FlightOnce(w, p, a, j);
    case Closing(_) => ClosingOnce(w, p, j);
    case Caught(_, _) => FlightOnce(w, p, a, j);
    case Settling(_) => ClosingOnce(w, p, j);
    case Mend(_) => MendOnce(w, p, a, j);
    case Decide => MendOnce(w, p, a, j);
    case AskMove => AskOnce(w, p, j);
    case AskCreate => AskOnce(w, p, j);
    case AskSave => AskOnce(w, p, j);
    case FailTask => FailOnce(w, p, j);
    case Verify => EndOnce(w, p, j);
    case Conclude => EndOnce(w, p, j);
    case Post(_) => LeaveOnce(w, p, j);
    case Quarantine => QuarantineOnce(w, p, j);
    case Broken => LeaveOnce(w, p, j);
  }

  /** Every input keeps the log in order. */
  lemma NextOnce(w: World, i: Input, j: nat)
    requires Shaped(w) && j < |w.plan| && Sound(w, j)
    ensures Once(Next(w, i), j)
  {
    hide Advance, StartRecovery, StartRun, StartResume, RevokeAll, Coherent, Accounted, ValidPlan, Guarded, Placed;
    hide LogOnce, Approaching, PassCleared;
    match i
    case Tick(a) =>
      if w.pass.Some? {
        AdvanceOnce(w, a, j);
        MoveOnce(Advance(w, a), Turn(w, a), j);
      }
    case Recover => if w.pass.None? { RecoveryApproaches(w, j); }
    case Run(m) => if w.pass.None? { RunApproaches(w, m, j); }
    case Resume(a, m) => if w.pass.None? { ResumeApproaches(w, a, m, j); }
    case Crash => MoveOnce(w, w.(pass := None), j);
    case Telemetry(_) => MoveOnce(w, Next(w, i), j);
    case Grant(_) => MoveOnce(w, Next(w, i), j);
    case Cancel => MoveOnce(w, Next(w, i), j);
  }

  lemma NextSound(w: World, i: Input, j: nat)
    requires Sound(w, j)
    ensures Sound(Next(w, i), j)
  {
    hide Coherent, Accounted, ValidPlan, Guarded, Placed, Once, Next;
    NextCoherent(w, i);
    NextAccounted(w, i);
    NextPlaced(w, i, j);
    NextOnce(w, i, j);
  }

  lemma CreatedSound(plan: Plan, j: nat)
    requires ValidPlan(plan) && Guarded(plan, j) && Mutates(plan, j)
    ensures Sound(Created(plan), j)
  {
    hide ValidPlan, Guarded;
    CreatedPlaced(plan, j);
  }
}
