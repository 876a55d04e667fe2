/** What the stored rows say about the receipts. The loop settles a step and its receipt in two
    writes, and crash recovery settles steps whose receipts it does not read, so a row and the
    receipt of its latest attempt can disagree; these are all the ways in which they can. */
module EngineAgreement {
  import opened Options
  import opened TaskDomain
  import opened TaskEngine
  import opened EngineCoherence
  import opened EngineReceipts
  import opened EngineFinality
  import opened EnginePlaces
  import opened EngineAtMostOnce
  import opened EngineTheorems
  import opened EngineReplay
  import opened EngineScenarios
  import opened EngineHeld

  /** The history ends with the failure of the latest attempt. */
  predicate EndsFailed(r: Row) {
    |r.history| > 0 && r.history[|r.history| - 1] == AttemptFailed(r.attempts)
  }

  /** The history is that of the attempts made, and a running attempt is not in it yet. */
  ghost predicate Timely(r: Row) {
    && (forall x :: 0 <= x < |r.history| ==> r.history[x].number <= r.attempts)
    && (r.status == Running ==> !EndsFailed(r))
    && (r.status == Failed || r.status == Blocked ==> EndsFailed(r))
  }

  /** An unknown outcome that the loop recorded has an unknown receipt, or the ownership fence left
      the receipt open or never opened; one that crash recovery assigned to an interrupted step
      has any receipt but an open one. */
  predicate UnknownAgrees(r: Row, q: Option<ReceiptStatus>) {
    r.status == OutcomeUnknown ==>
      if EndsFailed(r) then q in {None, Some(Started), Some(UnknownOutcome)} else q != Some(Started)
  }

  /** Nothing came of the latest attempt: it has no receipt, or failed for certain. */
  predicate Harmless(q: Option<ReceiptStatus>) {
    q == None || q == Some(FailedKnown)
  }

  // ---------------------------------------------------------------------------
  // The invariant
  // ---------------------------------------------------------------------------

  /** Of a guarded mutation in focus it is also said that, while it may be invoked again, it has
      nothing to show for its latest attempt. */
  ghost predicate RowAgrees(focus: Option<nat>, plan: Plan, receipts: seq<Receipt>, k: nat, r: Row) {
    && Timely(r)
    && (Mutates(plan, k) ==>
          && UnknownAgrees(r, ReceiptOf(receipts, k, r.attempts))
          && (focus == Some(k) && Reopenable(r.status) ==> Harmless(ReceiptOf(receipts, k, r.attempts))))
  }

  ghost predicate RowsAgree(focus: Option<nat>, plan: Plan, s: Store) {
    forall k :: 0 <= k < |s.rows| ==> RowAgrees(focus, plan, s.receipts, k, s.rows[k])
  }

  /** What is about to be recorded as unknown. */
  ghost predicate PassAgreed(w: World, p: Pass)
    requires ShapedPass(w.plan, p)
  {
    Mutates(w.plan, p.index) ==>
      var q := ReceiptOf(w.store.receipts, p.index, p.rows[p.index].attempts);
      && (p.control == Closing(SettleUnknown) ==> q in {None, Some(Started), Some(UnknownOutcome)})
      && (p.control == Quarantine ==> q != Some(Started))
  }

  ghost predicate Agreeing(focus: Option<nat>, w: World)
    requires Shaped(w)
  {
    && RowsAgree(focus, w.plan, w.store)
    && (w.pass.Some? ==> PassAgreed(w, w.pass.value))
  }

  /** What the proofs draw on: the general invariants, and those about the step in focus. */
  ghost predicate Founded(focus: Option<nat>, w: World) {
    Shaped(w) && Coherent(w) && Accounted(w) && (focus.Some? ==> Sound(w, focus.value))
  }

  // ---------------------------------------------------------------------------
  // Receipts and rows
  // ---------------------------------------------------------------------------

  lemma UnreceiptedHasNone(w: World, p: Pass)
    requires p.index < |p.rows| && Unreceipted(w, p)
    ensures ReceiptOf(w.store.receipts, p.index, p.rows[p.index].attempts) == None
  {
  }

  /** The rows that the loop writes, as far as the history goes. */
  lemma RowsStayTimely(r: Row, s: Status)
    requires Timely(r)
    ensures Timely(StartedRow(r)) && Timely(CompletedRow(r))
    ensures s != Running ==> Timely(FailedRow(r, s)) && EndsFailed(FailedRow(r, s))
    ensures s != Running && s != Failed && s != Blocked ==> Timely(r.(status := s))
  {
  }

  /** The row in memory is as timely as the stored one. */
  lemma MemoryTimely(w: World, p: Pass)
    requires Coherent(w) && w.pass == Some(p) && p.index < |w.plan| && p.control != Broken
    requires Timely(w.store.rows[p.index])
    ensures Timely(p.rows[p.index])
  {
    hide StateFits;
    RowsStayTimely(w.store.rows[p.index], Pending);
  }

  /** A write to one row, with the receipts as they are. */
  lemma RowSaved(focus: Option<nat>, w: World, v: World, k: nat)
    requires Shaped(w) && Shaped(v) && v.plan == w.plan && Agreeing(focus, w)
    requires v.store.receipts == w.store.receipts
    requires forall j :: 0 <= j < |w.plan| && j != k ==> v.store.rows[j] == w.store.rows[j]
    requires k < |w.plan| ==> RowAgrees(focus, w.plan, w.store.receipts, k, v.store.rows[k])
    requires v.pass.Some? ==> PassAgreed(v, v.pass.value)
    ensures Agreeing(focus, v)
  {
    hide RowAgrees, PassAgreed;
  }

  /** A write to the receipts of one step. */
  lemma ReceiptsMoved(focus: Option<nat>, w: World, v: World, k: nat)
    requires Shaped(w) && Shaped(v) && v.plan == w.plan && Agreeing(focus, w) && k < |w.plan|
    requires forall j, m :: j != k ==> ReceiptOf(v.store.receipts, j, m) == ReceiptOf(w.store.receipts, j, m)
    requires forall j :: 0 <= j < |w.plan| && j != k ==> v.store.rows[j] == w.store.rows[j]
    requires RowAgrees(focus, w.plan, v.store.receipts, k, v.store.rows[k])
    requires v.pass.Some? ==> PassAgreed(v, v.pass.value)
    ensures Agreeing(focus, v)
  {
    hide PassAgreed, ReceiptOf, Timely, UnknownAgrees;
    forall j | 0 <= j < |w.plan| && j != k
      ensures RowAgrees(focus, v.plan, v.store.receipts, j, v.store.rows[j])
    {
      assert RowAgrees(focus, w.plan, w.store.receipts, j, w.store.rows[j]);
    }
  }

  // ---------------------------------------------------------------------------
  // Every step keeps the invariant
  // ---------------------------------------------------------------------------

  /** A guarded mutation about to be decided on is not a stale one. */
  lemma NotStale(w: World, p: Pass)
    requires Sound(w, p.index) && w.pass == Some(p) && (p.control == Head || p.control == Govern)
    ensures Reopenable(w.store.rows[p.index].status)
  {
    hide Coherent, Accounted, ValidPlan, Guarded, Placed, LogOnce, PassCleared;
  }

  /** The step in focus, about to be decided on, has nothing to show. */
  lemma DecidedIsHarmless(focus: Option<nat>, w: World, p: Pass)
    requires Founded(focus, w) && Agreeing(focus, w) && w.pass == Some(p)
    requires (p.control == Head || p.control == Govern) && p.index < |w.plan| && !Resolved(p.rows[p.index].status)
    ensures Timely(p.rows[p.index])
    ensures focus == Some(p.index) && Mutates(w.plan, p.index) ==>
      Harmless(ReceiptOf(w.store.receipts, p.index, p.rows[p.index].attempts))
  {
    hide Accounted, StateFits, Sound, ReceiptOf, Timely, Reopenable, UnknownAgrees;
    assert RowAgrees(focus, w.plan, w.store.receipts, p.index, w.store.rows[p.index]);
    MemoryTimely(w, p);
    if focus == Some(p.index) {
      NotStale(w, p);
    }
  }

  lemma HeadAgrees(focus: Option<nat>, w: World, p: Pass)
    requires Founded(focus, w) && Agreeing(focus, w) && w.pass == Some(p) && p.control == Head
    ensures Agreeing(focus, AtHead(w, p))
  {
    hide Accounted, StateFits, Sound, ReceiptOf, Timely, Breaks, RowsAgree, CanMove;
    var v := AtHead(w, p);
    if p.index < |w.plan| && !Resolved(p.rows[p.index].status) && Breaks(w.plan, p.rows, p.index) {
      DecidedIsHarmless(focus, w, p);
      RowsStayTimely(p.rows[p.index], Cancelled);
      RowSaved(focus, w, v, p.index);
    } else {
      RowSaved(focus, w, v, |w.plan|);
    }
  }

  lemma GovernAgrees(focus: Option<nat>, w: World, p: Pass, a: Answer)
    requires Founded(focus, w) && Agreeing(focus, w) && w.pass == Some(p) && p.control == Govern
    ensures Agreeing(focus, AtGovern(w, p, a))
  {
    hide Accounted, StateFits, Sound, ReceiptOf, Timely, RowsAgree, FailedRow;
    var v := AtGovern(w, p, a);
    DecidedIsHarmless(focus, w, p);
    RowsStayTimely(p.rows[p.index], Failed);
    RowsStayTimely(p.rows[p.index], Blocked);
    RowsStayTimely(p.rows[p.index], PendingApproval);
    FailedRowIs(p.rows[p.index]);
    if v.store != w.store {
      RowSaved(focus, w, v, p.index);
    }
  }

  lemma FailedRowIs(r: Row)
    ensures forall s :: FailedRow(r, s).status == s && FailedRow(r, s).attempts == r.attempts
  {
  }

  lemma BeginAgrees(focus: Option<nat>, w: World, p: Pass, a: Answer)
    requires Founded(focus, w) && Agreeing(focus, w) && w.pass == Some(p) && p.control.Begin?
    ensures Agreeing(focus, AtBegin(w, p, a))
  {
    hide Accounted, StateFits, Sound, ReceiptOf, Timely, RowsAgree;
    var v := AtBegin(w, p, a);
    TimelyStored(focus, w, p.index);
    MemoryTimely(w, p);
    if a == Proceed && Mutates(w.plan, p.index) {
      ReceiptBegins(w.store.receipts, p.index, p.rows[p.index].attempts);
      ReceiptsMoved(focus, w, v, p.index);
    } else if v.store != w.store {
      RowSaved(focus, w, v, p.index);
    }
  }

  lemma TimelyStored(focus: Option<nat>, w: World, k: nat)
    requires Shaped(w) && Agreeing(focus, w) && k < |w.plan|
    ensures Timely(w.store.rows[k])
  {
    assert RowAgrees(focus, w.plan, w.store.receipts, k, w.store.rows[k]);
  }

  lemma ClosingAgrees(focus: Option<nat>, w: World, p: Pass)
    requires Founded(focus, w) && Agreeing(focus, w) && w.pass == Some(p) && p.control.Closing?
    ensures Agreeing(focus, AtClosing(w, p))
  {
    hide StateFits, Sound, Timely, RowsAgree, FailedRow, Latest, ReceiptsFit, DispatchesFit, FinishesFit;
    TimelyStored(focus, w, p.index);
    MemoryTimely(w, p);
    RowsStayTimely(p.rows[p.index], OutcomeUnknown);
    RowsStayTimely(p.rows[p.index], Failed);
    FailedRowIs(p.rows[p.index]);
    RowSaved(focus, w, AtClosing(w, p), p.index);
  }

  lemma SettlingAgrees(focus: Option<nat>, w: World, p: Pass)
    requires Founded(focus, w) && Agreeing(focus, w) && w.pass == Some(p) && p.control.Settling?
    ensures Agreeing(focus, AtSettling(w, p))
  {
    hide StateFits, Sound, Timely, RowsAgree, FailedRow, Latest, ReceiptsFit, DispatchesFit;
    hide FinishesFit, Unreceipted;
    TimelyStored(focus, w, p.index);
    MemoryTimely(w, p);
    RowsStayTimely(p.rows[p.index], Blocked);
    RowsStayTimely(p.rows[p.index], Failed);
    FailedRowIs(p.rows[p.index]);
    if Unreceipted(w, p) {
      UnreceiptedHasNone(w, p);
    }
    RowSaved(focus, w, AtSettling(w, p), p.index);
  }

  /** Finalising the receipt of the attempt in flight: the stored row is running. */
  lemma CloseAgrees(focus: Option<nat>, w: World, p: Pass, to: ReceiptStatus, next: Control)
    requires Founded(focus, w) && Agreeing(focus, w) && w.pass == Some(p)
    requires p.control == Await || (p.control.Caught? && p.control.open)
    requires (next.Closing? || next.Settling?) && (next == Closing(SettleUnknown) ==> to == UnknownOutcome)
    requires to != Started && p.index < |w.plan|
    ensures Shaped(Close(w, p, to, next)) && Agreeing(focus, Close(w, p, to, next))
  {
    hide StateFits, Sound, Timely, RowsAgree, Latest, ReceiptsFit, DispatchesFit, FinishesFit, FinishReceipt;
    TimelyStored(focus, w, p.index);
    if Mutates(w.plan, p.index) {
      ReceiptEnds(w, p.index, to);
      FinishKeeps(w, p.index, to);
      ReceiptsMoved(focus, w, Close(w, p, to, next), p.index);
    } else {
      RowSaved(focus, w, Close(w, p, to, next), p.index) by {
        assert RowAgrees(focus, w.plan, w.store.receipts, p.index, w.store.rows[p.index]);
      }
    }
  }

  lemma AwaitAgrees(focus: Option<nat>, w: World, p: Pass, a: Answer)
    requires Founded(focus, w) && Agreeing(focus, w) && w.pass == Some(p) && p.control == Await
    ensures Agreeing(focus, AtAwait(w, p, a))
  {
    hide Accounted, StateFits, Sound, RowsAgree, Close, WithStepTimeout;
    if a.Outcome? {
      match WithStepTimeout(a.race)
      case NoResult => CloseAgrees(focus, w, p, UnknownOutcome, Closing(SettleUnknown));
      case Value(nonZero) =>
        if nonZero {
          CloseAgrees(focus, w, p, FailedKnown, Closing(SettleFailed));
        } else {
          CloseAgrees(focus, w, p, Succeeded, Closing(SettleCompleted));
        }
      case Threw(_) =>
    }
  }

  /** A fence failure leaves the receipt open, or never opened. */
  lemma CaughtAgrees(focus: Option<nat>, w: World, p: Pass)
    requires Founded(focus, w) && Agreeing(focus, w) && w.pass == Some(p) && p.control.Caught?
    ensures Agreeing(focus, AtCaught(w, p))
  {
    hide StateFits, Sound, RowsAgree, Close, Latest, ReceiptsFit, DispatchesFit, FinishesFit, Unreceipted;
    if p.control.code == EpochStale {
      if Mutates(w.plan, p.index) && !p.control.open {
        UnreceiptedHasNone(w, p);
      }
    } else if p.control.open {
      if p.control.code == Timeout {
        CloseAgrees(focus, w, p, UnknownOutcome, Closing(SettleUnknown));
      } else {
        CloseAgrees(focus, w, p, FailedKnown, Settling(p.control.code));
      }
    }
  }

  /** The steps that write the whole plan, or none of it. */
  lemma WholeAgrees(focus: Option<nat>, w: World, p: Pass, v: World)
    requires Founded(focus, w) && Agreeing(focus, w) && w.pass == Some(p)
    requires p.control.Mend? || p.control == AskMove || p.control == AskSave || p.control.Post?
      || p.control == FailTask || p.control == Verify || p.control == Conclude
    requires Shaped(v) && v.plan == w.plan && v.store.receipts == w.store.receipts
    requires v.store.rows == w.store.rows || v.store.rows == p.rows
    requires v.pass.Some? ==> v.pass.value.control != Closing(SettleUnknown) && v.pass.value.control != Quarantine
    ensures Agreeing(focus, v)
  {
    hide StateFits, Accounted, RowsAgree, ReceiptOf, Timely;
    if p.index < |w.plan| {
      CurrentAsStored(focus, w, p);
      StoredAgrees(focus, w, p.index);
      RowsStayTimely(w.store.rows[p.index], Pending);
    }
    hide Sound;
    RowSaved(focus, w, v, p.index);
  }

  lemma StoredAgrees(focus: Option<nat>, w: World, k: nat)
    requires Shaped(w) && Agreeing(focus, w) && k < |w.plan|
    ensures RowAgrees(focus, w.plan, w.store.receipts, k, w.store.rows[k])
  {
  }

  /** A step that is saved with the whole plan is as it is stored, or reset by a pass that is
      about to fail; the step in focus is then one that may be invoked again. */
  lemma CurrentAsStored(focus: Option<nat>, w: World, p: Pass)
    requires Founded(focus, w) && w.pass == Some(p) && p.index < |w.plan|
    requires p.control.Mend? || p.control == AskMove || p.control == AskSave || p.control.Post?
      || p.control == FailTask || p.control == Verify || p.control == Conclude
    ensures p.rows[p.index] != w.store.rows[p.index] ==>
      && p.rows[p.index] == w.store.rows[p.index].(status := Pending)
      && (focus == Some(p.index) ==> Reopenable(w.store.rows[p.index].status))
  {
    hide StateFits, Accounted, ValidPlan, Guarded, Placed, LogOnce, PassCleared;
  }

  lemma QuarantineAgrees(focus: Option<nat>, w: World, p: Pass)
    requires Founded(focus, w) && Agreeing(focus, w) && w.pass == Some(p) && p.control == Quarantine
    ensures Agreeing(focus, AtQuarantine(w, p))
  {
    hide StateFits, Accounted, Sound, RowsAgree, ReceiptOf;
    StoredAgrees(focus, w, p.index);
    RowSaved(focus, w, AtQuarantine(w, p), p.index);
  }

  /** The steps that write no row. */
  lemma MovesAgree(focus: Option<nat>, w: World, p: Pass, a: Answer)
    requires Shaped(w) && Agreeing(focus, w) && w.pass == Some(p)
    ensures p.control == Enter ==> Agreeing(focus, AtEnter(w, p))
    ensures p.control == Launch ==> Agreeing(focus, AtLaunch(w, p, a))
    ensures p.control == Decide ==> Agreeing(focus, AtDecide(w, p, a))
    ensures p.control == AskCreate ==> Agreeing(focus, AtAsk(w, p))
  {
    hide RowsAgree, HasUnknown, CanMove, BackoffDelay, RecoveryDecision;
    var n := |w.plan|;
    if p.control == Enter {
      RowSaved(focus, w, AtEnter(w, p), n);
    } else if p.control == Launch {
      RowSaved(focus, w, AtLaunch(w, p, a), n);
    } else if p.control == Decide {
      RowSaved(focus, w, AtDecide(w, p, a), n);
    } else if p.control == AskCreate {
      RowSaved(focus, w, AtAsk(w, p), n);
    }
  }

  lemma PlansAgree(focus: Option<nat>, w: World, p: Pass)
    requires Shaped(w) && Founded(focus, w) && Agreeing(focus, w) && w.pass == Some(p)
    ensures p.control.Mend? ==> Agreeing(focus, AtMend(w, p))
    ensures p.control == AskMove || p.control == AskSave ==> Agreeing(focus, AtAsk(w, p))
    ensures p.control == FailTask || p.control == Verify || p.control == Conclude ==> Agreeing(focus, AtEnd(w, p))
    ensures p.control.Post? ==> Agreeing(focus, AtPost(w, p))
  {
    hide Founded, Agreeing, First, CanMove;
    if p.control.Mend? {
      WholeAgrees(focus, w, p, AtMend(w, p));
    } else if p.control == AskMove || p.control == AskSave {
      WholeAgrees(focus, w, p, AtAsk(w, p));
    } else if p.control == FailTask || p.control == Verify || p.control == Conclude {
      WholeAgrees(focus, w, p, AtEnd(w, p));
    } else if p.control.Post? {
      WholeAgrees(focus, w, p, AtPost(w, p));
    }
  }

  lemma DroppedAgrees(focus: Option<nat>, w: World)
    requires Shaped(w) && Agreeing(focus, w)
    ensures Agreeing(focus, w.(pass := None))
  {
  }

  lemma AdvanceAgrees(focus: Option<nat>, w: World, a: Answer)
    requires Shaped(w) && Founded(focus, w) && Agreeing(focus, w) && w.pass.Some?
    ensures Agreeing(focus, Advance(w, a))
  {
    hide Founded, Agreeing;
    hide AtEnter, AtHead, AtGovern, AtBegin, AtLaunch, AtAwait, AtClosing, AtCaught, AtSettling;
    hide AtMend, AtDecide, AtAsk, AtEnd, AtPost, AtQuarantine;
    var p := w.pass.value;
    MovesAgree(focus, w, p, a);
    PlansAgree(focus, w, p);
    match p.control
    case Head => HeadAgrees(focus, w, p);
    case Govern => GovernAgrees(focus, w, p, a);
    case Begin(_) => BeginAgrees(focus, w, p, a);
    case Await => AwaitAgrees(focus, w, p, a);
    case Closing(_) => ClosingAgrees(focus, w, p);
    case Caught(_, _) => CaughtAgrees(focus, w, p);
    case Settling(_) => SettlingAgrees(focus, w, p);
    case Quarantine => QuarantineAgrees(focus, w, p);
    case Broken => DroppedAgrees(focus, w);
    case _ =>
  }

  lemma RecoveryAgrees(focus: Option<nat>, w: World)
    requires Shaped(w) && Founded(focus, w) && Agreeing(focus, w) && w.pass.None?
    ensures var v := StartRecovery(w); Shaped(v) && Agreeing(focus, v)
  {
    hide Founded, RowsAgree, FinishReceipt, HasUnknown, First, ReceiptOf;
    var v := StartRecovery(w);
    if v.pass.Some? && v.pass.value.control == Quarantine {
      var k := v.pass.value.index;
      ReceiptEnds(w, k, UnknownOutcome);
      FinishKeeps(w, k, UnknownOutcome);
      StoredAgrees(focus, w, k);
      ReceiptsMoved(focus, w, v, k);
    } else {
      RowSaved(focus, w, v, |w.plan|);
    }
  }

  /** Every input keeps the invariant. */
  lemma NextAgrees(focus: Option<nat>, w: World, i: Input)
    requires Shaped(w) && Founded(focus, w) && Agreeing(focus, w)
    ensures Agreeing(focus, Next(w, i))
  {
    hide Founded, RowsAgree, Advance, StartRecovery, RunStart, RevokeAll;
    if i.Tick? && w.pass.Some? {
      AdvanceAgrees(focus, w, i.answer);
      RowSaved(focus, Advance(w, i.answer), Next(w, i), |w.plan|);
    } else if i == Recover && w.pass.None? {
      RecoveryAgrees(focus, w);
    } else {
      RowSaved(focus, w, Next(w, i), |w.plan|);
    }
  }

  lemma {:induction false} RunsAgree(focus: Option<nat>, w: World, inputs: seq<Input>)
    requires Shaped(w) && Founded(focus, w) && Agreeing(focus, w)
    ensures Agreeing(focus, Execute(w, inputs))
    decreases |inputs|
  {
    hide Agreeing, Coherent, Accounted, Sound, Next;
    if |inputs| > 0 {
      NextAgrees(focus, w, inputs[0]);
      NextCoherent(w, inputs[0]);
      NextAccounted(w, inputs[0]);
      if focus.Some? {
        NextSound(w, inputs[0], focus.value);
      }
      RunsAgree(focus, Next(w, inputs[0]), inputs[1..]);
    }
  }

  // ---------------------------------------------------------------------------
  // The theorems
  // ---------------------------------------------------------------------------

  /** In every reachable store, what the status of a mutation says about the receipt of its latest
      attempt. */
  lemma {:induction false} StoredRowsAgree(plan: Plan, inputs: seq<Input>, k: nat)
    requires Mutates(plan, k)
    ensures var s := Execute(Created(plan), inputs).store;
      var r, q := s.rows[k], ReceiptOf(s.receipts, k, s.rows[k].attempts);
      && (r.status == Completed ==> q == Some(Succeeded))
      // an unknown outcome recorded by the loop: the receipt says so, unless the fence failed
      && (r.status == OutcomeUnknown && EndsFailed(r) ==> q in {None, Some(Started), Some(UnknownOutcome)})
      // one assigned by crash recovery: the receipt may say anything, but it is closed
      && (r.status == OutcomeUnknown && !EndsFailed(r) ==> q != Some(Started))
      && (r.status == Failed || r.status == Blocked ==> EndsFailed(r))
  {
    hide Execute, Latest, Coherent, Counting, Finalised;
    CreatedConsistent(plan);
    RunsConsistent(Created(plan), inputs);
    RunsAgree(None, Created(plan), inputs);
    StoredAgrees(None, Execute(Created(plan), inputs), k);
  }

  /** If the step failed or was blocked, it has no receipt for its latest attempt, or one that says
      it failed. */
  ghost predicate FailureAgrees(s: Store, k: nat)
    requires k < |s.rows|
  {
    s.rows[k].status == Failed || s.rows[k].status == Blocked ==>
      Harmless(ReceiptOf(s.receipts, k, s.rows[k].attempts))
  }

  ghost predicate FailuresAgree(plan: Plan, s: Store)
    requires |plan| == |s.rows|
  {
    forall k :: Mutates(plan, k) ==> FailureAgrees(s, k)
  }

  /** For a guarded mutation of any valid plan, in every run. */
  lemma {:induction false} GuardedFailureAgrees(plan: Plan, inputs: seq<Input>, j: nat)
    requires ValidPlan(plan) && Guarded(plan, j) && Mutates(plan, j)
    ensures FailureAgrees(Execute(Created(plan), inputs).store, j)
  {
    hide Execute, Latest, Coherent, Accounted, Counting, Finalised, Sound, ValidPlan, Guarded;
    CreatedConsistent(plan);
    CreatedSound(plan, j);
    RunsAgree(Some(j), Created(plan), inputs);
    StoredAgrees(Some(j), Execute(Created(plan), inputs), j);
  }

  lemma {:induction false} ChainFailuresAgree(plan: Plan, inputs: seq<Input>)
    requires SuccessChain(plan)
    ensures FailuresAgree(plan, Execute(Created(plan), inputs).store)
  {
    hide Execute, FailureAgrees, SuccessChain, Guarded;
    ChainIsValid(plan);
    forall j | Mutates(plan, j) ensures FailureAgrees(Execute(Created(plan), inputs).store, j) {
      ChainIsGuarded(plan, j);
      GuardedFailureAgrees(plan, inputs, j);
    }
  }

  /** The policy refuses a step whose attempt a crash left in flight. */
  lemma {:induction false} RefusedInFlight(w: World, support: set<nat>, j: nat)
    requires AtHeadOf(w, support, j, j) && Mutates(w.plan, j) && !Breaks(w.plan, w.store.rows, j)
    requires ReceiptOf(w.store.receipts, j, w.store.rows[j].attempts) == Some(Started)
    ensures !FailureAgrees(Execute(w, Ticks([Proceed, Deny])).store, j)
  {
    hide Advance, Breaks, ReceiptOf, Execute;
    var answers := [Proceed, Deny];
    var v, p := Governs(w, support, j, j);
    TicksTurn(w, answers);
    TicksTurn(v, answers[1..]);
    AdvanceGovern(v, p, Deny);
    var u := Turn(v, Deny);
    assert u.store.rows[j].status == Blocked && u.store.rows[j].attempts == w.store.rows[j].attempts;
  }

  /** A crash leaves step `j` in flight behind a step that is not completed, and crash recovery comes
      to it again. */
  lemma {:induction false} StaleReturns(plan: Plan, support: set<nat>, j: nat, i: nat) returns (inputs: seq<Input>)
    requires ValidPlan(plan) && Supports(plan, support, j) && Mutates(plan, j)
    requires i < j && i !in support
    ensures var u := Execute(Created(plan), inputs);
      && AtHeadOf(u, support, j, j) && u.plan == plan
      && ReceiptOf(u.store.receipts, j, u.store.rows[j].attempts) == Some(Started)
  {
    hide Execute, Supports, ValidPlan, Next, Grown, ReceiptOf, AtHeadOf, OnTheWay, SetsOut;
    var w := Created(plan);
    RunReaches(plan, support, j);
    var once := Reaches(w, Run(0), support, j);
    var v := Execute(w, once);
    InFlightIsOpen(plan, once);
    var dead := v.(pass := None);
    Crashes(v);
    RecoveryReaches(dead, support, j, i);
    var again := Arrives(dead, Recover, support, j);
    inputs := once + ([Crash] + again);
    ExecuteJoins(w, once, [Crash] + again);
    ExecuteJoins(v, [Crash], again);
  }

  /** Every valid plan in which some mutation can be reached without all the steps before it has a
      run that leaves that mutation blocked with an open receipt. */
  lemma {:induction false} StaleMutationIsRefused(plan: Plan, support: set<nat>, j: nat, i: nat)
    returns (inputs: seq<Input>)
    requires ValidPlan(plan) && Supports(plan, support, j) && Mutates(plan, j)
    requires i < j && i !in support
    ensures !FailureAgrees(Execute(Created(plan), inputs).store, j)
    ensures !FailuresAgree(plan, Execute(Created(plan), inputs).store)
  {
    hide Execute, Supports, ValidPlan, FailureAgrees, ReceiptOf, Breaks, OnTheWay;
    var w := Created(plan);
    var first := StaleReturns(plan, support, j, i);
    var u := Execute(w, first);
    NotBroken(u.plan, u.store.rows, support, j, j);
    RefusedInFlight(u, support, j);
    inputs := first + Ticks([Proceed, Deny]);
    ExecuteJoins(w, first, Ticks([Proceed, Deny]));
  }

  /** The same at the end of the run behind a waiting step. */
  lemma {:induction false} HeldMutationIsRefused(plan: Plan, i: nat, s: nat, j: nat) returns (inputs: seq<Input>)
    requires Loose(plan, i, s, j) && Mutates(plan, j)
    ensures !FailureAgrees(Execute(Created(plan), inputs).store, j)
  {
    hide Execute, Loose, ReceiptOf, Breaks, Advance, FailedRow;
    var first, rows, x := HeldReturns(plan, i, s, j);
    var v := Execute(Created(plan), first);
    var answers := [Proceed, Deny];
    Governed(v, j, rows, Some(i), ByResume);
    var u := Turn(v, Proceed);
    TicksTurn(v, answers);
    TicksTurn(u, answers[1..]);
    AdvanceGovern(u, u.pass.value, Deny);
    FailedRowIs(rows[j]);
    inputs := first + Ticks(answers);
    ExecuteJoins(Created(plan), first, Ticks(answers));
  }

  lemma {:induction false} UnguardedIsRefused(plan: Plan, j: nat) returns (inputs: seq<Input>)
    requires ValidPlan(plan) && CanBeReached(plan, j) && Mutates(plan, j) && !Guarded(plan, j)
    ensures !FailureAgrees(Execute(Created(plan), inputs).store, j)
  {
    hide Execute, FailureAgrees, ValidPlan, Supports;
    var support := SomeSupport(plan, j);
    if h :| 0 <= h < j && h !in support {
      inputs := StaleMutationIsRefused(plan, support, j, h);
    } else {
      var i, s := FindsLoose(plan, support, j);
      inputs := HeldMutationIsRefused(plan, i, s, j);
    }
  }

  /** For every mutation of every valid plan that some first pass can reach: in all runs its failure
      on record agrees with its receipt, if and only if it is guarded. */
  lemma {:induction false} ExactlyGuardedAgrees(plan: Plan, j: nat)
    requires ValidPlan(plan) && Mutates(plan, j) && CanBeReached(plan, j)
    ensures Guarded(plan, j) <==> forall inputs :: FailureAgrees(Execute(Created(plan), inputs).store, j)
  {
    hide Execute, FailureAgrees, Guarded, ValidPlan, CanBeReached;
    if Guarded(plan, j) {
      forall inputs ensures FailureAgrees(Execute(Created(plan), inputs).store, j) {
        GuardedFailureAgrees(plan, inputs, j);
      }
    } else {
      var inputs := UnguardedIsRefused(plan, j);
    }
  }

  /** For plans of mutations, the failures on record agree with the receipts in every run if and
      only if the plan is a success chain. */
  lemma ExactlyChainsAgree(plan: Plan)
    requires ValidPlan(plan)
    requires forall k :: 0 <= k < |plan| ==> plan[k].selected == Mutation
    ensures SuccessChain(plan) <==> forall inputs :: FailuresAgree(plan, Execute(Created(plan), inputs).store)
  {
    hide Execute, FailuresAgree;
    if SuccessChain(plan) {
      forall inputs ensures FailuresAgree(plan, Execute(Created(plan), inputs).store) {
        ChainFailuresAgree(plan, inputs);
      }
    } else {
      var support, j := LooseStep(plan);
      var inputs := StaleMutationIsRefused(plan, support, j, j - 1);
    }
  }

  // ---------------------------------------------------------------------------
  // Both exceptions happen
  // ---------------------------------------------------------------------------

  const FENCED: seq<Answer> := [Outcome(InTime(Rejected(EpochStale))), Proceed, Proceed]

  /** The fence fails while the tool is at work: the open receipt stays open. */
  lemma {:induction false} FenceLeavesOpen(w: World, p: Pass)
    requires Shaped(w) && w.pass == Some(p) && p.control == Await && p.rows == w.store.rows
    ensures var v := Execute(w, Ticks(FENCED));
      && v.store.rows == w.store.rows[p.index := FailedRow(w.store.rows[p.index], OutcomeUnknown)]
      && v.store.receipts == w.store.receipts
  {
    hide Advance, Execute, FailedRow;
    TicksTurn(w, FENCED);
    AdvanceAwait(w, p, FENCED[0]);
    var u := Turn(w, FENCED[0]);
    TicksTurn(u, FENCED[1..]);
    AdvanceCaught(u, u.pass.value, Proceed);
    var v := Turn(u, Proceed);
    TicksTurn(v, FENCED[2..]);
    AdvanceClosing(v, v.pass.value, Proceed);
  }

  /** Every mutation of a valid plan that can be reached has a run in which its outcome is recorded
      as unknown and its receipt stays open. */
  lemma FencedOutcomeStaysOpen(plan: Plan, support: set<nat>, j: nat) returns (inputs: seq<Input>)
    requires ValidPlan(plan) && Supports(plan, support, j) && Mutates(plan, j)
    ensures var s := Execute(Created(plan), inputs).store;
      && s.rows[j].status == OutcomeUnknown && EndsFailed(s.rows[j])
      && ReceiptOf(s.receipts, j, s.rows[j].attempts) == Some(Started)
  {
    hide Execute, Supports, ValidPlan, Next, Latest, Grown, OnTheWay;
    RunReaches(plan, support, j);
    var first := Reaches(Created(plan), Run(0), support, j);
    InFlightIsOpen(plan, first);
    var v := Execute(Created(plan), first);
    FenceLeavesOpen(v, v.pass.value);
    inputs := first + Ticks(FENCED);
    ExecuteJoins(Created(plan), first, Ticks(FENCED));
  }

  const REFUSED: seq<Answer> := [Proceed, Allow, FenceRefusal, Proceed, Proceed]

  /** The fence refuses the receipt itself: none is opened and the tool is not invoked. */
  lemma {:induction false} FenceOpensNone(w: World, support: set<nat>, j: nat)
    requires AtHeadOf(w, support, j, j) && Mutates(w.plan, j) && !Breaks(w.plan, w.store.rows, j)
    requires Accounted(w)
    ensures var s := Execute(w, Ticks(REFUSED)).store;
      && j < |s.rows| && s.rows[j].status == OutcomeUnknown && EndsFailed(s.rows[j])
      && s.receipts == w.store.receipts && ReceiptOf(s.receipts, j, s.rows[j].attempts) == None
  {
    hide Advance, Execute, Breaks, DispatchesFit, FinishesFit, PassFits;
    var v, p := Governs(w, support, j, j);
    TicksTurn(w, REFUSED);
    TicksTurn(v, REFUSED[1..]);
    AdvanceGovern(v, p, Allow);
    var u := Turn(v, Allow);
    TicksTurn(u, REFUSED[1..][1..]);
    AdvanceBegin(u, u.pass.value, FenceRefusal);
    var x := Turn(u, FenceRefusal);
    assert REFUSED[1..][1..][1..] == [Proceed, Proceed];
    TicksTurn(x, [Proceed, Proceed]);
    AdvanceCaught(x, x.pass.value, Proceed);
    var y := Turn(x, Proceed);
    TicksTurn(y, [Proceed, Proceed][1..]);
    AdvanceClosing(y, y.pass.value, Proceed);
    NoReceiptYet(w.plan, w.store.rows, w.store.receipts, j);
  }

  lemma NoReceiptYet(plan: Plan, rows: seq<Row>, receipts: seq<Receipt>, j: nat)
    requires j < |plan| == |rows| && ReceiptsFit(plan, rows, receipts)
    ensures ReceiptOf(receipts, j, rows[j].attempts + 1) == None
  {
    hide Latest;
  }

  /** Every mutation of a valid plan that can be reached has a run in which the fence refuses its
      receipt: its outcome is recorded as unknown and it has no receipt. */
  lemma {:induction false} FencedOutcomeHasNoReceipt(plan: Plan, support: set<nat>, j: nat) returns (inputs: seq<Input>)
    requires ValidPlan(plan) && Supports(plan, support, j) && Mutates(plan, j)
    ensures var s := Execute(Created(plan), inputs).store;
      && s.rows[j].status == OutcomeUnknown && EndsFailed(s.rows[j])
      && ReceiptOf(s.receipts, j, s.rows[j].attempts) == None
  {
    hide Execute, Supports, ValidPlan, Next, Grown, OnTheWay, Breaks, Accounted, Counting, Coherent, ReceiptOf;
    var w := Created(plan);
    RunReaches(plan, support, j);
    var first := Arrives(w, Run(0), support, j);
    CreatedConsistent(plan);
    RunsConsistent(w, first);
    var v := Execute(w, first);
    NotBroken(v.plan, v.store.rows, support, j, j);
    FenceOpensNone(v, support, j);
    inputs := first + Ticks(REFUSED);
    ExecuteJoins(w, first, Ticks(REFUSED));
  }

  /** A store in which step `j` is the one that crash recovery looks at, interrupted after its
      receipt was closed. */
  ghost predicate InterruptedLate(w: World, j: nat) {
    && Shaped(w) && w.pass.None? && w.store.task == Executing && Mutates(w.plan, j)
    && !ProvenReadOnly(w.plan[j]) && w.store.rows[j].status == Running
    && (forall k :: 0 <= k < j ==> w.store.rows[k].status == Completed)
    && (forall k :: j < k < |w.plan| ==> w.store.rows[k].status == Pending)
    && ReceiptOf(w.store.receipts, j, w.store.rows[j].attempts) == Some(Succeeded)
  }

  lemma QuarantineStarts(w: World, j: nat) returns (p: Pass)
    requires InterruptedLate(w, j)
    ensures Next(w, Recover) == w.(pass := Some(p))
    ensures p.control == Quarantine && p.index == j && p.rows == w.store.rows
  {
    hide Latest;
    var first := First(w.store.rows, NOT_COMPLETED);
    assert first.Some? && first.value == j;
    assert First(w.store.rows, {OutcomeUnknown}).None?;
    p := NewPass(w.store.rows, w.store.task, j, 1, None, ByRecovery).(control := Quarantine);
  }

  /** Crash recovery makes an interrupted mutation unknown and leaves a closed receipt alone. */
  lemma {:induction false} QuarantineKeepsReceipt(w: World, j: nat)
    requires InterruptedLate(w, j)
    ensures var v := Execute(w, [Recover, Tick(Proceed)]);
      && v.store.rows == w.store.rows[j := w.store.rows[j].(status := OutcomeUnknown)]
      && v.store.receipts == w.store.receipts
  {
    hide Advance, StartRecovery, ReceiptOf;
    var p := QuarantineStarts(w, j);
    var u := Next(w, Recover);
    assert [Recover, Tick(Proceed)][1..] == [Tick(Proceed)];
    ExecuteOne(u, Tick(Proceed));
    AdvanceQuarantine(u, p, Proceed);
  }

  /** Every mutation of a valid plan that can be reached with all the steps before it completed has
      a run in which it is recorded as unknown although its receipt says that it succeeded. */
  lemma {:induction false} QuarantineForgetsSuccess(plan: Plan, j: nat) returns (inputs: seq<Input>)
    requires ValidPlan(plan) && Supports(plan, Below(j), j) && Mutates(plan, j)
    ensures var s := Execute(Created(plan), inputs).store;
      && s.rows[j].status == OutcomeUnknown && !EndsFailed(s.rows[j])
      && ReceiptOf(s.receipts, j, s.rows[j].attempts) == Some(Succeeded)
  {
    hide Execute, Supports, Advance, StartRun, StartRecovery, Latest, Grown, Below, EndsFailed, Breaks;
    RunReaches(plan, Below(j), j);
    var first := Reaches(Created(plan), Run(0), Below(j), j);
    InFlightIsOpen(plan, first);
    var v := Execute(Created(plan), first);
    var done := Tick(Outcome(InTime(Fulfilled(false))));
    ExecuteOne(v, done);
    AdvanceAwait(v, v.pass.value, done.answer);
    ReceiptEnds(v, j, Succeeded);
    var u := Execute(v, [done]);
    ExecuteOne(u, Crash);
    var dead := Execute(u, [Crash]);
    assert ToolConsistent(plan[j]);
    QuarantineKeepsReceipt(dead, j);
    var last := [Recover, Tick(Proceed)];
    inputs := first + ([done] + ([Crash] + last));
    ExecuteJoins(Created(plan), first, [done] + ([Crash] + last));
    ExecuteJoins(v, [done], [Crash] + last);
    ExecuteJoins(u, [Crash], last);
    StoredRowsAgree(plan, inputs, j);
  }
}
