/** Receipt accounting over every run: each mutating invocation has its own receipt, opened
    first and finalised at most once, and the verdict that is saved is the one the receipt
    records. */
module EngineReceipts {
  import opened Options
  import opened TaskDomain
  import opened TaskEngine
  import opened EngineCoherence

  /** `e` occurs among the first `x` events. */
  ghost predicate Before(log: seq<Event>, x: nat, e: Event)
    requires x <= |log|
  {
    e in log[..x]
  }

  predicate Mutates(plan: Plan, k: nat) {
    k < |plan| && plan[k].selected == Mutation
  }

  /** The latest receipt of step `k` is the one of attempt `a`, in this status. */
  predicate LatestIs(receipts: seq<Receipt>, k: nat, a: nat, status: ReceiptStatus) {
    var at := Latest(receipts, k);
    at.Some? && receipts[at.value] == Receipt(k, a, status)
  }

  /** The receipt of attempt `n` of step `k`, if that is its latest receipt. */
  function ReceiptOf(receipts: seq<Receipt>, k: nat, n: nat): Option<ReceiptStatus> {
    var at := Latest(receipts, k);
    if at.Some? && receipts[at.value].attempt == n then Some(receipts[at.value].status) else None
  }

  // ---------------------------------------------------------------------------
  // The invariant
  // ---------------------------------------------------------------------------

  ghost predicate ReceiptsFit(plan: Plan, rows: seq<Row>, receipts: seq<Receipt>)
    requires |rows| == |plan|
  {
    && (forall x :: 0 <= x < |receipts| ==>
          Mutates(plan, receipts[x].step) && receipts[x].attempt <= rows[receipts[x].step].attempts)
    && (forall x, y :: 0 <= x < y < |receipts| && receipts[x].step == receipts[y].step ==>
          receipts[x].attempt < receipts[y].attempt)
    && (forall k :: 0 <= k < |plan| && rows[k].status == Completed && Mutates(plan, k) ==>
          LatestIs(receipts, k, rows[k].attempts, Succeeded))
  }

  ghost predicate DispatchesFit(plan: Plan, rows: seq<Row>, log: seq<Event>)
    requires |rows| == |plan|
  {
    && (forall y :: 0 <= y < |log| && log[y].Dispatched? ==>
          && log[y].step < |plan|
          && log[y].attempt <= rows[log[y].step].attempts
          && (Mutates(plan, log[y].step) ==> Before(log, y, Begun(log[y].step, log[y].attempt))))
    && (forall x, y :: 0 <= x < y < |log| && log[x].Dispatched? && log[y].Dispatched? && log[x].step == log[y].step ==>
          log[x].attempt < log[y].attempt)
  }

  ghost predicate FinishesFit(receipts: seq<Receipt>, log: seq<Event>) {
    && (forall x :: 0 <= x < |receipts| ==>
          Before(log, |log|, Begun(receipts[x].step, receipts[x].attempt)))
    && (forall y :: 0 <= y < |log| && log[y].Finished? ==>
          && log[y].outcome != Started
          && Before(log, y, Begun(log[y].step, log[y].attempt))
          && Receipt(log[y].step, log[y].attempt, log[y].outcome) in receipts)
    && (forall x, y :: 0 <= x < y < |log| && log[x].Finished? && log[y].Finished? ==>
          log[x].step != log[y].step || log[x].attempt != log[y].attempt)
  }

  /** Nothing of the current attempt is on record yet. */
  ghost predicate Unattempted(w: World, p: Pass)
    requires p.index < |p.rows|
  {
    && (forall y :: 0 <= y < |w.log| && w.log[y].Dispatched? && w.log[y].step == p.index ==>
          w.log[y].attempt < p.rows[p.index].attempts)
  }

  ghost predicate Unreceipted(w: World, p: Pass)
    requires p.index < |p.rows|
  {
    forall x :: 0 <= x < |w.store.receipts| && w.store.receipts[x].step == p.index ==>
      w.store.receipts[x].attempt < p.rows[p.index].attempts
  }

  ghost predicate PassFits(w: World, p: Pass)
    requires ShapedPass(w.plan, p)
  {
    OnStep(p.control) ==>
      var a := p.rows[p.index].attempts;
      var mutates := Mutates(w.plan, p.index);
      match p.control
      case Begin(_) => Unattempted(w, p) && Unreceipted(w, p)
      case Launch => Unattempted(w, p) && (mutates ==> LatestIs(w.store.receipts, p.index, a, Started))
      case Await => mutates ==> LatestIs(w.store.receipts, p.index, a, Started)
      case Caught(_, open) =>
        if open then LatestIs(w.store.receipts, p.index, a, Started) else mutates ==> Unreceipted(w, p)
      case Closing(v) =>
        && (v == SettleCompleted && mutates ==> LatestIs(w.store.receipts, p.index, a, Succeeded))
        && (v == SettleFailed && mutates ==> LatestIs(w.store.receipts, p.index, a, FailedKnown))
      case Settling(_) =>
        mutates ==> Unreceipted(w, p) || LatestIs(w.store.receipts, p.index, a, FailedKnown)
      case _ => true
  }

  ghost predicate Accounted(w: World)
    requires Shaped(w)
  {
    && ReceiptsFit(w.plan, w.store.rows, w.store.receipts)
    && DispatchesFit(w.plan, w.store.rows, w.log)
    && FinishesFit(w.store.receipts, w.log)
    && (w.pass.Some? ==> PassFits(w, w.pass.value))
  }

  // ---------------------------------------------------------------------------
  // Small facts about logs and receipt tables
  // ---------------------------------------------------------------------------

  lemma BeforeExtends(log: seq<Event>, ext: seq<Event>)
    ensures forall x, e :: 0 <= x <= |log| && Before(log, x, e) ==> Before(log + ext, x, e)
    ensures forall x, e :: 0 <= x <= |log| && Before(log, x, e) ==> Before(log + ext, |log + ext|, e)
  {
    forall x, e | 0 <= x <= |log| && Before(log, x, e)
      ensures Before(log + ext, x, e) && Before(log + ext, |log + ext|, e)
    {
      assert (log + ext)[..x] == log[..x];
      assert (log + ext)[..|log + ext|] == log + ext;
    }
  }

  lemma {:induction false} LatestAppends(receipts: seq<Receipt>, r: Receipt)
    ensures Latest(receipts + [r], r.step) == Some(|receipts|)
    ensures forall k :: k != r.step ==> Latest(receipts + [r], k) == Latest(receipts, k)
  {
    assert (receipts + [r])[..|receipts|] == receipts;
  }

  /** Changing a status in place does not change which receipt is the latest. */
  lemma {:induction false} LatestUpdates(receipts: seq<Receipt>, x: nat, status: ReceiptStatus)
    requires x < |receipts|
    ensures forall k :: Latest(receipts[x := receipts[x].(status := status)], k) == Latest(receipts, k)
  {
    hide Latest;
    var changed := receipts[x := receipts[x].(status := status)];
    forall k ensures Latest(changed, k) == Latest(receipts, k) {
      var a, b := Latest(changed, k), Latest(receipts, k);
      assert forall y :: 0 <= y < |receipts| ==> changed[y].step == receipts[y].step;
      if a.Some? && b.Some? {
        assert changed[a.value].step == receipts[b.value].step == k;
      }
    }
  }

  lemma ReceiptBegins(receipts: seq<Receipt>, k: nat, n: nat)
    ensures forall j, m :: j != k ==>
      ReceiptOf(receipts + [Receipt(k, n, Started)], j, m) == ReceiptOf(receipts, j, m)
  {
    hide Latest;
    LatestAppends(receipts, Receipt(k, n, Started));
  }

  /** Only an open receipt changes. */
  lemma ReceiptEnds(w: World, k: nat, to: ReceiptStatus)
    ensures var v := FinishReceipt(w, k, to);
      && (forall j, m :: j != k ==> ReceiptOf(v.store.receipts, j, m) == ReceiptOf(w.store.receipts, j, m))
      && (forall m :: ReceiptOf(v.store.receipts, k, m) ==
            if ReceiptOf(w.store.receipts, k, m) == Some(Started) then Some(to)
            else ReceiptOf(w.store.receipts, k, m))
  {
    hide Latest;
    var at := Latest(w.store.receipts, k);
    if at.Some? {
      LatestUpdates(w.store.receipts, at.value, to);
    }
  }

  lemma FinishKeeps(w: World, k: nat, to: ReceiptStatus)
    ensures var v := FinishReceipt(w, k, to);
      v.plan == w.plan && v.store == w.store.(receipts := v.store.receipts) && v.pass == w.pass
  {
    hide Latest;
  }

  // ---------------------------------------------------------------------------
  // What each kind of write does to the tables
  // ---------------------------------------------------------------------------

  lemma RowsMove(plan: Plan, before: seq<Row>, after: seq<Row>, receipts: seq<Receipt>)
    requires |before| == |after| == |plan|
    requires ReceiptsFit(plan, before, receipts)
    requires forall k :: 0 <= k < |plan| ==> before[k].attempts <= after[k].attempts
    requires forall k :: 0 <= k < |plan| && after[k].status == Completed && Mutates(plan, k) ==>
      after[k] == before[k] || LatestIs(receipts, k, after[k].attempts, Succeeded)
    ensures ReceiptsFit(plan, after, receipts)
  {
  }

  lemma DispatchesMove(plan: Plan, before: seq<Row>, after: seq<Row>, log: seq<Event>, ext: seq<Event>)
    requires |before| == |after| == |plan|
    requires DispatchesFit(plan, before, log)
    requires forall k :: 0 <= k < |plan| ==> before[k].attempts <= after[k].attempts
    requires forall x :: 0 <= x < |ext| ==> !ext[x].Dispatched?
    ensures DispatchesFit(plan, after, log + ext)
  {
    BeforeExtends(log, ext);
  }

  lemma FinishesMove(receipts: seq<Receipt>, log: seq<Event>, ext: seq<Event>)
    requires FinishesFit(receipts, log)
    requires forall x :: 0 <= x < |ext| ==> !ext[x].Finished?
    ensures FinishesFit(receipts, log + ext)
  {
    BeforeExtends(log, ext);
  }

  lemma ReceiptOpens(plan: Plan, rows: seq<Row>, receipts: seq<Receipt>, k: nat, r: Row)
    requires |rows| == |plan| && Mutates(plan, k) && r.status == Running
    requires ReceiptsFit(plan, rows, receipts)
    requires rows[k].attempts <= r.attempts
    requires forall x :: 0 <= x < |receipts| && receipts[x].step == k ==> receipts[x].attempt < r.attempts
    ensures ReceiptsFit(plan, rows[k := r], receipts + [Receipt(k, r.attempts, Started)])
  {
    LatestAppends(receipts, Receipt(k, r.attempts, Started));
  }

  lemma FinishOpens(receipts: seq<Receipt>, log: seq<Event>, k: nat, a: nat)
    requires FinishesFit(receipts, log)
    ensures FinishesFit(receipts + [Receipt(k, a, Started)], log + [Begun(k, a), Saved(k, Running)])
  {
    var ext := [Begun(k, a), Saved(k, Running)];
    FinishesMove(receipts, log, ext);
    assert (log + ext)[|log|] == Begun(k, a);
  }

  lemma ReceiptFinishes(plan: Plan, rows: seq<Row>, receipts: seq<Receipt>, x: nat, to: ReceiptStatus)
    requires |rows| == |plan| && x < |receipts|
    requires ReceiptsFit(plan, rows, receipts)
    requires receipts[x].status == Started && Latest(receipts, receipts[x].step) == Some(x)
    ensures ReceiptsFit(plan, rows, receipts[x := receipts[x].(status := to)])
  {
    LatestUpdates(receipts, x, to);
  }

  lemma FinishFinishes(plan: Plan, rows: seq<Row>, receipts: seq<Receipt>, log: seq<Event>, x: nat, to: ReceiptStatus)
    requires |rows| == |plan| && x < |receipts| && to != Started
    requires ReceiptsFit(plan, rows, receipts) && FinishesFit(receipts, log)
    requires receipts[x].status == Started
    ensures FinishesFit(receipts[x := receipts[x].(status := to)],
                        log + [Finished(receipts[x].step, receipts[x].attempt, to)])
  {
    var open := receipts[x];
    var ext := [Finished(open.step, open.attempt, to)];
    var after := receipts[x := open.(status := to)];
    BeforeExtends(log, ext);
    assert after[x] == Receipt(open.step, open.attempt, to);
    forall y | 0 <= y < |log| && log[y].Finished?
      ensures log[y].step != open.step || log[y].attempt != open.attempt
      ensures Receipt(log[y].step, log[y].attempt, log[y].outcome) in after
    {
      var z :| 0 <= z < |receipts| && receipts[z] == Receipt(log[y].step, log[y].attempt, log[y].outcome);
      assert after[z] == receipts[z];
    }
  }

  lemma DispatchAppends(plan: Plan, rows: seq<Row>, log: seq<Event>, k: nat)
    requires |rows| == |plan| && k < |plan|
    requires DispatchesFit(plan, rows, log)
    requires forall y :: 0 <= y < |log| && log[y].Dispatched? && log[y].step == k ==> log[y].attempt < rows[k].attempts
    requires Mutates(plan, k) ==> Before(log, |log|, Begun(k, rows[k].attempts))
    ensures DispatchesFit(plan, rows, log + [Dispatched(k, rows[k].attempts)])
  {
    BeforeExtends(log, [Dispatched(k, rows[k].attempts)]);
  }

  // ---------------------------------------------------------------------------
  // Every step keeps the invariant
  // ---------------------------------------------------------------------------

  /** A change that opens and finalises no receipt, invokes no tool and lowers no attempt
      counter keeps the tables consistent. */
  lemma Quiet(w: World, v: World, ext: seq<Event>)
    requires Shaped(w) && Shaped(v) && w.plan == v.plan
    requires Accounted(w)
    requires v.store.receipts == w.store.receipts
    requires v.log == w.log + ext && forall x :: 0 <= x < |ext| ==> ext[x].Saved?
    requires forall k :: 0 <= k < |w.plan| ==> w.store.rows[k].attempts <= v.store.rows[k].attempts
    requires forall k :: 0 <= k < |w.plan| && v.store.rows[k].status == Completed && Mutates(w.plan, k) ==>
      v.store.rows[k] == w.store.rows[k] || LatestIs(w.store.receipts, k, v.store.rows[k].attempts, Succeeded)
    requires v.pass.Some? ==> PassFits(v, v.pass.value)
    ensures Accounted(v)
  {
    hide ReceiptsFit, DispatchesFit, FinishesFit, PassFits;
    RowsMove(w.plan, w.store.rows, v.store.rows, w.store.receipts);
    DispatchesMove(w.plan, w.store.rows, v.store.rows, w.log, ext);
    FinishesMove(w.store.receipts, w.log, ext);
  }

  lemma BeginAccounted(w: World, p: Pass, a: Answer)
    requires Coherent(w) && Accounted(w) && w.pass == Some(p) && p.control.Begin?
    ensures Accounted(AtBegin(w, p, a))
  {
    hide ReceiptsFit, DispatchesFit, FinishesFit, StateFits, Latest;
    var v := AtBegin(w, p, a);
    if a == Proceed && Mutates(w.plan, p.index) {
      BeginOpens(w, p);
    } else if a == Proceed || a == Templated {
      if v != w {
        Quiet(w, v, [Saved(p.index, Running)]);
      }
    } else {
      Quiet(w, v, []);
    }
  }

  /** Opening the receipt of the current attempt. */
  lemma BeginOpens(w: World, p: Pass)
    requires Coherent(w) && Accounted(w) && w.pass == Some(p) && p.control.Begin? && Mutates(w.plan, p.index)
    ensures Shaped(BeginReceipt(w, p, Launch)) && Accounted(BeginReceipt(w, p, Launch))
  {
    hide ReceiptsFit, DispatchesFit, FinishesFit, StateFits, Latest;
    var r := p.rows[p.index];
    ReceiptOpens(w.plan, w.store.rows, w.store.receipts, p.index, r);
    FinishOpens(w.store.receipts, w.log, p.index, r.attempts);
    DispatchesMove(w.plan, w.store.rows, w.store.rows[p.index := r], w.log,
                   [Begun(p.index, r.attempts), Saved(p.index, Running)]);
    LatestAppends(w.store.receipts, Receipt(p.index, r.attempts, Started));
  }

  /** The common shape of the steps that only save a row or move a state. */
  lemma SaveAccounted(w: World, p: Pass, r: Row, index: nat, next: Control)
    requires Shaped(w) && Accounted(w) && w.pass == Some(p) && p.index < |w.plan|
    requires w.store.rows[p.index].attempts <= r.attempts
    requires r.status == Completed && Mutates(w.plan, p.index) ==>
      LatestIs(w.store.receipts, p.index, r.attempts, Succeeded)
    requires p.start <= index <= |w.plan| && (OnStep(next) ==> index < |w.plan|)
    requires PassFits(SaveRow(w, p, r, index, next), SaveRow(w, p, r, index, next).pass.value)
    ensures Accounted(SaveRow(w, p, r, index, next))
  {
    hide ReceiptsFit, DispatchesFit, FinishesFit, PassFits, Latest;
    Quiet(w, SaveRow(w, p, r, index, next), [Saved(p.index, r.status)]);
  }

  lemma MoveAccounted(w: World, v: World)
    requires Shaped(w) && Shaped(v) && w.plan == v.plan && Accounted(w)
    requires v.store.rows == w.store.rows && v.store.receipts == w.store.receipts && v.log == w.log
    requires v.pass.Some? ==> PassFits(v, v.pass.value)
    ensures Accounted(v)
  {
    hide ReceiptsFit, DispatchesFit, FinishesFit, PassFits, Latest;
  }

  lemma HeadAccounted(w: World, p: Pass)
    requires Coherent(w) && Accounted(w) && w.pass == Some(p) && p.control == Head
    ensures Accounted(AtHead(w, p))
  {
    hide ReceiptsFit, DispatchesFit, FinishesFit, StateFits, Latest, Breaks, Find;
    var v := AtHead(w, p);
    if p.index < |w.plan| && !Resolved(p.rows[p.index].status) && Breaks(w.plan, p.rows, p.index) {
      SaveAccounted(w, p, p.rows[p.index].(status := Cancelled), p.index + 1, Head);
    } else {
      MoveAccounted(w, v);
    }
  }

  lemma GovernAccounted(w: World, p: Pass, a: Answer)
    requires Coherent(w) && Accounted(w) && w.pass == Some(p) && p.control == Govern
    ensures Accounted(AtGovern(w, p, a))
  {
    hide ReceiptsFit, DispatchesFit, FinishesFit, StateFits, Latest;
    var v, r := AtGovern(w, p, a), p.rows[p.index];
    if a == ArgumentError {
      SaveAccounted(w, p, FailedRow(r, Failed), p.index + 1, Head);
    } else if a == Deny {
      SaveAccounted(w, p, FailedRow(r, Blocked), p.index + 1, Head);
    } else if a == NeedsApproval && p.approved != Some(p.index) {
      SaveAccounted(w, p, r.(status := PendingApproval), p.index, AskMove);
    } else if v != w {
      StartFits(w, p, v);
      MoveAccounted(w, v);
    }
  }

  /** The next attempt is not on record yet. */
  lemma StartFits(w: World, p: Pass, v: World)
    requires Coherent(w) && Accounted(w) && w.pass == Some(p) && p.control == Govern
    requires v == StartStep(w, p) && Shaped(v)
    ensures PassFits(v, v.pass.value)
  {
  }

  lemma LaunchAccounted(w: World, p: Pass, a: Answer)
    requires Coherent(w) && Accounted(w) && w.pass == Some(p) && p.control == Launch
    ensures Accounted(AtLaunch(w, p, a))
  {
    hide ReceiptsFit, DispatchesFit, StateFits, Latest;
    var v := AtLaunch(w, p, a);
    if a == Proceed {
      DispatchAppends(w.plan, w.store.rows, w.log, p.index);
      FinishesMove(w.store.receipts, w.log, [Dispatched(p.index, p.rows[p.index].attempts)]);
    } else {
      MoveAccounted(w, v);
    }
  }

  /** Finalising the receipt of the attempt in flight. */
  lemma CloseAccounted(w: World, p: Pass, to: ReceiptStatus, next: Control)
    requires Coherent(w) && Accounted(w) && w.pass == Some(p) && p.index < |w.plan|
    requires to != Started && (next.Settling? || next.Closing?)
    requires Mutates(w.plan, p.index) ==> LatestIs(w.store.receipts, p.index, p.rows[p.index].attempts, Started)
    requires next.Settling? ==> to == FailedKnown
    requires next.Closing? && next.verdict != SettleUnknown ==>
      to == if next.verdict == SettleCompleted then Succeeded else FailedKnown
    ensures Shaped(Close(w, p, to, next)) && Accounted(Close(w, p, to, next))
  {
    hide ReceiptsFit, DispatchesFit, FinishesFit, StateFits, Latest;
    var v := Close(w, p, to, next);
    if Mutates(w.plan, p.index) {
      var x := Latest(w.store.receipts, p.index).value;
      ReceiptFinishes(w.plan, w.store.rows, w.store.receipts, x, to);
      FinishFinishes(w.plan, w.store.rows, w.store.receipts, w.log, x, to);
      DispatchesMove(w.plan, w.store.rows, w.store.rows, w.log, [Finished(p.index, p.rows[p.index].attempts, to)]);
      LatestUpdates(w.store.receipts, x, to);
    } else {
      MoveAccounted(w, v);
    }
  }

  lemma AwaitAccounted(w: World, p: Pass, a: Answer)
    requires Coherent(w) && Accounted(w) && w.pass == Some(p) && p.control == Await
    ensures Accounted(AtAwait(w, p, a))
  {
    hide ReceiptsFit, DispatchesFit, FinishesFit, StateFits, Latest, Close;
    if a.Outcome? {
      match WithStepTimeout(a.race)
      case NoResult => CloseAccounted(w, p, UnknownOutcome, Closing(SettleUnknown));
      case Value(nonZero) =>
        if nonZero {
          CloseAccounted(w, p, FailedKnown, Closing(SettleFailed));
        } else {
          CloseAccounted(w, p, Succeeded, Closing(SettleCompleted));
        }
      case Threw(_) =>
        AwaitThrows(w, p, a);
    }
  }

  lemma AwaitThrows(w: World, p: Pass, a: Answer)
    requires Coherent(w) && Accounted(w) && w.pass == Some(p) && p.control == Await
    requires a.Outcome? && WithStepTimeout(a.race).Threw?
    ensures Accounted(AtAwait(w, p, a))
  {
    hide DispatchesFit, FinishesFit, StateFits, Latest;
    MoveAccounted(w, AtAwait(w, p, a));
  }

  lemma ClosingAccounted(w: World, p: Pass)
    requires Coherent(w) && Accounted(w) && w.pass == Some(p) && p.control.Closing?
    ensures Accounted(AtClosing(w, p))
  {
    hide ReceiptsFit, DispatchesFit, FinishesFit, StateFits, Latest;
    var v := p.control.verdict;
    var r := ClosedRow(p.rows[p.index], v);
    if v == SettleUnknown {
      SaveAccounted(w, p, r, p.index, FailTask);
    } else {
      SaveAccounted(w, p, r, p.index + 1, Head);
    }
  }

  lemma CaughtAccounted(w: World, p: Pass)
    requires Coherent(w) && Accounted(w) && w.pass == Some(p) && p.control.Caught?
    ensures Accounted(AtCaught(w, p))
  {
    hide ReceiptsFit, DispatchesFit, FinishesFit, StateFits, Latest, Close;
    var code := p.control.code;
    if code == EpochStale || !p.control.open {
      MoveAccounted(w, AtCaught(w, p));
    } else if code == Timeout {
      CloseAccounted(w, p, UnknownOutcome, Closing(SettleUnknown));
    } else {
      CloseAccounted(w, p, FailedKnown, Settling(code));
    }
  }

  lemma SettlingAccounted(w: World, p: Pass)
    requires Coherent(w) && Accounted(w) && w.pass == Some(p) && p.control.Settling?
    ensures Accounted(AtSettling(w, p))
  {
    hide ReceiptsFit, DispatchesFit, FinishesFit, StateFits, Latest;
    var code := p.control.code;
    var r := SettledRow(p.rows[p.index], code);
    if code == MissingVariable || code == SecurityBlock {
      SaveAccounted(w, p, r, p.index + 1, Head);
    } else {
      SaveAccounted(w, p, r, p.index, Mend(code));
    }
  }

  lemma AdvanceAccounted(w: World, a: Answer)
    requires Coherent(w) && Accounted(w) && w.pass.Some?
    ensures Accounted(Advance(w, a))
  {
    hide AtEnter, AtHead, AtGovern, AtBegin, AtLaunch, AtAwait, AtClosing, AtCaught, AtSettling;
    hide AtMend, AtDecide, AtAsk, AtEnd, AtPost, AtQuarantine, Coherent, Accounted;
    var p := w.pass.value;
    match p.control
    case Enter => EnterAccounted(w, p);
    case Head => HeadAccounted(w, p);
    case Govern => GovernAccounted(w, p, a);
    case Begin(_) => BeginAccounted(w, p, a);
    case Launch => LaunchAccounted(w, p, a);
    case Await => AwaitAccounted(w, p, a);
    case Closing(_) => ClosingAccounted(w, p);
    case Caught(_, _) => CaughtAccounted(w, p);
    case Settling(_) => SettlingAccounted(w, p);
    case Mend(_) => RepairAccounted(w, p, a);
    case Decide => RepairAccounted(w, p, a);
    case AskMove => AskAccounted(w, p);
    case AskCreate => AskAccounted(w, p);
    case AskSave => AskAccounted(w, p);
    case FailTask => EndAccounted(w, p);
    case Verify => EndAccounted(w, p);
    case Conclude => EndAccounted(w, p);
    case Post(_) => LeaveAccounted(w, p);
    case Quarantine => LeaveAccounted(w, p);
    case Broken => LeaveAccounted(w, p);
  }

  lemma EnterAccounted(w: World, p: Pass)
    requires Coherent(w) && Accounted(w) && w.pass == Some(p) && p.control == Enter
    ensures Accounted(AtEnter(w, p))
  {
    hide ReceiptsFit, DispatchesFit, FinishesFit, StateFits, Latest, HasUnknown;
    MoveAccounted(w, AtEnter(w, p));
  }

  lemma RepairAccounted(w: World, p: Pass, a: Answer)
    requires Coherent(w) && Accounted(w) && w.pass == Some(p)
    ensures p.control.Mend? ==> Accounted(AtMend(w, p))
    ensures p.control == Decide ==> Accounted(AtDecide(w, p, a))
  {
    hide ReceiptsFit, DispatchesFit, FinishesFit, StateFits, Latest, BackoffDelay;
    if p.control.Mend? {
      assert w.store.rows == p.rows;
      MoveAccounted(w, AtMend(w, p));
    } else if p.control == Decide {
      MoveAccounted(w, AtDecide(w, p, a));
    }
  }

  lemma AskAccounted(w: World, p: Pass)
    requires Coherent(w) && Accounted(w) && w.pass == Some(p)
    requires p.control == AskMove || p.control == AskCreate || p.control == AskSave
    ensures Accounted(AtAsk(w, p))
  {
    hide ReceiptsFit, DispatchesFit, FinishesFit, StateFits, Latest;
    assert w.store.rows == p.rows;
    MoveAccounted(w, AtAsk(w, p));
  }

  lemma EndAccounted(w: World, p: Pass)
    requires Coherent(w) && Accounted(w) && w.pass == Some(p)
    requires p.control == FailTask || p.control == Verify || p.control == Conclude
    ensures Accounted(AtEnd(w, p))
  {
    hide ReceiptsFit, DispatchesFit, FinishesFit, StateFits, Latest, First, CanMove;
    Quiet(w, AtEnd(w, p), []);
  }

  lemma LeaveAccounted(w: World, p: Pass)
    requires Coherent(w) && Accounted(w) && w.pass == Some(p)
    ensures p.control.Post? ==> Accounted(AtPost(w, p))
    ensures p.control == Quarantine ==> Accounted(AtQuarantine(w, p))
    ensures Accounted(w.(pass := None))
  {
    hide ReceiptsFit, DispatchesFit, FinishesFit, PassFits, StateFits, Latest;
    MoveAccounted(w, w.(pass := None));
    if p.control.Post? {
      assert w.store.rows == p.rows;
      MoveAccounted(w, AtPost(w, p));
    } else if p.control == Quarantine {
      Quiet(w, AtQuarantine(w, p), [Saved(p.index, OutcomeUnknown)]);
    }
  }

  lemma RecoveryAccounted(w: World)
    requires Coherent(w) && Accounted(w) && w.pass.None?
    ensures Shaped(StartRecovery(w)) && Accounted(StartRecovery(w))
  {
    hide ReceiptsFit, DispatchesFit, FinishesFit, HasUnknown, First;
    var v := StartRecovery(w);
    var first := First(w.store.rows, NOT_COMPLETED);
    if first.Some? && v.pass.Some? && v.pass.value.control == Quarantine {
      var k := first.value;
      var x := Latest(w.store.receipts, k);
      if x.Some? && w.store.receipts[x.value].status == Started {
        var to := UnknownOutcome;
        ReceiptFinishes(w.plan, w.store.rows, w.store.receipts, x.value, to);
        FinishFinishes(w.plan, w.store.rows, w.store.receipts, w.log, x.value, to);
        DispatchesMove(w.plan, w.store.rows, w.store.rows, w.log, [Finished(k, w.store.receipts[x.value].attempt, to)]);
      }
    }
  }

  /** Every input keeps the invariant. */
  lemma NextAccounted(w: World, i: Input)
    requires Coherent(w) && Accounted(w)
    ensures Accounted(Next(w, i))
  {
    hide Advance, StartRecovery, ReceiptsFit, DispatchesFit, FinishesFit, RunStart, RevokeAll;
    match i
    case Tick(a) => if w.pass.Some? { AdvanceAccounted(w, a); }
    case Recover => if w.pass.None? { RecoveryAccounted(w); }
    case _ =>
  }
}
