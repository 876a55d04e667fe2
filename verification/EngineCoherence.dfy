/** What the memory of a pass has to do with the store, at every point where the process may
    die. These facts hold of every plan, every tool behaviour and every interleaving. */
module EngineCoherence {
  import opened Options
  import opened TaskDomain
  import opened TaskEngine

  /** The current row as the pass took it over: the stored one, or that one reset to pending
      because it is being retried, resumed with an approval, or was a stale read. */
  ghost predicate TakenOver(p: Pass, spec: StepSpec, q: Row, r: Row) {
    || q == r
    || (q == r.(status := Pending) &&
        (p.approved == Some(p.index) || r.status == Failed || (r.status == Running && ProvenReadOnly(spec))))
  }

  /** The row has been marked running in memory, and perhaps in the store. */
  ghost predicate InFlight(q: Row, r: Row) {
    q.status == Running && (q == r || q == StartedRow(r))
  }

  ghost predicate CurrentAgrees(p: Pass, spec: StepSpec, q: Row, r: Row) {
    match p.control
    case Enter => TakenOver(p, spec, q, r)
    case Head => TakenOver(p, spec, q, r)
    case Govern => TakenOver(p, spec, q, r) && !Resolved(q.status)
    case Begin(templated) => if templated then q == r && q.status == Running else q == StartedRow(r)
    case Launch => q == r && q.status == Running
    case Await => q == r && q.status == Running
    case Closing(_) => InFlight(q, r)
    case Caught(_, open) => InFlight(q, r) && (open ==> q == r && spec.selected == Mutation)
    case Settling(_) => InFlight(q, r)
    case Mend(_) => q == r && q.status == Failed
    case Decide => q == r && q.status == Failed
    case AskMove => q == r && q.status == PendingApproval
    case AskCreate => q == r && q.status == PendingApproval
    case AskSave => q == r && q.status == PendingApproval
    case FailTask => TakenOver(p, spec, q, r)
    case Verify => false
    case Conclude => false
    case Post(_) => q == r
    case Quarantine => q == r && q.status == Running && !ProvenReadOnly(spec)
    case Broken => true
  }

  /** Memory and store agree on every step but the current one. */
  ghost predicate PassAgrees(plan: Plan, s: Store, p: Pass)
    requires ShapedPass(plan, p) && |s.rows| == |plan|
  {
    && (forall k :: 0 <= k < |plan| && k != p.index ==> p.rows[k] == s.rows[k])
    && (p.index < |plan| ==> CurrentAgrees(p, plan[p.index], p.rows[p.index], s.rows[p.index]))
  }

  /** The states from which no pass can be entered. */
  predicate DeadState(s: TaskState) {
    s == TaskCompleted || s == TaskCancelled || s == NotAState
  }

  function PairedState(r: Result): TaskState {
    match r
    case LoopCompleted => TaskCompleted
    case LoopFailed => TaskFailed
    case LoopPendingApproval => WaitingApproval
  }

  /** The task states a pass can be in, at each point. */
  predicate StateAt(c: Control, s: TaskState) {
    match c
    case Head => s == Executing || s == Recovering
    case Verify => s == Executing || s == Recovering
    case Decide => s == Recovering
    case AskCreate => s == WaitingApproval
    case AskSave => s == WaitingApproval
    case Conclude => s == Verifying
    case Post(r) => s == PairedState(r)
    case _ => s == Executing
  }

  ghost predicate StateFits(s: Store, p: Pass) {
    if p.control == Enter then p.state == p.entryState
    else if p.control == Broken then DeadState(p.entryState)
    else if p.control == Quarantine then true
    else !DeadState(p.entryState) && s.task == p.state && StateAt(p.control, p.state)
  }

  ghost predicate Coherent(w: World) {
    && Shaped(w)
    && (w.pass.Some? ==> PassAgrees(w.plan, w.store, w.pass.value) && StateFits(w.store, w.pass.value))
  }

  lemma EnterCoherent(w: World, p: Pass)
    requires Coherent(w) && w.pass == Some(p) && p.control == Enter
    ensures Coherent(AtEnter(w, p))
  {
  }

  lemma HeadCoherent(w: World, p: Pass)
    requires Coherent(w) && w.pass == Some(p) && p.control == Head
    ensures Coherent(AtHead(w, p))
  {
    hide CanMove, Breaks;
    LegalMoves();
  }

  lemma GovernCoherent(w: World, p: Pass, a: Answer)
    requires Coherent(w) && w.pass == Some(p) && p.control == Govern
    ensures Coherent(AtGovern(w, p, a))
  {
  }

  lemma BeginCoherent(w: World, p: Pass, a: Answer)
    requires Coherent(w) && w.pass == Some(p) && p.control.Begin?
    ensures Coherent(AtBegin(w, p, a))
  {
  }

  lemma LaunchCoherent(w: World, p: Pass, a: Answer)
    requires Coherent(w) && w.pass == Some(p) && p.control == Launch
    ensures Coherent(AtLaunch(w, p, a))
  {
  }

  /** Finalising a receipt leaves the rows as they are. */
  lemma CloseCoherent(w: World, p: Pass, to: ReceiptStatus, v: Verdict)
    requires Coherent(w) && w.pass == Some(p) && p.control == Await
    ensures Coherent(Close(w, p, to, Closing(v)))
  {
    hide Latest;
  }

  lemma AwaitCoherent(w: World, p: Pass, a: Answer)
    requires Coherent(w) && w.pass == Some(p) && p.control == Await
    ensures Coherent(AtAwait(w, p, a))
  {
    hide Close, WithStepTimeout;
    if a.Outcome? {
      match WithStepTimeout(a.race)
      case NoResult => CloseCoherent(w, p, UnknownOutcome, SettleUnknown);
      case Value(nonZero) =>
        if nonZero {
          CloseCoherent(w, p, FailedKnown, SettleFailed);
        } else {
          CloseCoherent(w, p, Succeeded, SettleCompleted);
        }
      case Threw(_) =>
    }
  }

  lemma ClosingCoherent(w: World, p: Pass)
    requires Coherent(w) && w.pass == Some(p) && p.control.Closing?
    ensures Coherent(AtClosing(w, p))
  {
  }

  lemma CaughtCoherent(w: World, p: Pass)
    requires Coherent(w) && w.pass == Some(p) && p.control.Caught?
    ensures Coherent(AtCaught(w, p))
  {
  }

  lemma SettlingCoherent(w: World, p: Pass)
    requires Coherent(w) && w.pass == Some(p) && p.control.Settling?
    ensures Coherent(AtSettling(w, p))
  {
  }

  lemma MendCoherent(w: World, p: Pass)
    requires Coherent(w) && w.pass == Some(p) && p.control.Mend?
    ensures Coherent(AtMend(w, p))
  {
    hide CanMove;
    LegalMoves();
  }

  lemma DecideCoherent(w: World, p: Pass, a: Answer)
    requires Coherent(w) && w.pass == Some(p) && p.control == Decide
    ensures Coherent(AtDecide(w, p, a))
  {
    hide CanMove, BackoffDelay, RecoveryDecision;
    LegalMoves();
  }

  /** The transitions the loop makes are in the table. */
  lemma LegalMoves()
    ensures CanMove(Executing, Executing) && CanMove(Executing, WaitingApproval) && CanMove(Executing, Recovering)
    ensures CanMove(Executing, Verifying) && CanMove(Executing, TaskFailed) && CanMove(Recovering, Executing)
    ensures CanMove(WaitingApproval, WaitingApproval)
    ensures CanMove(Verifying, TaskFailed) && CanMove(Verifying, TaskCompleted)
  {
  }

  lemma AskMoveCoherent(w: World, p: Pass)
    requires Coherent(w) && w.pass == Some(p) && p.control == AskMove
    ensures Coherent(AtAsk(w, p))
  {
    hide CanMove;
    LegalMoves();
    assert w.store.rows == p.rows;
  }

  lemma AskCreateCoherent(w: World, p: Pass)
    requires Coherent(w) && w.pass == Some(p) && p.control == AskCreate
    ensures Coherent(AtAsk(w, p))
  {
    hide CanMove;
  }

  lemma AskSaveCoherent(w: World, p: Pass)
    requires Coherent(w) && w.pass == Some(p) && p.control == AskSave
    ensures Coherent(AtAsk(w, p))
  {
    hide CanMove;
    LegalMoves();
    assert w.store.rows == p.rows;
  }

  lemma FailCoherent(w: World, p: Pass)
    requires Coherent(w) && w.pass == Some(p) && p.control == FailTask
    ensures Coherent(AtEnd(w, p))
  {
    hide CanMove, First;
    LegalMoves();
    assert p.state == Executing;
  }

  lemma VerifyCoherent(w: World, p: Pass)
    requires Coherent(w) && w.pass == Some(p) && p.control == Verify
    ensures Coherent(AtEnd(w, p))
  {
    hide CanMove, First;
    LegalMoves();
    assert p.state == Executing || p.state == Recovering;
  }

  lemma ConcludesAtEnd(w: World, p: Pass)
    requires Coherent(w) && w.pass == Some(p) && p.control == Conclude
    ensures p.state == Verifying && p.index == |w.plan| && w.store.rows == p.rows
  {
  }

  lemma ConcludeCoherent(w: World, p: Pass)
    requires Coherent(w) && w.pass == Some(p) && p.control == Conclude
    ensures Coherent(AtEnd(w, p))
  {
    hide CanMove, First, CurrentAgrees;
    LegalMoves();
    ConcludesAtEnd(w, p);
  }

  lemma PostCoherent(w: World, p: Pass)
    requires Coherent(w) && w.pass == Some(p)
    ensures p.control.Post? ==> Coherent(AtPost(w, p))
    ensures p.control == Quarantine ==> Coherent(AtQuarantine(w, p))
    ensures Coherent(w.(pass := None))
  {
  }

  lemma AdvanceCoherent(w: World, a: Answer)
    requires Coherent(w) && Shaped(w) && w.pass.Some?
    ensures Coherent(Advance(w, a))
  {
    hide AtEnter, AtHead, AtGovern, AtBegin, AtLaunch, AtAwait, AtClosing, AtCaught, AtSettling;
    hide AtMend, AtDecide, AtAsk, AtEnd, AtPost, AtQuarantine;
    hide Coherent;
    var p := w.pass.value;
    match p.control
    case Enter => EnterCoherent(w, p);
    case Head => HeadCoherent(w, p);
    case Govern => GovernCoherent(w, p, a);
    case Begin(_) => BeginCoherent(w, p, a);
    case Launch => LaunchCoherent(w, p, a);
    case Await => AwaitCoherent(w, p, a);
    case Closing(_) => ClosingCoherent(w, p);
    case Caught(_, _) => CaughtCoherent(w, p);
    case Settling(_) => SettlingCoherent(w, p);
    case Mend(_) => MendCoherent(w, p);
    case Decide => DecideCoherent(w, p, a);
    case AskMove => AskMoveCoherent(w, p);
    case AskCreate => AskCreateCoherent(w, p);
    case AskSave => AskSaveCoherent(w, p);
    case FailTask => FailCoherent(w, p);
    case Verify => VerifyCoherent(w, p);
    case Conclude => ConcludeCoherent(w, p);
    case Post(_) => PostCoherent(w, p);
    case Quarantine => PostCoherent(w, p);
    case Broken => PostCoherent(w, p);
  }

  lemma TurnCoherent(w: World, a: Answer)
    requires Coherent(w) && Shaped(w) && w.pass.Some?
    ensures Coherent(Turn(w, a))
  {
    hide Advance, PassAgrees;
    AdvanceCoherent(w, a);
    NotedCoherent(Advance(w, a), Turn(w, a));
  }

  /** Checkpoints and their loss do not matter. */
  lemma NotedCoherent(v: World, r: World)
    requires Coherent(v) && r == v.(store := v.store.(checkpoint := r.store.checkpoint), telemetry := r.telemetry)
    ensures Coherent(r)
  {
  }

  lemma RunCoherent(w: World, m: nat)
    requires Shaped(w) && w.pass.None?
    ensures Coherent(StartRun(w, m))
  {
    hide RunStart;
  }

  lemma RecoveryCoherent(w: World)
    requires Shaped(w) && w.pass.None?
    ensures Coherent(StartRecovery(w))
  {
    hide First, HasUnknown, FinishReceipt, Coherent;
    var v, first := StartRecovery(w), First(w.store.rows, NOT_COMPLETED);
    if v.pass.None? {
      RestingCoherent(v);
    } else {
      FinishKeepsRows(w, first.value);
      StartedCoherent(v, v.pass.value);
    }
  }

  lemma RestingCoherent(w: World)
    requires Shaped(w) && w.pass.None?
    ensures Coherent(w)
  {
  }

  /** A pass that was just started. */
  lemma StartedCoherent(w: World, p: Pass)
    requires Shaped(w) && w.pass == Some(p) && p.index < |w.plan| && (p.control == Enter || p.control == Quarantine)
    requires p.control == Enter ==> p.state == p.entryState
    requires forall k :: 0 <= k < |w.plan| && k != p.index ==> p.rows[k] == w.store.rows[k]
    requires CurrentAgrees(p, w.plan[p.index], p.rows[p.index], w.store.rows[p.index])
    ensures Coherent(w)
  {
    hide CurrentAgrees;
  }

  lemma FinishKeepsRows(w: World, k: nat)
    ensures var v := FinishReceipt(w, k, UnknownOutcome);
      v.plan == w.plan && v.store.rows == w.store.rows && v.store.task == w.store.task && v.pass == w.pass
  {
    hide Latest;
  }

  lemma ResumeCoherent(w: World, a: nat, m: nat)
    requires Shaped(w) && w.pass.None?
    ensures Coherent(StartResume(w, a, m))
  {
  }

  /** Every input keeps the invariant. */
  lemma NextCoherent(w: World, i: Input)
    requires Coherent(w)
    ensures Coherent(Next(w, i))
  {
    hide Advance, StartRun, StartRecovery, StartResume, RevokeAll;
    if w.pass.Some? {
      if i.Tick? {
        AdvanceCoherent(w, i.answer);
      }
    } else {
      match i
      case Run(m) => RunCoherent(w, m);
      case Recover => RecoveryCoherent(w);
      case Resume(a, m) => ResumeCoherent(w, a, m);
      case _ =>
    }
  }

  // ---------------------------------------------------------------------------
  // `Advance`, one control at a time
  // ---------------------------------------------------------------------------

  lemma AdvanceEnter(w: World, p: Pass, a: Answer)
    requires Shaped(w) && w.pass == Some(p) && p.control == Enter
    ensures Advance(w, a) == AtEnter(w, p)
  {
    hide AtEnter;
  }

  lemma AdvanceHead(w: World, p: Pass, a: Answer)
    requires Shaped(w) && w.pass == Some(p) && p.control == Head
    ensures Advance(w, a) == AtHead(w, p)
  {
    hide AtHead;
  }

  lemma AdvanceGovern(w: World, p: Pass, a: Answer)
    requires Shaped(w) && w.pass == Some(p) && p.control == Govern
    ensures Advance(w, a) == AtGovern(w, p, a)
  {
    hide AtGovern;
  }

  lemma AdvanceBegin(w: World, p: Pass, a: Answer)
    requires Shaped(w) && w.pass == Some(p) && p.control.Begin?
    ensures Advance(w, a) == AtBegin(w, p, a)
  {
    hide AtBegin;
  }

  lemma AdvanceLaunch(w: World, p: Pass, a: Answer)
    requires Shaped(w) && w.pass == Some(p) && p.control == Launch
    ensures Advance(w, a) == AtLaunch(w, p, a)
  {
    hide AtLaunch;
  }

  lemma AdvanceAwait(w: World, p: Pass, a: Answer)
    requires Shaped(w) && w.pass == Some(p) && p.control == Await
    ensures Advance(w, a) == AtAwait(w, p, a)
  {
    hide AtAwait;
  }

  lemma AdvanceClosing(w: World, p: Pass, a: Answer)
    requires Shaped(w) && w.pass == Some(p) && p.control.Closing?
    ensures Advance(w, a) == AtClosing(w, p)
  {
    hide AtClosing;
  }

  lemma AdvanceCaught(w: World, p: Pass, a: Answer)
    requires Shaped(w) && w.pass == Some(p) && p.control.Caught?
    ensures Advance(w, a) == AtCaught(w, p)
  {
    hide AtCaught;
  }

  lemma AdvanceSettling(w: World, p: Pass, a: Answer)
    requires Shaped(w) && w.pass == Some(p) && p.control.Settling?
    ensures Advance(w, a) == AtSettling(w, p)
  {
    hide AtSettling;
  }

  lemma AdvanceMend(w: World, p: Pass, a: Answer)
    requires Shaped(w) && w.pass == Some(p) && p.control.Mend?
    ensures Advance(w, a) == AtMend(w, p)
  {
    hide AtMend;
  }

  lemma AdvanceDecide(w: World, p: Pass, a: Answer)
    requires Shaped(w) && w.pass == Some(p) && p.control == Decide
    ensures Advance(w, a) == AtDecide(w, p, a)
  {
    hide AtDecide;
  }

  lemma AdvanceAsk(w: World, p: Pass, a: Answer)
    requires Shaped(w) && w.pass == Some(p) && (p.control == AskMove || p.control == AskCreate || p.control == AskSave)
    ensures Advance(w, a) == AtAsk(w, p)
  {
    hide AtAsk;
  }

  lemma AdvanceEnd(w: World, p: Pass, a: Answer)
    requires Shaped(w) && w.pass == Some(p) && (p.control == FailTask || p.control == Verify || p.control == Conclude)
    ensures Advance(w, a) == AtEnd(w, p)
  {
    hide AtEnd;
  }

  lemma AdvancePost(w: World, p: Pass, a: Answer)
    requires Shaped(w) && w.pass == Some(p) && p.control.Post?
    ensures Advance(w, a) == AtPost(w, p)
  {
    hide AtPost;
  }

  lemma AdvanceQuarantine(w: World, p: Pass, a: Answer)
    requires Shaped(w) && w.pass == Some(p) && p.control == Quarantine
    ensures Advance(w, a) == AtQuarantine(w, p)
  {
    hide AtQuarantine;
  }

  lemma AdvanceBroken(w: World, p: Pass, a: Answer)
    requires Shaped(w) && w.pass == Some(p) && p.control == Broken
    ensures Advance(w, a) == w.(pass := None)
  {
  }
}
