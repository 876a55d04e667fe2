/** An unknown outcome stops the task and a completed step is final: over every run, nothing is
    invoked after an outcome became unknown, and no completed step is invoked again. */
module EngineFinality {
  import opened Options
  import opened TaskDomain
  import opened TaskEngine
  import opened EngineCoherence

  ghost predicate NoUnknown(rows: seq<Row>) {
    forall k :: 0 <= k < |rows| ==> rows[k].status != OutcomeUnknown
  }

  ghost predicate AtMostOneUnknown(rows: seq<Row>) {
    forall a, b :: 0 <= a < b < |rows| && rows[a].status == OutcomeUnknown ==> rows[b].status != OutcomeUnknown
  }

  predicate Final(s: Status) {
    s == Completed || s == OutcomeUnknown
  }

  // ---------------------------------------------------------------------------
  // The properties of the log
  // ---------------------------------------------------------------------------

  /** No tool is invoked once an outcome has become unknown. */
  ghost predicate StopsAtUnknown(log: seq<Event>) {
    forall x, y :: 0 <= x < y < |log| && log[x].Saved? && log[x].status == OutcomeUnknown ==> !log[y].Dispatched?
  }

  /** A step saved as completed is never invoked again. */
  ghost predicate CompletedIsFinal(log: seq<Event>) {
    forall x, y :: 0 <= x < y < |log| && log[x].Saved? && log[x].status == Completed && log[y].Dispatched? ==>
      log[x].step != log[y].step
  }

  // ---------------------------------------------------------------------------
  // The invariant
  // ---------------------------------------------------------------------------

  ghost predicate LogFinal(rows: seq<Row>, log: seq<Event>) {
    && (forall x :: 0 <= x < |log| && log[x].Saved? && Final(log[x].status) ==>
          log[x].step < |rows| && rows[log[x].step].status == log[x].status)
    && StopsAtUnknown(log)
    && CompletedIsFinal(log)
  }

  ghost predicate PassFinal(rows: seq<Row>, p: Pass)
    requires |p.rows| == |rows|
  {
    && (p.index < |rows| && p.rows[p.index] != rows[p.index] ==> !Final(rows[p.index].status))
    && match p.control
       case Enter => NoUnknown(p.rows) ==> NoUnknown(rows)
       case FailTask => true
       case Broken => true
       case Post(r) => r == LoopFailed || NoUnknown(rows)
       case _ => NoUnknown(rows) && NoUnknown(p.rows)
  }

  ghost predicate Finalised(w: World)
    requires Shaped(w)
  {
    && AtMostOneUnknown(w.store.rows)
    && LogFinal(w.store.rows, w.log)
    && (w.pass.Some? ==> PassFinal(w.store.rows, w.pass.value))
  }

  // ---------------------------------------------------------------------------
  // What each kind of write does
  // ---------------------------------------------------------------------------

  lemma UnknownIsUnknown(rows: seq<Row>)
    ensures HasUnknown(rows) <==> !NoUnknown(rows)
  {
  }

  /** Rows that are final stay; the log gains nothing or a receipt event. */
  lemma LogMoves(before: seq<Row>, after: seq<Row>, log: seq<Event>, ext: seq<Event>)
    requires |before| == |after|
    requires LogFinal(before, log)
    requires forall k :: 0 <= k < |before| && before[k].status != after[k].status ==> !Final(before[k].status)
    requires forall x :: 0 <= x < |ext| ==>
      !ext[x].Dispatched? &&
      (ext[x].Saved? && Final(ext[x].status) ==>
         ext[x].step < |after| && after[ext[x].step].status == ext[x].status)
    ensures LogFinal(after, log + ext)
  {
  }

  lemma LogDispatches(rows: seq<Row>, log: seq<Event>, k: nat, a: nat)
    requires LogFinal(rows, log) && NoUnknown(rows)
    requires k < |rows| && rows[k].status == Running
    ensures LogFinal(rows, log + [Dispatched(k, a)])
  {
  }

  lemma SaveFinal(w: World, p: Pass, r: Row, index: nat, next: Control)
    requires Coherent(w) && Finalised(w) && w.pass == Some(p) && p.index < |w.plan|
    requires !Final(w.store.rows[p.index].status)
    requires NoUnknown(w.store.rows) && NoUnknown(p.rows)
    requires p.index <= index <= |w.plan| && (OnStep(next) ==> index < |w.plan|)
    requires r.status == OutcomeUnknown ==> next == FailTask
    requires next != Enter && !next.Post?
    requires index != p.index ==> index == p.index + 1
    ensures Finalised(SaveRow(w, p, r, index, next))
  {
    hide LogFinal, StateFits;
    LogMoves(w.store.rows, w.store.rows[p.index := r], w.log, [Saved(p.index, r.status)]);
  }

  /** A move between controls that leaves the log alone. */
  lemma MoveFinal(w: World, v: World)
    requires Shaped(w) && Shaped(v) && Finalised(w) && v.plan == w.plan && v.log == w.log
    requires forall k :: 0 <= k < |w.plan| && w.store.rows[k].status != v.store.rows[k].status ==>
      !Final(w.store.rows[k].status) && !Final(v.store.rows[k].status)
    requires v.pass.Some? ==> PassFinal(v.store.rows, v.pass.value)
    ensures Finalised(v)
  {
    hide LogFinal, PassFinal;
    LogMoves(w.store.rows, v.store.rows, w.log, []);
    assert w.log + [] == w.log;
  }

  // ---------------------------------------------------------------------------
  // Every step keeps the invariant
  // ---------------------------------------------------------------------------

  lemma EnterFinal(w: World, p: Pass)
    requires Coherent(w) && Finalised(w) && w.pass == Some(p) && p.control == Enter
    ensures Finalised(AtEnter(w, p))
  {
    hide LogFinal, StateFits, First;
    UnknownIsUnknown(p.rows);
    MoveFinal(w, AtEnter(w, p));
  }

  lemma HeadFinal(w: World, p: Pass)
    requires Coherent(w) && Finalised(w) && w.pass == Some(p) && p.control == Head
    ensures Finalised(AtHead(w, p))
  {
    hide LogFinal, StateFits, Breaks, Find;
    if p.index < |w.plan| && !Resolved(p.rows[p.index].status) && Breaks(w.plan, p.rows, p.index) {
      SaveFinal(w, p, p.rows[p.index].(status := Cancelled), p.index + 1, Head);
    } else {
      MoveFinal(w, AtHead(w, p));
    }
  }

  lemma GovernFinal(w: World, p: Pass, a: Answer)
    requires Coherent(w) && Finalised(w) && w.pass == Some(p) && p.control == Govern
    ensures Finalised(AtGovern(w, p, a))
  {
    hide LogFinal, StateFits;
    var v, r := AtGovern(w, p, a), p.rows[p.index];
    if a == ArgumentError {
      SaveFinal(w, p, FailedRow(r, Failed), p.index + 1, Head);
    } else if a == Deny {
      SaveFinal(w, p, FailedRow(r, Blocked), p.index + 1, Head);
    } else if a == NeedsApproval && p.approved != Some(p.index) {
      SaveFinal(w, p, r.(status := PendingApproval), p.index, AskMove);
    } else {
      MoveFinal(w, v);
    }
  }

  lemma BeginFinal(w: World, p: Pass, a: Answer)
    requires Coherent(w) && Finalised(w) && w.pass == Some(p) && p.control.Begin?
    ensures Finalised(AtBegin(w, p, a))
  {
    hide LogFinal, StateFits;
    var v, r := AtBegin(w, p, a), p.rows[p.index];
    if a == Proceed && w.plan[p.index].selected == Mutation {
      LogMoves(w.store.rows, v.store.rows, w.log, [Begun(p.index, r.attempts), Saved(p.index, r.status)]);
    } else if a == Proceed {
      SaveFinal(w, p, r, p.index, Launch);
    } else if a == Templated {
      SaveFinal(w, p, r, p.index, Begin(true));
    } else {
      MoveFinal(w, v);
    }
  }

  lemma LaunchFinal(w: World, p: Pass, a: Answer)
    requires Coherent(w) && Finalised(w) && w.pass == Some(p) && p.control == Launch
    ensures Finalised(AtLaunch(w, p, a))
  {
    hide LogFinal, StateFits;
    if a == Proceed {
      LogDispatches(w.store.rows, w.log, p.index, p.rows[p.index].attempts);
    } else {
      MoveFinal(w, AtLaunch(w, p, a));
    }
  }

  lemma CloseFinal(w: World, p: Pass, to: ReceiptStatus, next: Control)
    requires Coherent(w) && Finalised(w) && w.pass == Some(p) && p.index < |w.plan|
    requires p.control == Await || p.control.Caught?
    requires next.Settling? || next.Closing?
    ensures Shaped(Close(w, p, to, next)) && Finalised(Close(w, p, to, next))
  {
    hide LogFinal, StateFits, Latest;
    var v := Close(w, p, to, next);
    assert v.log == w.log + v.log[|w.log|..];
    LogMoves(w.store.rows, w.store.rows, w.log, v.log[|w.log|..]);
  }

  lemma FlightFinal(w: World, p: Pass, a: Answer)
    requires Coherent(w) && Finalised(w) && w.pass == Some(p)
    ensures p.control == Await ==> Finalised(AtAwait(w, p, a))
    ensures p.control.Caught? ==> Finalised(AtCaught(w, p))
  {
    hide LogFinal, StateFits, Close;
    if p.control == Await && a.Outcome? {
      match WithStepTimeout(a.race)
      case NoResult => CloseFinal(w, p, UnknownOutcome, Closing(SettleUnknown));
      case Value(nonZero) =>
        CloseFinal(w, p, FailedKnown, Closing(SettleFailed));
        CloseFinal(w, p, Succeeded, Closing(SettleCompleted));
      case Threw(_) => MoveFinal(w, AtAwait(w, p, a));
    } else if p.control.Caught? {
      if p.control.code == EpochStale || !p.control.open {
        MoveFinal(w, AtCaught(w, p));
      } else {
        CloseFinal(w, p, UnknownOutcome, Closing(SettleUnknown));
        CloseFinal(w, p, FailedKnown, Settling(p.control.code));
      }
    }
  }

  lemma ClosingFinal(w: World, p: Pass)
    requires Coherent(w) && Finalised(w) && w.pass == Some(p)
    ensures p.control.Closing? ==> Finalised(AtClosing(w, p))
    ensures p.control.Settling? ==> Finalised(AtSettling(w, p))
  {
    hide LogFinal, StateFits;
    if p.control.Closing? {
      var v := p.control.verdict;
      var r := ClosedRow(p.rows[p.index], v);
      if v == SettleUnknown {
        SaveFinal(w, p, r, p.index, FailTask);
      } else {
        SaveFinal(w, p, r, p.index + 1, Head);
      }
    } else if p.control.Settling? {
      var code := p.control.code;
      var r := SettledRow(p.rows[p.index], code);
      if code == MissingVariable || code == SecurityBlock {
        SaveFinal(w, p, r, p.index + 1, Head);
      } else {
        SaveFinal(w, p, r, p.index, Mend(code));
      }
    }
  }

  lemma RepairFinal(w: World, p: Pass, a: Answer)
    requires Coherent(w) && Finalised(w) && w.pass == Some(p)
    ensures p.control.Mend? ==> Finalised(AtMend(w, p))
    ensures p.control == Decide ==> Finalised(AtDecide(w, p, a))
  {
    hide LogFinal, StateFits, BackoffDelay, CanMove, RecoveryDecision;
    if p.control.Mend? {
      assert w.store.rows == p.rows;
      MoveFinal(w, AtMend(w, p));
    } else if p.control == Decide {
      MoveFinal(w, AtDecide(w, p, a));
    }
  }

  lemma AskFinal(w: World, p: Pass)
    requires Coherent(w) && Finalised(w) && w.pass == Some(p)
    requires p.control == AskMove || p.control == AskCreate || p.control == AskSave
    ensures Finalised(AtAsk(w, p))
  {
    hide LogFinal, StateFits;
    assert w.store.rows == p.rows;
    MoveFinal(w, AtAsk(w, p));
  }

  lemma EndFinal(w: World, p: Pass)
    requires Coherent(w) && Finalised(w) && w.pass == Some(p)
    requires p.control == FailTask || p.control == Verify || p.control == Conclude
    ensures Finalised(AtEnd(w, p))
  {
    hide LogFinal, StateFits, First, CanMove;
    if p.control == FailTask {
      MoveFinal(w, AtEnd(w, p));
    } else {
      assert w.store.rows == p.rows;
      MoveFinal(w, AtEnd(w, p));
    }
  }

  lemma LeaveFinal(w: World, p: Pass)
    requires Coherent(w) && Finalised(w) && w.pass == Some(p)
    ensures p.control.Post? ==> Finalised(AtPost(w, p))
    ensures p.control == Quarantine ==> Finalised(AtQuarantine(w, p))
    ensures Finalised(w.(pass := None))
  {
    hide LogFinal, StateFits;
    if p.control.Post? {
      assert w.store.rows == p.rows;
    } else if p.control == Quarantine {
      LogMoves(w.store.rows, AtQuarantine(w, p).store.rows, w.log, [Saved(p.index, OutcomeUnknown)]);
    }
  }

  lemma AdvanceFinal(w: World, a: Answer)
    requires Coherent(w) && Finalised(w) && w.pass.Some?
    ensures Finalised(Advance(w, a))
  {
    hide AtEnter, AtHead, AtGovern, AtBegin, AtLaunch, AtAwait, AtClosing, AtCaught, AtSettling;
    hide AtMend, AtDecide, AtAsk, AtEnd, AtPost, AtQuarantine, Coherent, Finalised;
    var p := w.pass.value;
    match p.control
    case Enter => EnterFinal(w, p);
    case Head => HeadFinal(w, p);
    case Govern => GovernFinal(w, p, a);
    case Begin(_) => BeginFinal(w, p, a);
    case Launch => LaunchFinal(w, p, a);
    case Await => FlightFinal(w, p, a);
    case Closing(_) => ClosingFinal(w, p);
    case Caught(_, _) => FlightFinal(w, p, a);
    case Settling(_) => ClosingFinal(w, p);
    case Mend(_) => RepairFinal(w, p, a);
    case Decide => RepairFinal(w, p, a);
    case AskMove => AskFinal(w, p);
    case AskCreate => AskFinal(w, p);
    case AskSave => AskFinal(w, p);
    case FailTask => EndFinal(w, p);
    case Verify => EndFinal(w, p);
    case Conclude => EndFinal(w, p);
    case Post(_) => LeaveFinal(w, p);
    case Quarantine => LeaveFinal(w, p);
    case Broken => LeaveFinal(w, p);
  }

  lemma RecoveryFinal(w: World)
    requires Coherent(w) && Finalised(w) && w.pass.None?
    ensures Finalised(StartRecovery(w))
  {
    hide LogFinal, First, Latest;
    UnknownIsUnknown(w.store.rows);
    var v := StartRecovery(w);
    assert v.log == w.log + v.log[|w.log|..];
    LogMoves(w.store.rows, v.store.rows, w.log, v.log[|w.log|..]);
  }

  /** The approval is granted, and for the step of the latest checkpoint. */
  predicate ForCheckpoint(s: Store, a: nat) {
    && a < |s.approvals| && s.approvals[a].status == Granted
    && s.approvals[a].step < |s.rows| && s.checkpoint == Some(s.approvals[a].step)
  }

  /** The approval, if it can be resumed, belongs to a step that is not final. */
  predicate ResumesOpen(s: Store, a: nat) {
    ForCheckpoint(s, a) ==> !Final(s.rows[s.approvals[a].step].status)
  }

  /** Every resumption of the run is of a step that is not final at that point. */
  predicate OpenResumes(w: World, inputs: seq<Input>)
    requires Shaped(w)
    decreases |inputs|
  {
    |inputs| > 0 ==>
      && (inputs[0].Resume? ==> ResumesOpen(w.store, inputs[0].approval))
      && OpenResumes(Next(w, inputs[0]), inputs[1..])
  }

  lemma ResumeFinal(w: World, a: nat, m: nat)
    requires Coherent(w) && Finalised(w) && w.pass.None?
    requires ResumesOpen(w.store, a)
    ensures Finalised(StartResume(w, a, m))
  {
    hide LogFinal;
    var v := StartResume(w, a, m);
    if v.pass.Some? {
      var p := v.pass.value;
      forall k | 0 <= k < |w.plan| && NoUnknown(p.rows)
        ensures w.store.rows[k].status != OutcomeUnknown
      {
        assert k != p.index ==> p.rows[k] == w.store.rows[k];
      }
    }
  }

  /** Every input keeps the invariant, provided no approval is resumed for a final step. */
  lemma NextFinal(w: World, i: Input)
    requires Coherent(w) && Finalised(w)
    requires i.Resume? ==> ResumesOpen(w.store, i.approval)
    ensures Finalised(Next(w, i))
  {
    hide Advance, StartRecovery, LogFinal, RevokeAll, First;
    match i
    case Tick(a) => if w.pass.Some? { AdvanceFinal(w, a); }
    case Recover => if w.pass.None? { RecoveryFinal(w); }
    case Run(m) => UnknownIsUnknown(w.store.rows);
    case Resume(a, m) => if w.pass.None? { ResumeFinal(w, a, m); }
    case _ =>
  }

  // ---------------------------------------------------------------------------
  // Final rows are on record
  // ---------------------------------------------------------------------------

  /** A row that is completed or unknown was saved so. */
  ghost predicate Recorded(rows: seq<Row>, log: seq<Event>) {
    forall k :: 0 <= k < |rows| && Final(rows[k].status) ==> Saved(k, rows[k].status) in log
  }

  lemma RecordMoves(before: seq<Row>, after: seq<Row>, log: seq<Event>, ext: seq<Event>)
    requires |before| == |after| && Recorded(before, log)
    requires forall k :: 0 <= k < |after| && Final(after[k].status) ==>
      before[k].status == after[k].status || Saved(k, after[k].status) in ext
    ensures Recorded(after, log + ext)
  {
  }

  /** Memory holds no final row that the store does not. */
  lemma FinalAgrees(w: World, p: Pass)
    requires Coherent(w) && w.pass == Some(p) && p.control != Broken
    ensures forall k :: 0 <= k < |w.plan| && Final(p.rows[k].status) ==> w.store.rows[k].status == p.rows[k].status
  {
  }

  lemma SavesRecord(w: World, p: Pass, a: Answer)
    requires Coherent(w) && w.pass == Some(p) && Recorded(w.store.rows, w.log)
    ensures p.control == Head ==> Recorded(AtHead(w, p).store.rows, AtHead(w, p).log)
    ensures p.control == Govern ==> Recorded(AtGovern(w, p, a).store.rows, AtGovern(w, p, a).log)
    ensures p.control.Begin? ==> Recorded(AtBegin(w, p, a).store.rows, AtBegin(w, p, a).log)
    ensures p.control.Closing? ==> Recorded(AtClosing(w, p).store.rows, AtClosing(w, p).log)
    ensures p.control.Settling? ==> Recorded(AtSettling(w, p).store.rows, AtSettling(w, p).log)
  {
    hide PassAgrees, StateFits, Breaks;
  }

  /** A write of the whole plan, or of none of it. */
  lemma PlanRecords(w: World, p: Pass, v: World)
    requires Coherent(w) && w.pass == Some(p) && p.control != Broken && Recorded(w.store.rows, w.log)
    requires v.log == w.log && (v.store.rows == p.rows || v.store.rows == w.store.rows)
    ensures Recorded(v.store.rows, v.log)
  {
    FinalAgrees(w, p);
    hide Coherent;
    RecordMoves(w.store.rows, v.store.rows, w.log, []);
    assert w.log + [] == w.log;
  }

  lemma WholePlansRecord(w: World, p: Pass)
    requires Coherent(w) && w.pass == Some(p) && Recorded(w.store.rows, w.log)
    ensures p.control.Mend? ==> Recorded(AtMend(w, p).store.rows, AtMend(w, p).log)
    ensures p.control == AskMove || p.control == AskCreate || p.control == AskSave ==>
      Recorded(AtAsk(w, p).store.rows, AtAsk(w, p).log)
    ensures p.control == FailTask || p.control == Verify || p.control == Conclude ==>
      Recorded(AtEnd(w, p).store.rows, AtEnd(w, p).log)
    ensures p.control.Post? ==> Recorded(AtPost(w, p).store.rows, AtPost(w, p).log)
  {
    hide PassAgrees, StateFits, First, CanMove, Recorded;
    if p.control.Mend? {
      PlanRecords(w, p, AtMend(w, p));
    } else if p.control == AskMove || p.control == AskCreate || p.control == AskSave {
      PlanRecords(w, p, AtAsk(w, p));
    } else if p.control == FailTask || p.control == Verify || p.control == Conclude {
      PlanRecords(w, p, AtEnd(w, p));
    } else if p.control.Post? {
      PlanRecords(w, p, AtPost(w, p));
    }
  }

  lemma QuarantineRecords(w: World, p: Pass)
    requires Coherent(w) && w.pass == Some(p) && Recorded(w.store.rows, w.log) && p.control == Quarantine
    ensures Recorded(AtQuarantine(w, p).store.rows, AtQuarantine(w, p).log)
  {
    FinalAgrees(w, p);
    hide PassAgrees, StateFits;
    RecordMoves(w.store.rows, AtQuarantine(w, p).store.rows, w.log, [Saved(p.index, OutcomeUnknown)]);
  }

  lemma FlightsRecord(w: World, p: Pass, a: Answer)
    requires Shaped(w) && w.pass == Some(p) && Recorded(w.store.rows, w.log)
    ensures p.control == Enter ==> Recorded(AtEnter(w, p).store.rows, AtEnter(w, p).log)
    ensures p.control == Launch ==> Recorded(AtLaunch(w, p, a).store.rows, AtLaunch(w, p, a).log)
    ensures p.control == Await ==> Recorded(AtAwait(w, p, a).store.rows, AtAwait(w, p, a).log)
    ensures p.control.Caught? ==> Recorded(AtCaught(w, p).store.rows, AtCaught(w, p).log)
    ensures p.control == Decide ==> Recorded(AtDecide(w, p, a).store.rows, AtDecide(w, p, a).log)
  {
    hide First, CanMove, Latest, BackoffDelay;
  }

  lemma AdvanceRecords(w: World, a: Answer)
    requires Coherent(w) && w.pass.Some? && Recorded(w.store.rows, w.log)
    ensures Recorded(Advance(w, a).store.rows, Advance(w, a).log)
  {
    hide AtEnter, AtHead, AtGovern, AtBegin, AtLaunch, AtAwait, AtClosing, AtCaught, AtSettling;
    hide AtMend, AtDecide, AtAsk, AtEnd, AtPost, AtQuarantine, Recorded, PassAgrees, StateFits;
    var p := w.pass.value;
    SavesRecord(w, p, a);
    WholePlansRecord(w, p);
    FlightsRecord(w, p, a);
    if p.control == Quarantine {
      QuarantineRecords(w, p);
    }
  }

  /** Every input keeps final rows on record. */
  lemma NextRecords(w: World, i: Input)
    requires Coherent(w) && Recorded(w.store.rows, w.log)
    ensures Recorded(Next(w, i).store.rows, Next(w, i).log)
  {
    hide Advance, First, RevokeAll, Latest, RunStart, HasUnknown, PassAgrees, StateFits;
    if i.Tick? && w.pass.Some? {
      AdvanceRecords(w, i.answer);
    }
  }
}
