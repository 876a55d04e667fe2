/** The theorems about whole runs of the engine: every plan, every tool behaviour, every
    interleaving of commands, ticks and crashes. */
module EngineTheorems {
  import opened Options
  import opened TaskDomain
  import opened TaskEngine
  import opened EngineCoherence
  import opened EngineReceipts
  import opened EngineFinality
  import opened EnginePlaces
  import opened EngineAtMostOnce
  import opened EnginePass

  // ---------------------------------------------------------------------------
  // Attempt counters
  // ---------------------------------------------------------------------------

  function FailedCount(history: seq<Attempt>): nat {
    if |history| == 0 then 0
    else FailedCount(history[..|history| - 1]) + if history[|history| - 1].AttemptFailed? then 1 else 0
  }

  predicate CountsFailures(r: Row) {
    r.failures == FailedCount(r.history)
  }

  ghost predicate AllCount(rows: seq<Row>) {
    forall k :: 0 <= k < |rows| ==> CountsFailures(rows[k])
  }

  ghost predicate Counting(w: World) {
    AllCount(w.store.rows) && (w.pass.Some? ==> AllCount(w.pass.value.rows))
  }

  lemma RowsCount(r: Row, s: Status)
    requires CountsFailures(r)
    ensures CountsFailures(FailedRow(r, s)) && CountsFailures(CompletedRow(r)) && CountsFailures(StartedRow(r))
    ensures CountsFailures(r.(status := s))
  {
    assert (r.history + [AttemptFailed(r.attempts)])[..|r.history|] == r.history;
    assert (r.history + [AttemptCompleted(r.attempts)])[..|r.history|] == r.history;
  }

  /** The rows a step of the loop may write for the current one. */
  lemma CurrentCounts(p: Pass)
    requires p.index < |p.rows| && AllCount(p.rows)
    ensures forall s :: CountsFailures(FailedRow(p.rows[p.index], s)) && CountsFailures(p.rows[p.index].(status := s))
    ensures CountsFailures(CompletedRow(p.rows[p.index])) && CountsFailures(StartedRow(p.rows[p.index]))
  {
    forall s ensures CountsFailures(FailedRow(p.rows[p.index], s)) && CountsFailures(p.rows[p.index].(status := s)) {
      RowsCount(p.rows[p.index], s);
    }
    RowsCount(p.rows[p.index], Failed);
  }

  lemma DecidingCounts(w: World, p: Pass, a: Answer)
    requires Shaped(w) && Counting(w) && w.pass == Some(p)
    ensures p.control == Head ==> Counting(AtHead(w, p))
    ensures p.control == Govern ==> Counting(AtGovern(w, p, a))
    ensures p.control.Begin? ==> Counting(AtBegin(w, p, a))
  {
    hide CountsFailures, Breaks, CanMove, FailedRow, StartedRow;
    if p.index < |p.rows| {
      CurrentCounts(p);
    }
  }

  lemma SettlingCounts(w: World, p: Pass, a: Answer)
    requires Shaped(w) && Counting(w) && w.pass == Some(p)
    ensures p.control.Closing? ==> Counting(AtClosing(w, p))
    ensures p.control.Settling? ==> Counting(AtSettling(w, p))
    ensures p.control == Decide ==> Counting(AtDecide(w, p, a))
    ensures p.control == Quarantine ==> Counting(AtQuarantine(w, p))
  {
    hide CountsFailures, CanMove, FailedRow, CompletedRow, BackoffDelay;
    if p.index < |p.rows| {
      CurrentCounts(p);
    }
  }

  lemma AdvanceCounts(w: World, a: Answer)
    requires Shaped(w) && Counting(w) && w.pass.Some?
    ensures Counting(Advance(w, a))
  {
    hide AtHead, AtGovern, AtBegin, AtClosing, AtSettling, AtDecide, AtQuarantine;
    hide First, CanMove, Latest, AllCount;
    var p := w.pass.value;
    DecidingCounts(w, p, a);
    SettlingCounts(w, p, a);
  }

  lemma NextCounts(w: World, i: Input)
    requires Shaped(w) && Counting(w)
    ensures Counting(Next(w, i))
  {
    hide Advance, RunStart, First, CountsFailures, RevokeAll;
    if i.Tick? && w.pass.Some? {
      AdvanceCounts(w, i.answer);
    } else {
      forall k, s | 0 <= k < |w.store.rows| ensures CountsFailures(w.store.rows[k].(status := s)) {
        RowsCount(w.store.rows[k], s);
      }
    }
  }

  // ---------------------------------------------------------------------------
  // Runs
  // ---------------------------------------------------------------------------

  ghost predicate Consistent(w: World) {
    Shaped(w) && Coherent(w) && Accounted(w) && Counting(w)
  }

  lemma CreatedConsistent(plan: Plan)
    ensures Consistent(Created(plan))
    ensures Finalised(Created(plan)) && Walking(Created(plan))
  {
  }

  lemma {:induction false} RunsConsistent(w: World, inputs: seq<Input>)
    requires Consistent(w)
    ensures Consistent(Execute(w, inputs))
    decreases |inputs|
  {
    hide Coherent, Accounted, Counting, Next;
    if |inputs| > 0 {
      NextCoherent(w, inputs[0]);
      NextAccounted(w, inputs[0]);
      NextCounts(w, inputs[0]);
      RunsConsistent(Next(w, inputs[0]), inputs[1..]);
    }
  }

  lemma {:induction false} RunsFinal(w: World, inputs: seq<Input>)
    requires Shaped(w) && Coherent(w) && Finalised(w) && OpenResumes(w, inputs)
    ensures Finalised(Execute(w, inputs))
    decreases |inputs|
  {
    hide Coherent, Finalised, Next, ResumesOpen;
    if |inputs| > 0 {
      NextCoherent(w, inputs[0]);
      NextFinal(w, inputs[0]);
      RunsFinal(Next(w, inputs[0]), inputs[1..]);
    }
  }

  lemma {:induction false} RunsRecord(w: World, inputs: seq<Input>)
    requires Shaped(w) && Coherent(w) && Recorded(w.store.rows, w.log)
    ensures Recorded(Execute(w, inputs).store.rows, Execute(w, inputs).log)
    decreases |inputs|
  {
    hide Coherent, Recorded, Next;
    if |inputs| > 0 {
      NextCoherent(w, inputs[0]);
      NextRecords(w, inputs[0]);
      RunsRecord(Next(w, inputs[0]), inputs[1..]);
    }
  }

  lemma {:induction false} RunsPlaced(w: World, inputs: seq<Input>, j: nat)
    requires Shaped(w) && Coherent(w) && j < |w.plan| && ValidPlan(w.plan) && Guarded(w.plan, j) && Placed(w, j)
    ensures Placed(Execute(w, inputs), j)
    decreases |inputs|
  {
    hide Coherent, ValidPlan, Guarded, Placed, Next;
    if |inputs| > 0 {
      NextCoherent(w, inputs[0]);
      NextPlaced(w, inputs[0], j);
      RunsPlaced(Next(w, inputs[0]), inputs[1..], j);
    }
  }

  lemma {:induction false} RunsSound(w: World, inputs: seq<Input>, j: nat)
    requires Shaped(w) && Sound(w, j)
    ensures Sound(Execute(w, inputs), j)
    decreases |inputs|
  {
    hide Sound, Next;
    if |inputs| > 0 {
      NextSound(w, inputs[0], j);
      RunsSound(Next(w, inputs[0]), inputs[1..], j);
    }
  }

  lemma {:induction false} RunsWalk(w: World, inputs: seq<Input>)
    requires Shaped(w) && Coherent(w) && ValidPlan(w.plan) && Walking(w)
    ensures Walking(Execute(w, inputs))
    decreases |inputs|
  {
    hide Coherent, Walking, ValidPlan, Next;
    if |inputs| > 0 {
      NextCoherent(w, inputs[0]);
      NextWalks(w, inputs[0]);
      RunsWalk(Next(w, inputs[0]), inputs[1..]);
    }
  }

  // ---------------------------------------------------------------------------
  // The theorems
  // ---------------------------------------------------------------------------

  /** Receipt and attempt accounting, in every run of every plan. */
  lemma {:induction false} ReceiptDiscipline(plan: Plan, inputs: seq<Input>)
    ensures var w := Execute(Created(plan), inputs);
      // each mutating invocation has its own receipt, begun first, and no other invocation has it
      && (forall y :: 0 <= y < |w.log| && w.log[y].Dispatched? && Mutates(plan, w.log[y].step) ==>
            Before(w.log, y, Begun(w.log[y].step, w.log[y].attempt)))
      && (forall x, y :: 0 <= x < y < |w.log| && w.log[x].Dispatched? && w.log[y].Dispatched? ==>
            w.log[x].step != w.log[y].step || w.log[x].attempt != w.log[y].attempt)
      // a receipt is finalised once, after it was begun
      && (forall y :: 0 <= y < |w.log| && w.log[y].Finished? ==>
            Before(w.log, y, Begun(w.log[y].step, w.log[y].attempt)))
      && (forall x, y :: 0 <= x < y < |w.log| && w.log[x].Finished? && w.log[y].Finished? ==>
            w.log[x].step != w.log[y].step || w.log[x].attempt != w.log[y].attempt)
      // a mutation saved as completed has the succeeded receipt of that very attempt
      && (forall k :: 0 <= k < |plan| && Mutates(plan, k) && w.store.rows[k].status == Completed ==>
            LatestIs(w.store.receipts, k, w.store.rows[k].attempts, Succeeded))
      // the failure counter is the number of failed attempts on record
      && AllCount(w.store.rows)
  {
    hide Coherent, LatestIs, AllCount, Execute;
    CreatedConsistent(plan);
    RunsConsistent(Created(plan), inputs);
  }

  /** Inside the loop, a receipt is open whenever it is about to be finalised, and the status that
      an invoked mutation is about to be saved with agrees with its receipt: a completed one has
      succeeded, a failed one is known to have failed or never had a receipt, and an unknown one
      has an unknown receipt unless the ownership fence made it so. What the rows say once they
      are stored, after crashes and recoveries, is the matter of `EngineAgreement`. */
  lemma {:induction false} StatusAgreesWithReceipt(plan: Plan, inputs: seq<Input>, a: Answer)
    requires var w := Execute(Created(plan), inputs);
      w.pass.Some? && OnStep(w.pass.value.control) && Mutates(plan, w.pass.value.index)
    ensures var w := Execute(Created(plan), inputs);
      var p := w.pass.value;
      var k, n := p.index, p.rows[p.index].attempts;
      && (p.control == Await || (p.control.Caught? && p.control.open) ==> LatestIs(w.store.receipts, k, n, Started))
      && (p.control == Closing(SettleCompleted) ==> LatestIs(w.store.receipts, k, n, Succeeded))
      && (p.control == Closing(SettleFailed) ==> LatestIs(w.store.receipts, k, n, FailedKnown))
      && (p.control.Settling? ==> Unreceipted(w, p) || LatestIs(w.store.receipts, k, n, FailedKnown))
      && var v := Advance(w, a);
         v.pass.Some? && v.pass.value.control == Closing(SettleUnknown) && !p.control.Closing? ==>
           || (p.control.Caught? && p.control.code == EpochStale)
           || LatestIs(v.store.receipts, k, n, UnknownOutcome)
  {
    hide PassAgrees, ReceiptsFit, DispatchesFit, FinishesFit, Counting, Execute, LatestIs;
    hide Unreceipted, Advance, WithStepTimeout;
    var w := Execute(Created(plan), inputs);
    CreatedConsistent(plan);
    RunsConsistent(Created(plan), inputs);
    var p := w.pass.value;
    UnknownReceipt(w, p, a);
  }

  lemma UnknownReceipt(w: World, p: Pass, a: Answer)
    requires Shaped(w) && w.pass == Some(p) && OnStep(p.control) && Mutates(w.plan, p.index) && PassFits(w, p)
    ensures var v := Advance(w, a);
      v.pass.Some? && v.pass.value.control == Closing(SettleUnknown) && !p.control.Closing? ==>
        || (p.control.Caught? && p.control.code == EpochStale)
        || LatestIs(v.store.receipts, p.index, p.rows[p.index].attempts, UnknownOutcome)
  {
    if p.control == Await || p.control.Caught? {
      hide Advance, WithStepTimeout, Latest;
      if p.control == Await {
        AdvanceAwait(w, p, a);
      } else {
        AdvanceCaught(w, p, a);
      }
      var at := Latest(w.store.receipts, p.index);
      if at.Some? {
        LatestUpdates(w.store.receipts, at.value, UnknownOutcome);
      }
    } else {
      hide PassFits;
    }
  }

  /** An unknown outcome stops the task and a completed step is final, in every run of every
      plan whose resumptions, if any, are of steps that are not final. */
  lemma {:induction false} UnknownStopsTheTask(plan: Plan, inputs: seq<Input>)
    requires OpenResumes(Created(plan), inputs)
    ensures var w := Execute(Created(plan), inputs);
      && StopsAtUnknown(w.log)
      && CompletedIsFinal(w.log)
      && AtMostOneUnknown(w.store.rows)
      && (w.pass.Some? && w.pass.value.control.Post? && HasUnknown(w.store.rows) ==>
            w.pass.value.control.result == LoopFailed && w.store.task == TaskFailed)
  {
    hide StopsAtUnknown, CompletedIsFinal, AtMostOneUnknown, PassAgrees, Execute, Accounted, Counting;
    var w := Execute(Created(plan), inputs);
    CreatedConsistent(plan);
    RunsConsistent(Created(plan), inputs);
    RunsFinal(Created(plan), inputs);
    UnknownIsUnknown(w.store.rows);
  }

  /** A mutation in flight has an open receipt. */
  lemma {:induction false} InFlightIsOpen(plan: Plan, inputs: seq<Input>)
    requires var w := Execute(Created(plan), inputs);
      w.pass.Some? && w.pass.value.control == Await && Mutates(plan, w.pass.value.index)
    ensures var w := Execute(Created(plan), inputs);
      ReceiptOf(w.store.receipts, w.pass.value.index, w.pass.value.rows[w.pass.value.index].attempts) == Some(Started)
  {
    hide Execute, Latest, Coherent, Counting;
    CreatedConsistent(plan);
    RunsConsistent(Created(plan), inputs);
  }

  /** At most once, for a guarded mutation of any valid plan, whatever is run, resumed, recovered or
      crashed; and once it has been looked at and not skipped, all before it is completed. */
  lemma {:induction false} GuardedRunsAtMostOnce(plan: Plan, inputs: seq<Input>, j: nat)
    requires ValidPlan(plan) && Guarded(plan, j) && Mutates(plan, j)
    ensures var w := Execute(Created(plan), inputs);
      && OnceOf(w.log, j)
      && (Active(w.store.rows[j].status) ==> AllDone(w.store.rows, j))
  {
    hide Execute, Accounted, OnceOf, ValidPlan, Guarded, Placed, AllDone, RequestsFit;
    CreatedSound(plan, j);
    RunsSound(Created(plan), inputs, j);
    TouchedIsDone(Execute(Created(plan), inputs), j);
  }

  /** Every step that has been looked at has an all-completed prefix. */
  ghost predicate PrefixDone(rows: seq<Row>) {
    && (forall a, b :: 0 <= a < b < |rows| && Active(rows[b].status) ==> rows[a].status == Completed)
    && Unreconciled(rows)
  }

  /** In a chain, only waiting steps have open requests. */
  lemma ChainWaits(w: World, a: nat)
    requires Shaped(w) && SuccessChain(w.plan) && (|w.plan| > 0 ==> Placed(w, |w.plan| - 1))
    ensures ResumesOpen(w.store, a)
  {
    hide Placed;
    if ForCheckpoint(w.store, a) {
      var k := w.store.approvals[a].step;
      ChainIsGuarded(w.plan, k);
      PlacedBelow(w, |w.plan| - 1, k);
      TouchedIsDone(w, k);
      assert HasRequest(w.store.approvals, k);
      assert OpenUpTo(w.store.approvals, a, k);
    }
  }

  lemma PlacedBelow(w: World, j: nat, k: nat)
    requires Shaped(w) && k <= j < |w.plan| && Placed(w, j)
    ensures Placed(w, k)
  {
  }

  lemma {:induction false} ChainResumes(w: World, inputs: seq<Input>)
    requires Shaped(w) && Coherent(w) && SuccessChain(w.plan) && (|w.plan| > 0 ==> Placed(w, |w.plan| - 1))
    ensures OpenResumes(w, inputs)
    decreases |inputs|
  {
    hide Coherent, SuccessChain, Placed, Next, ResumesOpen;
    if |inputs| > 0 {
      if inputs[0].Resume? {
        ChainWaits(w, inputs[0].approval);
      }
      NextCoherent(w, inputs[0]);
      if |w.plan| > 0 {
        ChainIsGuarded(w.plan, |w.plan| - 1);
        ChainIsValid(w.plan);
        NextPlaced(w, inputs[0], |w.plan| - 1);
      }
      ChainResumes(Next(w, inputs[0]), inputs[1..]);
    }
  }

  lemma ChainIsValid(plan: Plan)
    requires SuccessChain(plan)
    ensures ValidPlan(plan)
  {
  }

  lemma {:induction false} ChainPrefix(plan: Plan, inputs: seq<Input>)
    requires SuccessChain(plan)
    ensures PrefixDone(Execute(Created(plan), inputs).store.rows) && OpenResumes(Created(plan), inputs)
  {
    hide Execute, SuccessChain, Placed, Accounted, Counting, OpenResumes;
    ChainIsValid(plan);
    CreatedConsistent(plan);
    if |plan| > 0 {
      var n := |plan| - 1;
      ChainIsGuarded(plan, n);
      CreatedPlaced(plan, n);
      RunsPlaced(Created(plan), inputs, n);
      PlacedIsPrefix(Execute(Created(plan), inputs), n);
    }
    ChainResumes(Created(plan), inputs);
  }

  lemma PlacedIsPrefix(w: World, n: nat)
    requires Shaped(w) && n == |w.plan| - 1 && SuccessChain(w.plan) && Placed(w, n)
    ensures PrefixDone(w.store.rows)
  {
    hide Placed, SuccessChain, AllDone, RequestsFit, Guarded;
    assert Unreconciled(w.store.rows) by {
      PlacedIsUnreconciled(w, n);
    }
    forall b | 0 <= b <= n && Active(w.store.rows[b].status) ensures AllDone(w.store.rows, b) {
      ChainIsGuarded(w.plan, b);
      PlacedBelow(w, n, b);
      TouchedIsDone(w, b);
    }
    DoneIsPrefix(w.store.rows);
  }

  lemma DoneIsPrefix(rows: seq<Row>)
    requires forall b :: 0 <= b < |rows| && Active(rows[b].status) ==> AllDone(rows, b)
    ensures forall a, b :: 0 <= a < b < |rows| && Active(rows[b].status) ==> rows[a].status == Completed
  {
  }

  lemma PlacedIsUnreconciled(w: World, j: nat)
    requires Shaped(w) && j < |w.plan| && Placed(w, j)
    ensures Unreconciled(w.store.rows)
  {
  }

  /** At most once, and final, over a success chain: every resumption is of a waiting step. */
  lemma {:induction false} ChainRunsAtMostOnce(plan: Plan, inputs: seq<Input>)
    requires SuccessChain(plan)
    ensures var w := Execute(Created(plan), inputs);
      && AtMostOnce(plan, w.log)
      && StopsAtUnknown(w.log)
      && CompletedIsFinal(w.log)
      && AtMostOneUnknown(w.store.rows)
      && PrefixDone(w.store.rows)
  {
    hide Execute, OnceOf, StopsAtUnknown, CompletedIsFinal, AtMostOneUnknown, SuccessChain, PrefixDone, OpenResumes;
    hide Guarded, AllDone, HasUnknown;
    ChainIsValid(plan);
    ChainPrefix(plan, inputs);
    UnknownStopsTheTask(plan, inputs);
    forall j | Mutates(plan, j) ensures OnceOf(Execute(Created(plan), inputs).log, j) {
      ChainIsGuarded(plan, j);
      GuardedRunsAtMostOnce(plan, inputs, j);
    }
  }

  /** The run conditions mean what they say: a pass that reaches verification has skipped
      exactly those open steps whose dependencies, as they ended, break the condition. */
  lemma {:induction false} RunConditionsHold(plan: Plan, inputs: seq<Input>)
    requires ValidPlan(plan)
    requires var w := Execute(Created(plan), inputs); w.pass.Some? && w.pass.value.control == Conclude
    ensures var p := Execute(Created(plan), inputs).pass.value;
      forall k :: 0 <= k < |plan| ==>
        if k < p.start || Resolved(p.entry[k].status) then p.rows[k] == p.entry[k]
        else
          && (p.rows[k].status == Cancelled <==> Breaks(plan, p.rows, k))
          && (p.rows[k].status == Completed || Fails(p.rows[k].status))
  {
    hide ValidPlan, Coherent, Accounted, Counting, Breaks, Execute, Counted;
    CreatedConsistent(plan);
    RunsWalk(Created(plan), inputs);
    var p := Execute(Created(plan), inputs).pass.value;
    forall k | 0 <= k < |plan|
      ensures if k < p.start || Resolved(p.entry[k].status) then p.rows[k] == p.entry[k]
        else
          && (p.rows[k].status == Cancelled <==> Breaks(plan, p.rows, k))
          && (p.rows[k].status == Completed || Fails(p.rows[k].status))
    {
      assert p.start <= k ==> Walked(plan, p.entry, p.rows, k);
    }
  }

  /** Each step of the path runs on the success of the one before it. */
  ghost predicate SuccessPath(plan: Plan, path: seq<nat>) {
    && |path| > 0
    && (forall x :: 0 <= x < |path| ==> path[x] < |plan|)
    && (forall x :: 0 < x < |path| ==>
          plan[path[x]].runWhen == OnSuccess && plan[path[x - 1]].id in plan[path[x]].deps)
  }

  /** In a pass that reaches verification, every open success-only descendant of a step that
      failed, was blocked or was skipped ends up skipped, and the pass never invoked it. */
  lemma {:induction false} FailureSkipsDescendants(plan: Plan, inputs: seq<Input>, path: seq<nat>)
    requires ValidPlan(plan) && SuccessPath(plan, path)
    requires var w := Execute(Created(plan), inputs); w.pass.Some? && w.pass.value.control == Conclude
    requires var p := Execute(Created(plan), inputs).pass.value;
      && Fails(p.rows[path[0]].status)
      && forall x :: 0 < x < |path| ==> p.start <= path[x] && !Resolved(p.entry[path[x]].status)
    ensures var p := Execute(Created(plan), inputs).pass.value;
      forall x :: 0 < x < |path| ==> p.rows[path[x]].status == Cancelled && path[x] !in p.dispatches
    decreases |path|
  {
    hide Execute, Coherent, Accounted, Counting, Counted, ValidPlan, Find;
    var p := Execute(Created(plan), inputs).pass.value;
    var n := |path| - 1;
    if n > 0 {
      FailureSkipsDescendants(plan, inputs, path[..n]);
      RunConditionsHold(plan, inputs);
      FindsItself(plan, path[n - 1]);
      assert n > 1 ==> p.rows[path[..n][n - 1]].status == Cancelled;
      assert DependencyFails(plan, p.rows, plan[path[n - 1]].id);
      assert Breaks(plan, p.rows, path[n]);
      CreatedConsistent(plan);
      RunsWalk(Created(plan), inputs);
      forall x | 0 < x < |path| ensures p.rows[path[x]].status == Cancelled && path[x] !in p.dispatches {
        if x < n {
          assert path[..n][x] == path[x];
        }
      }
    }
  }

  /** The bounds of a pass: tool invocations, recoveries and total back-off. */
  lemma {:induction false} PassIsBounded(plan: Plan, inputs: seq<Input>)
    requires ValidPlan(plan)
    ensures var w := Execute(Created(plan), inputs);
      w.pass.Some? && w.pass.value.control != Quarantine && w.pass.value.control != Broken ==>
        var p := w.pass.value;
        && p.recoveries <= p.maxRecovery
        && |p.dispatches| <= |plan| - p.start + p.maxRecovery
        && p.backoff <= 1000 * (Pow2(p.recoveries) - 1)
        && p.backoff <= 30000 * p.recoveries
  {
    hide ValidPlan, Coherent, Accounted, Counting, Execute, WalkedAll, AtIndex, DispatchedTaken, BackoffDelay;
    CreatedConsistent(plan);
    RunsWalk(Created(plan), inputs);
    var w := Execute(Created(plan), inputs);
    if w.pass.Some? {
      BackoffBound(w.pass.value.recoveries);
    }
  }

  lemma {:induction false} BackoffBound(r: nat)
    ensures TotalBackoff(r) <= 1000 * (Pow2(r) - 1)
    ensures TotalBackoff(r) <= 30000 * r
  {
    if r > 0 {
      BackoffBound(r - 1);
    }
  }

  /** No pass attempts an illegal transition unless it was entered from a state no pass can be
      entered from, and it hands back its result paired with the stored state. */
  lemma {:induction false} TransitionsAreLegal(plan: Plan, inputs: seq<Input>)
    ensures var w := Execute(Created(plan), inputs);
      w.pass.Some? ==>
        var p := w.pass.value;
        && (p.control == Broken ==> DeadState(p.entryState))
        && (p.control == Enter ==> (DeadState(p.state) <==> Advance(w, Proceed).pass == Some(p.(control := Broken))))
        && (p.control.Post? ==> p.state == w.store.task == PairedState(p.control.result))
  {
    hide Accounted, Counting, Execute, PassAgrees, First;
    CreatedConsistent(plan);
    RunsConsistent(Created(plan), inputs);
  }

  /** The caller's last save keeps the pairing of result and stored state, except that crash
      recovery stores the result's own name: it does so exactly when the pass did not pause for
      an approval. */
  lemma {:induction false} RecoveryStoresItsState(plan: Plan, inputs: seq<Input>)
    requires var w := Execute(Created(plan), inputs); w.pass.Some? && w.pass.value.control.Post?
    ensures var w := Execute(Created(plan), inputs);
      var p := w.pass.value;
      var v := Next(w, Tick(Proceed));
      && v.pass.None?
      && (v.store.task == PairedState(p.control.result) <==>
            p.caller != ByRecovery || p.control.result != LoopPendingApproval)
      && (v.store.task == NotAState <==>
            p.caller == ByRecovery && p.control.result == LoopPendingApproval)
  {
    hide Accounted, Counting, Execute, PassAgrees, First;
    CreatedConsistent(plan);
    RunsConsistent(Created(plan), inputs);
  }

  /** Neither a legal state nor an open one: nothing can be started from here. */
  ghost predicate Stuck(w: World) {
    && Shaped(w)
    && (w.store.task == NotAState || w.store.task == TaskCancelled)
    && (w.pass.Some? ==>
          && (w.pass.value.control == Enter || w.pass.value.control == Broken)
          && w.pass.value.state == NotAState)
  }

  /** No event, and no row and no receipt written. */
  ghost predicate Untouched(w: World, v: World) {
    v.log == w.log && v.store.rows == w.store.rows && v.store.receipts == w.store.receipts
  }

  lemma NextStuck(w: World, i: Input)
    requires Stuck(w)
    ensures Stuck(Next(w, i)) && Untouched(w, Next(w, i))
  {
    hide First, RevokeAll, AtHead, AtGovern, AtBegin, AtLaunch, AtAwait, AtClosing, AtCaught, AtSettling;
    hide AtMend, AtDecide, AtAsk, AtEnd, AtPost, AtQuarantine;
  }

  /** A task paused by crash recovery is lost: whatever is granted, resumed, run, recovered or
      cancelled from then on, no tool is invoked for it again and its steps and receipts stay. Only
      its requests and, if it is cancelled, its state change. */
  lemma {:induction false} PausedRecoveryIsLost(w: World, inputs: seq<Input>)
    requires Shaped(w) && w.pass.None? && w.store.task == NotAState
    ensures Untouched(w, Execute(w, inputs)) && Execute(w, inputs).store.task in {NotAState, TaskCancelled}
  {
    StuckStays(w, inputs);
  }

  lemma {:induction false} StuckStays(w: World, inputs: seq<Input>)
    requires Stuck(w)
    ensures Untouched(w, Execute(w, inputs)) && Execute(w, inputs).store.task in {NotAState, TaskCancelled}
    decreases |inputs|
  {
    hide Next;
    if |inputs| > 0 {
      NextStuck(w, inputs[0]);
      StuckStays(Next(w, inputs[0]), inputs[1..]);
    }
  }
}
