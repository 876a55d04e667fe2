/** Where a pass can stand. A step is guarded when crash recovery, a second run and a resumption can
    never bring a pass to it while a step before it is not completed. These facts hold of every
    valid plan, every tool behaviour and every interleaving. */
module EnginePlaces {
  import opened Options
  import opened TaskDomain
  import opened TaskEngine
  import opened EngineCoherence
  import opened EngineFinality

  // ---------------------------------------------------------------------------
  // Guarded steps
  // ---------------------------------------------------------------------------

  /** The first step, and every step that runs only on success. */
  predicate OnSpine(plan: Plan, i: nat)
    requires i < |plan|
  {
    i == 0 || plan[i].runWhen == OnSuccess
  }

  /** No step strictly between runs only on success. */
  ghost predicate LaxBetween(plan: Plan, i: nat, s: nat)
    requires s <= |plan|
  {
    forall k :: i < k < s ==> plan[k].runWhen != OnSuccess
  }

  /** Step `j` is the first or runs only on success, and it and every step before it depend on all
      the steps back to the nearest one that runs only on success. */
  ghost predicate Guarded(plan: Plan, j: nat) {
    && j < |plan| && OnSpine(plan, j)
    && forall i, s :: 0 <= i < s <= j && LaxBetween(plan, i, s) ==> plan[i].id in plan[s].deps
  }

  /** The nearest step before `i` on the spine. */
  function SpineBefore(plan: Plan, i: nat): (r: nat)
    requires 0 < i <= |plan|
    ensures r < i && OnSpine(plan, r) && LaxBetween(plan, r, i)
  {
    if OnSpine(plan, i - 1) then i - 1 else SpineBefore(plan, i - 1)
  }

  // ---------------------------------------------------------------------------
  // The invariant
  // ---------------------------------------------------------------------------

  /** Neither waiting nor skipped. */
  predicate Active(s: Status) {
    s != Pending && s != Cancelled
  }

  predicate Settled(s: Status) {
    s == Completed || Fails(s)
  }

  ghost predicate AllDone(rows: seq<Row>, n: nat)
    requires n <= |rows|
  {
    forall k :: 0 <= k < n ==> rows[k].status == Completed
  }

  predicate Open(a: Approval) {
    a.status == Asked || a.status == Granted
  }

  /** An approval was asked for the step, at some time. */
  ghost predicate HasRequest(approvals: seq<Approval>, k: nat) {
    exists a :: 0 <= a < |approvals| && approvals[a].step == k
  }

  ghost predicate Touched(s: Store, k: nat)
    requires k < |s.rows|
  {
    s.rows[k].status != Pending || HasRequest(s.approvals, k)
  }

  /** A spine step that later steps may follow: all before it is completed, or it was skipped, for
      good. */
  ghost predicate Passed(s: Store, i: nat)
    requires i < |s.rows|
  {
    if s.rows[i].status == Cancelled then !HasRequest(s.approvals, i) else AllDone(s.rows, i)
  }

  /** No spine step up to `i` was skipped. */
  ghost predicate Live(plan: Plan, rows: seq<Row>, i: nat)
    requires i < |plan| == |rows|
  {
    forall c :: 0 <= c <= i && OnSpine(plan, c) ==> rows[c].status != Cancelled
  }

  /** Everything looked at, from `i` on, came after `i`. */
  ghost predicate Behind(s: Store, i: nat)
    requires i < |s.rows|
  {
    forall k :: i <= k < |s.rows| && Touched(s, k) ==> Passed(s, i)
  }

  /** The block of steps before `k` is settled. */
  ghost predicate BlockSettled(plan: Plan, rows: seq<Row>, k: nat)
    requires k <= |plan| == |rows|
  {
    forall h :: 0 <= h < k && LaxBetween(plan, h, k) ==> Settled(rows[h].status)
  }

  /** No interrupted pass: crash recovery does not look at the task. */
  predicate Quiet(t: TaskState) {
    t != Executing && t != Recovering && t != Verifying
  }

  ghost predicate OpenUpTo(approvals: seq<Approval>, a: nat, i: nat) {
    a < |approvals| && Open(approvals[a]) && approvals[a].step <= i
  }

  /** An open request for a step up to `i` is the only one, for a waiting step with a settled block
      before it, and nothing but its resumption can be going on before `i`. */
  ghost predicate RequestsFit(plan: Plan, s: Store, i: nat)
    requires i < |plan| == |s.rows|
  {
    && (forall a: nat :: OpenUpTo(s.approvals, a, i) ==>
          && s.rows[s.approvals[a].step].status == PendingApproval
          && BlockSettled(plan, s.rows, s.approvals[a].step)
          && (s.approvals[a].step < i ==> Quiet(s.task)))
    && (forall a: nat, b: nat :: OpenUpTo(s.approvals, a, i) && OpenUpTo(s.approvals, b, i) ==> a == b)
  }

  predicate Standing(c: Control) {
    c != Quarantine && c != Broken
  }

  ghost predicate PassBehind(s: Store, p: Pass, i: nat)
    requires i < |s.rows|
  {
    Standing(p.control) ==>
      && (i < p.index ==> Passed(s, i))
      && (i == p.index && OnStep(p.control) ==> AllDone(s.rows, i) && s.rows[i].status != Cancelled)
  }

  /** A pass before `i`, or at it: the block before its step is settled, no request is open but its
      own, and its step was not completed when it was taken over. */
  ghost predicate PassAhead(plan: Plan, s: Store, p: Pass, i: nat)
    requires i < |plan| == |s.rows| == |p.rows|
  {
    Standing(p.control) && p.index <= i ==>
      && BlockSettled(plan, s.rows, p.index)
      && (forall a: nat :: OpenUpTo(s.approvals, a, i) ==>
            (p.control == AskSave || p.control.Post?) && s.approvals[a].step == p.index)
      && (p.rows[p.index] != s.rows[p.index] ==> s.rows[p.index].status != Completed)
  }

  ghost predicate PlacedAt(w: World, i: nat)
    requires Shaped(w) && i < |w.plan|
  {
    && Behind(w.store, i)
    && (w.pass.Some? ==> PassBehind(w.store, w.pass.value, i))
    && (Live(w.plan, w.store.rows, i) ==>
          && RequestsFit(w.plan, w.store, i)
          && (w.pass.Some? ==> PassAhead(w.plan, w.store, w.pass.value, i)))
  }

  ghost predicate Unreconciled(rows: seq<Row>) {
    forall k :: 0 <= k < |rows| ==> rows[k].status != ReconciledSucceeded && rows[k].status != ReconciledFailed
  }

  ghost predicate Placed(w: World, j: nat)
    requires Shaped(w) && j < |w.plan|
  {
    && (forall i :: 0 <= i <= j && OnSpine(w.plan, i) ==> PlacedAt(w, i))
    && Unreconciled(w.store.rows)
    && (w.pass.Some? && w.pass.value.approved.Some? ==> HasRequest(w.store.approvals, w.pass.value.approved.value))
  }

  // ---------------------------------------------------------------------------
  // Small facts
  // ---------------------------------------------------------------------------

  lemma {:induction false} FindsItself(plan: Plan, k: nat)
    requires ValidPlan(plan) && k < |plan|
    ensures Find(plan, plan[k].id) == Some(k)
  {
  }

  lemma FirstHasNoDeps(plan: Plan)
    requires ValidPlan(plan) && |plan| > 0
    ensures |plan[0].deps| == 0
  {
    var d := if |plan[0].deps| > 0 then plan[0].deps[0] else 0;
    assert |plan[0].deps| > 0 ==> d in plan[0].deps;
    assert Find(plan, d).Some? ==> Find(plan, d).value >= 0;
  }

  /** A completed prefix breaks nothing on the spine. */
  lemma DoneIsUnbroken(plan: Plan, rows: seq<Row>, i: nat)
    requires ValidPlan(plan) && |rows| == |plan| && i < |plan| && OnSpine(plan, i) && AllDone(rows, i)
    ensures !Breaks(plan, rows, i)
  {
    FirstHasNoDeps(plan);
  }

  /** A step of the block of an unbroken spine step does not fail. */
  lemma NotFailing(plan: Plan, rows: seq<Row>, i: nat, h: nat, j: nat)
    requires ValidPlan(plan) && Guarded(plan, j) && h < i <= j && OnSpine(plan, i) && LaxBetween(plan, h, i)
    requires |rows| == |plan| && !Breaks(plan, rows, i)
    ensures !Fails(rows[h].status)
  {
    FindsItself(plan, h);
    assert plan[h].id in plan[i].deps;
    assert DependencyFails(plan, rows, plan[h].id) == Fails(rows[h].status);
  }

  /** Over a completed prefix the spine is live. */
  lemma DoneIsLive(plan: Plan, rows: seq<Row>, b: nat, i: nat)
    requires b < i < |plan| == |rows| && LaxBetween(plan, b, i) && AllDone(rows, b)
    requires rows[b].status != Cancelled && rows[i].status != Cancelled
    ensures Live(plan, rows, i)
  {
  }

  /** A spine step of a guarded plan that is not broken, behind a settled block and spine steps that
      were passed, has only completed steps before it. `rows` is what the pass holds in memory. */
  lemma UnbrokenIsDone(plan: Plan, s: Store, rows: seq<Row>, i: nat, j: nat)
    requires ValidPlan(plan) && Guarded(plan, j) && i <= j < |plan| && OnSpine(plan, i)
    requires |s.rows| == |rows| == |plan| && forall h :: 0 <= h < i ==> rows[h] == s.rows[h]
    requires forall c :: 0 <= c < i && OnSpine(plan, c) ==> Passed(s, c)
    requires s.rows[i].status != Cancelled
    requires Live(plan, s.rows, i) ==> BlockSettled(plan, s.rows, i)
    requires !Breaks(plan, rows, i)
    ensures AllDone(s.rows, i)
  {
    hide ValidPlan, Breaks, Guarded, Live;
    if i > 0 {
      var b := SpineBefore(plan, i);
      NotFailing(plan, rows, i, b, j);
      assert Passed(s, b);
      DoneIsLive(plan, s.rows, b, i);
      forall h | b <= h < i ensures s.rows[h].status == Completed {
        NotFailing(plan, rows, i, h, j);
        assert Settled(s.rows[h].status);
      }
    }
  }

  // ---------------------------------------------------------------------------
  // What each kind of write does
  // ---------------------------------------------------------------------------

  /** Rewriting the row of step `x`. */
  lemma Rewritten(plan: Plan, s: Store, t: Store, x: nat, q: Row, i: nat)
    requires i < |plan| == |s.rows| && x < |plan| && OnSpine(plan, i)
    requires t.rows == s.rows[x := q] && t.approvals == s.approvals
    requires Behind(s, i)
    requires OnSpine(plan, x) && x <= i && s.rows[x].status == Cancelled ==> q.status == Cancelled
    requires i < x && q.status != Pending ==> Passed(s, i)
    requires i == x && q.status == Cancelled ==> !HasRequest(s.approvals, i)
    requires i == x && Active(q.status) ==> AllDone(s.rows, i)
    requires x < i && Live(plan, s.rows, i) ==> s.rows[x].status != Completed
    ensures Behind(t, i)
    ensures Live(plan, t.rows, i) ==> Live(plan, s.rows, i)
    ensures i != x && Passed(s, i) ==> Passed(t, i)
    ensures i == x && q.status != Pending ==> Passed(t, i)
  {
    assert forall c :: 0 <= c < |plan| && c != x ==> t.rows[c] == s.rows[c];
    if i != x && Passed(s, i) && s.rows[i].status != Cancelled && x < i {
      assert s.rows[x].status == Completed;
      assert Live(plan, s.rows, i);
    }
    forall k | i <= k < |t.rows| && Touched(t, k) ensures Passed(t, i) {
      if k != x || q.status == Pending {
        assert Touched(s, k);
      }
    }
  }

  /** Moving on, with the rows and requests as they are. */
  lemma Moved(w: World, v: World, i: nat)
    requires Shaped(w) && Shaped(v) && i < |w.plan| && v.plan == w.plan && PlacedAt(w, i)
    requires v.store.rows == w.store.rows && v.store.approvals == w.store.approvals
    requires v.store.task == w.store.task || Quiet(v.store.task) ||
      (Live(w.plan, w.store.rows, i) ==>
         forall a: nat :: OpenUpTo(w.store.approvals, a, i) ==> w.store.approvals[a].step == i)
    requires v.pass.Some? ==> PassBehind(v.store, v.pass.value, i)
    requires v.pass.Some? && Live(w.plan, w.store.rows, i) ==> PassAhead(v.plan, v.store, v.pass.value, i)
    ensures PlacedAt(v, i)
  {
    hide Live, BlockSettled, PassAhead, PassBehind, AllDone;
    assert forall k :: 0 <= k < |w.plan| ==> Touched(v.store, k) == Touched(w.store, k);
    assert Passed(v.store, i) == Passed(w.store, i);
  }

  /** What saving the current row asks for. */
  ghost predicate Savable(w: World, p: Pass, r: Row, index: nat, next: Control, j: nat)
    requires Shaped(w) && w.pass == Some(p) && p.index < |w.plan| && j < |w.plan|
  {
    var s := w.store;
    && Standing(p.control) && p.control != AskSave && !p.control.Post?
    && p.rows[p.index].status != Completed
    && r.status != Pending && r.status != ReconciledSucceeded && r.status != ReconciledFailed
    && (OnSpine(w.plan, p.index) && p.index <= j ==>
          && s.rows[p.index].status != Cancelled
          && (if r.status == Cancelled then !HasRequest(s.approvals, p.index) else AllDone(s.rows, p.index)))
    && (if index == p.index then
          (OnStep(next) || next == FailTask) && next != Quarantine && next != AskSave && r.status != Cancelled
        else
          index == p.index + 1 && next == Head && Settled(r.status))
  }

  lemma BlockGrows(plan: Plan, before: seq<Row>, after: seq<Row>, k: nat)
    requires k < |plan| == |before| == |after| && BlockSettled(plan, before, k)
    requires forall h :: 0 <= h < k ==> after[h] == before[h]
    requires Settled(after[k].status)
    ensures BlockSettled(plan, after, k + 1)
  {
    forall h | 0 <= h < k + 1 && LaxBetween(plan, h, k + 1) ensures Settled(after[h].status) {
      if h < k {
        assert LaxBetween(plan, h, k);
      }
    }
  }

  lemma BlockStays(plan: Plan, before: seq<Row>, after: seq<Row>, k: nat)
    requires k <= |plan| == |before| == |after| && BlockSettled(plan, before, k)
    requires forall h :: 0 <= h < k ==> after[h] == before[h]
    ensures BlockSettled(plan, after, k)
  {
  }

  /** The requests up to `i`, when a row is rewritten. */
  lemma SavedRequests(w: World, p: Pass, t: Store, i: nat)
    requires Shaped(w) && i < |w.plan| && w.pass == Some(p) && p.index < |w.plan|
    requires Standing(p.control) && p.control != AskSave && !p.control.Post?
    requires RequestsFit(w.plan, w.store, i) && PassAhead(w.plan, w.store, p, i)
    requires |t.rows| == |w.plan| && t.approvals == w.store.approvals && t.task == w.store.task
    requires forall h :: 0 <= h < |w.plan| && h != p.index ==> t.rows[h] == w.store.rows[h]
    ensures RequestsFit(w.plan, t, i)
  {
    hide BlockSettled;
    forall a: nat | OpenUpTo(t.approvals, a, i) ensures BlockSettled(w.plan, t.rows, t.approvals[a].step) {
      assert OpenUpTo(w.store.approvals, a, i);
      assert i < p.index;
      BlockStays(w.plan, w.store.rows, t.rows, t.approvals[a].step);
    }
  }

  lemma SavedAhead(w: World, p: Pass, r: Row, index: nat, next: Control, i: nat)
    requires Coherent(w) && i < |w.plan| && w.pass == Some(p) && p.index < |w.plan|
    requires Standing(p.control) && p.control != AskSave && !p.control.Post?
    requires PassAhead(w.plan, w.store, p, i)
    requires index == p.index || (index == p.index + 1 && Settled(r.status))
    ensures var v := SaveRow(w, p, r, index, next); PassAhead(w.plan, v.store, v.pass.value, i)
  {
    hide BlockSettled, CurrentAgrees, StateFits;
    var v := SaveRow(w, p, r, index, next);
    if index <= i {
      if index == p.index {
        BlockStays(w.plan, w.store.rows, v.store.rows, index);
      } else {
        BlockGrows(w.plan, w.store.rows, v.store.rows, p.index);
      }
    }
  }

  /** Saving the current row. */
  lemma SavedAt(w: World, p: Pass, r: Row, index: nat, next: Control, j: nat, i: nat)
    requires Coherent(w) && j < |w.plan| && Placed(w, j) && w.pass == Some(p) && p.index < |w.plan|
    requires i <= j && OnSpine(w.plan, i) && Savable(w, p, r, index, next, j)
    ensures var v := SaveRow(w, p, r, index, next); Shaped(v) && PlacedAt(v, i)
  {
    hide Live, BlockSettled, CurrentAgrees, StateFits, AllDone, HasRequest;
    var v := SaveRow(w, p, r, index, next);
    var x := p.index;
    assert PlacedAt(w, i);
    Rewritten(w.plan, w.store, v.store, x, r, i);
    if Live(w.plan, v.store.rows, i) {
      SavedRequests(w, p, v.store, i);
      SavedAhead(w, p, r, index, next, i);
    }
  }

  // ---------------------------------------------------------------------------
  // Every step of a pass keeps the invariant
  // ---------------------------------------------------------------------------

  /** What the steps of a pass start from. */
  ghost predicate Sited(w: World, p: Pass, j: nat, i: nat) {
    && Shaped(w) && Coherent(w) && j < |w.plan| && ValidPlan(w.plan) && Guarded(w.plan, j) && Placed(w, j)
    && w.pass == Some(p) && i <= j && OnSpine(w.plan, i)
  }

  /** While a pass runs, no request for a step before `i` is open. */
  lemma NoneBefore(w: World, p: Pass, j: nat, i: nat)
    requires Sited(w, p, j, i) && Standing(p.control) && p.control != AskSave && !p.control.Post?
    requires Live(w.plan, w.store.rows, i)
    ensures forall a: nat :: OpenUpTo(w.store.approvals, a, i) ==> w.store.approvals[a].step == i
  {
    hide Coherent, ValidPlan, Guarded, BlockSettled;
    assert PlacedAt(w, i);
    assert w.store.rows[i].status != Cancelled;
  }

  lemma EnterPlaced(w: World, p: Pass, j: nat, i: nat)
    requires Sited(w, p, j, i) && p.control == Enter
    ensures PlacedAt(AtEnter(w, p), i)
  {
    hide Coherent, ValidPlan, Guarded, BlockSettled, HasUnknown, CanMove, Live, AllDone;
    assert PlacedAt(w, i);
    if Live(w.plan, w.store.rows, i) {
      NoneBefore(w, p, j, i);
    }
    Moved(w, AtEnter(w, p), i);
  }

  /** A spine step that the pass holds open was not skipped. */
  lemma OpenInStore(w: World, p: Pass, j: nat)
    requires Coherent(w) && j < |w.plan| && Placed(w, j) && w.pass == Some(p) && p.control == Head
    requires p.index <= j && OnSpine(w.plan, p.index) && p.rows[p.index].status != Cancelled
    ensures w.store.rows[p.index].status != Cancelled
  {
    hide StateFits, BlockSettled, Live;
    assert PlacedAt(w, p.index);
    var touched := Touched(w.store, p.index);
  }

  /** What the pass holds of the earlier steps is what is stored. */
  lemma MemoryBefore(w: World, p: Pass)
    requires Coherent(w) && w.pass == Some(p)
    ensures forall h :: 0 <= h < |w.plan| && h != p.index ==> p.rows[h] == w.store.rows[h]
  {
  }

  lemma PassedBefore(w: World, p: Pass, j: nat, c: nat)
    requires Shaped(w) && j < |w.plan| && Placed(w, j) && w.pass == Some(p) && Standing(p.control)
    requires c <= j && c < p.index && OnSpine(w.plan, c)
    ensures Passed(w.store, c)
  {
    assert PlacedAt(w, c);
  }

  /** A step put to the policy: on the spine, all before it is completed. */
  lemma GovernedIsDone(w: World, p: Pass, j: nat)
    requires Shaped(w) && Coherent(w) && j < |w.plan| && ValidPlan(w.plan) && Guarded(w.plan, j) && Placed(w, j)
    requires w.pass == Some(p) && p.control == Head && p.index <= j && OnSpine(w.plan, p.index)
    requires !Resolved(p.rows[p.index].status) && !Breaks(w.plan, p.rows, p.index)
    ensures AllDone(w.store.rows, p.index) && w.store.rows[p.index].status != Cancelled
  {
    hide Coherent, ValidPlan, Guarded, BlockSettled, Breaks, Live, AllDone, Passed;
    OpenInStore(w, p, j);
    MemoryBefore(w, p);
    forall c | 0 <= c < p.index && OnSpine(w.plan, c) ensures Passed(w.store, c) {
      PassedBefore(w, p, j, c);
    }
    assert PlacedAt(w, p.index);
    UnbrokenIsDone(w.plan, w.store, p.rows, p.index, j);
  }

  lemma SkippedHasNoRequest(w: World, p: Pass, j: nat)
    requires Shaped(w) && Coherent(w) && j < |w.plan| && ValidPlan(w.plan) && Guarded(w.plan, j) && Placed(w, j)
    requires w.pass == Some(p) && p.control == Head && p.index <= j && OnSpine(w.plan, p.index)
    requires !Resolved(p.rows[p.index].status) && Breaks(w.plan, p.rows, p.index)
    ensures !HasRequest(w.store.approvals, p.index)
  {
    hide Coherent, ValidPlan, Guarded, BlockSettled, Breaks, Live, HasRequest;
    OpenInStore(w, p, j);
    MemoryBefore(w, p);
    assert PlacedAt(w, p.index);
    if HasRequest(w.store.approvals, p.index) {
      assert Touched(w.store, p.index);
      assert AllDone(p.rows, p.index);
      DoneIsUnbroken(w.plan, p.rows, p.index);
    }
  }

  lemma HeadPlaced(w: World, p: Pass, j: nat, i: nat)
    requires Sited(w, p, j, i) && p.control == Head
    ensures PlacedAt(AtHead(w, p), i)
  {
    hide Coherent, ValidPlan, Guarded, Placed, PlacedAt, AtHead, Breaks;
    if p.index < |w.plan| && !Resolved(p.rows[p.index].status) {
      if Breaks(w.plan, p.rows, p.index) {
        HeadCancels(w, p, j, i);
      } else {
        HeadGoverns(w, p, j, i);
      }
    } else {
      HeadPasses(w, p, j, i);
    }
  }

  lemma HeadCancels(w: World, p: Pass, j: nat, i: nat)
    requires Sited(w, p, j, i) && p.control == Head && p.index < |w.plan|
    requires !Resolved(p.rows[p.index].status) && Breaks(w.plan, p.rows, p.index)
    ensures PlacedAt(AtHead(w, p), i)
  {
    hide Coherent, ValidPlan, Guarded, Placed, PlacedAt, Breaks, HasRequest, AllDone;
    assert AtHead(w, p) == SaveRow(w, p, p.rows[p.index].(status := Cancelled), p.index + 1, Head);
    hide AtHead, SaveRow;
    if p.index <= j && OnSpine(w.plan, p.index) {
      OpenInStore(w, p, j);
      SkippedHasNoRequest(w, p, j);
    }
    SavedAt(w, p, p.rows[p.index].(status := Cancelled), p.index + 1, Head, j, i);
  }

  lemma HeadGoverns(w: World, p: Pass, j: nat, i: nat)
    requires Sited(w, p, j, i) && p.control == Head && p.index < |w.plan|
    requires !Resolved(p.rows[p.index].status) && !Breaks(w.plan, p.rows, p.index)
    ensures PlacedAt(AtHead(w, p), i)
  {
    hide Coherent, ValidPlan, Guarded, BlockSettled, CanMove, Live, AllDone, Breaks, HasRequest, RequestsFit, Behind;
    assert PlacedAt(w, i);
    if p.index <= j && OnSpine(w.plan, p.index) {
      GovernedIsDone(w, p, j);
    }
    if Live(w.plan, w.store.rows, i) {
      NoneBefore(w, p, j, i);
    }
    Moved(w, AtHead(w, p), i);
  }

  /** Past a resolved step, or past the last one. */
  lemma HeadPasses(w: World, p: Pass, j: nat, i: nat)
    requires Sited(w, p, j, i) && p.control == Head
    requires p.index < |w.plan| ==> Resolved(p.rows[p.index].status)
    ensures PlacedAt(AtHead(w, p), i)
  {
    hide Coherent, ValidPlan, Guarded, Live, AllDone, Breaks, HasRequest, Behind, RequestsFit, Passed, BlockSettled;
    assert PlacedAt(w, i);
    if p.index < |w.plan| {
      ResolvedPasses(w, p, j, i);
    } else {
      Moved(w, AtHead(w, p), i);
    }
  }

  /** The pass goes on to the next step; the current one is settled, in the store. */
  lemma GoesPast(w: World, p: Pass, q: Pass, i: nat)
    requires Shaped(w) && w.pass == Some(p) && i < |w.plan| && p.index < |w.plan| && PlacedAt(w, i)
    requires Standing(p.control) && p.control != AskSave && !p.control.Post?
    requires Settled(w.store.rows[p.index].status)
    requires q.index == p.index + 1 && q.control == Head && ShapedPass(w.plan, q)
    requires forall k :: p.index < k < |w.plan| ==> q.rows[k] == w.store.rows[k]
    ensures PlacedAt(w.(pass := Some(q)), i)
  {
    hide Live, AllDone, HasRequest, RequestsFit, BlockSettled, Passed, Behind;
    if i <= p.index {
      PassedThrough(w, i, p.index);
    }
    if Live(w.plan, w.store.rows, i) && p.index < i {
      BlockGrows(w.plan, w.store.rows, w.store.rows, p.index);
    }
  }

  lemma ResolvedPasses(w: World, p: Pass, j: nat, i: nat)
    requires Sited(w, p, j, i) && p.control == Head && p.index < |w.plan| && Resolved(p.rows[p.index].status)
    ensures PlacedAt(AtHead(w, p), i)
  {
    hide ValidPlan, Guarded, Breaks, PlacedAt, Coherent;
    assert AtHead(w, p) == w.(pass := Some(p.(index := p.index + 1)));
    hide AtHead;
    ResolvedInStore(w, p);
    assert PlacedAt(w, i);
    GoesPast(w, p, p.(index := p.index + 1), i);
  }

  /** A resolved step is stored as such, and the next one is held as it is stored. */
  lemma ResolvedInStore(w: World, p: Pass)
    requires Coherent(w) && w.pass == Some(p) && p.control == Head && p.index < |w.plan|
    requires Resolved(p.rows[p.index].status) && Unreconciled(w.store.rows)
    ensures w.store.rows[p.index] == p.rows[p.index] && Settled(w.store.rows[p.index].status)
    ensures forall k :: p.index < k < |w.plan| ==> p.rows[k] == w.store.rows[k]
  {
    hide StateFits;
  }

  lemma PassedThrough(w: World, i: nat, k: nat)
    requires Shaped(w) && i <= k < |w.plan| && Behind(w.store, i) && w.store.rows[k].status != Pending
    ensures Passed(w.store, i)
  {
    assert Touched(w.store, k);
  }

  /** The conditions for saving the row of a step that was put to the policy. */
  lemma StepSavable(w: World, p: Pass, r: Row, index: nat, next: Control, j: nat)
    requires Shaped(w) && j < |w.plan| && Placed(w, j) && w.pass == Some(p) && p.index < |w.plan|
    requires OnStep(p.control) && p.control != Quarantine && p.control != AskSave
    requires p.rows[p.index].status != Completed
    requires r.status != Pending && r.status != ReconciledSucceeded && r.status != ReconciledFailed
    requires if index == p.index
      then (OnStep(next) || next == FailTask) && next != Quarantine && next != AskSave && r.status != Cancelled
      else index == p.index + 1 && next == Head && Settled(r.status) && r.status != Cancelled
    ensures Savable(w, p, r, index, next, j)
  {
    hide Behind, Live;
    if p.index <= j && OnSpine(w.plan, p.index) {
      assert PlacedAt(w, p.index);
    }
  }

  /** Saving the row of a step that was put to the policy. */
  lemma StepSaved(w: World, p: Pass, r: Row, index: nat, next: Control, j: nat, i: nat)
    requires Sited(w, p, j, i) && p.index < |w.plan|
    requires OnStep(p.control) && p.control != Quarantine && p.control != AskSave
    requires p.rows[p.index].status != Completed
    requires r.status != Pending && r.status != ReconciledSucceeded && r.status != ReconciledFailed
    requires if index == p.index
      then (OnStep(next) || next == FailTask) && next != Quarantine && next != AskSave && r.status != Cancelled
      else index == p.index + 1 && next == Head && Settled(r.status) && r.status != Cancelled
    ensures var v := SaveRow(w, p, r, index, next); Shaped(v) && PlacedAt(v, i)
  {
    hide Coherent, ValidPlan, Guarded, Placed, PlacedAt, Savable, SaveRow;
    StepSavable(w, p, r, index, next, j);
    SavedAt(w, p, r, index, next, j, i);
  }

  lemma GovernPlaced(w: World, p: Pass, a: Answer, j: nat, i: nat)
    requires Sited(w, p, j, i) && p.control == Govern
    ensures PlacedAt(AtGovern(w, p, a), i)
  {
    hide ValidPlan, Guarded, Placed, PlacedAt, StateFits, FailedRow, SaveRow;
    var r := p.rows[p.index];
    FailedStatus(r);
    if a == ArgumentError {
      StepSaved(w, p, FailedRow(r, Failed), p.index + 1, Head, j, i);
    } else if a == Deny {
      StepSaved(w, p, FailedRow(r, Blocked), p.index + 1, Head, j, i);
    } else if a == NeedsApproval && p.approved != Some(p.index) {
      StepSaved(w, p, r.(status := PendingApproval), p.index, AskMove, j, i);
    } else {
      GovernStarts(w, p, a, j, i);
    }
  }

  lemma FailedStatus(r: Row)
    ensures forall s :: FailedRow(r, s).status == s
  {
  }

  lemma GovernStarts(w: World, p: Pass, a: Answer, j: nat, i: nat)
    requires Sited(w, p, j, i) && p.control == Govern
    requires a != ArgumentError && a != Deny && !(a == NeedsApproval && p.approved != Some(p.index))
    ensures PlacedAt(AtGovern(w, p, a), i)
  {
    hide ValidPlan, Guarded, BlockSettled, Live, AllDone, HasRequest, StateFits, RequestsFit, Behind;
    assert PlacedAt(w, i);
    Moved(w, AtGovern(w, p, a), i);
  }

  lemma BeginPlaced(w: World, p: Pass, a: Answer, j: nat, i: nat)
    requires Sited(w, p, j, i) && p.control.Begin?
    ensures PlacedAt(AtBegin(w, p, a), i)
  {
    hide ValidPlan, Guarded, Placed, PlacedAt, StateFits, SaveRow, BeginReceipt;
    var r := p.rows[p.index];
    if a == Proceed {
      StepSaved(w, p, r, p.index, Launch, j, i);
      BeginsAsSaved(w, p, i);
    } else if a == Templated && !p.control.templated {
      StepSaved(w, p, r, p.index, Begin(true), j, i);
    } else {
      BeginThrows(w, p, a, j, i);
    }
  }

  /** A receipt is none of this matter. */
  lemma BeginsAsSaved(w: World, p: Pass, i: nat)
    requires Shaped(w) && w.pass == Some(p) && p.control.Begin? && i < |w.plan|
    requires var v := SaveRow(w, p, p.rows[p.index], p.index, Launch); Shaped(v) && PlacedAt(v, i)
    ensures var u := BeginReceipt(w, p, Launch); Shaped(u) && PlacedAt(u, i)
  {
    var v, u := SaveRow(w, p, p.rows[p.index], p.index, Launch), BeginReceipt(w, p, Launch);
    assert u.pass.value == v.pass.value;
    assert u.store.(receipts := v.store.receipts) == v.store;
    SameTables(v, u, i);
  }

  lemma SameTables(w: World, v: World, i: nat)
    requires Shaped(w) && Shaped(v) && i < |w.plan| && PlacedAt(w, i)
    requires v.plan == w.plan && v.pass == w.pass
    requires v.store.rows == w.store.rows && v.store.approvals == w.store.approvals && v.store.task == w.store.task
    ensures PlacedAt(v, i)
  {
    hide Live, BlockSettled, AllDone;
    Moved(w, v, i);
  }

  lemma BeginThrows(w: World, p: Pass, a: Answer, j: nat, i: nat)
    requires Sited(w, p, j, i) && p.control.Begin? && a != Proceed && (a == Templated ==> p.control.templated)
    ensures PlacedAt(AtBegin(w, p, a), i)
  {
    hide ValidPlan, Guarded, BlockSettled, Live, AllDone, HasRequest, StateFits, RequestsFit, Behind;
    assert PlacedAt(w, i);
    Moved(w, AtBegin(w, p, a), i);
  }

  /** The steps that only change what the pass holds: it stays at its step. */
  lemma Stays(w: World, p: Pass, v: World, j: nat, i: nat)
    requires Sited(w, p, j, i) && OnStep(p.control) && p.control != Quarantine && p.control != AskSave
    requires Shaped(v) && v.plan == w.plan && v.pass.Some?
    requires v.store.rows == w.store.rows && v.store.approvals == w.store.approvals && v.store.task == w.store.task
    requires var q := v.pass.value;
      q.index == p.index && q.rows == p.rows && OnStep(q.control) && q.control != Quarantine
    ensures PlacedAt(v, i)
  {
    hide Coherent, ValidPlan, Guarded, BlockSettled, Live, AllDone, HasRequest, RequestsFit, Behind;
    assert PlacedAt(w, i);
    Moved(w, v, i);
  }

  lemma FinishKeepsTables(w: World, k: nat)
    ensures forall to :: var v := FinishReceipt(w, k, to);
      v.plan == w.plan && v.store == w.store.(receipts := v.store.receipts)
  {
    hide Latest;
  }

  lemma LaunchPlaced(w: World, p: Pass, a: Answer, j: nat, i: nat)
    requires Sited(w, p, j, i) && p.control == Launch
    ensures PlacedAt(AtLaunch(w, p, a), i)
  {
    hide Coherent, ValidPlan, Guarded, Placed, PlacedAt;
    Stays(w, p, AtLaunch(w, p, a), j, i);
  }

  lemma AwaitPlaced(w: World, p: Pass, a: Answer, j: nat, i: nat)
    requires Sited(w, p, j, i) && p.control == Await
    ensures PlacedAt(AtAwait(w, p, a), i)
  {
    hide Coherent, ValidPlan, Guarded, Placed, PlacedAt, FinishReceipt, WithStepTimeout;
    FinishKeepsTables(w, p.index);
    Stays(w, p, AtAwait(w, p, a), j, i);
  }

  lemma CaughtPlaced(w: World, p: Pass, j: nat, i: nat)
    requires Sited(w, p, j, i) && p.control.Caught?
    ensures PlacedAt(AtCaught(w, p), i)
  {
    hide Coherent, ValidPlan, Guarded, Placed, PlacedAt, FinishReceipt;
    FinishKeepsTables(w, p.index);
    Stays(w, p, AtCaught(w, p), j, i);
  }

  lemma ClosingPlaced(w: World, p: Pass, j: nat, i: nat)
    requires Sited(w, p, j, i)
    ensures p.control.Closing? ==> PlacedAt(AtClosing(w, p), i)
    ensures p.control.Settling? ==> PlacedAt(AtSettling(w, p), i)
  {
    hide ValidPlan, Guarded, Placed, PlacedAt, StateFits, SaveRow, FailedRow;
    if p.control.Closing? {
      var v := p.control.verdict;
      FailedStatus(p.rows[p.index]);
      if v == SettleUnknown {
        StepSaved(w, p, ClosedRow(p.rows[p.index], v), p.index, FailTask, j, i);
      } else {
        StepSaved(w, p, ClosedRow(p.rows[p.index], v), p.index + 1, Head, j, i);
      }
    } else if p.control.Settling? {
      var code := p.control.code;
      FailedStatus(p.rows[p.index]);
      if code == MissingVariable || code == SecurityBlock {
        StepSaved(w, p, SettledRow(p.rows[p.index], code), p.index + 1, Head, j, i);
      } else {
        StepSaved(w, p, SettledRow(p.rows[p.index], code), p.index, Mend(code), j, i);
      }
    }
  }

  /** A failed step is left behind. */
  lemma LeftBehind(w: World, p: Pass, v: World, j: nat, i: nat)
    requires Sited(w, p, j, i) && (p.control.Mend? || p.control == Decide)
    requires Shaped(v) && v.pass.Some? && v == w.(pass := v.pass)
    requires var q := v.pass.value; q.index == p.index + 1 && q.rows == p.rows && q.control == Head
    ensures PlacedAt(v, i)
  {
    hide ValidPlan, Guarded, PlacedAt, StateFits;
    assert PlacedAt(w, i);
    GoesPast(w, p, v.pass.value, i);
  }

  /** The task moves, the pass stays at its step. */
  lemma TaskMoves(w: World, p: Pass, v: World, j: nat, i: nat)
    requires Sited(w, p, j, i) && Standing(p.control) && p.control != AskSave && !p.control.Post?
    requires Shaped(v) && v.plan == w.plan && v.pass.Some?
    requires v.store.rows == w.store.rows && v.store.approvals == w.store.approvals
    requires var q := v.pass.value;
      && q.index == p.index
      && (forall h :: 0 <= h < |w.plan| && h != p.index ==> q.rows[h] == p.rows[h])
      && (p.index < |w.plan| ==> q.rows[p.index] == p.rows[p.index] || w.store.rows[p.index].status != Completed)
      && (OnStep(q.control) ==> OnStep(p.control)) && q.control != Quarantine && q.control != AskSave
    ensures PlacedAt(v, i)
  {
    hide Coherent, ValidPlan, Guarded, BlockSettled, Live, AllDone, HasRequest, RequestsFit, Behind;
    assert PlacedAt(w, i);
    if Live(w.plan, w.store.rows, i) {
      NoneBefore(w, p, j, i);
    }
    Moved(w, v, i);
  }

  lemma MendPlaced(w: World, p: Pass, j: nat, i: nat)
    requires Sited(w, p, j, i) && p.control.Mend?
    ensures PlacedAt(AtMend(w, p), i)
  {
    hide ValidPlan, Guarded, Placed, PlacedAt, StateFits, CanMove;
    assert w.store.rows == p.rows;
    if p.recoveries >= p.maxRecovery || !Transient(p.control.code) {
      LeftBehind(w, p, AtMend(w, p), j, i);
    } else {
      TaskMoves(w, p, AtMend(w, p), j, i);
    }
  }

  lemma DecidePlaced(w: World, p: Pass, a: Answer, j: nat, i: nat)
    requires Sited(w, p, j, i) && p.control == Decide
    ensures PlacedAt(AtDecide(w, p, a), i)
  {
    hide ValidPlan, Guarded, Placed, PlacedAt, StateFits, CanMove, BackoffDelay, RecoveryDecision;
    if a.Diagnosis? && !CanAutoRecover(RecoveryDecision(a.reason)) {
      LeftBehind(w, p, AtDecide(w, p, a), j, i);
    } else {
      TaskMoves(w, p, AtDecide(w, p, a), j, i);
    }
  }

  lemma AskPlaced(w: World, p: Pass, j: nat, i: nat)
    requires Sited(w, p, j, i) && (p.control == AskMove || p.control == AskSave)
    ensures PlacedAt(AtAsk(w, p), i)
  {
    hide Coherent, ValidPlan, Guarded, Placed, PlacedAt, CanMove;
    AsksAsStored(w, p);
    if p.control == AskMove {
      TaskMoves(w, p, AtAsk(w, p), j, i);
    } else {
      AskLeaves(w, p, AtAsk(w, p), j, i);
    }
  }

  /** The pass leaves the loop, with its request open. */
  lemma AskLeaves(w: World, p: Pass, v: World, j: nat, i: nat)
    requires Sited(w, p, j, i) && p.control == AskSave
    requires v == w.(store := w.store.(task := WaitingApproval),
                     pass := Some(p.(state := WaitingApproval, control := Post(LoopPendingApproval))))
    ensures Shaped(v) && PlacedAt(v, i)
  {
    hide Coherent, ValidPlan, Guarded, BlockSettled, Live, AllDone, HasRequest, RequestsFit, Behind;
    assert PlacedAt(w, i);
    Moved(w, v, i);
  }

  lemma AsksAsStored(w: World, p: Pass)
    requires Coherent(w) && w.pass == Some(p) && (p.control == AskMove || p.control == AskSave)
    ensures w.store.rows == p.rows && CanMove(p.state, WaitingApproval)
  {
    hide CanMove;
    LegalMoves();
  }

  /** The request is created while its step waits and no other is open before the next spine
      step. */
  lemma AskCreates(w: World, p: Pass, j: nat, i: nat)
    requires Sited(w, p, j, i) && p.control == AskCreate
    ensures PlacedAt(AtAsk(w, p), i)
  {
    hide ValidPlan, Guarded, BlockSettled, Live, AllDone, HasRequest, StateFits, Behind, RequestsFit, PassAhead;
    assert PlacedAt(w, i);
    var v := AtAsk(w, p);
    RequestAdded(w.store.approvals, Approval(p.index, Asked));
    AskedBehind(w, p, v.store, i);
    if Live(w.plan, w.store.rows, i) {
      AskedRequests(w, p, v.store, i);
    }
  }

  lemma AskedBehind(w: World, p: Pass, t: Store, i: nat)
    requires Coherent(w) && w.pass == Some(p) && p.control == AskCreate && i < |w.plan| && PlacedAt(w, i)
    requires t == w.store.(approvals := w.store.approvals + [Approval(p.index, Asked)])
    ensures Behind(t, i) && (i < p.index ==> Passed(t, i))
  {
    hide BlockSettled, Live, AllDone, HasRequest, StateFits, RequestsFit, PassAhead;
    RequestAdded(w.store.approvals, Approval(p.index, Asked));
    assert Touched(w.store, p.index);
    assert Passed(w.store, i) ==> Passed(t, i);
    forall k | i <= k < |t.rows| && Touched(t, k) ensures Passed(t, i) {
      assert Touched(w.store, k);
    }
  }

  lemma AskedRequests(w: World, p: Pass, t: Store, i: nat)
    requires Coherent(w) && w.pass == Some(p) && p.control == AskCreate && i < |w.plan|
    requires RequestsFit(w.plan, w.store, i) && PassAhead(w.plan, w.store, p, i)
    requires t == w.store.(approvals := w.store.approvals + [Approval(p.index, Asked)])
    ensures RequestsFit(w.plan, t, i) && PassAhead(w.plan, t, p.(control := AskSave), i)
  {
    hide BlockSettled;
    assert forall a: nat :: OpenUpTo(t.approvals, a, i) && a < |w.store.approvals| ==>
      OpenUpTo(w.store.approvals, a, i) && t.approvals[a] == w.store.approvals[a];
  }

  lemma RequestAdded(approvals: seq<Approval>, r: Approval)
    ensures forall k :: HasRequest(approvals + [r], k) <==> HasRequest(approvals, k) || k == r.step
  {
    forall k | HasRequest(approvals, k) || k == r.step ensures HasRequest(approvals + [r], k) {
      if k == r.step {
        assert (approvals + [r])[|approvals|].step == k;
      } else {
        var a :| 0 <= a < |approvals| && approvals[a].step == k;
        assert (approvals + [r])[a].step == k;
      }
    }
  }

  /** The whole plan is saved, with the current row as the pass holds it. */
  lemma FailPlaced(w: World, p: Pass, j: nat, i: nat)
    requires Sited(w, p, j, i) && p.control == FailTask
    ensures PlacedAt(AtEnd(w, p), i)
  {
    hide ValidPlan, Guarded, BlockSettled, Live, AllDone, HasRequest, CanMove, First;
    assert PlacedAt(w, i);
    var v := AtEnd(w, p);
    LegalMoves();
    assert CanMove(p.state, TaskFailed);
    if p.index >= |w.plan| || p.rows[p.index] == w.store.rows[p.index] {
      assert p.rows == w.store.rows;
      Moved(w, v, i);
    } else {
      FailResets(w, p, v, j, i);
    }
  }

  lemma FailResets(w: World, p: Pass, v: World, j: nat, i: nat)
    requires Sited(w, p, j, i) && p.control == FailTask && p.index < |w.plan|
    requires p.rows[p.index] != w.store.rows[p.index]
    requires v == w.(store := w.store.(rows := p.rows, task := TaskFailed),
                     pass := Some(p.(state := TaskFailed, control := Post(LoopFailed))))
    ensures Shaped(v) && PlacedAt(v, i)
  {
    hide ValidPlan, Guarded, BlockSettled, Live, AllDone, HasRequest, StateFits;
    var x := p.index;
    assert PlacedAt(w, i);
    if x <= j && OnSpine(w.plan, x) {
      ResetWasOpen(w, p, j);
    }
    assert p.rows == w.store.rows[x := p.rows[x]];
    Rewritten(w.plan, w.store, v.store, x, p.rows[x], i);
    if Live(w.plan, v.store.rows, i) {
      SavedRequests(w, p, v.store.(task := w.store.task), i);
      if x <= i {
        BlockStays(w.plan, w.store.rows, v.store.rows, x);
      }
    }
  }

  /** A spine step that was reset was not skipped before. */
  lemma ResetWasOpen(w: World, p: Pass, j: nat)
    requires Coherent(w) && j < |w.plan| && Placed(w, j) && w.pass == Some(p) && p.control == FailTask
    requires p.index <= j && OnSpine(w.plan, p.index) && p.rows[p.index] != w.store.rows[p.index]
    ensures w.store.rows[p.index].status != Cancelled
  {
    hide StateFits, BlockSettled, Live;
    assert PlacedAt(w, p.index);
    var touched := Touched(w.store, p.index);
  }

  lemma EndPlaced(w: World, p: Pass, j: nat, i: nat)
    requires Sited(w, p, j, i) && (p.control == Verify || p.control == Conclude)
    ensures PlacedAt(AtEnd(w, p), i)
  {
    hide ValidPlan, Guarded, Placed, PlacedAt, CanMove, First;
    assert w.store.rows == p.rows;
    TaskMoves(w, p, AtEnd(w, p), j, i);
  }

  lemma LeavePlaced(w: World, p: Pass, j: nat, i: nat)
    requires Sited(w, p, j, i)
    ensures p.control.Post? ==> PlacedAt(AtPost(w, p), i)
    ensures Shaped(w.(pass := None)) && PlacedAt(w.(pass := None), i)
  {
    hide ValidPlan, Guarded, BlockSettled, Live, AllDone, HasRequest;
    assert PlacedAt(w, i);
    Moved(w, w.(pass := None), i);
    if p.control.Post? {
      assert w.store.rows == p.rows;
      Moved(w, AtPost(w, p), i);
    }
  }

  lemma QuarantinePlaced(w: World, p: Pass, j: nat, i: nat)
    requires Sited(w, p, j, i) && p.control == Quarantine
    ensures PlacedAt(AtQuarantine(w, p), i)
  {
    hide ValidPlan, Guarded, Live, AllDone, HasRequest, StateFits, BlockSettled;
    var x, v := p.index, AtQuarantine(w, p);
    assert PlacedAt(w, i);
    assert Touched(w.store, x);
    assert v.store.rows == w.store.rows[x := v.store.rows[x]];
    if x == i {
      assert Passed(w.store, i);
    }
    Rewritten(w.plan, w.store, v.store, x, v.store.rows[x], i);
    if Live(w.plan, v.store.rows, i) {
      forall a: nat | OpenUpTo(v.store.approvals, a, i)
        ensures BlockSettled(w.plan, v.store.rows, v.store.approvals[a].step)
      {
        assert OpenUpTo(w.store.approvals, a, i);
        RunningIsOutside(w.plan, w.store.rows, v.store.rows, x, v.store.approvals[a].step);
      }
    }
  }

  /** A running step is in no settled block. */
  lemma RunningIsOutside(plan: Plan, before: seq<Row>, after: seq<Row>, x: nat, k: nat)
    requires k <= |plan| == |before| == |after| && x < |plan| && before[x].status == Running
    requires BlockSettled(plan, before, k) && forall h :: 0 <= h < |plan| && h != x ==> after[h] == before[h]
    ensures BlockSettled(plan, after, k)
  {
  }

  lemma AdvancePlacedAt(w: World, p: Pass, a: Answer, j: nat, i: nat)
    requires Shaped(w) && Sited(w, p, j, i)
    ensures PlacedAt(Advance(w, a), i)
  {
    hide AtEnter, AtHead, AtGovern, AtBegin, AtLaunch, AtAwait, AtClosing, AtCaught, AtSettling;
    hide AtMend, AtDecide, AtAsk, AtEnd, AtPost, AtQuarantine, Coherent, ValidPlan, Guarded, Placed, PlacedAt;
    match p.control
    case Enter => EnterPlaced(w, p, j, i);
    case Head => HeadPlaced(w, p, j, i);
    case Govern => GovernPlaced(w, p, a, j, i);
    case Begin(_) => BeginPlaced(w, p, a, j, i);
    case Launch => LaunchPlaced(w, p, a, j, i);
    case Await => AwaitPlaced(w, p, a, j, i);
    case Closing(_) => ClosingPlaced(w, p, j, i);
    case Caught(_, _) => CaughtPlaced(w, p, j, i);
    case Settling(_) => ClosingPlaced(w, p, j, i);
    case Mend(_) => MendPlaced(w, p, j, i);
    case Decide => DecidePlaced(w, p, a, j, i);
    case AskMove => AskPlaced(w, p, j, i);
    case AskCreate => AskCreates(w, p, j, i);
    case AskSave => AskPlaced(w, p, j, i);
    case FailTask => FailPlaced(w, p, j, i);
    case Verify => EndPlaced(w, p, j, i);
    case Conclude => EndPlaced(w, p, j, i);
    case Post(_) => LeavePlaced(w, p, j, i);
    case Quarantine => QuarantinePlaced(w, p, j, i);
    case Broken => LeavePlaced(w, p, j, i);
  }

  // ---------------------------------------------------------------------------
  // Starting a pass
  // ---------------------------------------------------------------------------

  /** What a command starts from. */
  ghost predicate Resting(w: World, j: nat, i: nat) {
    && Shaped(w) && j < |w.plan| && ValidPlan(w.plan) && Guarded(w.plan, j) && Placed(w, j)
    && w.pass.None? && i <= j && OnSpine(w.plan, i)
  }

  /** A spine step between two others, looked at and not skipped, completes what is before it. */
  lemma DoneBelow(w: World, j: nat, i: nat, k: nat)
    requires Resting(w, j, i) && Live(w.plan, w.store.rows, i) && i <= k < |w.plan| && Touched(w.store, k)
    ensures AllDone(w.store.rows, i)
  {
    hide Touched, AllDone;
    assert PlacedAt(w, i);
    assert w.store.rows[i].status != Cancelled;
  }

  /** The step or a later one was looked at. */
  ghost predicate TouchedFrom(s: Store, c: nat) {
    exists t :: c <= t < |s.rows| && Touched(s, t)
  }

  lemma SpineDone(w: World, j: nat, i: nat, c: nat)
    requires Resting(w, j, i) && Live(w.plan, w.store.rows, i) && c <= i && OnSpine(w.plan, c)
    requires TouchedFrom(w.store, c)
    ensures AllDone(w.store.rows, c)
  {
    hide ValidPlan, Guarded, Touched;
    var t :| c <= t < |w.plan| && Touched(w.store, t);
    assert Live(w.plan, w.store.rows, c);
    DoneBelow(w, j, c, t);
  }

  /** If something before `k` is not completed, no spine step that was looked at lies between. */
  lemma NoSpineBetween(w: World, j: nat, i: nat, h: nat, k: nat)
    requires Resting(w, j, i) && Live(w.plan, w.store.rows, i) && h < k < |w.plan|
    requires k <= i + 1 && w.store.rows[h].status != Completed
    requires forall c :: h < c < k && OnSpine(w.plan, c) ==> TouchedFrom(w.store, c)
    ensures LaxBetween(w.plan, h, k)
  {
    hide ValidPlan, Guarded, Touched, Live, Placed, AllDone;
    forall c | h < c < k ensures w.plan[c].runWhen == OnSuccess ==> AllDone(w.store.rows, c) {
      if w.plan[c].runWhen == OnSuccess {
        SpineDone(w, j, i, c);
      }
    }
    assert forall c :: h < c < k && AllDone(w.store.rows, c) ==> w.store.rows[h].status == Completed by {
      Done(w.store.rows, h);
    }
  }

  lemma Done(rows: seq<Row>, h: nat)
    ensures forall c :: h < c <= |rows| && AllDone(rows, c) ==> rows[h].status == Completed
  {
  }

  /** Where a run can start. */
  ghost predicate StartsRun(w: World, s: nat) {
    && |w.plan| == |w.store.rows| && RunStart(w.plan, w.store.rows, w.store.task) == Some(s)
  }

  lemma {:induction false} RunAt(w: World, s: nat)
    requires StartsRun(w, s)
    ensures s < |w.plan| && !HasUnknown(w.store.rows)
    ensures w.store.rows[s].status == Pending || w.store.rows[s].status == Failed
    ensures w.store.rows[s].status == Pending ==> forall k :: 0 <= k < s ==> w.store.rows[k].status != Pending
    ensures w.store.rows[s].status == Failed ==> forall k :: 0 <= k < |w.plan| ==> w.store.rows[k].status != Pending
    ensures forall d :: d in w.plan[s].deps ==> DependencyAllowsStart(w.plan, w.store.rows, d, true)
  {
    hide Find;
    UnknownIsUnknown(w.store.rows);
  }

  /** The gate: what the start step depends on has completed or failed. */
  lemma {:induction false} GateSettles(w: World, s: nat, h: nat)
    requires StartsRun(w, s) && ValidPlan(w.plan) && Unreconciled(w.store.rows) && h < |w.plan|
    requires s < |w.plan| && w.plan[h].id in w.plan[s].deps
    ensures w.store.rows[h].status == Completed || w.store.rows[h].status == Failed
  {
    hide Find, RunStart;
    RunAt(w, s);
    UnknownIsUnknown(w.store.rows);
    FindsItself(w.plan, h);
    assert DependencyAllowsStart(w.plan, w.store.rows, w.plan[h].id, true);
  }

  /** The gate is shut for a step behind a waiting one. */
  lemma NoneWaitsBefore(w: World, s: nat, j: nat, i: nat, k: nat)
    requires Resting(w, j, i) && StartsRun(w, s) && Live(w.plan, w.store.rows, i) && k < s <= i
    requires w.store.rows[s].status == Pending
    ensures w.store.rows[k].status != PendingApproval
  {
    hide ValidPlan, RunStart, Behind, PassBehind, PassAhead, RequestsFit, HasRequest, Live;
    if w.store.rows[k].status != Completed {
      RunAt(w, s);
      forall c | k < c < s ensures TouchedFrom(w.store, c) {
        assert Touched(w.store, c);
      }
      NoSpineBetween(w, j, i, k, s);
      assert w.plan[k].id in w.plan[s].deps;
      GateSettles(w, s, k);
    }
  }

  /** A run does not start before a spine step while a step up to it waits with its block settled. */
  lemma RunFindsNoneWaiting(w: World, s: nat, j: nat, i: nat, k: nat)
    requires Resting(w, j, i) && StartsRun(w, s) && Live(w.plan, w.store.rows, i) && s <= i && k <= i
    requires Touched(w.store, k) && BlockSettled(w.plan, w.store.rows, k)
    ensures w.store.rows[k].status != PendingApproval
  {
    hide ValidPlan, Guarded, RunStart, Live, Placed;
    RunAt(w, s);
    if w.store.rows[s].status == Failed {
      DoneBelow(w, j, i, i);
    } else if k < s {
      NoneWaitsBefore(w, s, j, i, k);
    } else if s < k {
      NoSpineBetween(w, j, i, s, k);
    }
  }

  lemma RunFindsNoneOpen(w: World, s: nat, j: nat, i: nat, a: nat)
    requires Resting(w, j, i) && StartsRun(w, s) && Live(w.plan, w.store.rows, i) && s <= i
    ensures !OpenUpTo(w.store.approvals, a, i)
  {
    hide ValidPlan, Guarded, RunStart, Behind, PassBehind, PassAhead, BlockSettled, Live;
    assert PlacedAt(w, i);
    if OpenUpTo(w.store.approvals, a, i) {
      var k := w.store.approvals[a].step;
      assert HasRequest(w.store.approvals, k);
      RunFindsNoneWaiting(w, s, j, i, k);
    }
  }

  lemma RunPlaced(w: World, m: nat, j: nat, i: nat)
    requires Resting(w, j, i)
    ensures var v := StartRun(w, m); Shaped(v) && PlacedAt(v, i)
  {
    hide ValidPlan, RunStart, BlockSettled, Live, AllDone, HasRequest, RequestsFit;
    assert PlacedAt(w, i);
    var s := RunStart(w.plan, w.store.rows, w.store.task);
    if s.Some? {
      RunAt(w, s.value);
      assert i < s.value ==> Touched(w.store, i);
      if Live(w.plan, w.store.rows, i) && s.value <= i {
        RunBlock(w, s.value, j, i);
        forall a: nat ensures !OpenUpTo(w.store.approvals, a, i) {
          RunFindsNoneOpen(w, s.value, j, i, a);
        }
      }
      Moved(w, StartRun(w, m), i);
    }
  }

  lemma RunBlock(w: World, s: nat, j: nat, i: nat)
    requires Resting(w, j, i) && StartsRun(w, s) && s <= i
    ensures BlockSettled(w.plan, w.store.rows, s)
  {
    hide ValidPlan, RunStart;
    forall h | 0 <= h < s && LaxBetween(w.plan, h, s) ensures Settled(w.store.rows[h].status) {
      assert w.plan[h].id in w.plan[s].deps;
      GateSettles(w, s, h);
    }
  }

  /** Recovery starts at the first step that is not completed. */
  lemma RecoveryPlaced(w: World, j: nat, i: nat)
    requires Resting(w, j, i)
    ensures var v := StartRecovery(w); Shaped(v) && PlacedAt(v, i)
  {
    hide ValidPlan, Guarded, BlockSettled, Live, AllDone, HasRequest, HasUnknown, Latest, RequestsFit, Behind, First;
    assert PlacedAt(w, i);
    var v := StartRecovery(w);
    if v.pass.Some? && v.pass.value.control != Quarantine {
      RecoveryStarts(w, j, i);
    } else if v != w {
      Moved(w, v, i);
    }
  }

  lemma RecoveryStarts(w: World, j: nat, i: nat)
    requires Resting(w, j, i)
    requires StartRecovery(w).pass.Some? && StartRecovery(w).pass.value.control != Quarantine
    ensures PlacedAt(StartRecovery(w), i)
  {
    hide ValidPlan, Guarded, Live, HasUnknown, Latest, Behind, First;
    var v, k := StartRecovery(w), First(w.store.rows, NOT_COMPLETED).value;
    NotCompleted(w.store.rows);
    RecoveryFindsNoneOpen(w, j, i, k);
    assert PlacedAt(w, i);
    Moved(w, v, i);
  }

  lemma {:induction false} NotCompleted(rows: seq<Row>)
    ensures var k := First(rows, NOT_COMPLETED);
      k.Some? ==> k.value < |rows| && AllDone(rows, k.value) && rows[k.value].status != Completed
  {
  }

  /** While crash recovery can start before a spine step, no request up to it is open. */
  lemma RecoveryFindsNoneOpen(w: World, j: nat, i: nat, k: nat)
    requires Resting(w, j, i) && !Quiet(w.store.task) && k < |w.plan|
    requires w.store.rows[k].status != Completed && w.store.rows[k].status != PendingApproval
    ensures Live(w.plan, w.store.rows, i) ==>
      forall a: nat :: OpenUpTo(w.store.approvals, a, i) ==> w.store.approvals[a].step == i && i < k
  {
    hide ValidPlan, Guarded, BlockSettled;
    assert PlacedAt(w, i);
    forall a: nat | Live(w.plan, w.store.rows, i) && OpenUpTo(w.store.approvals, a, i)
      ensures w.store.approvals[a].step == i && i < k
    {
      assert HasRequest(w.store.approvals, w.store.approvals[a].step);
      assert Touched(w.store, i);
    }
  }

  /** A resumption starts at the step that the request is for. */
  lemma ResumePlaced(w: World, a: nat, m: nat, j: nat, i: nat)
    requires Resting(w, j, i)
    ensures var v := StartResume(w, a, m); Shaped(v) && PlacedAt(v, i)
  {
    hide ValidPlan, Guarded, BlockSettled, Live, AllDone, HasRequest, RequestsFit, Behind;
    assert PlacedAt(w, i);
    var v := StartResume(w, a, m);
    if v != w {
      var k := w.store.approvals[a].step;
      RequestsStay(w.store, v.store, i);
      ResumeBehind(w, k, a, j, i);
      if Live(w.plan, w.store.rows, i) {
        ResumeAhead(w, v.store, k, a, i);
      }
    }
  }

  /** A request changes its status, not its step. */
  lemma RequestsStay(s: Store, t: Store, i: nat)
    requires i < |s.rows| && t.rows == s.rows && |t.approvals| == |s.approvals|
    requires forall a :: 0 <= a < |s.approvals| ==> t.approvals[a].step == s.approvals[a].step
    ensures forall k :: HasRequest(t.approvals, k) <==> HasRequest(s.approvals, k)
    ensures Behind(s, i) ==> Behind(t, i)
    ensures Passed(t, i) <==> Passed(s, i)
  {
    assert forall k :: HasRequest(t.approvals, k) <==> HasRequest(s.approvals, k);
    assert forall k :: 0 <= k < |s.rows| ==> Touched(t, k) == Touched(s, k);
  }

  lemma ResumeBehind(w: World, k: nat, a: nat, j: nat, i: nat)
    requires Resting(w, j, i) && a < |w.store.approvals| && w.store.approvals[a].step == k < |w.plan|
    ensures i <= k ==> Passed(w.store, i)
    ensures HasRequest(w.store.approvals, k)
  {
    assert PlacedAt(w, i);
    assert Touched(w.store, k);
  }

  lemma ResumeAhead(w: World, t: Store, k: nat, a: nat, i: nat)
    requires Shaped(w) && i < |w.plan| && RequestsFit(w.plan, w.store, i)
    requires a < |w.store.approvals| && w.store.approvals[a] == Approval(k, Granted) && k < |w.plan|
    requires t == w.store.(approvals := w.store.approvals[a := Approval(k, Consumed)])
    ensures RequestsFit(w.plan, t, i)
    ensures k <= i ==> BlockSettled(w.plan, t.rows, k) && t.rows[k].status == PendingApproval
    ensures k <= i ==> forall b: nat :: !OpenUpTo(t.approvals, b, i)
  {
    hide BlockSettled;
    assert forall b: nat :: OpenUpTo(t.approvals, b, i) ==> b != a && OpenUpTo(w.store.approvals, b, i);
    assert k <= i ==> OpenUpTo(w.store.approvals, a, i);
  }

  lemma CommandPlaced(w: World, c: Input, j: nat, i: nat)
    requires Shaped(w) && j < |w.plan| && Placed(w, j) && i <= j && OnSpine(w.plan, i) && (c.Grant? || c.Cancel?)
    ensures PlacedAt(Next(w, c), i)
  {
    hide BlockSettled, Live, AllDone, Behind, Passed;
    assert PlacedAt(w, i);
    var v := Next(w, c);
    RequestsStay(w.store, v.store, i);
    StaysOpen(w, v, i);
  }

  lemma StaysOpen(w: World, v: World, i: nat)
    requires Shaped(w) && Shaped(v) && i < |w.plan| && PlacedAt(w, i)
    requires v == w.(store := v.store) && v.store.rows == w.store.rows
    requires |v.store.approvals| == |w.store.approvals|
    requires forall a :: 0 <= a < |w.store.approvals| ==>
      && v.store.approvals[a].step == w.store.approvals[a].step
      && (Open(v.store.approvals[a]) ==> Open(w.store.approvals[a]))
    requires v.store.task == w.store.task || Quiet(v.store.task)
    requires Behind(v.store, i)
    requires Passed(v.store, i) <==> Passed(w.store, i)
    ensures PlacedAt(v, i)
  {
    hide BlockSettled, Live, AllDone, Behind, Passed;
    assert forall a: nat :: OpenUpTo(v.store.approvals, a, i) ==> OpenUpTo(w.store.approvals, a, i);
  }

  // ---------------------------------------------------------------------------
  // Every input keeps the invariant
  // ---------------------------------------------------------------------------

  lemma NextPlacedAt(w: World, c: Input, j: nat, i: nat)
    requires Shaped(w) && Coherent(w) && j < |w.plan| && ValidPlan(w.plan) && Guarded(w.plan, j) && Placed(w, j)
    requires i <= j && OnSpine(w.plan, i)
    ensures PlacedAt(Next(w, c), i)
  {
    hide Coherent, ValidPlan, Guarded, PlacedAt, Advance, StartRun, StartRecovery, StartResume;
    assert PlacedAt(w, i);
    match c
    case Tick(a) =>
      if w.pass.Some? {
        AdvancePlacedAt(w, w.pass.value, a, j, i);
        SameTables(Advance(w, a), Turn(w, a), i);
      }
    case Telemetry(kept) => SameTables(w, w.(telemetry := kept), i);
    case Run(m) => if w.pass.None? { RunPlaced(w, m, j, i); }
    case Recover => if w.pass.None? { RecoveryPlaced(w, j, i); }
    case Resume(a, m) => if w.pass.None? { ResumePlaced(w, a, m, j, i); }
    case Crash =>
      if w.pass.Some? {
        LeavePlaced(w, w.pass.value, j, i);
      } else {
        SameTables(w, w.(pass := None), i);
      }
    case Grant(_) => CommandPlaced(w, c, j, i);
    case Cancel => CommandPlaced(w, c, j, i);
  }

  lemma SaveUnreconciled(w: World, p: Pass, r: Row, index: nat, next: Control)
    requires p.index < |p.rows| == |w.store.rows| && Unreconciled(w.store.rows)
    requires r.status != ReconciledSucceeded && r.status != ReconciledFailed
    ensures Unreconciled(SaveRow(w, p, r, index, next).store.rows)
  {
  }

  /** The row that a step of the pass saves. */
  lemma SavesUnreconciled(w: World, p: Pass, a: Answer)
    requires Shaped(w) && w.pass == Some(p) && Unreconciled(w.store.rows)
    ensures p.control == Head ==> Unreconciled(AtHead(w, p).store.rows)
    ensures p.control == Govern ==> Unreconciled(AtGovern(w, p, a).store.rows)
    ensures p.control.Closing? ==> Unreconciled(AtClosing(w, p).store.rows)
    ensures p.control.Settling? ==> Unreconciled(AtSettling(w, p).store.rows)
  {
    hide Breaks, CanMove, SaveRow, Unreconciled;
    if p.index < |w.plan| {
      forall r: Row, index: nat, next | r.status != ReconciledSucceeded && r.status != ReconciledFailed
        ensures Unreconciled(SaveRow(w, p, r, index, next).store.rows)
      {
        SaveUnreconciled(w, p, r, index, next);
      }
    }
  }

  lemma BeginUnreconciled(w: World, p: Pass, a: Answer)
    requires Coherent(w) && w.pass == Some(p) && p.control.Begin? && Unreconciled(w.store.rows)
    ensures Unreconciled(AtBegin(w, p, a).store.rows)
  {
    hide StateFits;
  }

  lemma MemoryUnreconciled(w: World, p: Pass)
    requires Coherent(w) && w.pass == Some(p) && p.control != Broken && Unreconciled(w.store.rows)
    ensures Unreconciled(p.rows)
  {
  }

  lemma AdvanceUnreconciled(w: World, a: Answer)
    requires Coherent(w) && w.pass.Some? && Unreconciled(w.store.rows)
    ensures Unreconciled(Advance(w, a).store.rows)
  {
    hide AtHead, AtGovern, AtBegin, AtClosing, AtSettling, AtQuarantine;
    hide First, CanMove, Latest, HasUnknown, PassAgrees, StateFits, WithStepTimeout, BackoffDelay, Unreconciled;
    var p := w.pass.value;
    SavesUnreconciled(w, p, a);
    if p.control.Begin? {
      BeginUnreconciled(w, p, a);
    }
    if p.control == Quarantine {
      QuarantineUnreconciled(w, p);
    } else if p.control != Broken {
      MemoryUnreconciled(w, p);
    }
  }

  lemma QuarantineUnreconciled(w: World, p: Pass)
    requires Coherent(w) && w.pass == Some(p) && p.control == Quarantine && Unreconciled(w.store.rows)
    ensures Unreconciled(AtQuarantine(w, p).store.rows)
  {
  }

  lemma NextUnreconciled(w: World, c: Input)
    requires Coherent(w) && Unreconciled(w.store.rows)
    ensures Unreconciled(Next(w, c).store.rows)
  {
    hide Advance, RunStart, First, Latest, HasUnknown, PassAgrees, StateFits, RevokeAll, Unreconciled;
    if c.Tick? && w.pass.Some? {
      AdvanceUnreconciled(w, c.answer);
    }
  }

  /** A pass keeps what it was approved for, and adds requests at most. */
  ghost predicate KeepsApproved(w: World, v: World) {
    && (v.pass.Some? ==> w.pass.Some? && v.pass.value.approved == w.pass.value.approved)
    && |w.store.approvals| <= |v.store.approvals| && v.store.approvals[..|w.store.approvals|] == w.store.approvals
  }

  lemma WalkKeepsApproved(w: World, p: Pass, a: Answer)
    requires Shaped(w) && w.pass == Some(p)
    ensures p.control == Enter ==> KeepsApproved(w, AtEnter(w, p))
    ensures p.control == Head ==> KeepsApproved(w, AtHead(w, p))
    ensures p.control == Govern ==> KeepsApproved(w, AtGovern(w, p, a))
    ensures p.control.Begin? ==> KeepsApproved(w, AtBegin(w, p, a))
    ensures p.control == Launch ==> KeepsApproved(w, AtLaunch(w, p, a))
    ensures p.control == Await ==> KeepsApproved(w, AtAwait(w, p, a))
    ensures p.control.Caught? ==> KeepsApproved(w, AtCaught(w, p))
  {
    hide CanMove, Latest, Breaks, HasUnknown, WithStepTimeout;
    assert w.store.approvals[..|w.store.approvals|] == w.store.approvals;
  }

  lemma EndKeepsApproved(w: World, p: Pass, a: Answer)
    requires Shaped(w) && w.pass == Some(p)
    ensures p.control.Closing? ==> KeepsApproved(w, AtClosing(w, p))
    ensures p.control.Settling? ==> KeepsApproved(w, AtSettling(w, p))
    ensures p.control.Mend? ==> KeepsApproved(w, AtMend(w, p))
    ensures p.control == Decide ==> KeepsApproved(w, AtDecide(w, p, a))
    ensures p.control == AskMove || p.control == AskCreate || p.control == AskSave ==> KeepsApproved(w, AtAsk(w, p))
    ensures p.control == FailTask || p.control == Verify || p.control == Conclude ==> KeepsApproved(w, AtEnd(w, p))
    ensures p.control.Post? ==> KeepsApproved(w, AtPost(w, p))
    ensures p.control == Quarantine ==> KeepsApproved(w, AtQuarantine(w, p))
    ensures KeepsApproved(w, w.(pass := None))
  {
    hide First, CanMove, BackoffDelay, RecoveryDecision;
    assert w.store.approvals[..|w.store.approvals|] == w.store.approvals;
  }

  lemma RequestsGrow(w: World, a: Answer)
    requires Shaped(w) && w.pass.Some?
    ensures KeepsApproved(w, Advance(w, a))
    ensures forall k :: HasRequest(w.store.approvals, k) ==> HasRequest(Advance(w, a).store.approvals, k)
  {
    hide AtEnter, AtHead, AtGovern, AtBegin, AtLaunch, AtAwait, AtClosing, AtCaught, AtSettling;
    hide AtMend, AtDecide, AtAsk, AtEnd, AtPost, AtQuarantine, KeepsApproved;
    WalkKeepsApproved(w, w.pass.value, a);
    EndKeepsApproved(w, w.pass.value, a);
    StillAsked(w, Advance(w, a));
  }

  lemma StillAsked(w: World, v: World)
    requires KeepsApproved(w, v)
    ensures forall k :: HasRequest(w.store.approvals, k) ==> HasRequest(v.store.approvals, k)
  {
    forall k | HasRequest(w.store.approvals, k) ensures HasRequest(v.store.approvals, k) {
      var a :| 0 <= a < |w.store.approvals| && w.store.approvals[a].step == k;
      assert v.store.approvals[a] == v.store.approvals[..|w.store.approvals|][a];
    }
  }

  ghost predicate ApprovedAsked(w: World) {
    w.pass.Some? && w.pass.value.approved.Some? ==> HasRequest(w.store.approvals, w.pass.value.approved.value)
  }

  lemma NextApproved(w: World, c: Input)
    requires Shaped(w) && ApprovedAsked(w)
    ensures ApprovedAsked(Next(w, c))
  {
    hide Advance, RunStart, First, Latest, HasUnknown, RevokeAll, HasRequest;
    match c
    case Tick(a) => if w.pass.Some? { RequestsGrow(w, a); }
    case Grant(_) => SameSteps(w.store.approvals, Next(w, c).store.approvals);
    case Resume(a, m) =>
      if w.pass.None? && StartResume(w, a, m).pass.Some? {
        SameSteps(w.store.approvals, Next(w, c).store.approvals);
        RequestOf(w.store.approvals, a);
      }
    case _ =>
  }

  lemma RequestOf(approvals: seq<Approval>, a: nat)
    requires a < |approvals|
    ensures HasRequest(approvals, approvals[a].step)
  {
  }

  lemma SameSteps(before: seq<Approval>, after: seq<Approval>)
    requires |after| == |before| && forall a :: 0 <= a < |before| ==> after[a].step == before[a].step
    ensures forall k :: HasRequest(before, k) ==> HasRequest(after, k)
  {
    forall k | HasRequest(before, k) ensures HasRequest(after, k) {
      var a :| 0 <= a < |before| && before[a].step == k;
      assert after[a].step == k;
    }
  }

  /** Every input keeps the invariant. */
  lemma NextPlaced(w: World, c: Input, j: nat)
    requires Shaped(w) && Coherent(w) && j < |w.plan| && ValidPlan(w.plan) && Guarded(w.plan, j) && Placed(w, j)
    ensures Placed(Next(w, c), j)
  {
    hide Coherent, ValidPlan, Guarded, Next, PlacedAt, HasRequest, Unreconciled;
    NextUnreconciled(w, c);
    NextApproved(w, c);
    forall i | 0 <= i <= j && OnSpine(w.plan, i) ensures PlacedAt(Next(w, c), i) {
      NextPlacedAt(w, c, j, i);
    }
  }

  lemma CreatedPlaced(plan: Plan, j: nat)
    requires j < |plan|
    ensures Placed(Created(plan), j)
  {
    var w := Created(plan);
    assert forall k :: 0 <= k < |plan| ==> !Touched(w.store, k);
  }
}
