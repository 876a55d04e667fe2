/** Where the at-most-once guarantee ends. Crash recovery looks at the first step that is not
    completed and no further, so an interrupted mutation behind a step that did not complete is
    invoked again. */
module EngineReplay {
  import opened Options
  import opened TaskDomain
  import opened TaskEngine
  import opened EngineCoherence
  import opened EngineReceipts
  import opened EngineFinality
  import opened EnginePlaces
  import opened EngineAtMostOnce
  import opened EngineTheorems

  /** Step `k` runs when the steps of `support` have completed and the others have not. */
  ghost predicate RunsOn(plan: Plan, support: set<nat>, k: nat)
    requires k < |plan|
  {
    || plan[k].runWhen == Always
    || |plan[k].deps| == 0
    || (plan[k].runWhen == OnSuccess &&
        forall d :: d in plan[k].deps ==> Find(plan, d).Some? && Find(plan, d).value in support)
    || (plan[k].runWhen == OnFailure &&
        exists d :: d in plan[k].deps && Find(plan, d).Some? && Find(plan, d).value < k &&
          Find(plan, d).value !in support)
  }

  /** Step `j` can be reached by completing the steps of `support` and no other. */
  ghost predicate Supports(plan: Plan, support: set<nat>, j: nat) {
    && j < |plan|
    && RunsOn(plan, support, j)
    && forall k :: k in support ==> k < j && RunsOn(plan, support, k)
  }

  /** The rows while step `j` is being reached: the steps behind the index are completed or
      given up, those ahead are open or were treated so before. */
  ghost predicate OnTheWay(rows: seq<Row>, support: set<nat>, j: nat, index: nat) {
    && index <= j < |rows|
    && (forall k :: 0 <= k < j ==>
          if k in support then
            rows[k].status == Completed || (index <= k && rows[k].status == Pending)
          else
            rows[k].status == Blocked || rows[k].status == Cancelled || (index <= k && rows[k].status == Pending))
    && (rows[j].status == Pending || rows[j].status == Running)
    && (forall k :: j < k < |rows| ==> rows[k].status == Pending)
  }

  ghost predicate AtHeadOf(w: World, support: set<nat>, j: nat, index: nat) {
    && Shaped(w)
    && w.pass.Some?
    && w.pass.value.control == Head && w.pass.value.index == index
    && w.pass.value.state == Executing
    && w.pass.value.rows == w.store.rows
    && w.store.task == Executing
    && OnTheWay(w.store.rows, support, j, index)
  }

  /** The log has grown by events that finalise no receipt of step `j`. */
  ghost predicate Grown(before: seq<Event>, after: seq<Event>, j: nat) {
    && |before| <= |after| && after[..|before|] == before
    && forall x :: |before| <= x < |after| && after[x].Finished? ==> after[x].step != j
  }

  /** Nothing happened to step `j`. */
  ghost predicate Aside(w: World, v: World, j: nat) {
    && j < |w.store.rows| && j < |v.store.rows| && v.store.rows[j] == w.store.rows[j]
    && forall n :: ReceiptOf(v.store.receipts, j, n) == ReceiptOf(w.store.receipts, j, n)
  }

  lemma GrownJoins(a: seq<Event>, b: seq<Event>, c: seq<Event>, j: nat)
    requires Grown(a, b, j) && Grown(b, c, j)
    ensures Grown(a, c, j)
  {
    assert c[..|a|] == c[..|b|][..|a|];
    assert forall x :: |a| <= x < |b| ==> c[x] == c[..|b|][x];
  }

  lemma NotBroken(plan: Plan, rows: seq<Row>, support: set<nat>, j: nat, k: nat)
    requires |rows| == |plan| && Supports(plan, support, j) && OnTheWay(rows, support, j, k)
    requires k == j || k in support
    ensures !Breaks(plan, rows, k)
  {
    if plan[k].runWhen == OnFailure && |plan[k].deps| > 0 {
      var d :| d in plan[k].deps && Find(plan, d).Some? && Find(plan, d).value < k && Find(plan, d).value !in support;
      assert DependencyFails(plan, rows, d);
    }
  }

  // ---------------------------------------------------------------------------
  // One step of the way
  // ---------------------------------------------------------------------------

  lemma {:induction false} ExecuteOne(w: World, i: Input)
    requires Shaped(w)
    ensures Execute(w, [i]) == Next(w, i)
  {
    hide Next;
    assert Execute(Next(w, i), [i][1..]) == Next(w, i);
  }

  lemma {:induction false} ExecuteJoins(w: World, a: seq<Input>, b: seq<Input>)
    requires Shaped(w)
    ensures Execute(w, a + b) == Execute(Execute(w, a), b)
    decreases |a|
  {
    hide Next;
    if |a| == 0 {
      assert a + b == b;
    } else {
      assert (a + b)[1..] == a[1..] + b;
      ExecuteJoins(Next(w, a[0]), a[1..], b);
    }
  }

  function Ticks(answers: seq<Answer>): (r: seq<Input>)
    ensures |r| == |answers| && forall x :: 0 <= x < |r| ==> r[x] == Tick(answers[x])
  {
    seq(|answers|, x requires 0 <= x < |answers| => Tick(answers[x]))
  }

  /** A tick of a running pass is a turn of it. */
  lemma {:induction false} TicksTurn(w: World, answers: seq<Answer>)
    requires Shaped(w) && w.pass.Some? && |answers| > 0
    ensures Execute(w, Ticks(answers)) == Execute(Turn(w, answers[0]), Ticks(answers[1..]))
    ensures |answers| == 1 ==> Execute(w, Ticks(answers)) == Turn(w, answers[0])
  {
    hide Advance;
    assert Ticks(answers)[1..] == Ticks(answers[1..]);
  }

  /** Hand an open step to the policy. */
  lemma Governs(w: World, support: set<nat>, j: nat, k: nat) returns (v: World, p: Pass)
    requires AtHeadOf(w, support, j, k) && !Resolved(w.store.rows[k].status) && !Breaks(w.plan, w.store.rows, k)
    ensures v == Turn(w, Proceed) && Shaped(v) && v.plan == w.plan
    ensures v.pass == Some(p) && p == w.pass.value.(control := Govern)
    ensures v.store == w.store.(checkpoint := v.store.checkpoint) && v.log == w.log
  {
    hide Breaks, Advance;
    AdvanceHead(w, w.pass.value, Proceed);
    v := Turn(w, Proceed);
    p := w.pass.value.(control := Govern);
  }

  /** Leave a step behind without invoking it: it is resolved, skipped or denied. */
  lemma GivesUp(w: World, support: set<nat>, j: nat, k: nat) returns (answers: seq<Answer>)
    requires AtHeadOf(w, support, j, k) && k < j && k !in support
    ensures AtHeadOf(Execute(w, Ticks(answers)), support, j, k + 1)
    ensures Grown(w.log, Execute(w, Ticks(answers)).log, j) && Aside(w, Execute(w, Ticks(answers)), j)
  {
    hide Breaks, Advance, Execute, Grown;
    var p := w.pass.value;
    if Resolved(p.rows[k].status) || Breaks(w.plan, p.rows, k) {
      answers := [Proceed];
      TicksTurn(w, answers);
      PassesBy(w, support, j, k);
    } else {
      var v, q := Governs(w, support, j, k);
      answers := [Proceed, Deny];
      TicksTurn(w, answers);
      TicksTurn(v, answers[1..]);
      Denies(v, q, support, j, k);
    }
  }

  lemma PassesBy(w: World, support: set<nat>, j: nat, k: nat)
    requires AtHeadOf(w, support, j, k) && k < j && k !in support
    requires Resolved(w.store.rows[k].status) || Breaks(w.plan, w.store.rows, k)
    ensures AtHeadOf(Turn(w, Proceed), support, j, k + 1)
    ensures Grown(w.log, Turn(w, Proceed).log, j) && Aside(w, Turn(w, Proceed), j)
  {
    hide Breaks, Advance;
    AdvanceHead(w, w.pass.value, Proceed);
  }

  lemma Denies(w: World, p: Pass, support: set<nat>, j: nat, k: nat)
    requires Shaped(w) && w.pass == Some(p) && p.control == Govern && p.index == k && p.state == Executing
    requires p.rows == w.store.rows && w.store.task == Executing
    requires OnTheWay(w.store.rows, support, j, k) && k < j && k !in support
    ensures AtHeadOf(Turn(w, Deny), support, j, k + 1)
    ensures Grown(w.log, Turn(w, Deny).log, j) && Aside(w, Turn(w, Deny), j)
  {
    hide Advance;
    AdvanceGovern(w, p, Deny);
  }

  /** Mark the step running, in memory and in the store. */
  lemma Starts(w: World, p: Pass, j: nat) returns (u: World, v: World, q: Pass)
    requires Shaped(w) && w.pass == Some(p) && p.control == Govern
    ensures u == Turn(w, Allow) && Shaped(u) && u.pass.Some?
    ensures v == Turn(u, Proceed) && Shaped(v) && v.plan == w.plan && v.pass == Some(q)
    ensures q == p.(control := Launch, rows := p.rows[p.index := StartedRow(p.rows[p.index])])
    ensures v.store.rows == w.store.rows[p.index := StartedRow(p.rows[p.index])] && v.store.task == w.store.task
    ensures v.store.approvals == w.store.approvals && v.telemetry == w.telemetry
    ensures v.store.checkpoint == w.store.checkpoint
    ensures Grown(w.log, v.log, j) && (p.index != j < |w.plan| ==> Aside(w, v, j))
  {
    hide Advance, ReceiptOf;
    AdvanceGovern(w, p, Allow);
    u := Turn(w, Allow);
    AdvanceBegin(u, u.pass.value, Proceed);
    ReceiptBegins(w.store.receipts, p.index, p.rows[p.index].attempts + 1);
    v := Turn(u, Proceed);
    q := v.pass.value;
  }

  /** From the policy's yes to the invocation. */
  lemma Launches(w: World, p: Pass, j: nat) returns (v: World, q: Pass)
    requires Shaped(w) && w.pass == Some(p) && p.control == Govern
    ensures v == Execute(w, Ticks([Allow, Proceed, Proceed])) && Shaped(v) && v.plan == w.plan
    ensures v.pass == Some(q) && q == p.(control := Await, rows := p.rows[p.index := StartedRow(p.rows[p.index])],
                                         dispatches := p.dispatches + [p.index])
    ensures v.store.rows == w.store.rows[p.index := StartedRow(p.rows[p.index])] && v.store.task == w.store.task
    ensures v.store.approvals == w.store.approvals && v.telemetry == w.telemetry
    ensures v.store.checkpoint == w.store.checkpoint
    ensures Grown(w.log, v.log, j) && (p.index != j < |w.plan| ==> Aside(w, v, j))
    ensures |v.log| > |w.log| && v.log[|v.log| - 1] == Dispatched(p.index, p.rows[p.index].attempts + 1)
  {
    hide Advance, Execute;
    var answers := [Allow, Proceed, Proceed];
    var w2, w3, p3 := Starts(w, p, j);
    TicksTurn(w, answers);
    TicksTurn(w2, answers[1..]);
    TicksTurn(w3, answers[2..]);
    AdvanceLaunch(w3, p3, Proceed);
    v := Turn(w3, Proceed);
    q := v.pass.value;
    assert Grown(w3.log, v.log, j);
    GrownJoins(w.log, w3.log, v.log, j);
  }

  /** Invoke an open step. */
  lemma Invokes(w: World, support: set<nat>, j: nat, k: nat) returns (v: World, q: Pass)
    requires AtHeadOf(w, support, j, k) && !Resolved(w.store.rows[k].status) && !Breaks(w.plan, w.store.rows, k)
    ensures v == Execute(w, Ticks([Proceed, Allow, Proceed, Proceed])) && Shaped(v) && v.plan == w.plan
    ensures v.pass == Some(q) && q.control == Await && q.index == k && q.state == Executing
    ensures q.rows == v.store.rows == w.store.rows[k := StartedRow(w.store.rows[k])]
    ensures v.store.task == Executing && q.start <= k
    ensures Grown(w.log, v.log, j) && (k != j ==> Aside(w, v, j))
    ensures |v.log| > |w.log| && v.log[|v.log| - 1] == Dispatched(k, w.store.rows[k].attempts + 1)
  {
    hide Advance, Breaks, Grown;
    var answers := [Proceed, Allow, Proceed, Proceed];
    var w1, p1 := Governs(w, support, j, k);
    TicksTurn(w, answers);
    assert answers[1..] == [Allow, Proceed, Proceed];
    v, q := Launches(w1, p1, j);
  }

  lemma CompletesTheWay(before: seq<Row>, support: set<nat>, j: nat, k: nat)
    requires OnTheWay(before, support, j, k) && k < j && k in support
    ensures j < |before|
    ensures var rows := before[k := StartedRow(before[k])];
      OnTheWay(rows[k := CompletedRow(rows[k])], support, j, k + 1)
  {
    var rows := before[k := StartedRow(before[k])];
    assert rows[k := CompletedRow(rows[k])] == before[k := CompletedRow(rows[k])];
  }

  const DONE: seq<Answer> := [Outcome(InTime(Fulfilled(false))), Proceed]

  /** The tool succeeds. */
  lemma Ends(w: World, q: Pass, j: nat) returns (u: World)
    requires Shaped(w) && w.pass == Some(q) && q.control == Await && q.index != j < |w.plan|
    ensures u == Turn(w, DONE[0]) && Shaped(u) && u.plan == w.plan && u.telemetry == w.telemetry
    ensures u.pass == Some(q.(control := Closing(SettleCompleted)))
    ensures u.store == w.store.(receipts := u.store.receipts)
    ensures Grown(w.log, u.log, j) && Aside(w, u, j)
  {
    hide Advance, ReceiptOf, Latest;
    AdvanceAwait(w, q, DONE[0]);
    ReceiptEnds(w, q.index, Succeeded);
    u := Turn(w, DONE[0]);
  }

  /** The tool succeeds, and the step is saved as completed. */
  lemma {:induction false} Succeeds(w: World, q: Pass, before: seq<Row>, support: set<nat>, j: nat, k: nat)
    requires Shaped(w) && w.pass == Some(q) && q.control == Await && q.index == k && q.state == Executing
    requires q.rows == w.store.rows && w.store.task == Executing && k < j && k in support
    requires OnTheWay(before, support, j, k) && w.store.rows == before[k := StartedRow(before[k])]
    ensures var v := Execute(w, Ticks(DONE));
      AtHeadOf(v, support, j, k + 1) && Grown(w.log, v.log, j) && Aside(w, v, j)
  {
    hide Advance, ReceiptOf, OnTheWay, Execute;
    CompletesTheWay(before, support, j, k);
    TicksTurn(w, DONE);
    var u := Ends(w, q, j);
    TicksTurn(u, DONE[1..]);
    AdvanceClosing(u, u.pass.value, Proceed);
  }

  /** Complete an open step of the support. */
  lemma Completes(w: World, support: set<nat>, j: nat, k: nat) returns (answers: seq<Answer>)
    requires AtHeadOf(w, support, j, k) && k < j && k in support && w.store.rows[k].status == Pending
    requires !Breaks(w.plan, w.store.rows, k)
    ensures AtHeadOf(Execute(w, Ticks(answers)), support, j, k + 1)
    ensures Grown(w.log, Execute(w, Ticks(answers)).log, j) && Aside(w, Execute(w, Ticks(answers)), j)
  {
    hide Advance, Breaks, Execute, ReceiptOf, Grown;
    var v, q := Invokes(w, support, j, k);
    var first := [Proceed, Allow, Proceed, Proceed];
    answers := first + DONE;
    assert Ticks(answers) == Ticks(first) + Ticks(DONE);
    ExecuteJoins(w, Ticks(first), Ticks(DONE));
    Succeeds(v, q, w.store.rows, support, j, k);
    GrownJoins(w.log, v.log, Execute(v, Ticks(DONE)).log, j);
  }

  // ---------------------------------------------------------------------------
  // The whole way
  // ---------------------------------------------------------------------------

  /** From the head of the loop to that of step `j`. */
  lemma {:induction false} Approaches(w: World, support: set<nat>, j: nat, k: nat) returns (answers: seq<Answer>)
    requires AtHeadOf(w, support, j, k) && Supports(w.plan, support, j)
    ensures var v := Execute(w, Ticks(answers));
      AtHeadOf(v, support, j, j) && Grown(w.log, v.log, j) && Aside(w, v, j)
    decreases j - k
  {
    hide Advance, Breaks, Execute;
    if k == j {
      answers := [];
      NoTicks(w);
    } else {
      var first;
      if k !in support {
        first := GivesUp(w, support, j, k);
      } else if w.store.rows[k].status == Pending {
        NotBroken(w.plan, w.store.rows, support, j, k);
        first := Completes(w, support, j, k);
      } else {
        first := Skips(w, support, j, k);
      }
      var v := Execute(w, Ticks(first));
      var rest := Approaches(v, support, j, k + 1);
      answers := first + rest;
      assert Ticks(answers) == Ticks(first) + Ticks(rest);
      ExecuteJoins(w, Ticks(first), Ticks(rest));
      GrownJoins(w.log, v.log, Execute(v, Ticks(rest)).log, j);
    }
  }

  lemma {:induction false} NoTicks(w: World)
    requires Shaped(w)
    ensures Execute(w, Ticks([])) == w
  {
  }

  /** A completed step is walked past. */
  lemma Skips(w: World, support: set<nat>, j: nat, k: nat) returns (answers: seq<Answer>)
    requires AtHeadOf(w, support, j, k) && k < j && w.store.rows[k].status == Completed
    ensures AtHeadOf(Execute(w, Ticks(answers)), support, j, k + 1)
    ensures Grown(w.log, Execute(w, Ticks(answers)).log, j) && Aside(w, Execute(w, Ticks(answers)), j)
  {
    hide Breaks, Advance;
    answers := [Proceed];
    TicksTurn(w, answers);
    AdvanceHead(w, w.pass.value, Proceed);
  }

  lemma {:induction false} Enters(w: World, p: Pass, support: set<nat>, j: nat)
    requires Shaped(w) && w.pass == Some(p) && p.control == Enter
    requires p.rows == w.store.rows && CanMove(p.state, Executing)
    requires OnTheWay(w.store.rows, support, j, p.index)
    ensures AtHeadOf(Execute(w, Ticks([Proceed])), support, j, p.index)
    ensures var v := Execute(w, Ticks([Proceed])); v.log == w.log && v.plan == w.plan && Aside(w, v, j)
  {
    hide Advance, CanMove;
    TicksTurn(w, [Proceed]);
    AdvanceEnter(w, p, Proceed);
  }

  /** The command starts a pass that has all of the way to step `j` before it. */
  ghost predicate SetsOut(w: World, i: Input, support: set<nat>, j: nat) {
    && Shaped(w) && Supports(w.plan, support, j)
    && var v := Next(w, i);
       && v.pass.Some? && v.pass.value.control == Enter && v.pass.value.rows == v.store.rows
       && CanMove(v.pass.value.state, Executing)
       && OnTheWay(v.store.rows, support, j, v.pass.value.index)
       && v.log == w.log && Aside(w, v, j)
  }

  /** Start a pass with `i` and drive it to the head of step `j`. */
  lemma Arrives(w: World, i: Input, support: set<nat>, j: nat) returns (inputs: seq<Input>)
    requires SetsOut(w, i, support, j)
    ensures var v := Execute(w, inputs);
      AtHeadOf(v, support, j, j) && Grown(w.log, v.log, j) && Aside(w, v, j)
  {
    hide Next, CanMove, Execute, OnTheWay, Grown, ReceiptOf;
    var v := Next(w, i);
    Enters(v, v.pass.value, support, j);
    var u := Execute(v, Ticks([Proceed]));
    var answers := Approaches(u, support, j, v.pass.value.index);
    inputs := [i] + (Ticks([Proceed]) + Ticks(answers));
    ExecuteJoins(w, [i], Ticks([Proceed]) + Ticks(answers));
    ExecuteOne(w, i);
    ExecuteJoins(v, Ticks([Proceed]), Ticks(answers));
  }

  /** Start a pass with `i` and drive it to the invocation of step `j`. */
  lemma Reaches(w: World, i: Input, support: set<nat>, j: nat) returns (inputs: seq<Input>)
    requires SetsOut(w, i, support, j)
    ensures var v := Execute(w, inputs);
      && v.pass.Some? && v.pass.value.control == Await && v.pass.value.index == j
      && v.pass.value.rows == v.store.rows
      && OnTheWay(v.store.rows, support, j, j) && v.store.rows[j].status == Running
      && v.store.task == Executing
      && Grown(w.log, v.log, j)
      && |v.log| > |w.log| && v.log[|v.log| - 1].Dispatched? && v.log[|v.log| - 1].step == j
  {
    hide Next, CanMove, Execute, Breaks, Aside;
    var first := Arrives(w, i, support, j);
    var v := Execute(w, first);
    NotBroken(v.plan, v.store.rows, support, j, j);
    var last := [Proceed, Allow, Proceed, Proceed];
    var u, q := Invokes(v, support, j, j);
    inputs := first + Ticks(last);
    ExecuteJoins(w, first, Ticks(last));
    GrownJoins(w.log, v.log, u.log, j);
  }

  lemma RunReaches(plan: Plan, support: set<nat>, j: nat)
    requires ValidPlan(plan) && Supports(plan, support, j)
    ensures SetsOut(Created(plan), Run(0), support, j)
  {
    var w := Created(plan);
    FirstHasNoDeps(plan);
    assert First(w.store.rows, {Pending}) == Some(0);
    assert First(w.store.rows, UNRESOLVED) == Some(0);
    assert First(w.store.rows, {OutcomeUnknown}).None?;
  }

  lemma RecoveryReaches(w: World, support: set<nat>, j: nat, i: nat)
    requires Shaped(w) && w.pass.None? && Supports(w.plan, support, j)
    requires OnTheWay(w.store.rows, support, j, j) && w.store.rows[j].status == Running
    requires w.store.task == Executing && i < j && i !in support
    ensures SetsOut(w, Recover, support, j)
  {
    var first := First(w.store.rows, NOT_COMPLETED);
    assert first.Some? && first.value <= i;
    assert First(w.store.rows, {OutcomeUnknown}).None?;
  }

  /** Two invocations of a step, with none of its receipts finalised in between. */
  lemma NotOnce(log: seq<Event>, x: nat, y: nat, j: nat)
    requires x < y < |log| && log[x].Dispatched? && log[y].Dispatched? && log[x].step == j && log[y].step == j
    requires forall z :: x < z < y && log[z].Finished? ==> log[z].step != j
    ensures !OnceOf(log, j)
  {
    assert !Between(log, x, y, Finished(j, log[x].attempt, FailedKnown));
  }

  /** Every valid plan in which some mutation can be reached without all the steps before it
      has a run that invokes that mutation twice with no known failure in between. */
  lemma StaleMutationIsReplayed(plan: Plan, support: set<nat>, j: nat, i: nat) returns (inputs: seq<Input>)
    requires ValidPlan(plan) && Supports(plan, support, j) && Mutates(plan, j)
    requires i < j && i !in support
    ensures !OnceOf(Execute(Created(plan), inputs).log, j) && !AtMostOnce(plan, Execute(Created(plan), inputs).log)
  {
    hide Execute, OnTheWay, Supports, ValidPlan, Advance, StartRun, StartRecovery;
    var w := Created(plan);
    RunReaches(plan, support, j);
    var once := Reaches(w, Run(0), support, j);
    var v := Execute(w, once);
    var dead := v.(pass := None);
    ExecuteOne(v, Crash);
    RecoveryReaches(dead, support, j, i);
    var again := Reaches(dead, Recover, support, j);
    var u := Execute(dead, again);
    inputs := once + ([Crash] + again);
    ExecuteJoins(w, once, [Crash] + again);
    ExecuteJoins(v, [Crash], again);
    var x, y := |v.log| - 1, |u.log| - 1;
    GrownJoins([], v.log, u.log, j);
    assert u.log[x] == u.log[..|v.log|][x] == v.log[x];
    NotOnce(u.log, x, y, j);
  }

  /** For plans of mutations the success chains are exactly the plans that are safe: every run
      of a plan is at-most-once if and only if the plan is a success chain. */
  lemma ExactlyChainsRunAtMostOnce(plan: Plan)
    requires ValidPlan(plan)
    requires forall k :: 0 <= k < |plan| ==> plan[k].selected == Mutation
    ensures SuccessChain(plan) <==> forall inputs :: AtMostOnce(plan, Execute(Created(plan), inputs).log)
  {
    hide Execute, AtMostOnce;
    if SuccessChain(plan) {
      forall inputs ensures AtMostOnce(plan, Execute(Created(plan), inputs).log) {
        ChainRunsAtMostOnce(plan, inputs);
      }
    } else {
      var support, j := LooseStep(plan);
      var inputs := StaleMutationIsReplayed(plan, support, j, j - 1);
    }
  }

  ghost function Below(n: nat): (r: set<nat>)
    ensures forall k :: k in r <==> 0 <= k < n
  {
    if n == 0 then {} else Below(n - 1) + {n - 1}
  }

  /** The first step that does not run on the success of its predecessor can be reached without
      it. */
  lemma LooseSupport(plan: Plan, j: nat) returns (support: set<nat>)
    requires ValidPlan(plan) && 0 < j < |plan| && !Linked(plan, j)
    requires forall k :: 0 < k < j ==> Linked(plan, k)
    ensures Supports(plan, support, j) && j - 1 !in support
  {
    FirstHasNoDeps(plan);
    if plan[j].runWhen == OnSuccess {
      support := Below(j - 1);
      forall d | d in plan[j].deps ensures Find(plan, d).value in support {
        assert plan[Find(plan, d).value].id == d;
      }
      forall k | k in support ensures k < j && RunsOn(plan, support, k) {
        assert k > 0 ==> Linked(plan, k);
      }
    } else {
      support := {};
      if |plan[j].deps| > 0 {
        var d := plan[j].deps[0];
        assert d in plan[j].deps && Find(plan, d).Some? && Find(plan, d).value < j && Find(plan, d).value !in support;
      }
    }
  }

  /** A plan that is no chain has a step that can be reached without the one before it. */
  lemma LooseStep(plan: Plan) returns (support: set<nat>, j: nat)
    requires ValidPlan(plan) && !SuccessChain(plan)
    ensures 0 < j < |plan| && Supports(plan, support, j) && j - 1 !in support
  {
    j := 1;
    while j < |plan| && Linked(plan, j)
      invariant 1 <= j && forall k :: 0 < k < j && k < |plan| ==> Linked(plan, k)
    {
      j := j + 1;
    }
    support := LooseSupport(plan, j);
  }

  // ---------------------------------------------------------------------------
  // Resuming
  // ---------------------------------------------------------------------------

  /** An approval that would be resumed: granted, for the step of the latest checkpoint, which is
      not to be skipped, in a task that can be resumed and has no other unresolved effect. */
  ghost predicate Resumable(w: World, a: nat) {
    && Shaped(w) && w.pass.None? && ForCheckpoint(w.store, a)
    && w.store.task in {WaitingApproval, Executing, TaskFailed, Verifying}
    && var k := w.store.approvals[a].step;
       var rows := w.store.rows[k := w.store.rows[k].(status := Pending)];
       NoUnknown(rows) && !Breaks(w.plan, rows, k)
  }

  const REPEAT: seq<Answer> := [Proceed, Proceed, Allow, Proceed, Proceed]

  lemma {:induction false} ResumeInvokes(w: World, a: nat, m: nat)
    requires Resumable(w, a)
    ensures var k := w.store.approvals[a].step;
      var v := Execute(w, [Resume(a, m)] + Ticks(REPEAT));
      |v.log| > |w.log| && v.log[..|w.log|] == w.log &&
      exists y :: |w.log| <= y < |v.log| && v.log[y].Dispatched? && v.log[y].step == k
  {
    hide Breaks, Advance, First;
    ExecuteJoins(w, [Resume(a, m)], Ticks(REPEAT));
    ExecuteOne(w, Resume(a, m));
    var w0 := Next(w, Resume(a, m));
    var p0 := w0.pass.value;
    UnknownIsUnknown(p0.rows);
    ResumeWalks(w0, p0);
  }

  /** From a fresh pass over a step that is neither resolved nor skipped to its invocation. */
  lemma {:induction false} ResumeWalks(w: World, p: Pass)
    requires Shaped(w) && w.pass == Some(p) && p.control == Enter && p.index < |w.plan|
    requires CanMove(p.state, Executing) && !HasUnknown(p.rows)
    requires p.rows[p.index].status == Pending && !Breaks(w.plan, p.rows, p.index)
    ensures var v := Execute(w, Ticks([Proceed, Proceed, Allow, Proceed, Proceed]));
      Grown(w.log, v.log, |w.plan|) && |v.log| > |w.log| &&
      v.log[|v.log| - 1] == Dispatched(p.index, p.rows[p.index].attempts + 1)
  {
    hide Breaks, Advance, HasUnknown, Grown, Execute, CanMove;
    var first, rest := [Proceed, Proceed], [Allow, Proceed, Proceed];
    assert Ticks([Proceed, Proceed, Allow, Proceed, Proceed]) == Ticks(first) + Ticks(rest);
    ExecuteJoins(w, Ticks(first), Ticks(rest));
    EntersGovern(w, p);
    var v, q := Launches(Execute(w, Ticks(first)), p.(state := Executing, control := Govern), |w.plan|);
  }

  lemma {:induction false} EntersGovern(w: World, p: Pass)
    requires Shaped(w) && w.pass == Some(p) && p.control == Enter && p.index < |w.plan|
    requires CanMove(p.state, Executing) && !HasUnknown(p.rows)
    requires p.rows[p.index].status == Pending && !Breaks(w.plan, p.rows, p.index)
    ensures var v := Execute(w, Ticks([Proceed, Proceed]));
      v.pass == Some(p.(state := Executing, control := Govern)) && v.log == w.log && v.plan == w.plan
  {
    hide Breaks, Advance, HasUnknown, CanMove, Execute;
    LegalMoves();
    var answers := [Proceed, Proceed];
    TicksTurn(w, answers);
    AdvanceEnter(w, p, Proceed);
    var w1 := Turn(w, Proceed);
    TicksTurn(w1, answers[1..]);
    AdvanceHead(w1, w1.pass.value, Proceed);
  }

  /** After any run whose resumptions were all of open steps, one more resumption respects finality
      exactly when its step is not final: otherwise a step saved as completed, or of unknown
      outcome, is invoked again. */
  lemma {:induction false} ResumeRespectsFinality(plan: Plan, before: seq<Input>, a: nat, m: nat)
    requires OpenResumes(Created(plan), before) && Resumable(Execute(Created(plan), before), a)
    ensures var w := Execute(Created(plan), before);
      !Final(w.store.rows[w.store.approvals[a].step].status) <==>
      forall rest: seq<Input> :: (forall i :: i in rest ==> !i.Resume?) ==> StaysFinal(w, a, m, rest)
  {
    hide Execute, StaysFinal, Breaks, Finalised, Recorded, Coherent, Accounted, Counting;
    var w := Execute(Created(plan), before);
    CreatedConsistent(plan);
    RunsConsistent(Created(plan), before);
    RunsFinal(Created(plan), before);
    assert Recorded(Created(plan).store.rows, Created(plan).log) by {
      NothingToRecord(plan);
    }
    RunsRecord(Created(plan), before);
    if Final(w.store.rows[w.store.approvals[a].step].status) {
      FinalStepRepeats(w, a, m);
      assert forall i :: i in Ticks(REPEAT) ==> !i.Resume?;
    } else {
      forall rest: seq<Input> | forall i :: i in rest ==> !i.Resume? ensures StaysFinal(w, a, m, rest) {
        OpenStepStaysFinal(w, a, m, rest);
      }
    }
  }

  /** The run goes on with this resumption and `rest`. */
  ghost predicate StaysFinal(w: World, a: nat, m: nat, rest: seq<Input>)
    requires Shaped(w)
  {
    var v := Execute(w, [Resume(a, m)] + rest);
    StopsAtUnknown(v.log) && CompletedIsFinal(v.log)
  }

  lemma NothingToRecord(plan: Plan)
    ensures Recorded(Created(plan).store.rows, Created(plan).log)
  {
  }

  lemma {:induction false} FinalStepRepeats(w: World, a: nat, m: nat)
    requires Resumable(w, a) && Recorded(w.store.rows, w.log) && Final(w.store.rows[w.store.approvals[a].step].status)
    ensures !StaysFinal(w, a, m, Ticks(REPEAT))
  {
    hide Execute, Breaks;
    var k := w.store.approvals[a].step;
    ResumeInvokes(w, a, m);
    var v := Execute(w, [Resume(a, m)] + Ticks(REPEAT));
    var y :| |w.log| <= y < |v.log| && v.log[y].Dispatched? && v.log[y].step == k;
    assert Saved(k, w.store.rows[k].status) in w.log;
    var x :| 0 <= x < |w.log| && w.log[x] == Saved(k, w.store.rows[k].status);
    assert v.log[x] == v.log[..|w.log|][x];
    assert x < y;
  }

  lemma {:induction false} OpenStepStaysFinal(w: World, a: nat, m: nat, rest: seq<Input>)
    requires Shaped(w) && Coherent(w) && Finalised(w) && ResumesOpen(w.store, a)
    requires forall i :: i in rest ==> !i.Resume?
    ensures StaysFinal(w, a, m, rest)
  {
    hide Coherent, Next, PassFinal, StopsAtUnknown, CompletedIsFinal;
    var inputs := [Resume(a, m)] + rest;
    assert inputs[1..] == rest;
    NoResumes(Next(w, inputs[0]), rest);
    RunsFinal(w, inputs);
  }

  lemma {:induction false} NoResumes(w: World, inputs: seq<Input>)
    requires Shaped(w) && forall i :: i in inputs ==> !i.Resume?
    ensures OpenResumes(w, inputs)
    decreases |inputs|
  {
    hide Next;
    if |inputs| > 0 {
      NoResumes(Next(w, inputs[0]), inputs[1..]);
    }
  }
}
