/** validateTaskPlan: an order-based check that also fills in the default chain. */
module PlanValidator {
  import opened Options
  import opened TaskDomain
  import opened EngineAtMostOnce
  import opened PlanGraph

  /** A step as it is handed in. `toolAccepted` says that no tool is named, or that its name and
      arguments are valid; `refs` are the steps that the templates in its arguments refer to, in
      the order in which they are found. */
  datatype Draft = Draft(id: int, dependsOn: Option<seq<int>>, toolAccepted: bool, refs: seq<int>)

  datatype TemplateReason = UnknownStep | SelfReference | FutureStep

  datatype TemplateError = TemplateError(step: int, ref: int, reason: TemplateReason)

  /** The dependencies of a step; by default, the step before it. */
  function DepsOf(drafts: seq<Draft>, i: nat): seq<int>
    requires i < |drafts|
  {
    if drafts[i].dependsOn.Some? then drafts[i].dependsOn.value
    else if i > 0 then [drafts[i - 1].id]
    else []
  }

  function Filled(drafts: seq<Draft>): (r: seq<Node>)
    ensures |r| == |drafts|
    ensures forall i :: 0 <= i < |drafts| ==> r[i] == Node(drafts[i].id, DepsOf(drafts, i))
  {
    seq(|drafts|, i requires 0 <= i < |drafts| => Node(drafts[i].id, DepsOf(drafts, i)))
  }

  predicate Earlier(steps: seq<Node>, i: nat, d: int)
    requires i <= |steps|
  {
    exists j :: 0 <= j < i && steps[j].id == d
  }

  /** Every dependency of the first `n` steps names an earlier step, and no two of them share an
      id. */
  ghost predicate OrderedUpTo(steps: seq<Node>, n: nat)
    requires n <= |steps|
  {
    && (forall i, j :: 0 <= i < j < n ==> steps[i].id != steps[j].id)
    && forall i, d :: 0 <= i < n && d in steps[i].deps ==> Earlier(steps, i, d)
  }

  ghost predicate Ordered(steps: seq<Node>) {
    OrderedUpTo(steps, |steps|)
  }

  lemma OneMore(steps: seq<Node>, n: nat)
    requires n < |steps|
    ensures OrderedUpTo(steps, n + 1) <==>
      && OrderedUpTo(steps, n)
      && !Earlier(steps, n, steps[n].id)
      && forall d :: d in steps[n].deps ==> Earlier(steps, n, d)
  {
  }

  lemma OrderedBefore(steps: seq<Node>, n: nat)
    requires n <= |steps| && Ordered(steps)
    ensures OrderedUpTo(steps, n)
  {
  }

  /** Every template of the first `n` steps refers to an earlier step. */
  ghost predicate ReferringBack(drafts: seq<Draft>, n: nat)
    requires n <= |drafts|
  {
    forall i, r :: 0 <= i < n && r in drafts[i].refs ==> Earlier(Filled(drafts), i, r)
  }

  /** The reason given is the right one. */
  ghost predicate Explained(ids: set<int>, e: TemplateError) {
    match e.reason
    case UnknownStep => e.ref !in ids
    case SelfReference => e.ref in ids && e.ref == e.step
    case FutureStep => e.ref in ids && e.ref != e.step
  }

  /** The position of each id; of the last step that has it, if several do. */
  method StepOrder(drafts: seq<Draft>) returns (order: map<int, nat>)
    ensures forall i :: 0 <= i < |drafts| ==> drafts[i].id in order
    ensures forall id :: id in order ==> order[id] < |drafts| && drafts[order[id]].id == id
  {
    order := map[];
    for i := 0 to |drafts|
      invariant forall k :: 0 <= k < i ==> drafts[k].id in order
      invariant forall id :: id in order ==> order[id] < i && drafts[order[id]].id == id
    {
      order := order[drafts[i].id := i];
    }
  }

  /** validateTemplateReferences: over distinct ids there is no error exactly when every template
      refers to an earlier step. */
  method ValidateTemplateReferences(drafts: seq<Draft>) returns (errors: seq<TemplateError>)
    ensures DistinctIds(Filled(drafts)) ==> (errors == [] <==> ReferringBack(drafts, |drafts|))
    ensures forall e :: e in errors ==> Explained(set i | 0 <= i < |drafts| :: drafts[i].id, e)
  {
    hide Filled, DistinctIds, Earlier, Explained;
    ghost var ids := set i | 0 <= i < |drafts| :: drafts[i].id;
    var order := StepOrder(drafts);
    errors := [];
    for i := 0 to |drafts|
      invariant DistinctIds(Filled(drafts)) ==> (errors == [] <==> ReferringBack(drafts, i))
      invariant forall e :: e in errors ==> Explained(ids, e)
    {
      var found := StepErrors(drafts, i, order);
      errors := errors + found;
    }
  }

  method StepErrors(drafts: seq<Draft>, i: nat, order: map<int, nat>) returns (errors: seq<TemplateError>)
    requires i < |drafts|
    requires forall i :: 0 <= i < |drafts| ==> drafts[i].id in order
    requires forall id :: id in order ==> order[id] < |drafts| && drafts[order[id]].id == id
    ensures DistinctIds(Filled(drafts)) ==>
      (errors == [] <==> forall r :: r in drafts[i].refs ==> Earlier(Filled(drafts), i, r))
    ensures forall e :: e in errors ==> Explained(set i | 0 <= i < |drafts| :: drafts[i].id, e)
  {
    ghost var ids := set i | 0 <= i < |drafts| :: drafts[i].id;
    var step := drafts[i];
    errors := [];
    for j := 0 to |step.refs|
      invariant DistinctIds(Filled(drafts)) ==>
        (errors == [] <==> forall k :: 0 <= k < j ==> Earlier(Filled(drafts), i, step.refs[k]))
      invariant forall e :: e in errors ==> Explained(ids, e)
    {
      var ref := step.refs[j];
      OrderTells(drafts, i, order, ref);
      if ref !in order {
        errors := errors + [TemplateError(step.id, ref, UnknownStep)];
      } else if ref == step.id {
        errors := errors + [TemplateError(step.id, ref, SelfReference)];
      } else if order[ref] > order[step.id] {
        errors := errors + [TemplateError(step.id, ref, FutureStep)];
      }
    }
  }

  lemma OrderTells(drafts: seq<Draft>, i: nat, order: map<int, nat>, ref: int)
    requires i < |drafts|
    requires forall i :: 0 <= i < |drafts| ==> drafts[i].id in order
    requires forall id :: id in order ==> order[id] < |drafts| && drafts[order[id]].id == id
    ensures ref in order <==> exists k :: 0 <= k < |drafts| && drafts[k].id == ref
    ensures DistinctIds(Filled(drafts)) ==>
      (Earlier(Filled(drafts), i, ref) <==>
       ref in order && ref != drafts[i].id && order[ref] <= order[drafts[i].id])
  {
    var nodes := Filled(drafts);
    if DistinctIds(nodes) {
      assert order[drafts[i].id] == i by {
        assert nodes[order[drafts[i].id]].id == nodes[i].id;
      }
      if Earlier(nodes, i, ref) {
        var j :| 0 <= j < i && nodes[j].id == ref;
        assert nodes[order[ref]].id == nodes[j].id;
      }
      if ref in order && ref != drafts[i].id && order[ref] <= i {
        assert nodes[order[ref]].id == ref;
      }
    }
  }

  /** Fills in the dependencies of each step, in place, and accepts the plan exactly when it has a
      title, it is ordered, its tools are accepted and its templates refer to earlier steps. */
  method ValidateTaskPlan(titled: bool, steps: array<Draft>) returns (ok: bool)
    modifies steps
    ensures var before := old(steps[..]);
      ok <==> titled && |before| > 0 && Ordered(Filled(before)) && ReferringBack(before, |before|)
              && forall i :: 0 <= i < |before| ==> before[i].toolAccepted
    ensures ok ==> forall i :: 0 <= i < steps.Length ==>
      steps[i] == old(steps[i]).(dependsOn := Some(Filled(old(steps[..]))[i].deps))
  {
    hide ReferringBack, OrderedUpTo;
    ghost var before := steps[..];
    if !titled {
      return false;
    }
    if steps.Length == 0 {
      return false;
    }
    ok := CheckSteps(steps);
    if !ok {
      return;
    }
    FilledInPlace(before, steps[..]);
    var errors := ValidateTemplateReferences(steps[..]);
    ok := errors == [];
  }

  /** The templates are checked on the steps as they were filled in. */
  lemma FilledInPlace(before: seq<Draft>, after: seq<Draft>)
    requires Ordered(Filled(before)) && |after| == |before|
    requires forall i :: 0 <= i < |before| ==> after[i] == before[i].(dependsOn := Some(Filled(before)[i].deps))
    ensures DistinctIds(Filled(after))
    ensures ReferringBack(after, |after|) <==> ReferringBack(before, |before|)
  {
    assert Filled(after) == Filled(before);
  }

  /** The walk over the steps. */
  method CheckSteps(steps: array<Draft>) returns (ok: bool)
    modifies steps
    ensures var before := old(steps[..]);
      ok <==> Ordered(Filled(before)) && forall i :: 0 <= i < |before| ==> before[i].toolAccepted
    ensures ok ==> forall i :: 0 <= i < steps.Length ==>
      steps[i] == old(steps[i]).(dependsOn := Some(Filled(old(steps[..]))[i].deps))
  {
    hide Earlier, OrderedUpTo;
    ghost var before := steps[..];
    ghost var nodes := Filled(before);
    var seen := {};
    Nothing(nodes);
    for i := 0 to steps.Length
      invariant forall k :: 0 <= k < i ==> steps[k] == before[k].(dependsOn := Some(nodes[k].deps))
      invariant forall k :: i <= k < steps.Length ==> steps[k] == before[k]
      invariant forall id :: id in seen <==> Earlier(nodes, i, id)
      invariant OrderedUpTo(nodes, i) && forall k :: 0 <= k < i ==> before[k].toolAccepted
    {
      if Ordered(nodes) {
        OrderedBefore(nodes, i + 1);
      }
      OneMore(nodes, i);
      var id := steps[i].id;
      if id in seen {
        return false;
      }
      if steps[i].dependsOn.None? {
        steps[i] := steps[i].(dependsOn := Some(if i > 0 then [steps[i - 1].id] else []));
      }
      var accepted := CheckDependsOn(nodes, i, seen, steps[i].dependsOn.value);
      if !accepted || !steps[i].toolAccepted {
        return false;
      }
      seen := seen + {id};
      forall x ensures x in seen <==> Earlier(nodes, i + 1, x) {
        EarlierOrHere(nodes, i, x);
      }
    }
    ok := true;
  }

  lemma Nothing(steps: seq<Node>)
    ensures OrderedUpTo(steps, 0) && forall x :: !Earlier(steps, 0, x)
  {
  }

  lemma EarlierOrHere(steps: seq<Node>, i: nat, x: int)
    requires i < |steps|
    ensures Earlier(steps, i + 1, x) <==> Earlier(steps, i, x) || steps[i].id == x
  {
  }

  method CheckDependsOn(ghost nodes: seq<Node>, ghost i: nat, seen: set<int>, deps: seq<int>) returns (accepted: bool)
    requires i < |nodes| && deps == nodes[i].deps && nodes[i].id !in seen
    requires forall id :: id in seen <==> Earlier(nodes, i, id)
    ensures accepted <==> forall d :: d in nodes[i].deps ==> Earlier(nodes, i, d)
  {
    for j := 0 to |deps|
      invariant forall k :: 0 <= k < j ==> Earlier(nodes, i, deps[k])
    {
      if deps[j] !in seen {
        assert deps[j] in nodes[i].deps;
        return false;
      }
    }
    accepted := true;
  }

  // ---------------------------------------------------------------------------
  // The two checks agree
  // ---------------------------------------------------------------------------

  function Ids(steps: seq<Node>): (r: seq<int>)
    ensures |r| == |steps| && forall i :: 0 <= i < |r| ==> r[i] == steps[i].id
  {
    seq(|steps|, i requires 0 <= i < |steps| => steps[i].id)
  }

  /** What the validator accepts passes the depth-first check. */
  lemma {:induction false} OrderedPlansPass(steps: seq<Node>)
    requires Ordered(steps)
    ensures DistinctIds(steps) && KnownDeps(steps) && Acyclic(GraphOf(steps))
  {
    var g, order := GraphOf(steps), Ids(steps);
    forall i, d | 0 <= i < |order| && d in g[order[i]] ensures d in order[..i] {
      GraphHas(steps, i);
      assert Earlier(steps, i, d);
    }
    OrderedIsAcyclic(g, order);
  }

  /** The steps in a given order of their ids. */
  function Reordered(g: Graph, order: seq<int>): (r: seq<Node>)
    requires forall i :: 0 <= i < |order| ==> order[i] in g
    ensures |r| == |order| && forall i :: 0 <= i < |r| ==> r[i] == Node(order[i], g[order[i]])
  {
    seq(|order|, i requires 0 <= i < |order| => Node(order[i], g[order[i]]))
  }

  /** What passes the depth-first check can be listed so that the validator accepts it: the same
      steps, each exactly once, in another order. */
  lemma {:induction false} PassingPlansCanBeOrdered(steps: seq<Node>, order: seq<int>)
    requires DistinctIds(steps)
    requires Topological(GraphOf(steps), order) && forall id :: id in order <==> id in GraphOf(steps)
    ensures var r := Reordered(GraphOf(steps), order);
            Ordered(r) && DistinctIds(r) && forall n :: n in r <==> n in steps
  {
    var g := GraphOf(steps);
    var r := Reordered(g, order);
    forall i, d | 0 <= i < |r| && d in r[i].deps ensures Earlier(r, i, d) {
      assert d in g[order[i]];
      DependencyIsEarlier(g, order, i, d);
    }
    forall n | n in steps ensures n in r {
      var i :| 0 <= i < |steps| && steps[i] == n;
      GraphHas(steps, i);
      var j :| 0 <= j < |order| && order[j] == n.id;
      assert r[j] == n;
    }
    forall n | n in r ensures n in steps {
      var j :| 0 <= j < |r| && r[j] == n;
      assert order[j] in g;
      var i :| 0 <= i < |steps| && steps[i].id == order[j];
      GraphHas(steps, i);
    }
  }

  // ---------------------------------------------------------------------------
  // The plans the engine runs
  // ---------------------------------------------------------------------------

  function NodesOf(plan: Plan): (r: seq<Node>)
    ensures |r| == |plan| && forall k :: 0 <= k < |r| ==> r[k] == Node(plan[k].id, plan[k].deps)
  {
    seq(|plan|, k requires 0 <= k < |plan| => Node(plan[k].id, plan[k].deps))
  }

  /** The plans the engine's guarantees speak of are those the validator accepts. */
  lemma AcceptedPlansAreValid(plan: Plan)
    requires forall k :: 0 <= k < |plan| ==> ToolConsistent(plan[k])
    ensures Ordered(NodesOf(plan)) <==> ValidPlan(plan)
  {
    var nodes := NodesOf(plan);
    if Ordered(nodes) {
      forall a, b | 0 <= a < b < |plan| ensures plan[a].id != plan[b].id {
        assert nodes[a].id != nodes[b].id;
      }
      forall k, d | 0 <= k < |plan| && d in plan[k].deps ensures Find(plan, d).Some? && Find(plan, d).value < k {
        assert d in nodes[k].deps;
        assert Earlier(nodes, k, d);
        var j :| 0 <= j < k && nodes[j].id == d;
        assert plan[j].id == d;
      }
    }
    if ValidPlan(plan) {
      forall k, d | 0 <= k < |nodes| && d in nodes[k].deps ensures Earlier(nodes, k, d) {
        assert d in plan[k].deps;
        assert nodes[Find(plan, d).value].id == d;
      }
    }
  }

  /** A plan handed in without dependencies and run conditions is a success chain, so its
      mutations run at most once. */
  lemma DefaultPlansAreChains(drafts: seq<Draft>, plan: Plan)
    requires Ordered(Filled(drafts)) && NodesOf(plan) == Filled(drafts)
    requires forall k :: 0 <= k < |plan| ==> ToolConsistent(plan[k]) && plan[k].runWhen == OnSuccess
    requires forall k :: 0 <= k < |drafts| ==> drafts[k].dependsOn.None?
    ensures SuccessChain(plan)
  {
    AcceptedPlansAreValid(plan);
    forall k | 0 < k < |plan| ensures Linked(plan, k) {
      assert NodesOf(plan)[k] == Filled(drafts)[k] && NodesOf(plan)[k - 1] == Filled(drafts)[k - 1];
      assert plan[k].deps == [drafts[k - 1].id];
    }
  }
}
