/** The two checks on a plan's dependencies: the depth-first cycle check of the domain, and the
    order-based validator of the runtime. */
module PlanGraph {
  import opened Options
  import opened TaskDomain

  /** A step, as far as its dependencies go. */
  datatype Node = Node(id: int, deps: seq<int>)

  type Graph = map<int, seq<int>>

  /** byId. */
  function GraphOf(steps: seq<Node>): (g: Graph)
    ensures forall id :: id in g <==> exists i :: 0 <= i < |steps| && steps[i].id == id
  {
    if |steps| == 0 then map[]
    else
      var g := GraphOf(steps[..|steps| - 1])[steps[|steps| - 1].id := steps[|steps| - 1].deps];
      assert forall i :: 0 <= i < |steps| - 1 ==> steps[i] == steps[..|steps| - 1][i];
      g
  }

  ghost predicate DistinctIds(steps: seq<Node>) {
    forall i, j :: 0 <= i < j < |steps| ==> steps[i].id != steps[j].id
  }

  lemma {:induction false} GraphHas(steps: seq<Node>, i: nat)
    requires DistinctIds(steps) && i < |steps|
    ensures steps[i].id in GraphOf(steps) && GraphOf(steps)[steps[i].id] == steps[i].deps
  {
    if i < |steps| - 1 {
      assert steps[i] == steps[..|steps| - 1][i];
      GraphHas(steps[..|steps| - 1], i);
    }
  }

  // ---------------------------------------------------------------------------
  // Cycles and orders
  // ---------------------------------------------------------------------------

  ghost predicate Walk(g: Graph, path: seq<int>) {
    forall i :: 0 <= i < |path| - 1 ==> path[i] in g && path[i + 1] in g[path[i]]
  }

  ghost predicate Cycle(g: Graph, path: seq<int>) {
    |path| > 1 && path[0] == path[|path| - 1] && Walk(g, path)
  }

  ghost predicate Acyclic(g: Graph) {
    forall path :: !Cycle(g, path)
  }

  ghost predicate Closed(g: Graph) {
    forall id, d :: id in g && d in g[id] ==> d in g
  }

  /** Every dependency of a listed node is listed before it. */
  ghost predicate Topological(g: Graph, order: seq<int>) {
    && (forall i, j :: 0 <= i < j < |order| ==> order[i] != order[j])
    && (forall i :: 0 <= i < |order| ==> order[i] in g)
    && (forall i, d :: 0 <= i < |order| && d in g[order[i]] ==> d in order[..i])
  }

  function PositionOf(order: seq<int>, id: int): (r: nat)
    requires id in order
    ensures r < |order| && order[r] == id
  {
    if order[0] == id then 0 else 1 + PositionOf(order[1..], id)
  }

  lemma {:induction false} PositionIsUnique(g: Graph, order: seq<int>, i: nat)
    requires Topological(g, order) && i < |order|
    ensures PositionOf(order, order[i]) == i
  {
    var j := PositionOf(order, order[i]);
    assert order[j] == order[i];
  }

  lemma DependencyIsEarlier(g: Graph, order: seq<int>, i: nat, d: int)
    requires Topological(g, order) && i < |order| && d in g[order[i]]
    ensures exists j :: 0 <= j < i && order[j] == d
  {
    assert d in order[..i];
  }

  /** Along a walk the position falls. */
  lemma {:induction false} WalkFalls(g: Graph, order: seq<int>, path: seq<int>)
    requires Topological(g, order) && Walk(g, path) && |path| > 0 && path[0] in order
    ensures path[|path| - 1] in order
    ensures PositionOf(order, path[|path| - 1]) + |path| - 1 <= PositionOf(order, path[0])
  {
    if |path| > 1 {
      var i := PositionOf(order, path[0]);
      assert path[0 + 1] in g[path[0]];
      DependencyIsEarlier(g, order, i, path[1]);
      var j :| 0 <= j < i && order[j] == path[1];
      PositionIsUnique(g, order, j);
      WalkFalls(g, order, path[1..]);
    }
  }

  lemma OrderedIsAcyclic(g: Graph, order: seq<int>)
    requires Topological(g, order) && forall id :: id in g ==> id in order
    ensures Acyclic(g)
  {
    forall path ensures !Cycle(g, path) {
      if Cycle(g, path) {
        assert path[0] in g;
        WalkFalls(g, order, path);
      }
    }
  }

  // ---------------------------------------------------------------------------
  // The depth-first check
  // ---------------------------------------------------------------------------

  /** The closure of `visit` over its two sets. The ghost fields are the order in which nodes
      were finished, and the stack of nodes being visited. */
  class CycleCheck {
    const graph: Graph
    var visiting: set<int>
    var visited: set<int>
    ghost var order: seq<int>
    ghost var stack: seq<int>

    ghost predicate Valid()
      reads this
    {
      && Closed(graph)
      && Topological(graph, order)
      && (forall id :: id in visited <==> id in order)
      && (forall id :: id in visiting <==> id in stack)
      && (forall id :: id in stack ==> id in graph && id !in visited)
      && Walk(graph, stack)
    }

    constructor (graph: Graph)
      requires Closed(graph)
      ensures Valid() && this.graph == graph && stack == [] && visited == {}
    {
      this.graph, visiting, visited, order, stack := graph, {}, {}, [], [];
    }

    /** visit. A thrown error is the answer false, with the cycle that was found. */
    method Visit(id: int) returns (ok: bool, ghost cycle: seq<int>)
      requires Valid() && id in graph
      requires |stack| > 0 ==> stack[|stack| - 1] in graph && id in graph[stack[|stack| - 1]]
      modifies this
      ensures ok ==> Valid() && id in visited && stack == old(stack) && visiting == old(visiting)
      ensures ok ==> old(visited) <= visited
      ensures !ok ==> Cycle(graph, cycle)
      decreases graph.Keys - visiting - visited
    {
      cycle := [];
      if id in visiting {
        cycle := ClosingCycle(id);
        return false, cycle;
      }
      if id in visited {
        return true, [];
      }
      Push(id);
      ghost var left := old(graph.Keys - visiting - visited);
      assert id in left;
      var deps := graph[id];
      for i := 0 to |deps|
        invariant Valid() && stack == old(stack) + [id] && visiting == old(visiting) + {id}
        invariant old(visited) <= visited && id !in visited
        invariant forall k :: 0 <= k < i ==> deps[k] in visited
      {
        assert deps[i] in graph[id];
        assert graph.Keys - visiting - visited <= left && id !in graph.Keys - visiting - visited;
        ok, cycle := Visit(deps[i]);
        if !ok {
          return;
        }
      }
      Pop(id);
      ok := true;
    }

    ghost method ClosingCycle(id: int) returns (cycle: seq<int>)
      requires Valid() && id in visiting && |stack| > 0
      requires stack[|stack| - 1] in graph && id in graph[stack[|stack| - 1]]
      ensures Cycle(graph, cycle)
    {
      var k := PositionOf(stack, id);
      cycle := stack[k..] + [id];
      forall i | 0 <= i < |cycle| - 1 ensures cycle[i] in graph && cycle[i + 1] in graph[cycle[i]] {
        assert cycle[i] == stack[k + i];
        assert i + 1 < |cycle| - 1 ==> cycle[i + 1] == stack[k + i + 1];
      }
    }

    method Push(id: int)
      requires Valid() && id in graph && id !in visiting && id !in visited
      requires |stack| > 0 ==> stack[|stack| - 1] in graph && id in graph[stack[|stack| - 1]]
      modifies this
      ensures Valid() && stack == old(stack) + [id] && visiting == old(visiting) + {id}
      ensures visited == old(visited) && order == old(order)
    {
      visiting := visiting + {id};
      stack := stack + [id];
    }

    method Pop(id: int)
      requires Valid() && |stack| > 0 && stack[|stack| - 1] == id && id !in stack[..|stack| - 1]
      requires id in graph
      requires forall d :: d in graph[id] ==> d in visited
      modifies this
      ensures Valid() && stack == old(stack)[..|old(stack)| - 1] && visiting == old(visiting) - {id}
      ensures visited == old(visited) + {id}
    {
      visiting := visiting - {id};
      visited := visited + {id};
      Finished(graph, order, id);
      order := order + [id];
      stack := stack[..|stack| - 1];
      assert forall x :: x in old(stack) <==> x in stack || x == id;
    }
  }

  lemma Finished(g: Graph, order: seq<int>, id: int)
    requires Topological(g, order) && id in g && id !in order && forall d :: d in g[id] ==> d in order
    ensures Topological(g, order + [id])
  {
    var next := order + [id];
    forall i, d | 0 <= i < |next| && d in g[next[i]] ensures d in next[..i] {
      assert next[..i] == order[..i];
    }
  }

  // ---------------------------------------------------------------------------
  // assertTaskInvariants
  // ---------------------------------------------------------------------------

  datatype Verdict = Accepted | DuplicateStep | MissingDependency | CyclicDependency

  ghost predicate KnownDeps(steps: seq<Node>) {
    forall i, d :: 0 <= i < |steps| && d in steps[i].deps ==> exists j :: 0 <= j < |steps| && steps[j].id == d
  }

  /** The dependency part of assertTaskInvariants. It returns normally exactly when the ids are
      distinct, every dependency names a step, and no step reaches itself; then `order` is a way
      to list the steps after their dependencies. */
  method AssertTaskInvariants(steps: seq<Node>) returns (verdict: Verdict, ghost order: seq<int>)
    ensures verdict == DuplicateStep <==> !DistinctIds(steps)
    ensures verdict == Accepted <==> DistinctIds(steps) && KnownDeps(steps) && Acyclic(GraphOf(steps))
    ensures verdict == Accepted ==>
      Topological(GraphOf(steps), order) && forall id :: id in order <==> id in GraphOf(steps)
  {
    order := [];
    var distinct := CheckIds(steps);
    if !distinct {
      return DuplicateStep, [];
    }
    var g := GraphOf(steps);
    verdict := CheckDependencies(steps, g);
    if verdict != Accepted {
      return;
    }
    var acyclic;
    acyclic, order := VisitAll(steps, g);
    if !acyclic {
      return CyclicDependency, [];
    }
  }

  /** Visit every step: either a cycle is found, or the steps are finished in an order. */
  method VisitAll(steps: seq<Node>, g: Graph) returns (acyclic: bool, ghost order: seq<int>)
    requires DistinctIds(steps) && KnownDeps(steps) && g == GraphOf(steps)
    ensures acyclic <==> Acyclic(g)
    ensures acyclic ==> Topological(g, order) && forall id :: id in order <==> id in g
  {
    hide DistinctIds, KnownDeps, Closed, Topological, Walk, Acyclic, Cycle;
    order := [];
    KnownIsClosed(steps);
    var check := new CycleCheck(g);
    for i := 0 to |steps|
      invariant check.Valid() && check.graph == g && check.stack == [] && fresh(check)
      invariant forall k :: 0 <= k < i ==> steps[k].id in check.visited
    {
      var ok, cycle := check.Visit(steps[i].id);
      if !ok {
        HasCycle(g, cycle);
        return false, [];
      }
    }
    order := check.order;
    assert forall id :: id in order ==> id in g by {
      OrderIsOf(g, order);
    }
    OrderedIsAcyclic(g, order);
    acyclic := true;
  }

  lemma HasCycle(g: Graph, cycle: seq<int>)
    requires Cycle(g, cycle)
    ensures !Acyclic(g)
  {
  }

  lemma OrderIsOf(g: Graph, order: seq<int>)
    requires Topological(g, order)
    ensures forall id :: id in order ==> id in g
  {
  }

  method CheckIds(steps: seq<Node>) returns (distinct: bool)
    ensures distinct <==> DistinctIds(steps)
  {
    var ids := {};
    for i := 0 to |steps|
      invariant DistinctIds(steps[..i])
      invariant forall id :: id in ids <==> exists k :: 0 <= k < i && steps[k].id == id
    {
      if steps[i].id in ids {
        return false;
      }
      ids := ids + {steps[i].id};
    }
    assert steps[..|steps|] == steps;
    distinct := true;
  }

  /** A missing dependency is found before a cycle is looked for; a self-dependency is a cycle. */
  method CheckDependencies(steps: seq<Node>, g: Graph) returns (verdict: Verdict)
    requires DistinctIds(steps) && g == GraphOf(steps)
    ensures verdict == Accepted ==> KnownDeps(steps)
    ensures verdict == MissingDependency ==> !KnownDeps(steps)
    ensures verdict == CyclicDependency ==> !Acyclic(g)
    ensures verdict != DuplicateStep
  {
    for i := 0 to |steps|
      invariant forall k, d :: 0 <= k < i && d in steps[k].deps ==> d in g
    {
      var deps := steps[i].deps;
      for j := 0 to |deps|
        invariant forall k :: 0 <= k < j ==> deps[k] in g
      {
        if deps[j] !in g {
          assert deps[j] in steps[i].deps;
          return MissingDependency;
        }
        if deps[j] == steps[i].id {
          GraphHas(steps, i);
          assert Cycle(g, [steps[i].id, deps[j]]);
          return CyclicDependency;
        }
      }
      assert forall d :: d in deps ==> d in g;
    }
    forall i, d | 0 <= i < |steps| && d in steps[i].deps ensures exists j :: 0 <= j < |steps| && steps[j].id == d {
      assert d in g;
    }
    verdict := Accepted;
  }

  lemma {:induction false} KnownIsClosed(steps: seq<Node>)
    requires DistinctIds(steps) && KnownDeps(steps)
    ensures Closed(GraphOf(steps))
  {
    var g := GraphOf(steps);
    forall id, d | id in g && d in g[id] ensures d in g {
      var i :| 0 <= i < |steps| && steps[i].id == id;
      GraphHas(steps, i);
    }
  }
}
