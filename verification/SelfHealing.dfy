/** Recovery with a provider that may insert corrective steps. The built-in decision never does;
    a custom provider can. */
module SelfHealing {
  import opened Options

  /** Math.max(0, ...ids). */
  function MaxId(ids: seq<int>): (r: int)
    ensures r >= 0 && forall i :: 0 <= i < |ids| ==> ids[i] <= r
  {
    if |ids| == 0 then 0
    else
      var rest := MaxId(ids[1..]);
      assert forall i :: 0 < i < |ids| ==> ids[i] == ids[1..][i - 1];
      if ids[0] > rest then ids[0] else rest
  }

  /** applySelfHealing for a created step: its id is kept when it is free. */
  function Inserted(ids: seq<int>, id: int, at: nat): (r: seq<int>)
    requires at <= |ids|
    ensures |r| == |ids| + 1
    ensures r[..at] == ids[..at] && r[at + 1..] == ids[at..]
    ensures r[at] !in ids && (id !in ids ==> r[at] == id)
  {
    ids[..at] + [if id in ids then MaxId(ids) + 1 else id] + ids[at..]
  }

  ghost predicate Distinct(ids: seq<int>) {
    forall i, j :: 0 <= i < j < |ids| ==> ids[i] != ids[j]
  }

  lemma InsertionStaysDistinct(ids: seq<int>, id: int, at: nat)
    requires Distinct(ids) && at <= |ids|
    ensures Distinct(Inserted(ids, id, at))
  {
    var r := Inserted(ids, id, at);
    forall i, j | 0 <= i < j < |r| ensures r[i] != r[j] {
      assert i < at ==> r[i] == r[..at][i] == ids[i];
      assert i > at ==> r[i] == r[at + 1..][i - at - 1] == ids[i - 1];
      assert j < at ==> r[j] == r[..at][j] == ids[j];
      assert j > at ==> r[j] == r[at + 1..][j - at - 1] == ids[j - 1];
    }
  }

  datatype Decision = Stop | Retry | CreateStep(id: int)

  /** What one turn of the loop comes to: the step is walked past without being invoked, it is
      invoked and walked past, it is invoked and fails for a transient reason, or the pass ends
      with or without an invocation. */
  datatype Turn = Skip | Invoke | Transient(decision: Decision) | End(invoked: bool)

  /** The walk over a plan that may grow. It ends for every sequence of turns, after a bounded
      number of invocations. */
  method Walk(plan: seq<int>, start: nat, maxRecovery: nat, turns: nat -> Turn)
    returns (steps: seq<int>, invocations: nat, recoveries: nat)
    requires start <= |plan| && Distinct(plan)
    ensures Distinct(steps) && forall id :: id in plan ==> id in steps
    ensures recoveries <= maxRecovery && |plan| <= |steps| <= |plan| + recoveries
    ensures invocations <= |plan| - start + 2 * maxRecovery
    ensures invocations <= |steps| - start + recoveries
  {
    steps, invocations, recoveries := plan, 0, 0;
    var index, clock := start, 0;
    while index < |steps|
      invariant start <= index <= |steps| && recoveries <= maxRecovery
      invariant |plan| <= |steps| <= |plan| + recoveries
      invariant invocations <= index - start + recoveries
      invariant Distinct(steps) && forall id :: id in plan ==> id in steps
      decreases maxRecovery - recoveries, |steps| - index
    {
      var turn := turns(clock);
      clock := clock + 1;
      if turn.Skip? {
        index := index + 1;
        continue;
      }
      if turn.End? {
        if turn.invoked {
          invocations := invocations + 1;
        }
        return;
      }
      invocations := invocations + 1;
      if turn.Invoke? || recoveries >= maxRecovery {
        index := index + 1;
        continue;
      }
      recoveries := recoveries + 1;
      match turn.decision {
        case Stop =>
          index := index + 1;
        case Retry =>
        case CreateStep(id) =>
          ghost var before := steps;
          InsertionStaysDistinct(steps, id, index);
          steps := Inserted(steps, id, index);
          StepsStay(before, id, index);
      }
    }
  }

  lemma StepsStay(ids: seq<int>, id: int, at: nat)
    requires at <= |ids|
    ensures forall x :: x in ids ==> x in Inserted(ids, id, at)
  {
    var r := Inserted(ids, id, at);
    forall x | x in ids ensures x in r {
      var i :| 0 <= i < |ids| && ids[i] == x;
      if i < at {
        assert r[..at][i] == x;
      } else {
        assert r[at + 1..][i - at] == x;
      }
    }
  }
}
