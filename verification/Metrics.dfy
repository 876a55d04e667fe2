/** Bounded metrics beside the full history of calls. */
module Metrics {

  type Name = string

  datatype Call = Call(tool: Name, success: bool)

  datatype Bucket = Bucket(calls: nat, errors: nat)

  const OTHER: Name := "__other__"
  const MAX_RECENT := 100
  const NAMED_BUCKETS := 127

  // ---------------------------------------------------------------------------
  // Counting the history
  // ---------------------------------------------------------------------------

  /** The calls of one tool, and the failed ones among them. */
  function CallsOf(history: seq<Call>, tool: Name): Bucket {
    if |history| == 0 then Bucket(0, 0)
    else
      var b, last := CallsOf(history[..|history| - 1], tool), history[|history| - 1];
      if last.tool != tool then b else Counted(b, last.success)
  }

  function Counted(b: Bucket, success: bool): Bucket {
    Bucket(b.calls + 1, b.errors + if success then 0 else 1)
  }

  function Failures(history: seq<Call>): nat {
    if |history| == 0 then 0
    else Failures(history[..|history| - 1]) + if history[|history| - 1].success then 0 else 1
  }

  /** The sum over the buckets of the given tools. */
  ghost function Total(buckets: map<Name, Bucket>, tools: set<Name>): Bucket
    requires tools <= buckets.Keys
  {
    if tools == {} then Bucket(0, 0)
    else
      var t :| t in tools;
      var rest := Total(buckets, tools - {t});
      Bucket(rest.calls + buckets[t].calls, rest.errors + buckets[t].errors)
  }

  lemma {:induction false} TotalTakes(buckets: map<Name, Bucket>, tools: set<Name>, t: Name)
    requires tools <= buckets.Keys && t in tools
    ensures var rest := Total(buckets, tools - {t});
            Total(buckets, tools) == Bucket(rest.calls + buckets[t].calls, rest.errors + buckets[t].errors)
    decreases tools
  {
    var u :| u in tools && Total(buckets, tools) ==
             Bucket(Total(buckets, tools - {u}).calls + buckets[u].calls,
                    Total(buckets, tools - {u}).errors + buckets[u].errors);
    if u != t {
      TotalTakes(buckets, tools - {u}, t);
      TotalTakes(buckets, tools - {t}, u);
      assert tools - {u} - {t} == tools - {t} - {u};
    }
  }

  lemma {:induction false} TotalIgnores(a: map<Name, Bucket>, b: map<Name, Bucket>, tools: set<Name>)
    requires tools <= a.Keys && tools <= b.Keys && forall t :: t in tools ==> a[t] == b[t]
    ensures Total(a, tools) == Total(b, tools)
    decreases tools
  {
    if tools != {} {
      var t :| t in tools;
      TotalIgnores(a, b, tools - {t});
      TotalTakes(a, tools, t);
      TotalTakes(b, tools, t);
    }
  }

  lemma TotalCounts(buckets: map<Name, Bucket>, t: Name, success: bool)
    ensures var now := buckets[t := Counted(if t in buckets then buckets[t] else Bucket(0, 0), success)];
            Total(now, now.Keys) == Counted(Total(buckets, buckets.Keys), success)
  {
    var now := buckets[t := Counted(if t in buckets then buckets[t] else Bucket(0, 0), success)];
    var others := buckets.Keys - {t};
    TotalIgnores(buckets, now, others);
    TotalTakes(now, now.Keys, t);
    assert now.Keys - {t} == others;
    if t in buckets {
      TotalTakes(buckets, buckets.Keys, t);
    } else {
      assert others == buckets.Keys;
    }
  }

  /** There are at most 128 buckets, and every one but the reserved one counts exactly the calls
      of its tool. While there is room, a tool without a bucket has not been called. */
  ghost predicate Labelled(buckets: map<Name, Bucket>, history: seq<Call>) {
    && |buckets| <= (if OTHER in buckets then NAMED_BUCKETS + 1 else NAMED_BUCKETS)
    && (forall t :: t in buckets && t != OTHER ==> buckets[t] == CallsOf(history, t))
    && (|buckets| < NAMED_BUCKETS ==> forall t :: t !in buckets && t != OTHER ==> CallsOf(history, t) == Bucket(0, 0))
  }

  /** The bucket a call is counted in. */
  function LabelOf(buckets: map<Name, Bucket>, tool: Name): Name {
    if tool in buckets then tool
    else if tool == OTHER || |buckets| >= NAMED_BUCKETS then OTHER
    else tool
  }

  lemma {:induction false} CallsOfNext(history: seq<Call>, call: Call, t: Name)
    ensures CallsOf(history + [call], t) == if call.tool == t then Counted(CallsOf(history, t), call.success)
      else CallsOf(history, t)
  {
    assert (history + [call])[..|history|] == history;
  }

  lemma {:induction false} FailuresNext(history: seq<Call>, call: Call)
    ensures Failures(history + [call]) == Failures(history) + if call.success then 0 else 1
  {
    assert (history + [call])[..|history|] == history;
  }

  lemma LabelledNext(buckets: map<Name, Bucket>, history: seq<Call>, call: Call)
    requires Labelled(buckets, history)
    ensures var t := LabelOf(buckets, call.tool);
            Labelled(buckets[t := Counted(if t in buckets then buckets[t] else Bucket(0, 0), call.success)],
              history + [call])
  {
    var t := LabelOf(buckets, call.tool);
    var now := buckets[t := Counted(if t in buckets then buckets[t] else Bucket(0, 0), call.success)];
    forall u ensures CallsOf(history + [call], u) ==
                     if call.tool == u then Counted(CallsOf(history, u), call.success) else CallsOf(history, u)
    {
      CallsOfNext(history, call, u);
    }
  }

  /** The recent calls are the last ones: all of them at first, then between one and two hundred. */
  ghost predicate Recent(calls: seq<Call>, history: seq<Call>) {
    && |calls| <= |history| && history[|history| - |calls|..] == calls
    && (|history| <= MAX_RECENT ==> |calls| == |history|)
    && (|history| > MAX_RECENT ==> MAX_RECENT <= |calls| <= 2 * MAX_RECENT)
  }

  lemma RecentNext(calls: seq<Call>, history: seq<Call>, call: Call)
    requires Recent(calls, history)
    ensures var more := calls + [call];
            Recent(if |more| > MAX_RECENT * 2 then more[|more| - MAX_RECENT..] else more, history + [call])
  {
    var more, all := calls + [call], history + [call];
    assert all[|all| - |more|..] == more;
  }

  // ---------------------------------------------------------------------------
  // The collector
  // ---------------------------------------------------------------------------

  class McpMetrics {
    var toolCalls: seq<Call>
    var lifetimeToolCalls: nat
    var lifetimeSuccessful: nat
    var lifetimeFailed: nat
    var perTool: map<Name, Bucket>
    var sessions: map<Name, nat>
    var lifetimeSessions: nat
    var peakConcurrent: nat
    ghost var history: seq<Call>

    ghost predicate Valid()
      reads this
    {
      && lifetimeToolCalls == |history| == lifetimeSuccessful + lifetimeFailed
      && lifetimeFailed == Failures(history)
      && Total(perTool, perTool.Keys) == Bucket(lifetimeToolCalls, lifetimeFailed)
      && Labelled(perTool, history)
      && Recent(toolCalls, history)
      && |sessions| <= peakConcurrent <= lifetimeSessions
    }

    constructor ()
      ensures Valid() && history == []
    {
      toolCalls, perTool, sessions, history := [], map[], map[], [];
      lifetimeToolCalls, lifetimeSuccessful, lifetimeFailed, lifetimeSessions, peakConcurrent := 0, 0, 0, 0, 0;
    }

    method RecordToolCall(tool: Name, success: bool, sessionId: Name)
      requires Valid()
      modifies this
      ensures Valid() && history == old(history) + [Call(tool, success)]
      ensures sessions.Keys == old(sessions).Keys && peakConcurrent == old(peakConcurrent)
      ensures lifetimeSessions == old(lifetimeSessions)
      ensures forall s :: s in sessions ==> sessions[s] == old(sessions)[s] + if s == sessionId then 1 else 0
    {
      hide Recent, Labelled, Total;
      CountLifetime(tool, success);
      if sessionId in sessions {
        sessions := sessions[sessionId := sessions[sessionId] + 1];
      }
    }

    method CountLifetime(tool: Name, success: bool)
      requires Valid()
      modifies `toolCalls, `lifetimeToolCalls, `lifetimeSuccessful, `lifetimeFailed, `perTool, `history
      ensures Valid() && history == old(history) + [Call(tool, success)]
    {
      hide Recent, Labelled, Total, Failures, LabelOf;
      var call := Call(tool, success);
      FailuresNext(history, call);
      LabelledNext(perTool, history, call);
      TotalCounts(perTool, LabelOf(perTool, tool), success);
      CountBucket(LabelOf(perTool, tool), success);
      lifetimeToolCalls := lifetimeToolCalls + 1;
      if success {
        lifetimeSuccessful := lifetimeSuccessful + 1;
      } else {
        lifetimeFailed := lifetimeFailed + 1;
      }
      KeepRecent(call);
      history := history + [call];
    }

    method CountBucket(bucket: Name, success: bool)
      modifies `perTool
      ensures perTool == old(perTool)[bucket :=
        Counted(if bucket in old(perTool) then old(perTool)[bucket] else Bucket(0, 0), success)]
    {
      var metric := if bucket in perTool then perTool[bucket] else Bucket(0, 0);
      metric := metric.(calls := metric.calls + 1);
      if !success {
        metric := metric.(errors := metric.errors + 1);
      }
      perTool := perTool[bucket := metric];
    }

    method KeepRecent(call: Call)
      requires Recent(toolCalls, history)
      modifies `toolCalls
      ensures Recent(toolCalls, history + [call])
    {
      RecentNext(toolCalls, history, call);
      toolCalls := toolCalls + [call];
      if |toolCalls| > MAX_RECENT * 2 {
        toolCalls := toolCalls[|toolCalls| - MAX_RECENT..];
      }
    }

    method RecordSessionCreated(sessionId: Name)
      requires Valid()
      modifies `sessions, `lifetimeSessions, `peakConcurrent
      ensures Valid() && sessions.Keys == old(sessions).Keys + {sessionId}
      ensures lifetimeSessions == old(lifetimeSessions) + if sessionId in old(sessions) then 0 else 1
      ensures peakConcurrent == if |sessions| > old(peakConcurrent) then |sessions| else old(peakConcurrent)
    {
      hide Recent, Labelled, Total;
      if sessionId in sessions {
        assert sessions.Keys == sessions.Keys + {sessionId};
        return;
      }
      lifetimeSessions := lifetimeSessions + 1;
      sessions := sessions[sessionId := 0];
      if |sessions| > peakConcurrent {
        peakConcurrent := |sessions|;
      }
    }

    method RecordSessionClosed(sessionId: Name)
      requires Valid()
      modifies `sessions
      ensures Valid() && sessions == old(sessions) - {sessionId}
    {
      hide Recent, Labelled, Total;
      FewerKeys(sessions, sessionId);
      sessions := sessions - {sessionId};
    }
  }

  lemma FewerKeys(m: map<Name, nat>, k: Name)
    ensures |m - {k}| <= |m|
  {
    assert (m - {k}).Keys == m.Keys - {k};
    assert |m - {k}| == |m.Keys - {k}| && |m| == |m.Keys|;
    if k in m {
      assert m.Keys == (m.Keys - {k}) + {k};
    } else {
      assert m.Keys - {k} == m.Keys;
    }
  }
}
