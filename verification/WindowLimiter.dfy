/** The fixed-window limiter, with its bounded table of buckets. */
module WindowLimiter {

  type Key = string

  datatype Bucket = Bucket(start: int, count: nat)

  type Table = map<Key, Bucket>

  datatype Config = Config(limit: nat, windowMs: int, maxKeys: nat)

  datatype Call = Call(key: Key, time: int)

  /** `turnedAway` is the refusal of an unknown key by a full table. */
  datatype Answer = Answer(allowed: bool, retryAfter: int, turnedAway: bool)

  // ---------------------------------------------------------------------------
  // Reference
  // ---------------------------------------------------------------------------

  /** Math.ceil(ms / 1000). */
  function Seconds(ms: int): (r: int)
    ensures 1000 * (r - 1) < ms <= 1000 * r
  {
    -((-ms) / 1000)
  }

  predicate Expired(c: Config, b: Bucket, time: int) {
    time - b.start >= c.windowMs
  }

  function Pruned(c: Config, t: Table, time: int): Table {
    map k | k in t && !Expired(c, t[k], time) :: t[k]
  }

  /** The bucket a call is counted in, with the call. */
  function Counted(c: Config, t: Table, call: Call): Bucket {
    if call.key !in t || Expired(c, t[call.key], call.time) then Bucket(call.time, 1)
    else t[call.key].(count := t[call.key].count + 1)
  }

  function AnswerFor(c: Config, b: Bucket, time: int): Answer {
    if b.count > c.limit then
      var wait := Seconds(c.windowMs - (time - b.start));
      Answer(false, if wait > 1 then wait else 1, false)
    else Answer(true, 0, false)
  }

  /** A limiter that never forgets a bucket and never turns a key away. */
  function Unbounded(c: Config, t: Table, call: Call): (Table, Answer) {
    var b := Counted(c, t, call);
    (t[call.key := b], AnswerFor(c, b, call.time))
  }

  /** The limiter: a full table is pruned, and if it stays full an unknown key is turned away. */
  function Step(c: Config, t: Table, call: Call): (Table, Answer) {
    var kept := if |t| >= c.maxKeys then Pruned(c, t, call.time) else t;
    if |kept| >= c.maxKeys && call.key !in kept then (kept, Answer(false, Seconds(c.windowMs), true))
    else Unbounded(c, kept, call)
  }

  // ---------------------------------------------------------------------------
  // The class
  // ---------------------------------------------------------------------------

  class HttpWindowLimiter {
    const config: Config
    var buckets: Table

    constructor (limit: nat, windowMs: int, maxKeys: nat)
      ensures config == Config(limit, windowMs, maxKeys) && buckets == map[]
    {
      config, buckets := Config(limit, windowMs, maxKeys), map[];
    }

    method Allow(key: Key, time: int) returns (answer: Answer)
      modifies this
      ensures (buckets, answer) == Step(config, old(buckets), Call(key, time))
    {
      if |buckets| >= config.maxKeys {
        Prune(time);
        if |buckets| >= config.maxKeys && key !in buckets {
          return Answer(false, Seconds(config.windowMs), true);
        }
      }
      var entry := Bucket(time, 0);
      if key in buckets && time - buckets[key].start < config.windowMs {
        entry := buckets[key];
      }
      entry := entry.(count := entry.count + 1);
      buckets := buckets[key := entry];
      if entry.count > config.limit {
        var wait := Seconds(config.windowMs - (time - entry.start));
        return Answer(false, if wait > 1 then wait else 1, false);
      }
      answer := Answer(true, 0, false);
    }

    /** Delete the expired buckets, one by one. */
    method Prune(time: int)
      modifies this
      ensures buckets == Pruned(config, old(buckets), time)
    {
      var todo := buckets.Keys;
      while todo != {}
        invariant todo <= buckets.Keys <= old(buckets).Keys
        invariant forall k :: k in buckets ==> buckets[k] == old(buckets)[k]
        invariant forall k :: k in old(buckets) && k !in todo ==>
          (k in buckets <==> !Expired(config, old(buckets)[k], time))
        decreases todo
      {
        var k :| k in todo;
        if time - buckets[k].start >= config.windowMs {
          buckets := buckets - {k};
        }
        todo := todo - {k};
      }
    }
  }

  // ---------------------------------------------------------------------------
  // Runs
  // ---------------------------------------------------------------------------

  /** The table after the first `n` calls. */
  function TableAfter(c: Config, calls: seq<Call>, n: nat): Table
    requires n <= |calls|
  {
    if n == 0 then map[] else Step(c, TableAfter(c, calls, n - 1), calls[n - 1]).0
  }

  function AnswerOf(c: Config, calls: seq<Call>, i: nat): Answer
    requires i < |calls|
  {
    Step(c, TableAfter(c, calls, i), calls[i]).1
  }

  /** The clock never goes back. */
  ghost predicate Monotone(calls: seq<Call>) {
    forall i, j :: 0 <= i <= j < |calls| ==> calls[i].time <= calls[j].time
  }

  /** Call `i` was counted in the window of its key that starts at `w`. */
  predicate InWindow(c: Config, calls: seq<Call>, i: nat, key: Key, w: int)
    requires i < |calls|
  {
    && calls[i].key == key && !AnswerOf(c, calls, i).turnedAway
    && var t := TableAfter(c, calls, i + 1);
       key in t && t[key].start == w
  }

  /** How many of the first `n` calls were counted in the window. */
  function Uses(c: Config, calls: seq<Call>, n: nat, key: Key, w: int): nat
    requires n <= |calls|
  {
    if n == 0 then 0
    else Uses(c, calls, n - 1, key, w) + if InWindow(c, calls, n - 1, key, w) then 1 else 0
  }

  /** How many of those were allowed. */
  function Admitted(c: Config, calls: seq<Call>, n: nat, key: Key, w: int): nat
    requires n <= |calls|
  {
    if n == 0 then 0
    else
      Admitted(c, calls, n - 1, key, w) +
      if InWindow(c, calls, n - 1, key, w) && AnswerOf(c, calls, n - 1).allowed then 1 else 0
  }

  /** How many calls of the key were allowed from `s` on, for the length of a window. */
  function AllowedFrom(c: Config, calls: seq<Call>, n: nat, key: Key, s: int): nat
    requires n <= |calls|
  {
    if n == 0 then 0
    else AllowedFrom(c, calls, n - 1, key, s) + if Counts(c, calls, n - 1, key, s) then 1 else 0
  }

  predicate Counts(c: Config, calls: seq<Call>, i: nat, key: Key, s: int)
    requires i < |calls|
  {
    calls[i].key == key && AnswerOf(c, calls, i).allowed && s <= calls[i].time < s + c.windowMs
  }

  // ---------------------------------------------------------------------------
  // The table is bounded
  // ---------------------------------------------------------------------------

  lemma StepIsBounded(c: Config, t: Table, call: Call)
    requires |t| <= c.maxKeys
    ensures |Step(c, t, call).0| <= c.maxKeys
  {
    var kept := if |t| >= c.maxKeys then Pruned(c, t, call.time) else t;
    assert kept.Keys <= t.Keys;
    SubsetSize(kept.Keys, t.Keys);
    assert |kept| == |kept.Keys| && |t| == |t.Keys|;
    var r := Step(c, t, call).0;
    if call.key in kept {
      assert r.Keys <= kept.Keys;
      SubsetSize(r.Keys, kept.Keys);
    } else {
      assert r.Keys <= kept.Keys + {call.key};
      SubsetSize(r.Keys, kept.Keys + {call.key});
    }
    assert |r| == |r.Keys|;
  }

  lemma {:induction false} SubsetSize(a: set<Key>, b: set<Key>)
    requires a <= b
    ensures |a| <= |b|
  {
    if a != {} {
      var x :| x in a;
      SubsetSize(a - {x}, b - {x});
    }
  }

  lemma {:induction false} TableIsBounded(c: Config, calls: seq<Call>, n: nat)
    requires n <= |calls|
    ensures |TableAfter(c, calls, n)| <= c.maxKeys
  {
    hide Step;
    if n > 0 {
      TableIsBounded(c, calls, n - 1);
      StepIsBounded(c, TableAfter(c, calls, n - 1), calls[n - 1]);
    }
  }

  // ---------------------------------------------------------------------------
  // Windows of one key
  // ---------------------------------------------------------------------------

  /** What a call does to the bucket of `key`. */
  lemma StepOnKey(c: Config, t: Table, call: Call, key: Key)
    ensures var r, a := Step(c, t, call).0, Step(c, t, call).1;
            && (key != call.key || a.turnedAway ==>
                  && (key in r ==> key in t && r[key] == t[key])
                  && (key in t && key !in r ==> Expired(c, t[key], call.time)))
            && (a.turnedAway ==> call.key !in r && !a.allowed)
            && (key == call.key && !a.turnedAway ==>
                  && key in r && (a.allowed <==> r[key].count <= c.limit)
                  && r[key] == if key in t && !Expired(c, t[key], call.time) then t[key].(count := t[key].count + 1)
                               else Bucket(call.time, 1))
  {
  }

  /** The window is over: every later call starts another one, well after it. */
  ghost predicate Over(c: Config, calls: seq<Call>, n: nat, key: Key, w: int)
    requires n <= |calls|
  {
    var t := TableAfter(c, calls, n);
    && (forall j :: n <= j < |calls| ==> w + c.windowMs <= calls[j].time)
    && (key in t ==> w + c.windowMs <= t[key].start)
  }

  ghost predicate Current(c: Config, calls: seq<Call>, n: nat, key: Key, w: int)
    requires n <= |calls|
  {
    var t := TableAfter(c, calls, n);
    key in t && t[key].start == w
  }

  /** A window that was used is the current one or over; the current bucket counts its uses; no
      window admits more than the limit. */
  ghost predicate WindowFits(c: Config, calls: seq<Call>, n: nat, key: Key, w: int)
    requires n <= |calls|
  {
    && (Uses(c, calls, n, key, w) > 0 ==> Current(c, calls, n, key, w) || Over(c, calls, n, key, w))
    && (Current(c, calls, n, key, w) ==>
          && Uses(c, calls, n, key, w) == TableAfter(c, calls, n)[key].count
          && forall j :: n <= j < |calls| ==> w <= calls[j].time)
    && Admitted(c, calls, n, key, w) <= Uses(c, calls, n, key, w)
    && Admitted(c, calls, n, key, w) <= c.limit
  }

  lemma {:induction false} WindowsFit(c: Config, calls: seq<Call>, n: nat, key: Key, w: int)
    requires n <= |calls| && Monotone(calls) && c.windowMs > 0
    ensures WindowFits(c, calls, n, key, w)
    decreases n
  {
    if n > 0 {
      var call, t, r := calls[n - 1], TableAfter(c, calls, n - 1), TableAfter(c, calls, n);
      WindowsFit(c, calls, n - 1, key, w);
      if key in t {
        WindowsFit(c, calls, n - 1, key, t[key].start);
      }
      StepOnKey(c, t, call, key);
      NextWindowFits(c, calls, n, key, w);
    }
  }

  lemma NextWindowFits(c: Config, calls: seq<Call>, n: nat, key: Key, w: int)
    requires 0 < n <= |calls| && Monotone(calls) && c.windowMs > 0
    requires WindowFits(c, calls, n - 1, key, w)
    requires var t := TableAfter(c, calls, n - 1); key in t ==> WindowFits(c, calls, n - 1, key, t[key].start)
    ensures WindowFits(c, calls, n, key, w)
  {
    hide Step, Uses, Admitted;
    var call, t, r := calls[n - 1], TableAfter(c, calls, n - 1), TableAfter(c, calls, n);
    StepOnKey(c, t, call, key);
    OneMoreUse(c, calls, n, key, w);
    assert forall j :: n <= j < |calls| ==> call.time <= calls[j].time;
  }

  lemma OneMoreUse(c: Config, calls: seq<Call>, n: nat, key: Key, w: int)
    requires 0 < n <= |calls|
    ensures var used := calls[n - 1].key == key && !AnswerOf(c, calls, n - 1).turnedAway &&
      Current(c, calls, n, key, w);
            && Uses(c, calls, n, key, w) == Uses(c, calls, n - 1, key, w) + (if used then 1 else 0)
            && Admitted(c, calls, n, key, w) ==
               Admitted(c, calls, n - 1, key, w) + (if used && AnswerOf(c, calls, n - 1).allowed then 1 else 0)
  {
    hide Step;
  }

  // ---------------------------------------------------------------------------
  // Twice the limit in any interval
  // ---------------------------------------------------------------------------

  lemma {:induction false} UsedStays(c: Config, calls: seq<Call>, i: nat, n: nat, key: Key, w: int)
    requires i < n <= |calls| && InWindow(c, calls, i, key, w)
    ensures Uses(c, calls, n, key, w) > 0
    decreases n
  {
    hide Step;
    if i < n - 1 {
      UsedStays(c, calls, i, n - 1, key, w);
    }
  }

  /** An allowed call is counted in a window that covers its time. */
  lemma WindowOf(c: Config, calls: seq<Call>, i: nat) returns (w: int)
    requires i < |calls| && Monotone(calls) && c.windowMs > 0 && AnswerOf(c, calls, i).allowed
    ensures InWindow(c, calls, i, calls[i].key, w) && w <= calls[i].time < w + c.windowMs
  {
    hide Step;
    var key, t := calls[i].key, TableAfter(c, calls, i);
    StepOnKey(c, t, calls[i], key);
    w := TableAfter(c, calls, i + 1)[key].start;
    if key in t {
      WindowsFit(c, calls, i, key, t[key].start);
    }
  }

  /** Two windows of a key are the same or a window apart. */
  lemma WindowsAreApart(c: Config, calls: seq<Call>, i: nat, j: nat, key: Key, v: int, w: int)
    requires i <= j < |calls| && Monotone(calls) && c.windowMs > 0
    requires InWindow(c, calls, i, key, v) && InWindow(c, calls, j, key, w)
    ensures v == w || v + c.windowMs <= w
  {
    hide Step;
    UsedStays(c, calls, i, j + 1, key, v);
    WindowsFit(c, calls, j + 1, key, v);
  }

  /** The calls that count fall into two windows. */
  ghost predicate InEither(c: Config, calls: seq<Call>, n: nat, key: Key, s: int, v: int, w: int)
    requires n <= |calls|
  {
    forall i :: 0 <= i < n && Counts(c, calls, i, key, s) ==>
      InWindow(c, calls, i, key, v) || InWindow(c, calls, i, key, w)
  }

  lemma {:induction false} AtMostBoth(c: Config, calls: seq<Call>, n: nat, key: Key, s: int, v: int, w: int)
    requires n <= |calls| && InEither(c, calls, n, key, s, v, w)
    ensures AllowedFrom(c, calls, n, key, s) <= Admitted(c, calls, n, key, v) + Admitted(c, calls, n, key, w)
  {
    hide InWindow, AnswerOf;
    if n > 0 {
      AtMostBoth(c, calls, n - 1, key, s, v, w);
    }
  }

  /** Some call that counts is in the window. */
  ghost predicate Occupied(c: Config, calls: seq<Call>, key: Key, s: int, w: int) {
    exists i :: 0 <= i < |calls| && Counts(c, calls, i, key, s) && InWindow(c, calls, i, key, w)
  }

  /** An occupied window covers a moment of the interval. */
  lemma OccupiedIsNear(c: Config, calls: seq<Call>, key: Key, s: int, w: int)
    requires Monotone(calls) && c.windowMs > 0 && Occupied(c, calls, key, s, w)
    ensures s - c.windowMs < w < s + c.windowMs
  {
    hide InWindow;
    var i :| 0 <= i < |calls| && Counts(c, calls, i, key, s) && InWindow(c, calls, i, key, w);
    var x := WindowOf(c, calls, i);
    WindowsAreApart(c, calls, i, i, key, w, x);
    WindowsAreApart(c, calls, i, i, key, x, w);
  }

  lemma OccupiedAreApart(c: Config, calls: seq<Call>, key: Key, s: int, v: int, w: int)
    requires Monotone(calls) && c.windowMs > 0 && Occupied(c, calls, key, s, v) && Occupied(c, calls, key, s, w)
    ensures v == w || v + c.windowMs <= w || w + c.windowMs <= v
  {
    hide InWindow, Counts;
    var i :| 0 <= i < |calls| && Counts(c, calls, i, key, s) && InWindow(c, calls, i, key, v);
    var j :| 0 <= j < |calls| && Counts(c, calls, j, key, s) && InWindow(c, calls, j, key, w);
    if i <= j {
      WindowsAreApart(c, calls, i, j, key, v, w);
    } else {
      WindowsAreApart(c, calls, j, i, key, w, v);
    }
  }

  lemma NeverThree(c: Config, calls: seq<Call>, key: Key, s: int, u: int, v: int, w: int)
    requires Monotone(calls) && c.windowMs > 0
    requires Occupied(c, calls, key, s, u) && Occupied(c, calls, key, s, v) && Occupied(c, calls, key, s, w)
    ensures u == v || v == w || u == w
  {
    hide Occupied;
    OccupiedIsNear(c, calls, key, s, u);
    OccupiedIsNear(c, calls, key, s, v);
    OccupiedIsNear(c, calls, key, s, w);
    OccupiedAreApart(c, calls, key, s, u, v);
    OccupiedAreApart(c, calls, key, s, v, w);
    OccupiedAreApart(c, calls, key, s, u, w);
  }

  lemma TwoWindows(c: Config, calls: seq<Call>, key: Key, s: int) returns (v: int, w: int)
    requires Monotone(calls) && c.windowMs > 0
    ensures InEither(c, calls, |calls|, key, s, v, w)
    ensures v != w ==> Occupied(c, calls, key, s, v) && Occupied(c, calls, key, s, w)
  {
    hide InWindow;
    v, w := 0, 0;
    if x :| Occupied(c, calls, key, s, x) {
      v, w := x, x;
      if y :| y != x && Occupied(c, calls, key, s, y) {
        w := y;
      }
    }
    forall i | 0 <= i < |calls| && Counts(c, calls, i, key, s)
      ensures InWindow(c, calls, i, key, v) || InWindow(c, calls, i, key, w)
    {
      var u := WindowOf(c, calls, i);
      assert Occupied(c, calls, key, s, u);
      NeverThree(c, calls, key, s, u, v, w);
    }
  }

  /** A window starts with a call, which is allowed if any is. */
  lemma {:induction false} WindowOpens(c: Config, calls: seq<Call>, n: nat, key: Key, w: int) returns (i: nat)
    requires n <= |calls| && Monotone(calls) && c.windowMs > 0 && c.limit > 0 && Uses(c, calls, n, key, w) > 0
    ensures i < n && InWindow(c, calls, i, key, w) && calls[i].time == w && AnswerOf(c, calls, i).allowed
    decreases n
  {
    hide Step;
    if Uses(c, calls, n - 1, key, w) > 0 {
      i := WindowOpens(c, calls, n - 1, key, w);
    } else {
      i := n - 1;
      var t := TableAfter(c, calls, i);
      StepOnKey(c, t, calls[i], key);
      if key in t {
        WindowsFit(c, calls, i, key, t[key].start);
        BucketsCount(c, calls, i, key);
      }
    }
  }

  lemma {:induction false} BucketsCount(c: Config, calls: seq<Call>, n: nat, key: Key)
    requires n <= |calls| && key in TableAfter(c, calls, n)
    ensures TableAfter(c, calls, n)[key].count > 0
    decreases n
  {
    hide Step;
    if n > 0 {
      var t := TableAfter(c, calls, n - 1);
      StepOnKey(c, t, calls[n - 1], key);
      if key in t {
        BucketsCount(c, calls, n - 1, key);
      }
    }
  }

  /** The opening call of a window does not count when it came before the interval. */
  lemma {:induction false} AtMostBothButOne(
    c: Config, calls: seq<Call>, n: nat, key: Key, s: int, v: int, w: int, open: nat)
    requires n <= |calls| && InEither(c, calls, n, key, s, v, w) && v != w
    requires open < |calls| && InWindow(c, calls, open, key, v) && AnswerOf(c, calls, open).allowed
    requires !Counts(c, calls, open, key, s)
    ensures AllowedFrom(c, calls, n, key, s) + (if open < n then 1 else 0) <=
            Admitted(c, calls, n, key, v) + Admitted(c, calls, n, key, w)
  {
    hide InWindow, AnswerOf;
    if n > 0 {
      AtMostBothButOne(c, calls, n - 1, key, s, v, w, open);
    }
  }

  lemma {:induction false} OccupiedIsUsed(c: Config, calls: seq<Call>, key: Key, s: int, w: int)
    requires Occupied(c, calls, key, s, w)
    ensures Uses(c, calls, |calls|, key, w) > 0
  {
    hide InWindow, Counts;
    var i :| 0 <= i < |calls| && Counts(c, calls, i, key, s) && InWindow(c, calls, i, key, w);
    UsedStays(c, calls, i, |calls|, key, w);
  }

  /** Two windows meet the interval: the opening call of the earlier one lies before it. */
  lemma {:induction false} TwoWindowsAllow(c: Config, calls: seq<Call>, key: Key, s: int, v: int, w: int)
    requires Monotone(calls) && c.windowMs > 0 && c.limit > 0 && v < w
    requires Occupied(c, calls, key, s, v) && Occupied(c, calls, key, s, w)
    requires InEither(c, calls, |calls|, key, s, v, w)
    ensures AllowedFrom(c, calls, |calls|, key, s) <= 2 * c.limit - 1
  {
    hide Occupied, InWindow, Uses, AllowedFrom, Admitted;
    OccupiedIsNear(c, calls, key, s, w);
    OccupiedAreApart(c, calls, key, s, v, w);
    OccupiedIsUsed(c, calls, key, s, v);
    var open := WindowOpens(c, calls, |calls|, key, v);
    AtMostBothButOne(c, calls, |calls|, key, s, v, w, open);
    AdmittedIsBounded(c, calls, key, v);
    AdmittedIsBounded(c, calls, key, w);
  }

  lemma {:induction false} AdmittedIsBounded(c: Config, calls: seq<Call>, key: Key, w: int)
    requires Monotone(calls) && c.windowMs > 0
    ensures Admitted(c, calls, |calls|, key, w) <= c.limit
  {
    WindowsFit(c, calls, |calls|, key, w);
  }

  lemma {:induction false} NoneAllowed(c: Config, calls: seq<Call>, n: nat, key: Key, s: int)
    requires n <= |calls| && c.windowMs <= 0
    ensures AllowedFrom(c, calls, n, key, s) == 0
  {
    if n > 0 {
      NoneAllowed(c, calls, n - 1, key, s);
    }
  }

  /** For every run with a clock that never goes back, fewer than twice the limit of calls of a
      key are allowed in any half-open interval as long as a window (none if the limit is
      zero). */
  lemma {:induction false} FewerThanTwiceTheLimit(c: Config, calls: seq<Call>, key: Key, s: int)
    requires Monotone(calls)
    ensures AllowedFrom(c, calls, |calls|, key, s) <= if c.limit == 0 then 0 else 2 * c.limit - 1
  {
    hide AllowedFrom, Admitted, InEither, Occupied;
    if c.windowMs <= 0 {
      NoneAllowed(c, calls, |calls|, key, s);
    } else {
      var v, w := TwoWindows(c, calls, key, s);
      AtMostBoth(c, calls, |calls|, key, s, v, w);
      AdmittedIsBounded(c, calls, key, v);
      AdmittedIsBounded(c, calls, key, w);
      if c.limit > 0 {
        if v < w {
          TwoWindowsAllow(c, calls, key, s, v, w);
        } else if w < v {
          EitherWay(c, calls, key, s, v, w);
          TwoWindowsAllow(c, calls, key, s, w, v);
        } else {
          OneWindowAllows(c, calls, |calls|, key, s, v);
        }
      }
    }
  }

  lemma EitherWay(c: Config, calls: seq<Call>, key: Key, s: int, v: int, w: int)
    requires InEither(c, calls, |calls|, key, s, v, w)
    ensures InEither(c, calls, |calls|, key, s, w, v)
  {
    hide InWindow, Counts;
  }

  lemma {:induction false} OneWindowAllows(c: Config, calls: seq<Call>, n: nat, key: Key, s: int, w: int)
    requires n <= |calls| && InEither(c, calls, n, key, s, w, w)
    ensures AllowedFrom(c, calls, n, key, s) <= Admitted(c, calls, n, key, w)
  {
    hide InWindow, AnswerOf;
    if n > 0 {
      OneWindowAllows(c, calls, n - 1, key, s, w);
    }
  }

  /** One call opens a window, the rest of the limit comes at its end, and the whole limit again at
      the start of the next one. */
  function Burst(c: Config, key: Key, from: int): (r: seq<Call>)
    ensures |r| == 2 * c.limit
  {
    seq(2 * c.limit, i => Call(key, if i == 0 then from
                                    else if i < c.limit then from + c.windowMs - 1
                                    else from + c.windowMs))
  }

  /** A table of one key is never full for that key. */
  lemma OneKeyStep(c: Config, t: Table, call: Call)
    requires c.maxKeys > 0 && t.Keys <= {call.key}
    ensures var b := Counted(c, t, call);
      Step(c, t, call) == (map[call.key := b], AnswerFor(c, b, call.time))
  {
    var kept := if |t| >= c.maxKeys then Pruned(c, t, call.time) else t;
    assert kept.Keys <= {call.key};
    assert kept.Keys == {} || kept.Keys == {call.key};
    assert call.key !in kept ==> kept == map[];
    assert kept[call.key := Counted(c, kept, call)] == map[call.key := Counted(c, t, call)];
  }

  function BurstBucket(c: Config, from: int, n: nat): Bucket
    requires n > 0
  {
    if n <= c.limit then Bucket(from, n) else Bucket(from + c.windowMs, n - c.limit)
  }

  lemma {:induction false} BurstTable(c: Config, key: Key, from: int, n: nat)
    requires c.limit > 0 && c.windowMs > 1 && c.maxKeys > 0 && 0 < n <= 2 * c.limit
    ensures TableAfter(c, Burst(c, key, from), n) == map[key := BurstBucket(c, from, n)]
    ensures AnswerOf(c, Burst(c, key, from), n - 1).allowed
    decreases n
  {
    hide Step;
    var calls := Burst(c, key, from);
    if n > 1 {
      BurstTable(c, key, from, n - 1);
    }
    OneKeyStep(c, TableAfter(c, calls, n - 1), calls[n - 1]);
  }

  lemma {:induction false} BurstAllowed(c: Config, key: Key, from: int, n: nat)
    requires c.limit > 0 && c.windowMs > 1 && c.maxKeys > 0 && n <= 2 * c.limit
    ensures AllowedFrom(c, Burst(c, key, from), n, key, from + c.windowMs - 1) == if n == 0 then 0 else n - 1
    decreases n
  {
    hide TableAfter, AnswerOf;
    if n > 0 {
      BurstAllowed(c, key, from, n - 1);
      BurstTable(c, key, from, n);
    }
  }

  /** The bound is reached, for every limit, every window of more than one tick, every key and at
      every time. */
  lemma {:induction false} TheBoundIsReached(c: Config, key: Key, from: int)
    requires c.limit > 0 && c.windowMs > 1 && c.maxKeys > 0
    ensures var calls := Burst(c, key, from);
      && Monotone(calls)
      && AllowedFrom(c, calls, |calls|, key, from + c.windowMs - 1) == 2 * c.limit - 1
  {
    BurstAllowed(c, key, from, 2 * c.limit);
  }

  // ---------------------------------------------------------------------------
  // The unbounded limiter
  // ---------------------------------------------------------------------------

  /** The unbounded limiter's table after the first `n` calls. */
  function FullTable(c: Config, calls: seq<Call>, n: nat): Table
    requires n <= |calls|
  {
    if n == 0 then map[] else Unbounded(c, FullTable(c, calls, n - 1), calls[n - 1]).0
  }

  /** A bucket the bounded table has dropped is one that no later call would have used. */
  ghost predicate Agree(c: Config, calls: seq<Call>, n: nat, key: Key)
    requires n <= |calls|
  {
    var t, u := TableAfter(c, calls, n), FullTable(c, calls, n);
    && (key in t ==> key in u && u[key] == t[key])
    && (key in u && key !in t ==> forall j :: n <= j < |calls| ==> Expired(c, u[key], calls[j].time))
  }

  lemma {:induction false} TablesAgree(c: Config, calls: seq<Call>, n: nat, key: Key)
    requires n <= |calls| && Monotone(calls)
    requires forall i :: 0 <= i < n ==> !AnswerOf(c, calls, i).turnedAway
    ensures Agree(c, calls, n, key)
    decreases n
  {
    hide Step;
    if n > 0 {
      var call := calls[n - 1];
      TablesAgree(c, calls, n - 1, key);
      assert !AnswerOf(c, calls, n - 1).turnedAway;
      StepOnKey(c, TableAfter(c, calls, n - 1), call, key);
      assert forall j :: n <= j < |calls| ==> call.time <= calls[j].time;
    }
  }

  /** As long as the full table has turned no key away, the limiter answers as one that keeps
      every bucket. */
  lemma {:induction false} AnswersAsUnbounded(c: Config, calls: seq<Call>, i: nat)
    requires i < |calls| && Monotone(calls)
    requires forall k :: 0 <= k <= i ==> !AnswerOf(c, calls, k).turnedAway
    ensures AnswerOf(c, calls, i) == Unbounded(c, FullTable(c, calls, i), calls[i]).1
  {
    TablesAgree(c, calls, i, calls[i].key);
    assert !AnswerOf(c, calls, i).turnedAway;
  }

  /** Waiting as long as a refusal says is enough: the window it counted in is over, or, when the
      table was full, everything in it has expired. */
  lemma WaitingHelps(c: Config, t: Table, call: Call, later: int)
    requires !Step(c, t, call).1.allowed && |t| <= c.maxKeys
    requires later >= call.time + 1000 * Step(c, t, call).1.retryAfter
    ensures var r, a := Step(c, t, call).0, Step(c, t, call).1;
            if a.turnedAway then forall k :: k in r && r[k].start <= call.time ==> Expired(c, r[k], later)
            else call.key in r && Expired(c, r[call.key], later) && a.retryAfter >= 1
  {
  }
}
