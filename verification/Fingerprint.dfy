/** The fingerprint that binds an approval to one exact effect. */
module Fingerprint {
  import opened Options
  import opened CodeUnits
  import opened CanonicalJson
  import opened CanonicalMeaning

  // ---------------------------------------------------------------------------
  // Integers
  // ---------------------------------------------------------------------------

  /** Number::toString of a non-negative integer below 10^21. */
  function Digits(n: nat): (r: Text)
    ensures |r| > 0 && forall i :: 0 <= i < |r| ==> 48 <= r[i] < 58
    ensures ValueOf(r) == n
  {
    if n < 10 then [48 + n as Unit]
    else
      var r := Digits(n / 10) + [48 + (n % 10) as Unit];
      assert r[..|r| - 1] == Digits(n / 10);
      r
  }

  function ValueOf(t: Text): int {
    if |t| == 0 then 0 else 10 * ValueOf(t[..|t| - 1]) + t[|t| - 1] as int - 48
  }

  function IntText(n: int): (r: Text)
    ensures NumberText(r) && (r[0] == 45 <==> n < 0)
  {
    if n < 0 then [45] + Digits(-n) else Digits(n)
  }

  lemma IntTextIsInjective(m: int, n: int)
    requires IntText(m) == IntText(n)
    ensures m == n
  {
    if m < 0 && n < 0 {
      assert IntText(m)[1..] == Digits(-m) && IntText(n)[1..] == Digits(-n);
    } else if m >= 0 && n >= 0 {
      assert Digits(m) == Digits(n);
    }
  }

  // ---------------------------------------------------------------------------
  // The approved effect
  // ---------------------------------------------------------------------------

  datatype Context = Context(
    principalId: Option<Text>, sessionId: Option<Text>, workspace: Option<Text>,
    allowedRoots: Option<seq<Text>>, roots: seq<Text>, unrestricted: bool)

  /** `stepId` is `None` for a number that is not an integer. */
  datatype Effect = Effect(
    taskId: Text, stepId: Option<int>, action: Text, toolId: Text, args: Json, context: Context)

  const MAX_SAFE_INTEGER := 9007199254740991

  const WORKSPACE_POOL_CONTROL_TOOLS: set<Text> :=
    {T("add_workspace_roots"), T("remove_workspace_root"), T("set_workspace")}

  const UNRESTRICTED_FILE_OPERATIONS: set<Text> :=
    {T("read_file"), T("list_directory"), T("search_files"),
     T("write_file"), T("create_file"), T("modify_file"), T("delete_file")}

  predicate Given(t: Option<Text>) {
    t.Some? && |t.value| > 0
  }

  /** Only the tools that change the workspace pool may be approved without a workspace. */
  predicate Complete(e: Effect) {
    && Given(e.context.principalId)
    && Given(e.context.sessionId)
    && (e.toolId in WORKSPACE_POOL_CONTROL_TOOLS || Given(e.context.workspace))
    && |e.toolId| > 0
    && e.stepId.Some? && -MAX_SAFE_INTEGER <= e.stepId.value <= MAX_SAFE_INTEGER
  }

  predicate RequestsUnrestricted(toolId: Text, args: Json) {
    toolId in UNRESTRICTED_FILE_OPERATIONS && args.Obj? &&
    Lookup(args.fields, T("unrestricted")) == Some(Bool(true))
  }

  predicate Unrestricted(e: Effect) {
    e.context.unrestricted || RequestsUnrestricted(e.toolId, e.args)
  }

  function Roots(e: Effect): seq<Text> {
    if e.context.allowedRoots.Some? then e.context.allowedRoots.value else e.context.roots
  }

  function Strings(texts: seq<Text>): (r: seq<Json>)
    ensures |r| == |texts| && forall i :: 0 <= i < |r| ==> r[i] == Str(texts[i])
  {
    seq(|texts|, i requires 0 <= i < |texts| => Str(texts[i]))
  }

  function Scope(e: Effect): seq<Field>
    requires Complete(e)
  {
    [ Field(T("principalId"), Str(e.context.principalId.value)),
      Field(T("sessionId"), Str(e.context.sessionId.value)),
      Field(T("workspace"), if e.context.workspace.Some? then Str(e.context.workspace.value) else Null),
      Field(T("roots"), Arr(Strings(Roots(e)))),
      Field(T("unrestricted"), Bool(Unrestricted(e))) ]
  }

  function Payload(e: Effect): seq<Field>
    requires Complete(e)
  {
    [ Field(T("version"), Number(IntText(1))),
      Field(T("taskId"), Str(e.taskId)),
      Field(T("stepId"), Number(IntText(e.stepId.value))),
      Field(T("action"), Str(e.action)),
      Field(T("toolId"), Str(e.toolId)),
      Field(T("args"), e.args),
      Field(T("scope"), Obj(Scope(e))) ]
  }

  datatype Refusal = IdentityIncomplete | UnserializableArgument

  datatype Print = Printed(digest: Text) | Refused(why: Refusal)

  /** fingerprintTaskEffect, over any digest of the printed payload. */
  function FingerprintTaskEffect(e: Effect, sha256: Text -> Text): Print {
    if !Complete(e) then Refused(IdentityIncomplete)
    else
      var text := Canonical(Obj(Payload(e)));
      if text.None? then Refused(UnserializableArgument) else Printed(sha256(text.value))
  }

  // ---------------------------------------------------------------------------
  // What a fingerprint binds
  // ---------------------------------------------------------------------------

  /** The same effect, as far as it was approved. */
  ghost predicate SameEffect(a: Effect, b: Effect) {
    && a.taskId == b.taskId && a.stepId == b.stepId && a.action == b.action && a.toolId == b.toolId
    && Same(a.args, b.args)
    && a.context.principalId == b.context.principalId
    && a.context.sessionId == b.context.sessionId
    && a.context.workspace == b.context.workspace
    && Roots(a) == Roots(b)
    && Unrestricted(a) == Unrestricted(b)
  }

  ghost predicate Injective(f: Text -> Text) {
    forall x, y :: f(x) == f(y) ==> x == y
  }

  lemma ScopeKeys(e: Effect)
    requires Complete(e)
    ensures DistinctKeys(Scope(e))
  {
    var s := Scope(e);
    assert |s[0].key| == 11 && |s[1].key| == 9 && |s[2].key| == 9 && |s[3].key| == 5 && |s[4].key| == 12;
    assert s[1].key[0] == UnitOf('s') && s[2].key[0] == UnitOf('w');
  }

  lemma PayloadKeys(e: Effect)
    requires Complete(e)
    ensures DistinctKeys(Payload(e))
  {
    hide Scope;
    var s := Payload(e);
    assert |s[0].key| == 7 && |s[5].key| == 4 && |s[6].key| == 5;
    assert |s[1].key| == 6 && |s[2].key| == 6 && |s[3].key| == 6 && |s[4].key| == 6;
    assert s[1].key[0] == UnitOf('t') && s[1].key[1] == UnitOf('a');
    assert s[2].key[0] == UnitOf('s') && s[3].key[0] == UnitOf('a');
    assert s[4].key[0] == UnitOf('t') && s[4].key[1] == UnitOf('o');
  }

  lemma {:induction false} SameLeaves(v: Json, w: Json)
    ensures v.Str? && w.Str? ==> (Same(v, w) <==> v.text == w.text)
    ensures v.Bool? || v.Number? || v.Null? ==> (v == w ==> Same(v, w))
    ensures v.Bool? && w.Bool? ==> (Same(v, w) <==> v.truth == w.truth)
    ensures v.Number? && w.Number? ==> (Same(v, w) <==> v.text == w.text)
    ensures (v.Str? && w.Null?) || (v.Null? && w.Str?) ==> !Same(v, w)
  {
  }

  lemma SameStrings(a: seq<Text>, b: seq<Text>)
    ensures Same(Arr(Strings(a)), Arr(Strings(b))) <==> a == b
  {
    if Same(Arr(Strings(a)), Arr(Strings(b))) {
      forall i | 0 <= i < |a| ensures a[i] == b[i] {
        assert Same(Strings(a)[i], Strings(b)[i]);
      }
    }
  }

  lemma SameScope(a: Effect, b: Effect)
    requires Complete(a) && Complete(b)
    ensures Same(Obj(Scope(a)), Obj(Scope(b))) <==>
      && a.context.principalId == b.context.principalId
      && a.context.sessionId == b.context.sessionId
      && a.context.workspace == b.context.workspace
      && Roots(a) == Roots(b)
      && Unrestricted(a) == Unrestricted(b)
  {
    hide Unrestricted, Roots, T, Same, DistinctKeys, Strings;
    ScopeKeys(a);
    ScopeKeys(b);
    var s, t := Scope(a), Scope(b);
    RecordsAreSame(s, t);
    SameLeaves(s[0].value, t[0].value);
    SameLeaves(s[1].value, t[1].value);
    SameLeaves(s[2].value, t[2].value);
    SameStrings(Roots(a), Roots(b));
    SameLeaves(s[4].value, t[4].value);
    EachOfFive(s, t);
  }

  lemma EachOfFive(s: seq<Field>, t: seq<Field>)
    requires |s| == |t| == 5
    ensures (forall i :: 0 <= i < 5 ==> Same(s[i].value, t[i].value)) <==>
      Same(s[0].value, t[0].value) && Same(s[1].value, t[1].value) && Same(s[2].value, t[2].value) &&
      Same(s[3].value, t[3].value) && Same(s[4].value, t[4].value)
  {
    hide Same;
  }

  lemma SamePayload(a: Effect, b: Effect)
    requires Complete(a) && Complete(b)
    ensures Same(Obj(Payload(a)), Obj(Payload(b))) <==> SameEffect(a, b)
  {
    hide Unrestricted, Roots, Scope, IntText, T, Same, DistinctKeys, SameEffect;
    PayloadKeys(a);
    PayloadKeys(b);
    var s, t := Payload(a), Payload(b);
    RecordsAreSame(s, t);
    EachOfSeven(s, t);
    SameLeaves(s[0].value, t[0].value);
    SameIdentity(a, b, s, t);
  }

  lemma SameIdentity(a: Effect, b: Effect, s: seq<Field>, t: seq<Field>)
    requires Complete(a) && Complete(b) && s == Payload(a) && t == Payload(b)
    ensures SameEffect(a, b) <==>
      Same(s[1].value, t[1].value) && Same(s[2].value, t[2].value) && Same(s[3].value, t[3].value) &&
      Same(s[4].value, t[4].value) && Same(s[5].value, t[5].value) && Same(s[6].value, t[6].value)
  {
    hide Unrestricted, Roots, Scope, IntText, T, Same;
    SameLeaves(s[1].value, t[1].value);
    SameLeaves(s[2].value, t[2].value);
    SameLeaves(s[3].value, t[3].value);
    SameLeaves(s[4].value, t[4].value);
    if s[2].value == t[2].value {
      IntTextIsInjective(a.stepId.value, b.stepId.value);
    }
    SameScope(a, b);
  }

  lemma EachOfSeven(s: seq<Field>, t: seq<Field>)
    requires |s| == |t| == 7
    ensures (forall i :: 0 <= i < 7 ==> Same(s[i].value, t[i].value)) <==>
      Same(s[0].value, t[0].value) && Same(s[1].value, t[1].value) && Same(s[2].value, t[2].value) &&
      Same(s[3].value, t[3].value) && Same(s[4].value, t[4].value) && Same(s[5].value, t[5].value) &&
      Same(s[6].value, t[6].value)
  {
    hide Same;
  }

  lemma ScopeIsProper(e: Effect)
    requires Complete(e)
    ensures Proper(Obj(Scope(e))) && Serializable(Obj(Scope(e)))
  {
    hide Unrestricted, Roots, T, DistinctKeys, ProperFields;
    ScopeKeys(e);
    ProperStrings(Roots(e));
    var s := Scope(e);
    ProperFromEach(s);
    assert forall i :: 0 <= i < |s| ==> Serializable(s[i].value);
  }

  lemma PayloadIsProper(e: Effect)
    requires Complete(e) && Proper(e.args)
    ensures Proper(Obj(Payload(e)))
    ensures Serializable(Obj(Payload(e))) <==> e.args == Undefined || Serializable(e.args)
  {
    hide Unrestricted, Roots, Scope, T, IntText, DistinctKeys, ProperFields;
    PayloadKeys(e);
    ScopeIsProper(e);
    var s := Payload(e);
    ProperFromEach(s);
    assert s[5].value == e.args;
  }

  lemma {:induction false} ProperStrings(texts: seq<Text>)
    ensures ProperItems(Strings(texts)) && Serializable(Arr(Strings(texts)))
  {
    if |texts| > 0 {
      ProperStrings(texts[1..]);
      assert Strings(texts)[1..] == Strings(texts[1..]);
    }
  }

  /** A fingerprint is refused exactly when the identity is incomplete or an argument cannot be
      printed, and two fingerprints are equal exactly when the effects are the same. */
  lemma FingerprintsBindEffects(a: Effect, b: Effect, sha256: Text -> Text)
    requires Injective(sha256) && Proper(a.args) && Proper(b.args)
    ensures FingerprintTaskEffect(a, sha256).Printed? <==>
            Complete(a) && (a.args == Undefined || Serializable(a.args))
    ensures FingerprintTaskEffect(a, sha256).Printed? && FingerprintTaskEffect(b, sha256).Printed? ==>
            (FingerprintTaskEffect(a, sha256) == FingerprintTaskEffect(b, sha256) <==> SameEffect(a, b))
  {
    hide Complete, Payload, Canonical, Same, Serializable, Proper, SameEffect;
    if Complete(a) {
      PayloadIsProper(a);
      PrintsWhenSerializable(Obj(Payload(a)));
      if Complete(b) {
        PayloadIsProper(b);
        PrintsWhenSerializable(Obj(Payload(b)));
        SamePayload(a, b);
        if Serializable(Obj(Payload(a))) && Serializable(Obj(Payload(b))) {
          PrintsTheSame(Obj(Payload(a)), Obj(Payload(b)));
        }
      }
    }
  }
}
