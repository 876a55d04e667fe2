/** What two values have in common when they print the same. */
module CanonicalMeaning {
  import opened Options
  import opened CodeUnits
  import opened Quoting
  import opened CanonicalJson

  // ---------------------------------------------------------------------------
  // Sameness, without sorting or printing
  // ---------------------------------------------------------------------------

  /** What reading property `key` gives, when it is there and not undefined. */
  function Lookup(fields: seq<Field>, key: Text): (r: Option<Json>)
    ensures r.Some? ==> Field(key, r.value) in fields && r.value != Undefined
    ensures r.Some? ==> Size(r.value) < SizeOfFields(fields)
  {
    if |fields| == 0 then None
    else if fields[0].key == key then
      if fields[0].value == Undefined then None else Some(fields[0].value)
    else Lookup(fields[1..], key)
  }

  predicate IsNull(v: Json) {
    v == Null || v == NonFinite
  }

  function NumberOf(v: Json): Option<Text> {
    match v
    case NegativeZero => Some([48])
    case Number(t) => Some(t)
    case _ => None
  }

  /** Equal up to the order of keys, undefined properties, and the numbers JSON cannot write. */
  ghost predicate Same(v: Json, w: Json)
    decreases Size(v)
  {
    match v
    case Arr(items) =>
      && w.Arr? && |w.items| == |items|
      && forall i :: 0 <= i < |items| ==> Same(items[i], w.items[i])
    case Obj(fields) =>
      && w.Obj?
      && forall key :: SameAt(fields, w.fields, key)
    case _ =>
      v == w || (IsNull(v) && IsNull(w)) || (NumberOf(v).Some? && NumberOf(v) == NumberOf(w))
  }

  ghost predicate SameAt(fields: seq<Field>, others: seq<Field>, key: Text)
    decreases SizeOfFields(fields)
  {
    match Lookup(fields, key)
    case None => Lookup(others, key).None?
    case Some(v) => Lookup(others, key).Some? && Same(v, Lookup(others, key).value)
  }

  // ---------------------------------------------------------------------------
  // Same values are those with the same normal form
  // ---------------------------------------------------------------------------

  lemma {:induction false} LookupFinds(fields: seq<Field>, f: Field)
    requires DistinctKeys(fields) && f in fields && f.value != Undefined
    ensures Lookup(fields, f.key) == Some(f.value)
  {
    if fields[0] != f {
      assert f in fields[1..];
      LookupFinds(fields[1..], f);
    }
  }

  ghost predicate HasKey(fields: seq<Field>, key: Text) {
    exists f :: f in fields && f.key == key
  }

  lemma {:induction false} LeastKey(fields: seq<Field>, key: Text)
    requires Ascending(fields) && HasKey(fields, key)
    ensures |fields| > 0 && !Less(key, fields[0].key)
  {
    hide Less;
    var f :| f in fields && f.key == key;
    LessIsTotal(key, fields[0].key);
  }

  lemma TailKey(fields: seq<Field>, key: Text)
    requires Ascending(fields) && |fields| > 0
    ensures HasKey(fields[1..], key) <==> HasKey(fields, key) && key != fields[0].key
  {
    hide Less;
    LessIsTotal(fields[0].key, fields[0].key);
    if HasKey(fields[1..], key) {
      var f :| f in fields[1..] && f.key == key;
      assert f in fields;
    }
    if HasKey(fields, key) && key != fields[0].key {
      var f :| f in fields && f.key == key;
      assert f in fields[1..];
    }
  }

  /** Two ascending sequences over the same keys have the same keys at each position. */
  lemma {:induction false} KeysAlign(a: seq<Field>, b: seq<Field>)
    requires Ascending(a) && Ascending(b)
    requires forall key :: HasKey(a, key) <==> HasKey(b, key)
    ensures |a| == |b| && forall i :: 0 <= i < |a| ==> a[i].key == b[i].key
  {
    hide Less, HasKey;
    FirstKey(a, b);
    FirstKey(b, a);
    if |a| > 0 {
      LessIsTotal(a[0].key, b[0].key);
      forall key ensures HasKey(a[1..], key) <==> HasKey(b[1..], key) {
        TailKey(a, key);
        TailKey(b, key);
      }
      KeysAlign(a[1..], b[1..]);
    }
  }

  lemma FirstKey(a: seq<Field>, b: seq<Field>)
    requires Ascending(a) && Ascending(b)
    requires forall key :: HasKey(a, key) <==> HasKey(b, key)
    ensures |a| > 0 ==> |b| > 0 && !Less(a[0].key, b[0].key)
  {
    hide Less;
    if |a| > 0 {
      var f := a[0];
      assert f in a;
      assert HasKey(a, f.key);
      LeastKey(b, f.key);
    }
  }

  lemma {:induction false} SameIsNormal(v: Json, w: Json)
    requires Proper(v) && Proper(w)
    ensures Same(v, w) <==> Normal(v) == Normal(w)
    decreases Size(v), 1
  {
    hide Kept, NormalItems, NormalFields, SameAt, ProperItems, ProperFields, SizeOfItems, SizeOfFields;
    if v.Arr? && w.Arr? {
      SameItems(v.items, w.items);
    } else if v.Obj? && w.Obj? {
      SameFields(v.fields, w.fields);
    }
  }

  lemma {:induction false} SameItems(items: seq<Json>, others: seq<Json>)
    requires ProperItems(items) && ProperItems(others)
    ensures Same(Arr(items), Arr(others)) <==> NormalItems(items) == NormalItems(others)
    decreases SizeOfItems(items), 2
  {
    ProperEachItem(items);
    ProperEachItem(others);
    if |items| == |others| {
      forall i | 0 <= i < |items| ensures Same(items[i], others[i]) <==> Normal(items[i]) == Normal(others[i]) {
        SameIsNormal(items[i], others[i]);
      }
      assert NormalItems(items) == NormalItems(others) ==>
             forall i :: 0 <= i < |items| ==> NormalItems(items)[i] == NormalItems(others)[i];
    }
  }

  lemma {:induction false} ProperEachItem(items: seq<Json>)
    requires ProperItems(items)
    ensures forall i :: 0 <= i < |items| ==> Proper(items[i])
  {
    if |items| > 0 {
      ProperEachItem(items[1..]);
      assert forall i :: 0 < i < |items| ==> items[i] == items[1..][i - 1];
    }
  }

  lemma {:induction false} SameFields(fields: seq<Field>, others: seq<Field>)
    requires Proper(Obj(fields)) && Proper(Obj(others))
    ensures Same(Obj(fields), Obj(others)) <==> NormalFields(Kept(fields)) == NormalFields(Kept(others))
    decreases SizeOfFields(fields), 2
  {
    hide Kept, Normal, NormalFields;
    if Same(Obj(fields), Obj(others)) {
      SameFieldsPrint(fields, others);
    }
    if NormalFields(Kept(fields)) == NormalFields(Kept(others)) {
      forall key ensures SameAt(fields, others, key) {
        PrintedFieldsSame(fields, others, key);
      }
    }
  }

  lemma {:induction false} SameFieldsPrint(fields: seq<Field>, others: seq<Field>)
    requires Proper(Obj(fields)) && Proper(Obj(others)) && forall key :: SameAt(fields, others, key)
    ensures NormalFields(Kept(fields)) == NormalFields(Kept(others))
    decreases SizeOfFields(fields), 1
  {
    hide Kept, Normal, NormalFields, Proper, HasKey, Ascending, Lookup, Same;
    var a, b := Kept(fields), Kept(others);
    KeptAscendsBoth(fields, others);
    forall key ensures HasKey(a, key) <==> HasKey(b, key) {
      assert SameAt(fields, others, key);
      KeyIsFound(fields, key);
      KeyIsFound(others, key);
    }
    KeysAlign(a, b);
    forall i | 0 <= i < |a| ensures Normal(a[i].value) == Normal(b[i].value) {
      assert a[i] in a && b[i] in b;
      FoundOf(fields, a[i]);
      FoundOf(others, b[i]);
      assert SameAt(fields, others, a[i].key);
      SameIsNormal(a[i].value, b[i].value);
    }
  }

  lemma KeptAscendsBoth(fields: seq<Field>, others: seq<Field>)
    requires Proper(Obj(fields)) && Proper(Obj(others))
    ensures Ascending(Kept(fields)) && Ascending(Kept(others))
  {
    KeptAscends(fields);
    KeptAscends(others);
  }

  /** A printed property is the one that reading its key gives. */
  lemma {:induction false} FoundOf(fields: seq<Field>, f: Field)
    requires Proper(Obj(fields)) && f in Kept(fields)
    ensures Lookup(fields, f.key) == Some(f.value) && Proper(f.value) && Size(f.value) < SizeOfFields(fields)
  {
    ProperEach(fields);
    LookupFinds(fields, f);
  }

  /** The printed keys are those that can be read. */
  lemma {:induction false} KeyIsFound(fields: seq<Field>, key: Text)
    requires Proper(Obj(fields))
    ensures HasKey(Kept(fields), key) <==> Lookup(fields, key).Some?
  {
    hide Proper;
    if HasKey(Kept(fields), key) {
      var f :| f in Kept(fields) && f.key == key;
      FoundOf(fields, f);
    }
    if Lookup(fields, key).Some? {
      assert Field(key, Lookup(fields, key).value) in Kept(fields);
    }
  }

  lemma {:induction false} PrintedFieldsSame(fields: seq<Field>, others: seq<Field>, key: Text)
    requires Proper(Obj(fields)) && Proper(Obj(others))
    requires NormalFields(Kept(fields)) == NormalFields(Kept(others))
    ensures SameAt(fields, others, key)
    decreases SizeOfFields(fields), 1
  {
    hide Kept, Normal, NormalFields, Proper, Same;
    var a, b := Kept(fields), Kept(others);
    if Lookup(fields, key).Some? {
      var f := Field(key, Lookup(fields, key).value);
      assert f in a;
      var i :| 0 <= i < |a| && a[i] == f;
      assert NormalFields(a)[i] == NormalFields(b)[i];
      FoundOf(fields, f);
      assert b[i] in b;
      FoundOf(others, b[i]);
      SameIsNormal(f.value, b[i].value);
    } else if Lookup(others, key).Some? {
      var g := Field(key, Lookup(others, key).value);
      assert g in b;
      var i :| 0 <= i < |b| && b[i] == g;
      assert NormalFields(a)[i] == NormalFields(b)[i];
      assert a[i] in a;
      FoundOf(fields, a[i]);
    }
  }

  // ---------------------------------------------------------------------------
  // Printing is a function of the normal form
  // ---------------------------------------------------------------------------

  lemma {:induction false} NormalPrints(v: Json, w: Json)
    requires Normal(v) == Normal(w)
    ensures Canonical(v) == Canonical(w)
    decreases Size(v), 1
  {
    hide Kept, NormalItems, NormalFields, CanonicalItems, CanonicalFields, SizeOfItems, SizeOfFields;
    if v.Arr? {
      NormalPrintsItems(v.items, w.items);
    } else if v.Obj? {
      NormalPrintsFields(Kept(v.fields), Kept(w.fields));
    }
  }

  lemma {:induction false} NormalPrintsItems(items: seq<Json>, others: seq<Json>)
    requires NormalItems(items) == NormalItems(others)
    ensures CanonicalItems(items) == CanonicalItems(others)
    decreases SizeOfItems(items), 0
  {
    hide Normal, Canonical;
    assert |items| == |NormalItems(items)| == |others|;
    if |items| > 0 {
      assert NormalItems(items)[0] == NormalItems(others)[0];
      NormalPrints(items[0], others[0]);
      assert NormalItems(items[1..]) == NormalItems(items)[1..];
      assert NormalItems(others[1..]) == NormalItems(others)[1..];
      NormalPrintsItems(items[1..], others[1..]);
    }
  }

  lemma {:induction false} NormalPrintsFields(fields: seq<Field>, others: seq<Field>)
    requires NormalFields(fields) == NormalFields(others)
    ensures CanonicalFields(fields) == CanonicalFields(others)
    decreases SizeOfFields(fields), 0
  {
    hide Normal, Canonical;
    assert |fields| == |NormalFields(fields)| == |others|;
    if |fields| > 0 {
      assert NormalFields(fields)[0] == NormalFields(others)[0];
      NormalPrints(fields[0].value, others[0].value);
      assert NormalFields(fields[1..]) == NormalFields(fields)[1..];
      assert NormalFields(others[1..]) == NormalFields(others)[1..];
      NormalPrintsFields(fields[1..], others[1..]);
    }
  }

  /** The values that print: nothing unserializable, and undefined only as a property. */
  ghost predicate Serializable(v: Json)
    decreases Size(v)
  {
    match v
    case Undefined => false
    case Unserializable => false
    case Arr(items) => forall i :: 0 <= i < |items| ==> Serializable(items[i])
    case Obj(fields) =>
      forall i :: 0 <= i < |fields| && fields[i].value != Undefined ==> Serializable(fields[i].value)
    case _ => true
  }

  lemma {:induction false} PrintsWhenSerializable(v: Json)
    ensures Canonical(v).Some? <==> Serializable(v)
    decreases Size(v), 1
  {
    hide Kept, CanonicalItems, CanonicalFields, SizeOfItems, SizeOfFields;
    if v.Arr? {
      ItemsPrint(v.items);
    } else if v.Obj? {
      var kept := Kept(v.fields);
      FieldsPrint(kept);
      assert forall i :: 0 <= i < |kept| ==> kept[i] in v.fields;
      assert forall i :: 0 <= i < |v.fields| && v.fields[i].value != Undefined ==> v.fields[i] in kept;
    }
  }

  lemma {:induction false} ItemsPrint(items: seq<Json>)
    ensures CanonicalItems(items).Some? <==> forall i :: 0 <= i < |items| ==> Serializable(items[i])
    decreases SizeOfItems(items), 0
  {
    hide Canonical, Serializable;
    if |items| > 0 {
      PrintsWhenSerializable(items[0]);
      ItemsPrint(items[1..]);
      assert forall i :: 0 < i < |items| ==> items[i] == items[1..][i - 1];
    }
  }

  lemma {:induction false} FieldsPrint(fields: seq<Field>)
    ensures CanonicalFields(fields).Some? <==> forall i :: 0 <= i < |fields| ==> Serializable(fields[i].value)
    decreases SizeOfFields(fields), 0
  {
    hide Canonical, Serializable;
    if |fields| > 0 {
      PrintsWhenSerializable(fields[0].value);
      FieldsPrint(fields[1..]);
      assert forall i :: 0 < i < |fields| ==> fields[i] == fields[1..][i - 1];
    }
  }

  // ---------------------------------------------------------------------------
  // Theorems
  // ---------------------------------------------------------------------------

  /** Printing is unambiguous: in front of any two continuations that end a value, two texts are
      the same exactly when the values are and the continuations are. */
  lemma {:induction false} PrintingIsUnambiguous(v: Json, w: Json, rest: Text, other: Text)
    requires Proper(v) && Proper(w) && Serializable(v) && Serializable(w)
    requires Ends(rest) && Ends(other)
    ensures Canonical(v).Some? && Canonical(w).Some?
    ensures Canonical(v).value + rest == Canonical(w).value + other <==> Same(v, w) && rest == other
  {
    hide Canonical, Normal, Same, Serializable, Proper, Parse;
    PrintsWhenSerializable(v);
    PrintsWhenSerializable(w);
    SameIsNormal(v, w);
    CanonicalParses(v, rest);
    CanonicalParses(w, other);
    if Same(v, w) {
      NormalPrints(v, w);
    }
  }

  /** Two values print the same exactly when they are the same. */
  lemma {:induction false} PrintsTheSame(v: Json, w: Json)
    requires Proper(v) && Proper(w) && Serializable(v) && Serializable(w)
    ensures Canonical(v) == Canonical(w) <==> Same(v, w)
  {
    hide Canonical, Same, Serializable, Proper;
    PrintingIsUnambiguous(v, w, [], []);
    assert Canonical(v).value + [] == Canonical(v).value && Canonical(w).value + [] == Canonical(w).value;
  }

  // ---------------------------------------------------------------------------
  // The numbers JSON cannot write
  // ---------------------------------------------------------------------------

  /** Equal up to the order of keys and undefined properties, and nothing else. */
  ghost predicate Equivalent(v: Json, w: Json)
    decreases Size(v)
  {
    match v
    case Arr(items) =>
      && w.Arr? && |w.items| == |items|
      && forall i :: 0 <= i < |items| ==> Equivalent(items[i], w.items[i])
    case Obj(fields) =>
      && w.Obj?
      && forall key :: EquivalentAt(fields, w.fields, key)
    case _ => v == w
  }

  ghost predicate EquivalentAt(fields: seq<Field>, others: seq<Field>, key: Text)
    decreases SizeOfFields(fields)
  {
    match Lookup(fields, key)
    case None => Lookup(others, key).None?
    case Some(v) => Lookup(others, key).Some? && Equivalent(v, Lookup(others, key).value)
  }

  /** Neither minus zero nor a number that is not finite, anywhere. */
  ghost predicate Writable(v: Json)
    decreases Size(v)
  {
    match v
    case NonFinite => false
    case NegativeZero => false
    case Arr(items) => forall i :: 0 <= i < |items| ==> Writable(items[i])
    case Obj(fields) => forall i :: 0 <= i < |fields| ==> Writable(fields[i].value)
    case _ => true
  }

  /** Printing tells values apart that are not equivalent, as long as every number in them can be
      written. */
  lemma {:induction false} WritableValuesAreToldApart(v: Json, w: Json)
    requires Writable(v) && Writable(w)
    ensures Same(v, w) <==> Equivalent(v, w)
    decreases Size(v) + 1
  {
    if v.Arr? && w.Arr? && |v.items| == |w.items| {
      forall i | 0 <= i < |v.items| ensures Same(v.items[i], w.items[i]) <==> Equivalent(v.items[i], w.items[i]) {
        WritableValuesAreToldApart(v.items[i], w.items[i]);
      }
    } else if v.Obj? && w.Obj? {
      var a, b := v.fields, w.fields;
      if Same(v, w) {
        forall key ensures EquivalentAt(a, b, key) {
          assert SameAt(a, b, key);
          WritableKeys(a, b, key);
        }
      }
      if Equivalent(v, w) {
        forall key ensures SameAt(a, b, key) {
          assert EquivalentAt(a, b, key);
          WritableKeys(a, b, key);
        }
      }
    }
  }

  lemma {:induction false} WritableKeys(a: seq<Field>, b: seq<Field>, key: Text)
    requires Writable(Obj(a)) && Writable(Obj(b))
    ensures SameAt(a, b, key) <==> EquivalentAt(a, b, key)
    decreases SizeOfFields(a) + 1
  {
    var x, y := Lookup(a, key), Lookup(b, key);
    if x.Some? && y.Some? {
      WritableValuesAreToldApart(x.value, y.value);
    }
  }

  /** Infinity and NaN print as null, and minus zero as zero, so an approval does not tell them
      apart. */
  lemma UnwritableNumbersCollide(key: Text)
    ensures var infinite, none := Obj([Field(key, NonFinite)]), Obj([Field(key, Null)]);
            Canonical(infinite) == Canonical(none) && Canonical(infinite).Some? && !Equivalent(infinite, none)
    ensures Canonical(NegativeZero) == Canonical(Number([48])) && !Equivalent(NegativeZero, Number([48]))
  {
    hide Kept, Quote;
    var infinite, none := [Field(key, NonFinite)], [Field(key, Null)];
    KeptOne(infinite[0]);
    KeptOne(none[0]);
    OneFieldPrints(infinite[0]);
    OneFieldPrints(none[0]);
    assert Lookup(infinite, key) == Some(NonFinite) && Lookup(none, key) == Some(Null);
    assert !EquivalentAt(infinite, none, key);
  }

  lemma OneFieldPrints(f: Field)
    requires Canonical(f.value) == Some(NULL)
    ensures CanonicalFields([f]) == Some(Quote(f.key) + [COLON] + NULL)
  {
    hide Canonical, Quote;
    assert [f][1..] == [];
    assert CanonicalFields([]) == Some([]);
  }

  lemma KeptOne(f: Field)
    requires f.value != Undefined
    ensures Kept([f]) == [f]
  {
    assert Sort([f]) == [f] by {
      assert [f][1..] == [];
    }
    assert Defined([f]) == [f] by {
      assert [f][1..] == [];
    }
  }

  // ---------------------------------------------------------------------------
  // Records
  // ---------------------------------------------------------------------------

  lemma {:induction false} LookupAt(fields: seq<Field>, i: nat)
    requires DistinctKeys(fields) && i < |fields|
    ensures Lookup(fields, fields[i].key) == if fields[i].value == Undefined then None else Some(fields[i].value)
  {
    if i > 0 {
      assert fields[i] == fields[1..][i - 1];
      LookupAt(fields[1..], i - 1);
    }
  }

  lemma {:induction false} LookupMisses(fields: seq<Field>, key: Text)
    requires forall i :: 0 <= i < |fields| ==> fields[i].key != key
    ensures Lookup(fields, key).None?
  {
    if |fields| > 0 {
      LookupMisses(fields[1..], key);
    }
  }

  /** Objects written with the same keys are the same exactly when their values are. */
  lemma RecordsAreSame(a: seq<Field>, b: seq<Field>)
    requires DistinctKeys(a) && DistinctKeys(b) && |a| == |b|
    requires forall i :: 0 <= i < |a| ==> a[i].key == b[i].key
    ensures Same(Obj(a), Obj(b)) <==> forall i :: 0 <= i < |a| ==> Same(a[i].value, b[i].value)
  {
    hide Lookup;
    if forall i :: 0 <= i < |a| ==> Same(a[i].value, b[i].value) {
      forall key ensures SameAt(a, b, key) {
        if i :| 0 <= i < |a| && a[i].key == key {
          LookupAt(a, i);
          LookupAt(b, i);
        } else {
          LookupMisses(a, key);
          LookupMisses(b, key);
        }
      }
    }
    if Same(Obj(a), Obj(b)) {
      forall i | 0 <= i < |a| ensures Same(a[i].value, b[i].value) {
        assert SameAt(a, b, a[i].key);
        LookupAt(a, i);
        LookupAt(b, i);
      }
    }
  }
}
