/** The canonical printer behind approval fingerprints and task-request hashes, and the reader
    that shows it to be unambiguous. */
module CanonicalJson {
  import opened Options
  import opened CodeUnits
  import opened Quoting

  // ---------------------------------------------------------------------------
  // Values
  // ---------------------------------------------------------------------------

  /** What an argument can be. `Unserializable` is a function, a symbol or a bigint. A finite
      number other than minus zero is its shortest decimal text, which determines it. */
  datatype Json =
    | Undefined
    | Unserializable
    | Null
    | Bool(truth: bool)
    | NonFinite
    | NegativeZero
    | Number(text: Text)
    | Str(text: Text)
    | Arr(items: seq<Json>)
    | Obj(fields: seq<Field>)

  /** An own property, in insertion order. */
  datatype Field = Field(key: Text, value: Json)

  function Size(v: Json): nat {
    match v
    case Arr(items) => 1 + SizeOfItems(items)
    case Obj(fields) => 1 + SizeOfFields(fields)
    case _ => 1
  }

  function SizeOfItems(items: seq<Json>): (r: nat)
    ensures forall i :: 0 <= i < |items| ==> Size(items[i]) < r
  {
    if |items| == 0 then 0 else Size(items[0]) + 1 + SizeOfItems(items[1..])
  }

  function SizeOfFields(fields: seq<Field>): (r: nat)
    ensures forall i :: 0 <= i < |fields| ==> Size(fields[i].value) < r
  {
    if |fields| == 0 then 0 else Size(fields[0].value) + 1 + SizeOfFields(fields[1..])
  }

  /** The characters of a number's text; none of them ends a value. */
  predicate NumberUnit(u: Unit) {
    48 <= u < 58 || u == 43 || u == 45 || u == 46 || u == 101
  }

  predicate NumberText(t: Text) {
    |t| > 0 && forall i :: 0 <= i < |t| ==> NumberUnit(t[i])
  }

  /** Objects have distinct keys, numbers have number texts. */
  predicate Proper(v: Json)
    decreases Size(v), 1
  {
    match v
    case Number(t) => NumberText(t)
    case Arr(items) => ProperItems(items)
    case Obj(fields) => DistinctKeys(fields) && ProperFields(fields)
    case _ => true
  }

  predicate ProperItems(items: seq<Json>)
    decreases SizeOfItems(items), 0
  {
    |items| > 0 ==> Proper(items[0]) && ProperItems(items[1..])
  }

  predicate ProperFields(fields: seq<Field>)
    decreases SizeOfFields(fields), 0
  {
    |fields| > 0 ==> Proper(fields[0].value) && ProperFields(fields[1..])
  }

  predicate DistinctKeys(fields: seq<Field>) {
    forall i, j :: 0 <= i < j < |fields| ==> fields[i].key != fields[j].key
  }

  // ---------------------------------------------------------------------------
  // Sorting and filtering the keys
  // ---------------------------------------------------------------------------

  predicate Ascending(fields: seq<Field>) {
    forall i, j :: 0 <= i < j < |fields| ==> Less(fields[i].key, fields[j].key)
  }

  function Insert(f: Field, fields: seq<Field>): (r: seq<Field>)
    ensures SizeOfFields(r) == Size(f.value) + 1 + SizeOfFields(fields)
    ensures forall g :: g in r <==> g == f || g in fields
  {
    if |fields| == 0 || Less(f.key, fields[0].key) then
      assert ([f] + fields)[1..] == fields;
      [f] + fields
    else
      var rest := Insert(f, fields[1..]);
      assert ([fields[0]] + rest)[1..] == rest;
      [fields[0]] + rest
  }

  function Sort(fields: seq<Field>): (r: seq<Field>)
    ensures SizeOfFields(r) == SizeOfFields(fields)
    ensures forall g :: g in r <==> g in fields
  {
    if |fields| == 0 then [] else Insert(fields[0], Sort(fields[1..]))
  }

  /** Drop the keys whose value is undefined. */
  function Defined(fields: seq<Field>): (r: seq<Field>)
    ensures SizeOfFields(r) <= SizeOfFields(fields)
    ensures forall g :: g in r <==> g in fields && g.value != Undefined
  {
    if |fields| == 0 then []
    else if fields[0].value == Undefined then Defined(fields[1..])
    else
      var rest := Defined(fields[1..]);
      assert ([fields[0]] + rest)[1..] == rest;
      [fields[0]] + rest
  }

  /** The properties that are printed, in the order they are printed in. */
  function Kept(fields: seq<Field>): (r: seq<Field>)
    ensures SizeOfFields(r) <= SizeOfFields(fields)
    ensures forall g :: g in r <==> g in fields && g.value != Undefined
  {
    Defined(Sort(fields))
  }

  lemma {:induction false} InsertAscends(f: Field, fields: seq<Field>)
    requires Ascending(fields) && forall g :: g in fields ==> g.key != f.key
    ensures Ascending(Insert(f, fields))
  {
    if |fields| == 0 {
    } else if Less(f.key, fields[0].key) {
      forall j | 0 < j < |fields| ensures Less(f.key, fields[j].key) {
        LessIsTransitive(f.key, fields[0].key, fields[j].key);
      }
    } else {
      LessIsTotal(f.key, fields[0].key);
      InsertAscends(f, fields[1..]);
      var rest := Insert(f, fields[1..]);
      forall j | 0 <= j < |rest| ensures Less(fields[0].key, rest[j].key) {
        assert rest[j] in rest;
      }
    }
  }

  lemma {:induction false} SortAscends(fields: seq<Field>)
    requires DistinctKeys(fields)
    ensures Ascending(Sort(fields))
  {
    if |fields| > 0 {
      SortAscends(fields[1..]);
      InsertAscends(fields[0], Sort(fields[1..]));
    }
  }

  lemma {:induction false} DefinedAscends(fields: seq<Field>)
    requires Ascending(fields)
    ensures Ascending(Defined(fields))
  {
    if |fields| > 0 {
      DefinedAscends(fields[1..]);
      var rest := Defined(fields[1..]);
      forall j | 0 <= j < |rest| ensures Less(fields[0].key, rest[j].key) {
        assert rest[j] in rest;
      }
    }
  }

  /** Two ascending sequences of the same properties are the same. */
  lemma {:induction false} AscendingIsUnique(a: seq<Field>, b: seq<Field>)
    requires Ascending(a) && Ascending(b)
    requires forall g :: g in a <==> g in b
    ensures a == b
  {
    var first := if |a| > 0 then a[..1] else b[..if |b| > 0 then 1 else 0];
    assert forall g :: g in first ==> g in a && g in b;
    if |first| > 0 {
      assert first[0] in a && first[0] in b;
      assert a[0] in b && b[0] in a;
      LessIsTotal(a[0].key, b[0].key);
      assert a[0] == b[0];
      assert a == [a[0]] + a[1..] && b == [b[0]] + b[1..];
      LessIsTotal(a[0].key, a[0].key);
      assert a[0] !in a[1..] && b[0] !in b[1..];
      forall g ensures g in a[1..] <==> g in b[1..] {
        assert g in a <==> g == a[0] || g in a[1..];
        assert g in b <==> g == b[0] || g in b[1..];
      }
      AscendingIsUnique(a[1..], b[1..]);
    }
  }

  lemma KeptAscends(fields: seq<Field>)
    requires DistinctKeys(fields)
    ensures Ascending(Kept(fields))
  {
    SortAscends(fields);
    DefinedAscends(Sort(fields));
  }

  /** Filtering before sorting, as the task-request hash does, prints the same properties in the
      same order as sorting before filtering. */
  lemma {:induction false} FilterThenSort(fields: seq<Field>)
    requires DistinctKeys(fields)
    ensures Sort(Defined(fields)) == Kept(fields)
  {
    KeptAscends(fields);
    DefinedIsDistinct(fields);
    SortAscends(Defined(fields));
    AscendingIsUnique(Sort(Defined(fields)), Kept(fields));
  }

  lemma {:induction false} DefinedIsDistinct(fields: seq<Field>)
    requires DistinctKeys(fields)
    ensures DistinctKeys(Defined(fields))
  {
    if |fields| > 0 {
      DefinedIsDistinct(fields[1..]);
      var rest := Defined(fields[1..]);
      forall j | 0 <= j < |rest| ensures fields[0].key != rest[j].key {
        assert rest[j] in rest;
      }
    }
  }

  // ---------------------------------------------------------------------------
  // Printing
  // ---------------------------------------------------------------------------

  const NULL := T("null")
  const TRUE := T("true")
  const FALSE := T("false")
  const COMMA: Unit := 44
  const COLON: Unit := 58
  const OPEN_ARRAY: Unit := 91
  const CLOSE_ARRAY: Unit := 93
  const OPEN_OBJECT: Unit := 123
  const CLOSE_OBJECT: Unit := 125

  /** `canonical`. `None` is the thrown error. */
  function Canonical(v: Json): Option<Text>
    decreases Size(v), 1
  {
    match v
    case Undefined => None
    case Unserializable => None
    case Null => Some(NULL)
    case Bool(b) => Some(if b then TRUE else FALSE)
    case NonFinite => Some(NULL)
    case NegativeZero => Some([48])
    case Number(t) => Some(t)
    case Str(s) => Some(Quote(s))
    case Arr(items) => Wrap(OPEN_ARRAY, CanonicalItems(items), CLOSE_ARRAY)
    case Obj(fields) => Wrap(OPEN_OBJECT, CanonicalFields(Kept(fields)), CLOSE_OBJECT)
  }

  function Wrap(open: Unit, inner: Option<Text>, close: Unit): Option<Text> {
    if inner.None? then None else Some([open] + inner.value + [close])
  }

  /** The items, joined by commas. */
  function CanonicalItems(items: seq<Json>): Option<Text>
    decreases SizeOfItems(items), 0
  {
    if |items| == 0 then Some([])
    else
      var head := Canonical(items[0]);
      var tail := CanonicalItems(items[1..]);
      Joined(head, |items| == 1, tail)
  }

  function CanonicalFields(fields: seq<Field>): Option<Text>
    decreases SizeOfFields(fields), 0
  {
    if |fields| == 0 then Some([])
    else
      var value := Canonical(fields[0].value);
      var tail := CanonicalFields(fields[1..]);
      Joined(if value.None? then None else Some(Quote(fields[0].key) + [COLON] + value.value), |fields| == 1, tail)
  }

  function Joined(head: Option<Text>, last: bool, tail: Option<Text>): Option<Text> {
    if head.None? || tail.None? then None
    else if last then head
    else Some(head.value + [COMMA] + tail.value)
  }

  // ---------------------------------------------------------------------------
  // What is preserved
  // ---------------------------------------------------------------------------

  /** The value with its keys in order, without undefined properties, and with the numbers JSON
      cannot write replaced by what is written for them. */
  function Normal(v: Json): (r: Json)
    ensures r == Undefined <==> v == Undefined
    decreases Size(v), 1
  {
    match v
    case NonFinite => Null
    case NegativeZero => Number([48])
    case Arr(items) => Arr(NormalItems(items))
    case Obj(fields) => Obj(NormalFields(Kept(fields)))
    case _ => v
  }

  function NormalItems(items: seq<Json>): (r: seq<Json>)
    ensures |r| == |items|
    ensures forall i :: 0 <= i < |items| ==> r[i] == Normal(items[i])
    decreases SizeOfItems(items), 0
  {
    if |items| == 0 then [] else [Normal(items[0])] + NormalItems(items[1..])
  }

  function NormalFields(fields: seq<Field>): (r: seq<Field>)
    ensures |r| == |fields|
    ensures forall i :: 0 <= i < |fields| ==> r[i] == Field(fields[i].key, Normal(fields[i].value))
    decreases SizeOfFields(fields), 0
  {
    if |fields| == 0 then []
    else [Field(fields[0].key, Normal(fields[0].value))] + NormalFields(fields[1..])
  }

  // ---------------------------------------------------------------------------
  // Reading
  // ---------------------------------------------------------------------------

  /** How many units at the front of `t` belong to a number. */
  function NumberLength(t: Text): (r: nat)
    ensures r <= |t| && forall i :: 0 <= i < r ==> NumberUnit(t[i])
    ensures r < |t| ==> !NumberUnit(t[r])
  {
    if |t| == 0 || !NumberUnit(t[0]) then 0 else NumberLength(t[1..]) + 1
  }

  /** Read one value from the front of a text. */
  function Parse(t: Text): (r: Read<Json>)
    ensures r.Got? ==> |r.rest| < |t|
    decreases |t|, 1
  {
    if NULL <= t then Got(Null, t[4..])
    else if TRUE <= t then Got(Bool(true), t[4..])
    else if FALSE <= t then Got(Bool(false), t[5..])
    else if |t| == 0 then Nothing
    else if t[0] == QUOTE then
      var s := Unescape(t[1..]);
      if s.Nothing? then Nothing else Got(Str(s.value), s.rest)
    else if t[0] == OPEN_ARRAY then
      if |t| > 1 && t[1] == CLOSE_ARRAY then Got(Arr([]), t[2..])
      else
        var items := ParseItems(t[1..]);
        if items.Nothing? then Nothing else Got(Arr(items.value), items.rest)
    else if t[0] == OPEN_OBJECT then
      if |t| > 1 && t[1] == CLOSE_OBJECT then Got(Obj([]), t[2..])
      else
        var fields := ParseFields(t[1..]);
        if fields.Nothing? then Nothing else Got(Obj(fields.value), fields.rest)
    else
      var n := NumberLength(t);
      if n == 0 then Nothing else Got(Number(t[..n]), t[n..])
  }

  /** Read items up to and including the closing bracket. */
  function ParseItems(t: Text): (r: Read<seq<Json>>)
    ensures r.Got? ==> |r.rest| < |t|
    decreases |t|, 2
  {
    var v := Parse(t);
    if v.Nothing? || |v.rest| == 0 then Nothing
    else if v.rest[0] == CLOSE_ARRAY then Got([v.value], v.rest[1..])
    else if v.rest[0] == COMMA then
      var tail := ParseItems(v.rest[1..]);
      if tail.Nothing? then Nothing else Got([v.value] + tail.value, tail.rest)
    else Nothing
  }

  function ParseFields(t: Text): (r: Read<seq<Field>>)
    ensures r.Got? ==> |r.rest| < |t|
    decreases |t|, 2
  {
    var k := if |t| > 0 && t[0] == QUOTE then Unescape(t[1..]) else Nothing;
    if k.Nothing? || |k.rest| == 0 || k.rest[0] != COLON then Nothing
    else
      var v := Parse(k.rest[1..]);
      if v.Nothing? || |v.rest| == 0 then Nothing
      else if v.rest[0] == CLOSE_OBJECT then Got([Field(k.value, v.value)], v.rest[1..])
      else if v.rest[0] == COMMA then
        var tail := ParseFields(v.rest[1..]);
        if tail.Nothing? then Nothing else Got([Field(k.value, v.value)] + tail.value, tail.rest)
      else Nothing
  }

  /** Nothing that could go on with a number. */
  predicate Ends(rest: Text) {
    |rest| == 0 || !NumberUnit(rest[0])
  }

  lemma {:induction false} NumberReads(t: Text, rest: Text)
    requires (forall i :: 0 <= i < |t| ==> NumberUnit(t[i])) && Ends(rest)
    ensures NumberLength(t + rest) == |t|
  {
    if |t| == 0 {
      assert t + rest == rest;
    } else {
      assert (t + rest)[1..] == t[1..] + rest;
      NumberReads(t[1..], rest);
    }
  }

  lemma {:induction false} NumberParses(t: Text, rest: Text)
    requires NumberText(t) && Ends(rest)
    ensures Parse(t + rest) == Got(Number(t), rest)
  {
    NumberReads(t, rest);
    assert (t + rest)[0] == t[0];
    assert NULL[0] == 110 && TRUE[0] == 116 && FALSE[0] == 102;
    assert (t + rest)[..|t|] == t && (t + rest)[|t|..] == rest;
  }

  lemma {:induction false} StringParses(s: Text, rest: Text)
    ensures Parse(Quote(s) + rest) == Got(Str(s), rest)
  {
    hide Escape, Unescape;
    UnescapeEscape(s, rest);
    var all := Quote(s) + rest;
    assert all[1..] == Escape(s) + [QUOTE] + rest;
    assert NULL[0] == 110 && TRUE[0] == 116 && FALSE[0] == 102;
  }

  lemma {:induction false} NameParses(rest: Text)
    ensures Parse(NULL + rest) == Got(Null, rest)
    ensures Parse(TRUE + rest) == Got(Bool(true), rest)
    ensures Parse(FALSE + rest) == Got(Bool(false), rest)
  {
    assert NULL[0] == 110 && TRUE[0] == 116 && FALSE[0] == 102;
    assert (NULL + rest)[4..] == rest && (TRUE + rest)[4..] == rest && (FALSE + rest)[5..] == rest;
  }

  /** No printed value starts with a closing bracket. */
  lemma {:induction false} StartsWell(v: Json)
    requires Proper(v) && Canonical(v).Some?
    ensures |Canonical(v).value| > 0 && Canonical(v).value[0] != CLOSE_ARRAY
  {
    hide Kept;
    assert NULL[0] == 110 && TRUE[0] == 116 && FALSE[0] == 102;
  }

  /** Reading undoes printing, up to what printing forgets, whatever comes next. */
  lemma {:induction false} CanonicalParses(v: Json, rest: Text)
    requires Proper(v) && Canonical(v).Some? && Ends(rest)
    ensures Parse(Canonical(v).value + rest) == Got(Normal(v), rest)
    decreases Size(v), 1
  {
    hide Parse, Kept, NumberLength;
    match v {
      case Null => NameParses(rest);
      case NonFinite => NameParses(rest);
      case Bool(b) => NameParses(rest);
      case NegativeZero => NumberParses([48], rest);
      case Number(t) => NumberParses(t, rest);
      case Str(s) => StringParses(s, rest);
      case Arr(items) => ArrayParses(items, rest);
      case Obj(fields) => ObjectParses(fields, rest);
    }
  }

  lemma {:induction false} ArrayParses(items: seq<Json>, rest: Text)
    requires Proper(Arr(items)) && Canonical(Arr(items)).Some?
    ensures Parse(Canonical(Arr(items)).value + rest) == Got(Normal(Arr(items)), rest)
    decreases SizeOfItems(items) + 1, 0
  {
    hide Kept, NumberLength, Canonical, CanonicalItems, ParseItems;
    PrintedArray(items);
    var t := CanonicalItems(items).value;
    var all := Canonical(Arr(items)).value + rest;
    assert NULL[0] == 110 && TRUE[0] == 116 && FALSE[0] == 102;
    assert all[0] == OPEN_ARRAY;
    if |items| == 0 {
      assert all[2..] == rest;
      assert Normal(Arr(items)) == Arr([]);
    } else {
      ItemsParse(items, rest);
      assert all[1..] == t + [CLOSE_ARRAY] + rest;
    }
  }

  lemma {:induction false} PrintedArray(items: seq<Json>)
    requires Proper(Arr(items)) && Canonical(Arr(items)).Some?
    ensures ProperItems(items) && CanonicalItems(items).Some?
    ensures var t := CanonicalItems(items).value;
            && Canonical(Arr(items)).value == [OPEN_ARRAY] + t + [CLOSE_ARRAY]
            && if |items| == 0 then t == [] else |t| > 0 && t[0] != CLOSE_ARRAY
  {
    if |items| > 0 {
      StartsWell(items[0]);
    }
  }

  lemma {:induction false} ItemsParse(items: seq<Json>, rest: Text)
    requires |items| > 0 && ProperItems(items) && CanonicalItems(items).Some?
    ensures ParseItems(CanonicalItems(items).value + [CLOSE_ARRAY] + rest) == Got(NormalItems(items), rest)
    decreases SizeOfItems(items), 0
  {
    hide Parse, Canonical, Kept;
    var head := Canonical(items[0]).value;
    var all := CanonicalItems(items).value + [CLOSE_ARRAY] + rest;
    if |items| == 1 {
      CanonicalParses(items[0], [CLOSE_ARRAY] + rest);
      assert all == head + ([CLOSE_ARRAY] + rest);
      assert ([CLOSE_ARRAY] + rest)[1..] == rest;
      assert NormalItems(items) == [Normal(items[0])];
    } else {
      var tail := CanonicalItems(items[1..]).value + [CLOSE_ARRAY] + rest;
      CanonicalParses(items[0], [COMMA] + tail);
      ItemsParse(items[1..], rest);
      assert all == head + ([COMMA] + tail);
      assert ([COMMA] + tail)[1..] == tail;
    }
  }

  lemma {:induction false} ObjectParses(fields: seq<Field>, rest: Text)
    requires Proper(Obj(fields)) && Canonical(Obj(fields)).Some?
    ensures Parse(Canonical(Obj(fields)).value + rest) == Got(Normal(Obj(fields)), rest)
    decreases SizeOfFields(fields) + 1, 0
  {
    hide Kept, NumberLength, Canonical, CanonicalFields, ParseFields;
    var kept := Kept(fields);
    PrintedObject(fields);
    var t := CanonicalFields(kept).value;
    var all := Canonical(Obj(fields)).value + rest;
    assert NULL[0] == 110 && TRUE[0] == 116 && FALSE[0] == 102;
    assert all[0] == OPEN_OBJECT;
    if |kept| == 0 {
      assert all[2..] == rest;
      assert Normal(Obj(fields)) == Obj([]);
    } else {
      FieldsParse(kept, rest);
      assert all[1..] == t + [CLOSE_OBJECT] + rest;
    }
  }

  lemma PrintedObject(fields: seq<Field>)
    requires Proper(Obj(fields)) && Canonical(Obj(fields)).Some?
    ensures ProperFields(Kept(fields)) && CanonicalFields(Kept(fields)).Some?
    ensures var t := CanonicalFields(Kept(fields)).value;
            && Canonical(Obj(fields)).value == [OPEN_OBJECT] + t + [CLOSE_OBJECT]
            && if |Kept(fields)| == 0 then t == [] else |t| > 0 && t[0] == QUOTE
  {
    ProperEach(fields);
    ProperFromEach(Kept(fields));
  }

  lemma {:induction false} ProperEach(fields: seq<Field>)
    requires ProperFields(fields)
    ensures forall f :: f in fields ==> Proper(f.value)
  {
    if |fields| > 0 {
      ProperEach(fields[1..]);
      assert forall f :: f in fields ==> f == fields[0] || f in fields[1..];
    }
  }

  lemma {:induction false} ProperFromEach(fields: seq<Field>)
    requires forall f :: f in fields ==> Proper(f.value)
    ensures ProperFields(fields)
  {
    if |fields| > 0 {
      ProperFromEach(fields[1..]);
    }
  }

  lemma {:induction false} FieldsParse(fields: seq<Field>, rest: Text)
    requires |fields| > 0 && ProperFields(fields) && CanonicalFields(fields).Some?
    ensures ParseFields(CanonicalFields(fields).value + [CLOSE_OBJECT] + rest) == Got(NormalFields(fields), rest)
    decreases SizeOfFields(fields), 0
  {
    hide Parse, Canonical, Kept, Escape, Unescape;
    var key, value := fields[0].key, Canonical(fields[0].value).value;
    var all := CanonicalFields(fields).value + [CLOSE_OBJECT] + rest;
    if |fields| == 1 {
      FieldReads(key, fields[0].value, [CLOSE_OBJECT] + rest);
      assert all == Quote(key) + [COLON] + value + ([CLOSE_OBJECT] + rest);
      assert ([CLOSE_OBJECT] + rest)[1..] == rest;
      assert NormalFields(fields) == [Field(key, Normal(fields[0].value))];
    } else {
      var tail := CanonicalFields(fields[1..]).value + [CLOSE_OBJECT] + rest;
      FieldReads(key, fields[0].value, [COMMA] + tail);
      FieldsParse(fields[1..], rest);
      assert all == Quote(key) + [COLON] + value + ([COMMA] + tail);
      assert ([COMMA] + tail)[1..] == tail;
    }
  }

  /** A key, its colon and its value, in front of anything that ends the value. */
  lemma {:induction false} FieldReads(key: Text, v: Json, next: Text)
    requires Proper(v) && Canonical(v).Some? && Ends(next)
    ensures var all := Quote(key) + [COLON] + Canonical(v).value + next;
            && all[0] == QUOTE
            && Unescape(all[1..]) == Got(key, [COLON] + (Canonical(v).value + next))
            && ([COLON] + (Canonical(v).value + next))[1..] == Canonical(v).value + next
            && Parse(Canonical(v).value + next) == Got(Normal(v), next)
    decreases Size(v), 2
  {
    hide Parse, Canonical, Escape, Unescape;
    var after := [COLON] + (Canonical(v).value + next);
    UnescapeEscape(key, after);
    CanonicalParses(v, next);
    var all := Quote(key) + [COLON] + Canonical(v).value + next;
    assert all[1..] == Escape(key) + [QUOTE] + after;
    assert after[1..] == Canonical(v).value + next;
  }
}
