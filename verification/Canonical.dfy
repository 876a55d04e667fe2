/** Text as ECMAScript strings are: sequences of UTF-16 code units, compared unit by unit. */
module CodeUnits {
  newtype Unit = x: int | 0 <= x < 65536

  type Text = seq<Unit>

  /** A string literal of the program. */
  function T(s: string): (r: Text)
    ensures |r| == |s|
    ensures forall i :: 0 <= i < |s| ==> r[i] == UnitOf(s[i])
  {
    seq(|s|, i requires 0 <= i < |s| => UnitOf(s[i]))
  }

  function UnitOf(c: char): Unit {
    if c as int < 65536 then c as int as Unit else 63
  }

  /** The order of Array.prototype.sort with no comparator. */
  predicate Less(a: Text, b: Text) {
    |b| > 0 && (|a| == 0 || a[0] < b[0] || (a[0] == b[0] && Less(a[1..], b[1..])))
  }

  lemma {:induction false} LessIsTotal(a: Text, b: Text)
    ensures Less(a, b) || a == b || Less(b, a)
    ensures !(Less(a, b) && Less(b, a)) && (a == b ==> !Less(a, b))
  {
    if |a| > 0 && |b| > 0 && a[0] == b[0] {
      LessIsTotal(a[1..], b[1..]);
      assert a == [a[0]] + a[1..] && b == [b[0]] + b[1..];
    }
  }

  lemma {:induction false} LessIsTransitive(a: Text, b: Text, c: Text)
    requires Less(a, b) && Less(b, c)
    ensures Less(a, c)
  {
    if |a| > 0 && a[0] == b[0] == c[0] {
      LessIsTransitive(a[1..], b[1..], c[1..]);
    }
  }
}

/** JSON.stringify of a string, and its inverse. */
module Quoting {
  import opened CodeUnits

  const QUOTE: Unit := 34
  const BACKSLASH: Unit := 92
  const LOWER_U: Unit := 117

  predicate High(u: Unit) { 0xD800 <= u < 0xDC00 }

  predicate Low(u: Unit) { 0xDC00 <= u < 0xE000 }

  function Hex(d: Unit): (r: Unit)
    requires d < 16
    ensures Digit(r) == d && (48 <= r < 58 || 97 <= r < 103)
  {
    if d < 10 then 48 + d else 87 + d
  }

  /** The value of a hexadecimal digit; sixteen for anything else. */
  function Digit(u: Unit): Unit {
    if 48 <= u < 58 then u - 48 else if 97 <= u < 103 then u - 87 else 16
  }

  function UnicodeEscape(u: Unit): Text {
    [BACKSLASH, LOWER_U, Hex(u / 16 / 16 / 16), Hex(u / 16 / 16 % 16), Hex(u / 16 % 16), Hex(u % 16)]
  }

  /** The letter of a two-unit escape, or zero. */
  function Short(u: Unit): Unit {
    if u == 8 then 98 else if u == 9 then 116 else if u == 10 then 110
    else if u == 12 then 102 else if u == 13 then 114
    else if u == QUOTE then QUOTE else if u == BACKSLASH then BACKSLASH else 0
  }

  function FromShort(u: Unit): Unit {
    if u == 98 then 8 else if u == 116 then 9 else if u == 110 then 10
    else if u == 102 then 12 else if u == 114 then 13
    else if u == QUOTE then QUOTE else if u == BACKSLASH then BACKSLASH else 0
  }

  /** QuoteJSONString without the surrounding quotes: control characters and lone surrogates are
      escaped, a surrogate pair is kept. */
  function Escape(s: Text): Text {
    if |s| == 0 then []
    else if Short(s[0]) != 0 then [BACKSLASH, Short(s[0])] + Escape(s[1..])
    else if s[0] < 32 then UnicodeEscape(s[0]) + Escape(s[1..])
    else if High(s[0]) && |s| > 1 && Low(s[1]) then [s[0], s[1]] + Escape(s[2..])
    else if High(s[0]) || Low(s[0]) then UnicodeEscape(s[0]) + Escape(s[1..])
    else [s[0]] + Escape(s[1..])
  }

  function Quote(s: Text): Text {
    [QUOTE] + Escape(s) + [QUOTE]
  }

  datatype Read<+A> = Nothing | Got(value: A, rest: Text)

  /** Read an escaped string up to and including its closing quote. */
  function Unescape(t: Text): (r: Read<Text>)
    ensures r.Got? ==> |r.rest| < |t|
  {
    if |t| == 0 then Nothing
    else if t[0] == QUOTE then Got([], t[1..])
    else if t[0] != BACKSLASH then Prepend(t[0], Unescape(t[1..]))
    else if |t| >= 2 && FromShort(t[1]) != 0 then Prepend(FromShort(t[1]), Unescape(t[2..]))
    else if |t| >= 6 && t[1] == LOWER_U && HexDigits(t[2..6]) then Prepend(FromHex(t[2..6]), Unescape(t[6..]))
    else Nothing
  }

  predicate HexDigits(h: Text) {
    forall i :: 0 <= i < |h| ==> Digit(h[i]) < 16
  }

  function FromHex(h: Text): Unit
    requires |h| == 4 && HexDigits(h)
  {
    ((Digit(h[0]) as int * 4096 + Digit(h[1]) as int * 256 + Digit(h[2]) as int * 16 + Digit(h[3]) as int) as Unit)
  }

  function Prepend(u: Unit, r: Read<Text>): Read<Text> {
    if r.Nothing? then Nothing else Got([u] + r.value, r.rest)
  }

  lemma HexReads(u: Unit, h: Text)
    requires h == [Hex(u / 16 / 16 / 16), Hex(u / 16 / 16 % 16), Hex(u / 16 % 16), Hex(u % 16)]
    ensures HexDigits(h) && FromHex(h) == u
  {
    hide Hex, Digit;
    var n := u as int;
    assert n / 16 / 16 == 16 * (n / 16 / 16 / 16) + n / 16 / 16 % 16;
    assert n / 16 == 16 * (n / 16 / 16) + n / 16 % 16;
    assert n == 16 * (n / 16) + n % 16;
  }

  lemma {:induction false} EscapeReads(u: Unit, t: Text)
    ensures Unescape(UnicodeEscape(u) + t) == Prepend(u, Unescape(t))
  {
    hide Hex, Digit, FromHex, HexDigits;
    var all := UnicodeEscape(u) + t;
    assert FromShort(LOWER_U) == 0;
    var h := [Hex(u / 16 / 16 / 16), Hex(u / 16 / 16 % 16), Hex(u / 16 % 16), Hex(u % 16)];
    assert all[2..6] == h && all[6..] == t;
    HexReads(u, h);
  }

  lemma {:induction false} ShortReads(u: Unit, t: Text)
    requires Short(u) != 0
    ensures Unescape([BACKSLASH, Short(u)] + t) == Prepend(u, Unescape(t))
  {
    var all := [BACKSLASH, Short(u)] + t;
    assert all[2..] == t && FromShort(all[1]) == u;
  }

  lemma {:induction false} PlainReads(u: Unit, t: Text)
    requires u != QUOTE && u != BACKSLASH
    ensures Unescape([u] + t) == Prepend(u, Unescape(t))
  {
    assert ([u] + t)[1..] == t;
  }

  /** What the first unit of `s` is written as. */
  function Written(s: Text): Text
    requires |s| > 0
  {
    if Short(s[0]) != 0 then [BACKSLASH, Short(s[0])]
    else if s[0] < 32 then UnicodeEscape(s[0])
    else if High(s[0]) && |s| > 1 && Low(s[1]) then [s[0]]
    else if High(s[0]) || Low(s[0]) then UnicodeEscape(s[0])
    else [s[0]]
  }

  lemma {:induction false} WrittenReads(s: Text, t: Text)
    requires |s| > 0
    ensures Unescape(Written(s) + t) == Prepend(s[0], Unescape(t))
  {
    hide Unescape, UnicodeEscape;
    if Short(s[0]) != 0 {
      ShortReads(s[0], t);
    } else if Written(s) == [s[0]] {
      PlainReads(s[0], t);
    } else {
      EscapeReads(s[0], t);
    }
  }

  /** Whatever follows a quoted string, reading gives back the string and what follows. */
  lemma {:induction false} UnescapeEscape(s: Text, rest: Text)
    ensures Unescape(Escape(s) + [QUOTE] + rest) == Got(s, rest)
    decreases |s|
  {
    hide Unescape, Escape, Written, UnicodeEscape;
    if |s| == 0 {
      EmptyReads(rest);
    } else if Short(s[0]) == 0 && s[0] >= 32 && High(s[0]) && |s| > 1 && Low(s[1]) {
      PairReads(s, rest);
    } else {
      var t := Escape(s[1..]) + [QUOTE] + rest;
      UnescapeEscape(s[1..], rest);
      WrittenReads(s, t);
      EscapeWrites(s);
      assert Escape(s) + [QUOTE] + rest == Written(s) + t;
      assert [s[0]] + s[1..] == s;
    }
  }

  lemma {:induction false} EmptyReads(rest: Text)
    ensures Unescape(Escape([]) + [QUOTE] + rest) == Got([], rest)
  {
    hide UnicodeEscape, Short, FromShort, FromHex, HexDigits;
    assert Escape([]) + [QUOTE] + rest == [QUOTE] + rest;
  }

  lemma {:induction false} EscapeWrites(s: Text)
    requires |s| > 0 && !(Short(s[0]) == 0 && s[0] >= 32 && High(s[0]) && |s| > 1 && Low(s[1]))
    ensures Escape(s) == Written(s) + Escape(s[1..])
  {
    hide UnicodeEscape, Short;
  }

  lemma {:induction false} PairReads(s: Text, rest: Text)
    requires |s| > 1 && High(s[0]) && Low(s[1])
    ensures Unescape(Escape(s) + [QUOTE] + rest) == Got(s, rest)
    decreases |s|, 0
  {
    hide Unescape;
    var t := Escape(s[2..]) + [QUOTE] + rest;
    UnescapeEscape(s[2..], rest);
    PlainReads(s[1], t);
    PlainReads(s[0], [s[1]] + t);
    assert Escape(s) + [QUOTE] + rest == [s[0]] + ([s[1]] + t);
    assert [s[0]] + ([s[1]] + s[2..]) == s;
  }
}
