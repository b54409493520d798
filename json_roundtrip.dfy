/**
 * The reader of JsonText reads back exactly what its writer writes: for
 * every value `v`, `Parse(Serialize(v)) == Some(v)`.  The proof follows the
 * writer's structure: characters, string literals, numbers, then values,
 * arrays and objects by mutual induction.
 */
module JsonRoundTrip {
  import opened Wrappers
  import opened Text
  import opened JsonValues
  import opened JsonText

  /** What may follow a value inside the writer's output. */
  predicate Delimiter(rest: string) {
    rest == [] || rest[0] == ',' || rest[0] == ']' || rest[0] == '}'
  }

  /** Puts `c` in front of the string a successful read produced. */
  function Cons(c: char, r: Option<(string, string)>): Option<(string, string)> {
    match r
    case None => None
    case Some((t, rest)) => Some(([c] + t, rest))
  }

  lemma SkipWsNone(s: string)
    requires s == [] || !IsWs(s[0])
    ensures SkipWs(s) == s
  {
  }

  /** The digit span stops where the digits of the first part end if the second begins otherwise. */
  lemma {:induction false} DigitSpanAppend(a: string, b: string)
    requires AllDigits(a)
    requires b == [] || !IsDigit(b[0])
    ensures DigitSpan(a + b) == |a|
    decreases |a|
  {
    if a != [] {
      assert (a + b)[1..] == a[1..] + b;
      DigitSpanAppend(a[1..], b);
    } else {
      assert a + b == b;
    }
  }

  lemma HexDigitRoundTrip(d: nat)
    requires d < 16
    ensures IsHex(HexDigit(d)) && HexValue(HexDigit(d)) == d
  {
  }

  // ---------------------------------------------------------------------
  // One step of the string reader

  lemma ParseStringPlain(c: char, tail: string)
    requires c != '"' && c >= ' ' && c != '\\'
    ensures ParseString([c] + tail) == Cons(c, ParseString(tail))
  {
    assert ([c] + tail)[1..] == tail;
  }

  lemma ParseStringEscaped(e: string, c: char, tail: string)
    requires ParseEscape(e + tail) == Some((c, tail))
    ensures ParseString("\\" + e + tail) == Cons(c, ParseString(tail))
  {
    assert ("\\" + e + tail)[1..] == e + tail;
  }

  lemma ShortEscapeRoundTrip(c: char, tail: string)
    requires c == '"' || c == '\\' || c == '\n' || c == '\r' || c == '\t' || c == '\U{0008}' || c == '\U{000C}'
    ensures Escape(c) == "\\" + [Escape(c)[1]]
    ensures ParseEscape([Escape(c)[1]] + tail) == Some((c, tail))
  {
    assert ([Escape(c)[1]] + tail)[1..] == tail;
  }

  lemma ControlEscapeRoundTrip(c: char, tail: string)
    requires c < ' '
    ensures ParseEscape("u00" + [HexDigit(c as int / 16), HexDigit(c as int % 16)] + tail) == Some((c, tail))
  {
    var hi, lo := c as int / 16, c as int % 16;
    HexDigitRoundTrip(hi);
    HexDigitRoundTrip(lo);
    var e := "u00" + [HexDigit(hi), HexDigit(lo)] + tail;
    assert e[1..][..4] == "00" + [HexDigit(hi), HexDigit(lo)];
    assert Hex4(e[1..]) == Some(c as int);
    assert e[5..] == tail;
  }

  /** Reading the escaped form of `c` yields `c`, then reading goes on. */
  lemma EscapeRoundTrip(c: char, tail: string)
    ensures ParseString(Escape(c) + tail) == Cons(c, ParseString(tail))
  {
    if c == '"' || c == '\\' || c == '\n' || c == '\r' || c == '\t' || c == '\U{0008}' || c == '\U{000C}' {
      ShortEscapeRoundTrip(c, tail);
      ParseStringEscaped([Escape(c)[1]], c, tail);
    } else if c < ' ' {
      ControlEscapeRoundTrip(c, tail);
      var e := "u00" + [HexDigit(c as int / 16), HexDigit(c as int % 16)];
      assert Escape(c) == "\\" + e;
      ParseStringEscaped(e, c, tail);
    } else {
      ParseStringPlain(c, tail);
    }
  }

  /** Reading a written string literal yields the string, then what follows it. */
  lemma {:induction false} StringRoundTrip(str: string, rest: string)
    ensures ParseString(EscapeAll(str) + "\"" + rest) == Some((str, rest))
    decreases |str|
  {
    if str == [] {
      assert EscapeAll(str) + "\"" + rest == "\"" + rest;
    } else {
      var tail := EscapeAll(str[1..]) + "\"" + rest;
      assert EscapeAll(str) + "\"" + rest == Escape(str[0]) + tail;
      EscapeRoundTrip(str[0], tail);
      StringRoundTrip(str[1..], rest);
      assert [str[0]] + str[1..] == str;
    }
  }

  lemma QuoteRoundTrip(str: string, rest: string)
    ensures (Quote(str) + rest)[0] == '"'
    ensures ParseString((Quote(str) + rest)[1..]) == Some((str, rest))
  {
    assert (Quote(str) + rest)[1..] == EscapeAll(str) + "\"" + rest;
    StringRoundTrip(str, rest);
  }

  // ---------------------------------------------------------------------
  // Numbers

  /** The digits of a natural number, read back from the front of a text. */
  lemma NatDigitsRoundTrip(n: nat, rest: string)
    requires rest == [] || !IsDigit(rest[0])
    ensures ParseDigits(NatText(n) + rest) == Some((NatText(n), rest))
  {
    var a := NatText(n);
    DigitSpanAppend(a, rest);
    assert (a + rest)[..|a|] == a && (a + rest)[|a|..] == rest;
  }

  /** The exponent part as the reader sees it: an optional sign, then digits. */
  lemma ParseExponentOf(neg: bool, a: string, rest: string)
    requires ParseDigits(a + rest) == Some((a, rest))
    ensures ParseExponent("e" + (Sign(neg) + a) + rest) == Some((neg, a, rest))
  {
    if neg { ParseExponentNegative(a, rest); } else { ParseExponentPositive(a, rest); }
  }

  lemma ParseExponentNegative(a: string, rest: string)
    requires ParseDigits(a + rest) == Some((a, rest))
    ensures ParseExponent("e" + (Sign(true) + a) + rest) == Some((true, a, rest))
  {
    var s := "e" + (Sign(true) + a) + rest;
    assert s[1..][1..] == a + rest;
  }

  lemma ParseExponentPositive(a: string, rest: string)
    requires ParseDigits(a + rest) == Some((a, rest))
    ensures ParseExponent("e" + (Sign(false) + a) + rest) == Some((false, a, rest))
  {
    var s := "e" + (Sign(false) + a) + rest;
    assert s[1..] == a + rest;
    assert IsDigit(a[0]);
  }

  function Sign(neg: bool): string { if neg then "-" else "" }

  /** The decimal text of an integer is its sign, then the digits of its magnitude. */
  lemma IntTextParts(i: int)
    ensures IntText(i) == Sign(i < 0) + NatText(Abs(i))
  {
    if i >= 0 { assert Sign(i < 0) + NatText(Abs(i)) == NatText(i); }
  }

  function ExponentText(e: int): string {
    if e == 0 then "" else "e" + IntText(e)
  }

  /** The digits the writer puts in the exponent part (none for a zero exponent). */
  function ExponentDigits(e: int): string {
    if e == 0 then "" else NatText(Abs(e))
  }

  lemma ExponentRoundTrip(e: int, rest: string)
    requires Delimiter(rest)
    ensures ParseExponent(ExponentText(e) + rest) == Some((e < 0, ExponentDigits(e), rest))
  {
    if e == 0 {
      assert ExponentText(e) + rest == rest;
    } else {
      var a := NatText(Abs(e));
      NatDigitsRoundTrip(Abs(e), rest);
      ParseExponentOf(e < 0, a, rest);
      IntTextParts(e);
    }
  }

  lemma NoFraction(after: string)
    requires after == [] || after[0] != '.'
    ensures ParseFraction(after) == Some(([], after))
  {
  }

  lemma ParseNumberPositive(a: string, after: string, x: (bool, string), rest: string)
    requires ParseDigits(a + after) == Some((a, after))
    requires a[0] != '0' || |a| == 1
    requires ParseFraction(after) == Some(([], after))
    requires ParseExponent(after) == Some((x.0, x.1, rest))
    ensures ParseNumberSyntax(a + after) == Some((NumberSyntax(false, a, [], x.0, x.1), rest))
  {
    assert IsDigit(a[0]);
  }

  lemma ParseNumberNegative(a: string, after: string, x: (bool, string), rest: string)
    requires ParseDigits(a + after) == Some((a, after))
    requires a[0] != '0' || |a| == 1
    requires ParseFraction(after) == Some(([], after))
    requires ParseExponent(after) == Some((x.0, x.1, rest))
    ensures ParseNumberSyntax("-" + (a + after)) == Some((NumberSyntax(true, a, [], x.0, x.1), rest))
  {
    var s := "-" + (a + after);
    assert s != [] && s[0] == '-';
    assert s[1..] == a + after;
  }

  /** The number reader on a sign, an integer part, no fraction and an exponent. */
  lemma ParseNumberOf(neg: bool, a: string, after: string, x: (bool, string), rest: string)
    requires ParseDigits(a + after) == Some((a, after))
    requires a[0] != '0' || |a| == 1
    requires after == [] || after[0] != '.'
    requires ParseExponent(after) == Some((x.0, x.1, rest))
    ensures ParseNumberSyntax(Sign(neg) + (a + after)) == Some((NumberSyntax(neg, a, [], x.0, x.1), rest))
  {
    NoFraction(after);
    if neg {
      ParseNumberNegative(a, after, x, rest);
    } else {
      ParseNumberPositive(a, after, x, rest);
      assert Sign(neg) + (a + after) == a + after;
    }
  }

  /** The syntax the writer produces for a number. */
  function TextSyntax(n: Number): NumberSyntax {
    NumberSyntax(n.mantissa < 0, NatText(Abs(n.mantissa)), [], n.exponent < 0, ExponentDigits(n.exponent))
  }

  /** The sign, digits and exponent of a canonical number denote that number. */
  lemma SyntaxValueOfText(n: Number)
    ensures WellFormedSyntax(TextSyntax(n))
    ensures SyntaxValue(TextSyntax(n)) == n
  {
    var a := NatText(Abs(n.mantissa));
    assert a + [] == a;
    NatTextRoundTrip(Abs(n.mantissa));
    if n.exponent != 0 { NatTextRoundTrip(Abs(n.exponent)); }
  }

  /** A written number is a sign, the digits of the mantissa, and the exponent part. */
  lemma NumberTextParts(n: Number)
    ensures NumberText(n) == Sign(n.mantissa < 0) + NatText(Abs(n.mantissa)) + ExponentText(n.exponent)
  {
    IntTextParts(n.mantissa);
  }

  lemma Regroup(a: string, b: string, c: string, d: string)
    ensures a + b + c + d == a + (b + (c + d))
  {
  }

  /** Reading a written number yields the number, then what follows it. */
  lemma NumberRoundTrip(n: Number, rest: string)
    requires Delimiter(rest)
    ensures ParseNumber(NumberText(n) + rest) == Some((JNumber(n), rest))
  {
    var a := NatText(Abs(n.mantissa));
    var after := ExponentText(n.exponent) + rest;
    assert after == [] || after[0] == 'e' || Delimiter(after);
    NatDigitsRoundTrip(Abs(n.mantissa), after);
    ExponentRoundTrip(n.exponent, rest);
    ParseNumberOf(n.mantissa < 0, a, after, (n.exponent < 0, ExponentDigits(n.exponent)), rest);
    SyntaxValueOfText(n);
    NumberTextParts(n);
    Regroup(Sign(n.mantissa < 0), a, ExponentText(n.exponent), rest);
  }

  // ---------------------------------------------------------------------
  // One step of the value, array and object readers

  /** The first character of a written value. */
  lemma SerializeStart(v: JValue)
    ensures Serialize(v) != []
    ensures var c := Serialize(v)[0];
      c == 'n' || c == 't' || c == 'f' || c == '"' || c == '[' || c == '{' || c == '-' || IsDigit(c)
  {
    match v
    case JNumber(n) =>
      var a := NatText(if n.mantissa < 0 then -n.mantissa else n.mantissa);
      assert IsDigit(a[0]);
    case _ =>
  }

  lemma ParseValueArray(body: string)
    ensures ParseValue("[" + body) == ParseArray(body)
  {
    SkipWsNone("[" + body);
    assert ("[" + body)[1..] == body;
  }

  lemma ParseValueObject(body: string)
    ensures ParseValue("{" + body) == ParseObject(body)
  {
    SkipWsNone("{" + body);
    assert ("{" + body)[1..] == body;
  }

  lemma ParseArrayItems(s: string)
    requires s != [] && !IsWs(s[0]) && s[0] != ']'
    ensures ParseArray(s) == match ParseElements(s)
      case None => None
      case Some((items, rest)) => Some((JArray(items), rest))
  {
    SkipWsNone(s);
  }

  lemma ParseObjectMembers(s: string)
    requires s != [] && s[0] == '"'
    ensures ParseObject(s) == match ParseMembers(s)
      case None => None
      case Some((ms, rest)) => Some((JObject(ms), rest))
  {
    SkipWsNone(s);
  }

  lemma ParseElementsLast(s: string, v: JValue, rest: string)
    requires ParseValue(s) == Some((v, "]" + rest))
    ensures ParseElements(s) == Some(([v], rest))
  {
    SkipWsNone("]" + rest);
    assert ("]" + rest)[1..] == rest;
  }

  lemma ParseElementsMore(s: string, v: JValue, tail: string, items: seq<JValue>, rest: string)
    requires ParseValue(s) == Some((v, "," + tail))
    requires ParseElements(tail) == Some((items, rest))
    ensures ParseElements(s) == Some(([v] + items, rest))
  {
    SkipWsNone("," + tail);
    assert ("," + tail)[1..] == tail;
  }

  lemma ParseMembersLast(s: string, key: string, valText: string, v: JValue, rest: string)
    requires s != [] && s[0] == '"'
    requires ParseString(s[1..]) == Some((key, ":" + valText))
    requires ParseValue(valText) == Some((v, "}" + rest))
    ensures ParseMembers(s) == Some(([Member(key, v)], rest))
  {
    SkipWsNone(s);
    SkipWsNone(":" + valText);
    assert (":" + valText)[1..] == valText;
    SkipWsNone("}" + rest);
    assert ("}" + rest)[1..] == rest;
  }

  lemma ParseMembersMore(s: string, key: string, valText: string, v: JValue, tail: string, ms: seq<Member>, rest: string)
    requires s != [] && s[0] == '"'
    requires ParseString(s[1..]) == Some((key, ":" + valText))
    requires ParseValue(valText) == Some((v, "," + tail))
    requires ParseMembers(tail) == Some((ms, rest))
    ensures ParseMembers(s) == Some(([Member(key, v)] + ms, rest))
  {
    SkipWsNone(s);
    SkipWsNone(":" + valText);
    assert (":" + valText)[1..] == valText;
    SkipWsNone("," + tail);
    assert ("," + tail)[1..] == tail;
  }

  // ---------------------------------------------------------------------
  // Values, by mutual induction

  /** Reading a written value yields the value, then what follows it. */
  lemma {:induction false} ValueRoundTrip(v: JValue, rest: string)
    requires Delimiter(rest)
    ensures ParseValue(Serialize(v) + rest) == Some((v, rest))
    decreases v, 1
  {
    match v
    case JNull =>
      var s := Serialize(v) + rest;
      SkipWsNone(s);
      assert s[..4] == "null" && s[4..] == rest;
    case JBool(b) =>
      var s := Serialize(v) + rest;
      SkipWsNone(s);
      if b { assert s[..4] == "true" && s[4..] == rest; }
      else { assert s[..5] == "false" && s[5..] == rest; }
    case JNumber(n) =>
      NumberValueRoundTrip(n, rest);
    case JString(str) =>
      StringValueRoundTrip(str, rest);
    case JArray(items) =>
      ArrayRoundTrip(items, v, rest);
    case JObject(ms) =>
      ObjectRoundTrip(ms, v, rest);
  }

  lemma NumberValueRoundTrip(n: Number, rest: string)
    requires Delimiter(rest)
    ensures ParseValue(Serialize(JNumber(n)) + rest) == Some((JNumber(n), rest))
  {
    var s := Serialize(JNumber(n)) + rest;
    SerializeStart(JNumber(n));
    SkipWsNone(s);
    NumberRoundTrip(n, rest);
  }

  lemma StringValueRoundTrip(str: string, rest: string)
    ensures ParseValue(Serialize(JString(str)) + rest) == Some((JString(str), rest))
  {
    var s := Serialize(JString(str)) + rest;
    QuoteRoundTrip(str, rest);
    SkipWsNone(s);
  }

  lemma EmptyArrayRoundTrip(rest: string)
    ensures ParseArray("]" + rest) == Some((JArray([]), rest))
  {
    SkipWsNone("]" + rest);
    assert ("]" + rest)[1..] == rest;
  }

  lemma EmptyObjectRoundTrip(rest: string)
    ensures ParseObject("}" + rest) == Some((JObject([]), rest))
  {
    SkipWsNone("}" + rest);
    assert ("}" + rest)[1..] == rest;
  }

  /** A written array is a bracket, its items, a closing bracket. */
  lemma ArrayShape(items: seq<JValue>, v: JValue, rest: string)
    requires v == JArray(items)
    ensures Serialize(v) + rest == "[" + (SerializeItems(items, v) + "]" + rest)
    ensures items == [] ==> SerializeItems(items, v) + "]" + rest == "]" + rest
    ensures items != [] ==> Serialize(items[0]) != [] && (SerializeItems(items, v) + "]" + rest)[0] == Serialize(items[0])[0]
  {
    if items != [] { SerializeStart(items[0]); }
  }

  /** A written object is a brace, its members, a closing brace. */
  lemma ObjectShape(ms: seq<Member>, v: JValue, rest: string)
    requires v == JObject(ms)
    ensures Serialize(v) + rest == "{" + (SerializeMembers(ms, v) + "}" + rest)
    ensures ms == [] ==> SerializeMembers(ms, v) + "}" + rest == "}" + rest
    ensures ms != [] ==> (SerializeMembers(ms, v) + "}" + rest)[0] == '"'
  {
    if ms != [] {
      assert SerializeMembers(ms, v)[0] == Quote(ms[0].key)[0];
    }
  }

  lemma {:induction false} ArrayRoundTrip(items: seq<JValue>, v: JValue, rest: string)
    requires v == JArray(items)
    requires Delimiter(rest)
    ensures ParseValue(Serialize(v) + rest) == Some((v, rest))
    decreases v, 0
  {
    var body := SerializeItems(items, v) + "]" + rest;
    ArrayShape(items, v, rest);
    ParseValueArray(body);
    if items == [] {
      EmptyArrayRoundTrip(rest);
    } else {
      SerializeStart(items[0]);
      ParseArrayItems(body);
      ItemsRoundTrip(items, v, rest);
    }
  }

  lemma {:induction false} ObjectRoundTrip(ms: seq<Member>, v: JValue, rest: string)
    requires v == JObject(ms)
    requires Delimiter(rest)
    ensures ParseValue(Serialize(v) + rest) == Some((v, rest))
    decreases v, 0
  {
    var body := SerializeMembers(ms, v) + "}" + rest;
    ObjectShape(ms, v, rest);
    ParseValueObject(body);
    if ms == [] {
      EmptyObjectRoundTrip(rest);
    } else {
      ParseObjectMembers(body);
      MembersRoundTrip(ms, v, rest);
    }
  }

  lemma {:induction false} ItemsRoundTrip(items: seq<JValue>, parent: JValue, rest: string)
    requires items != []
    requires forall i :: 0 <= i < |items| ==> items[i] < parent
    requires Delimiter(rest)
    ensures ParseElements(SerializeItems(items, parent) + "]" + rest) == Some((items, rest))
    decreases parent, 0, |items|, 1
  {
    if |items| == 1 { LastItemRoundTrip(items, parent, rest); } else { MoreItemsRoundTrip(items, parent, rest); }
  }

  lemma {:induction false} LastItemRoundTrip(items: seq<JValue>, parent: JValue, rest: string)
    requires |items| == 1 && items[0] < parent
    requires Delimiter(rest)
    ensures ParseElements(SerializeItems(items, parent) + "]" + rest) == Some((items, rest))
    decreases parent, 0, |items|, 0
  {
    var first := Serialize(items[0]);
    assert SerializeItems(items, parent) + "]" + rest == first + ("]" + rest);
    ValueRoundTrip(items[0], "]" + rest);
    ParseElementsLast(first + ("]" + rest), items[0], rest);
    assert [items[0]] == items;
  }

  lemma {:induction false} MoreItemsRoundTrip(items: seq<JValue>, parent: JValue, rest: string)
    requires |items| > 1
    requires forall i :: 0 <= i < |items| ==> items[i] < parent
    requires Delimiter(rest)
    ensures ParseElements(SerializeItems(items, parent) + "]" + rest) == Some((items, rest))
    decreases parent, 0, |items|, 0
  {
    var first := Serialize(items[0]);
    var tail := SerializeItems(items[1..], parent) + "]" + rest;
    ItemsShapeMore(items, parent, rest);
    ValueRoundTrip(items[0], "," + tail);
    ItemsRoundTrip(items[1..], parent, rest);
    ParseElementsMore(first + ("," + tail), items[0], tail, items[1..], rest);
    assert [items[0]] + items[1..] == items;
  }

  /** A written list of two or more items: the first, a comma, the others. */
  lemma ItemsShapeMore(items: seq<JValue>, parent: JValue, rest: string)
    requires |items| > 1
    requires forall i :: 0 <= i < |items| ==> items[i] < parent
    ensures SerializeItems(items, parent) + "]" + rest
            == Serialize(items[0]) + ("," + (SerializeItems(items[1..], parent) + "]" + rest))
  {
  }

  /** A written one-member list: the key, a colon, the value. */
  lemma MembersShapeLast(ms: seq<Member>, parent: JValue, rest: string)
    requires |ms| == 1 && ms[0].value < parent
    ensures SerializeMembers(ms, parent) + "}" + rest
            == Quote(ms[0].key) + (":" + (Serialize(ms[0].value) + ("}" + rest)))
  {
  }

  /** A written longer list: the first key, a colon, the first value, a comma, the others. */
  lemma MembersShapeMore(ms: seq<Member>, parent: JValue, rest: string)
    requires |ms| > 1
    requires forall i :: 0 <= i < |ms| ==> ms[i].value < parent
    ensures SerializeMembers(ms, parent) + "}" + rest
            == Quote(ms[0].key) + (":" + (Serialize(ms[0].value) + ("," + (SerializeMembers(ms[1..], parent) + "}" + rest))))
  {
  }

  lemma {:induction false} MembersRoundTrip(ms: seq<Member>, parent: JValue, rest: string)
    requires ms != []
    requires forall i :: 0 <= i < |ms| ==> ms[i].value < parent
    requires Delimiter(rest)
    ensures ParseMembers(SerializeMembers(ms, parent) + "}" + rest) == Some((ms, rest))
    decreases parent, 0, |ms|, 1
  {
    if |ms| == 1 { LastMemberRoundTrip(ms, parent, rest); } else { MoreMembersRoundTrip(ms, parent, rest); }
  }

  lemma {:induction false} LastMemberRoundTrip(ms: seq<Member>, parent: JValue, rest: string)
    requires |ms| == 1 && ms[0].value < parent
    requires Delimiter(rest)
    ensures ParseMembers(SerializeMembers(ms, parent) + "}" + rest) == Some((ms, rest))
    decreases parent, 0, |ms|, 0
  {
    var key, value := ms[0].key, ms[0].value;
    var s := SerializeMembers(ms, parent) + "}" + rest;
    var valText := Serialize(value) + ("}" + rest);
    MembersShapeLast(ms, parent, rest);
    QuoteRoundTrip(key, ":" + valText);
    ValueRoundTrip(value, "}" + rest);
    ParseMembersLast(s, key, valText, value, rest);
    assert [Member(key, value)] == ms;
  }

  lemma {:induction false} MoreMembersRoundTrip(ms: seq<Member>, parent: JValue, rest: string)
    requires |ms| > 1
    requires forall i :: 0 <= i < |ms| ==> ms[i].value < parent
    requires Delimiter(rest)
    ensures ParseMembers(SerializeMembers(ms, parent) + "}" + rest) == Some((ms, rest))
    decreases parent, 0, |ms|, 0
  {
    var key, value := ms[0].key, ms[0].value;
    var s := SerializeMembers(ms, parent) + "}" + rest;
    var tail := SerializeMembers(ms[1..], parent) + "}" + rest;
    var valText := Serialize(value) + ("," + tail);
    MembersShapeMore(ms, parent, rest);
    QuoteRoundTrip(key, ":" + valText);
    ValueRoundTrip(value, "," + tail);
    MembersRoundTrip(ms[1..], parent, rest);
    ParseMembersMore(s, key, valText, value, tail, ms[1..], rest);
    assert [Member(key, value)] + ms[1..] == ms;
  }

  /** The reader accepts every text the writer produces and yields the value written. */
  lemma ParseSerialize(v: JValue)
    ensures Parse(Serialize(v)) == Some(v)
  {
    ValueRoundTrip(v, []);
    assert Serialize(v) + [] == Serialize(v);
    SkipWsNone([]);
  }

  /** Different values are written as different texts. */
  lemma SerializeInjective(v: JValue, w: JValue)
    requires Serialize(v) == Serialize(w)
    ensures v == w
  {
    ParseSerialize(v);
    ParseSerialize(w);
  }
}
