/**
 * JSON text (RFC 8259): a reader with the acceptance rules of Go's
 * `json.Unmarshal` and JavaScript's `JSON.parse`, and a writer in the style
 * of `JSON.stringify`.  The reader is proved to read back what the writer
 * writes.
 */
module JsonText {
  import opened Wrappers
  import opened Text
  import opened JsonValues

  // ---------------------------------------------------------------------
  // Writer

  function HexDigit(d: nat): char
    requires d < 16
  {
    ['0', '1', '2', '3', '4', '5', '6', '7', '8', '9', 'a', 'b', 'c', 'd', 'e', 'f'][d]
  }

  /** The escaped form of one character inside a string literal. */
  function Escape(c: char): string {
    if c == '"' then "\\\""
    else if c == '\\' then "\\\\"
    else if c == '\n' then "\\n"
    else if c == '\r' then "\\r"
    else if c == '\t' then "\\t"
    else if c == '\U{0008}' then "\\b"
    else if c == '\U{000C}' then "\\f"
    else if c < ' ' then "\\u00" + [HexDigit(c as int / 16), HexDigit(c as int % 16)]
    else [c]
  }

  function EscapeAll(s: string): string
    decreases |s|
  {
    if s == [] then [] else Escape(s[0]) + EscapeAll(s[1..])
  }

  function Quote(s: string): string {
    "\"" + EscapeAll(s) + "\""
  }

  /** A number as `<mantissa>` or `<mantissa>e<exponent>`. */
  function NumberText(n: Number): string {
    IntText(n.mantissa) + (if n.exponent == 0 then "" else "e" + IntText(n.exponent))
  }

  function Serialize(v: JValue): string
    decreases v, 1
  {
    match v
    case JNull => "null"
    case JBool(b) => if b then "true" else "false"
    case JNumber(n) => NumberText(n)
    case JString(s) => Quote(s)
    case JArray(items) => "[" + SerializeItems(items, v) + "]"
    case JObject(ms) => "{" + SerializeMembers(ms, v) + "}"
  }

  /** The comma-separated items of an array; `parent` bounds the recursion. */
  function SerializeItems(items: seq<JValue>, ghost parent: JValue): string
    requires forall i :: 0 <= i < |items| ==> items[i] < parent
    decreases parent, 0, |items|
  {
    if items == [] then ""
    else if |items| == 1 then Serialize(items[0])
    else Serialize(items[0]) + "," + SerializeItems(items[1..], parent)
  }

  function SerializeMembers(ms: seq<Member>, ghost parent: JValue): string
    requires forall i :: 0 <= i < |ms| ==> ms[i].value < parent
    decreases parent, 0, |ms|
  {
    if ms == [] then ""
    else if |ms| == 1 then Quote(ms[0].key) + ":" + Serialize(ms[0].value)
    else Quote(ms[0].key) + ":" + Serialize(ms[0].value) + "," + SerializeMembers(ms[1..], parent)
  }

  // ---------------------------------------------------------------------
  // Reader

  /** The insignificant whitespace of RFC 8259, section 2. */
  predicate IsWs(c: char) { c == ' ' || c == '\t' || c == '\n' || c == '\r' }

  function SkipWs(s: string): (t: string)
    ensures |t| <= |s|
    decreases |s|
  {
    if s != [] && IsWs(s[0]) then SkipWs(s[1..]) else s
  }

  predicate IsHex(c: char) { '0' <= c <= '9' || 'a' <= c <= 'f' || 'A' <= c <= 'F' }

  function HexValue(c: char): (d: nat)
    requires IsHex(c)
    ensures d < 16
  {
    if '0' <= c <= '9' then c as int - '0' as int
    else if 'a' <= c <= 'f' then c as int - 'a' as int + 10
    else c as int - 'A' as int + 10
  }

  /** Four hexadecimal digits at the start of `s`. */
  function Hex4(s: string): (r: Option<nat>)
    ensures r.Some? ==> r.value < 0x1_0000
  {
    if |s| >= 4 && IsHex(s[0]) && IsHex(s[1]) && IsHex(s[2]) && IsHex(s[3]) then
      Some(HexValue(s[0]) * 0x1000 + HexValue(s[1]) * 0x100 + HexValue(s[2]) * 0x10 + HexValue(s[3]))
    else None
  }

  predicate IsHighSurrogate(u: int) { 0xD800 <= u < 0xDC00 }
  predicate IsLowSurrogate(u: int) { 0xDC00 <= u < 0xE000 }

  /**
   * The rest of an escape after its backslash.  A `\u` escape of a UTF-16
   * surrogate pair gives the one character it encodes; a surrogate that is
   * not part of a pair gives U+FFFD, as Go's decoder does.
   */
  function ParseEscape(s: string): (r: Option<(char, string)>)
    ensures r.Some? ==> |r.value.1| < |s|
  {
    if s == [] then None
    else if s[0] == '"' then Some(('"', s[1..]))
    else if s[0] == '\\' then Some(('\\', s[1..]))
    else if s[0] == '/' then Some(('/', s[1..]))
    else if s[0] == 'b' then Some(('\U{0008}', s[1..]))
    else if s[0] == 'f' then Some(('\U{000C}', s[1..]))
    else if s[0] == 'n' then Some(('\n', s[1..]))
    else if s[0] == 'r' then Some(('\r', s[1..]))
    else if s[0] == 't' then Some(('\t', s[1..]))
    else if s[0] == 'u' then
      match Hex4(s[1..])
      case None => None
      case Some(u) =>
        var rest := s[5..];
        if IsHighSurrogate(u) && |rest| >= 6 && rest[0] == '\\' && rest[1] == 'u'
           && Hex4(rest[2..]).Some? && IsLowSurrogate(Hex4(rest[2..]).value) then
          var lo := Hex4(rest[2..]).value;
          Some(((0x1_0000 + (u - 0xD800) * 0x400 + (lo - 0xDC00)) as char, rest[6..]))
        else if 0xD800 <= u < 0xE000 then Some(('\U{FFFD}', rest))
        else Some((u as char, rest))
    else None
  }

  /** The characters of a string literal after its opening quote, up to and without the closing one. */
  function ParseString(s: string): (r: Option<(string, string)>)
    ensures r.Some? ==> |r.value.1| < |s|
    decreases |s|
  {
    if s == [] then None
    else if s[0] == '"' then Some(([], s[1..]))
    else if s[0] < ' ' then None
    else if s[0] == '\\' then
      match ParseEscape(s[1..])
      case None => None
      case Some((c, rest)) =>
        match ParseString(rest)
        case None => None
        case Some((t, rest2)) => Some(([c] + t, rest2))
    else
      match ParseString(s[1..])
      case None => None
      case Some((t, rest)) => Some(([s[0]] + t, rest))
  }

  /** The number of leading decimal digits. */
  function DigitSpan(s: string): (n: nat)
    ensures n <= |s|
    ensures forall i :: 0 <= i < n ==> IsDigit(s[i])
    ensures n < |s| ==> !IsDigit(s[n])
    decreases |s|
  {
    if s != [] && IsDigit(s[0]) then DigitSpan(s[1..]) + 1 else 0
  }

  /** At least one digit, then the rest. */
  function ParseDigits(s: string): (r: Option<(string, string)>)
    ensures r.Some? ==> 0 < |r.value.0| <= |s| && AllDigits(r.value.0)
    ensures r.Some? ==> r.value.0 == s[..|r.value.0|] && r.value.1 == s[|r.value.0|..]
    ensures r.Some? ==> r.value.1 == [] || !IsDigit(r.value.1[0])
  {
    var n := DigitSpan(s);
    if n == 0 then None else Some((s[..n], s[n..]))
  }

  /** An optional fraction `.digits`. */
  function ParseFraction(s: string): (r: Option<(string, string)>)
    ensures r.Some? ==> AllDigits(r.value.0) && |r.value.1| <= |s|
  {
    if s != [] && s[0] == '.' then ParseDigits(s[1..]) else Some(([], s))
  }

  /** An optional exponent `e[+-]digits`: whether it is negative, and its digits. */
  function ParseExponent(s: string): (r: Option<(bool, string, string)>)
    ensures r.Some? ==> |r.value.2| <= |s| && AllDigits(r.value.1)
  {
    if s != [] && (s[0] == 'e' || s[0] == 'E') then
      var t := s[1..];
      var neg := t != [] && t[0] == '-';
      var u := if t != [] && (t[0] == '-' || t[0] == '+') then t[1..] else t;
      match ParseDigits(u)
      case None => None
      case Some((ds, rest)) => Some((neg, ds, rest))
    else Some((false, [], s))
  }

  /** The number `(-)digits * 10^e`, in canonical form. */
  function DecimalOf(neg: bool, digits: string, e: int): Number
    requires AllDigits(digits)
  {
    var m := DigitsValue(digits);
    Normalize(Decimal(if neg then -(m as int) else m, e))
  }

  /** The parts of a number literal. */
  datatype NumberSyntax = NumberSyntax(
    negative: bool, whole: string, fraction: string, exponentNegative: bool, exponentDigits: string)

  predicate WellFormedSyntax(n: NumberSyntax) {
    AllDigits(n.whole) && AllDigits(n.fraction) && AllDigits(n.exponentDigits)
  }

  /** The value of a number literal: `(-)whole.fraction * 10^((-)exponent)`. */
  function SyntaxValue(n: NumberSyntax): Number
    requires WellFormedSyntax(n)
  {
    assert AllDigits(n.whole + n.fraction);
    var e := DigitsValue(n.exponentDigits);
    DecimalOf(n.negative, n.whole + n.fraction, (if n.exponentNegative then -(e as int) else e) - |n.fraction|)
  }

  /** A number literal: `-`? then `0` or a digit string not starting with `0`, then fraction and exponent. */
  function ParseNumberSyntax(s: string): (r: Option<(NumberSyntax, string)>)
    ensures r.Some? ==> |r.value.1| < |s| && WellFormedSyntax(r.value.0)
  {
    var neg := s != [] && s[0] == '-';
    var t := if neg then s[1..] else s;
    match ParseDigits(t)
    case None => None
    case Some((whole, afterWhole)) =>
      if whole[0] == '0' && |whole| > 1 then None
      else
        match ParseFraction(afterWhole)
        case None => None
        case Some((frac, afterFrac)) =>
          match ParseExponent(afterFrac)
          case None => None
          case Some((eneg, edigits, rest)) => Some((NumberSyntax(neg, whole, frac, eneg, edigits), rest))
  }

  function ParseNumber(s: string): (r: Option<(JValue, string)>)
    ensures r.Some? ==> |r.value.1| < |s|
  {
    match ParseNumberSyntax(s)
    case None => None
    case Some((n, rest)) => Some((JNumber(SyntaxValue(n)), rest))
  }

  function ParseValue(s: string): (r: Option<(JValue, string)>)
    ensures r.Some? ==> |r.value.1| < |s|
    decreases |s|, 0
  {
    var t := SkipWs(s);
    if t == [] then None
    else if t[0] == 'n' then
      if |t| >= 4 && t[..4] == "null" then Some((JNull, t[4..])) else None
    else if t[0] == 't' then
      if |t| >= 4 && t[..4] == "true" then Some((JBool(true), t[4..])) else None
    else if t[0] == 'f' then
      if |t| >= 5 && t[..5] == "false" then Some((JBool(false), t[5..])) else None
    else if t[0] == '"' then
      match ParseString(t[1..])
      case None => None
      case Some((str, rest)) => Some((JString(str), rest))
    else if t[0] == '[' then ParseArray(t[1..])
    else if t[0] == '{' then ParseObject(t[1..])
    else ParseNumber(t)
  }

  /** The rest of an array after `[`. */
  function ParseArray(s: string): (r: Option<(JValue, string)>)
    ensures r.Some? ==> |r.value.1| < |s|
    decreases |s|, 2
  {
    var t := SkipWs(s);
    if t != [] && t[0] == ']' then Some((JArray([]), t[1..]))
    else
      match ParseElements(s)
      case None => None
      case Some((items, rest)) => Some((JArray(items), rest))
  }

  /** One or more comma-separated values, then `]`. */
  function ParseElements(s: string): (r: Option<(seq<JValue>, string)>)
    ensures r.Some? ==> |r.value.1| < |s|
    decreases |s|, 1
  {
    match ParseValue(s)
    case None => None
    case Some((v, rest)) =>
      var u := SkipWs(rest);
      if u == [] then None
      else if u[0] == ']' then Some(([v], u[1..]))
      else if u[0] == ',' then
        match ParseElements(u[1..])
        case None => None
        case Some((vs, rest2)) => Some(([v] + vs, rest2))
      else None
  }

  /** The rest of an object after `{`. */
  function ParseObject(s: string): (r: Option<(JValue, string)>)
    ensures r.Some? ==> |r.value.1| < |s|
    decreases |s|, 2
  {
    var t := SkipWs(s);
    if t != [] && t[0] == '}' then Some((JObject([]), t[1..]))
    else
      match ParseMembers(s)
      case None => None
      case Some((ms, rest)) => Some((JObject(ms), rest))
  }

  /** One or more comma-separated `"key": value` pairs, then `}`. */
  function ParseMembers(s: string): (r: Option<(seq<Member>, string)>)
    ensures r.Some? ==> |r.value.1| < |s|
    decreases |s|, 1
  {
    var t := SkipWs(s);
    if t == [] || t[0] != '"' then None
    else
      match ParseString(t[1..])
      case None => None
      case Some((key, afterKey)) =>
        var u := SkipWs(afterKey);
        if u == [] || u[0] != ':' then None
        else
          match ParseValue(u[1..])
          case None => None
          case Some((v, rest)) =>
            var w := SkipWs(rest);
            if w == [] then None
            else if w[0] == '}' then Some(([Member(key, v)], w[1..]))
            else if w[0] == ',' then
              match ParseMembers(w[1..])
              case None => None
              case Some((ms, rest2)) => Some(([Member(key, v)] + ms, rest2))
            else None
  }

  /** A whole JSON text: one value with only whitespace around it. */
  function Parse(s: string): Option<JValue> {
    match ParseValue(s)
    case None => None
    case Some((v, rest)) => if SkipWs(rest) == [] then Some(v) else None
  }
}
