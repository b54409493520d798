/**
 * JSON values as both the Go service (`encoding/json` into `interface{}`)
 * and the browser (`JSON.parse`) see them.  Numbers are exact decimals
 * `mantissa * 10^exponent` kept in a canonical form, so that two numbers
 * are equal exactly when they denote the same value; objects keep their
 * members in text order, as JavaScript objects keep insertion order.
 */
module JsonValues {

  /** `mantissa * 10^exponent`. */
  datatype Decimal = Decimal(mantissa: int, exponent: int)

  /** No trailing zero in the mantissa, and zero written only as `0 * 10^0`. */
  predicate Canonical(d: Decimal) {
    if d.mantissa == 0 then d.exponent == 0 else d.mantissa % 10 != 0
  }

  type Number = d: Decimal | Canonical(d) witness Decimal(0, 0)

  const Zero: Number := Decimal(0, 0)

  ghost function Pow10(e: int): real
    decreases if e < 0 then -e else e
  {
    if e == 0 then 1.0 else if e > 0 then 10.0 * Pow10(e - 1) else Pow10(e + 1) / 10.0
  }

  /** The real number a decimal denotes. */
  ghost function Value(d: Decimal): real {
    d.mantissa as real * Pow10(d.exponent)
  }

  function Abs(i: int): nat { if i < 0 then -i else i }

  /** Strips trailing zeros from the mantissa. */
  function Normalize(d: Decimal): (n: Number)
    ensures Canonical(d) ==> n == d
    ensures (n.mantissa == 0) == (d.mantissa == 0)
    ensures (n.mantissa < 0) == (d.mantissa < 0)
    decreases Abs(d.mantissa)
  {
    if d.mantissa == 0 then Zero
    else if d.mantissa % 10 == 0 then Normalize(Decimal(d.mantissa / 10, d.exponent + 1))
    else d
  }

  /** Normalizing keeps the value a decimal denotes. */
  lemma {:induction false} NormalizeValue(d: Decimal)
    ensures Value(Normalize(d)) == Value(d)
    decreases Abs(d.mantissa)
  {
    if d.mantissa != 0 && d.mantissa % 10 == 0 {
      var q := d.mantissa / 10;
      assert q * 10 == d.mantissa;
      assert Pow10(d.exponent + 1) == 10.0 * Pow10(d.exponent);
      calc {
        Value(Decimal(q, d.exponent + 1));
        q as real * (10.0 * Pow10(d.exponent));
        (q * 10) as real * Pow10(d.exponent);
        Value(d);
      }
      NormalizeValue(Decimal(q, d.exponent + 1));
    }
  }

  /** The canonical decimal of an integer. */
  function FromInt(i: int): (n: Number)
    ensures (n.mantissa == 0) == (i == 0)
  {
    Normalize(Decimal(i, 0))
  }

  lemma FromIntValue(i: int)
    ensures Value(FromInt(i)) == i as real
  {
    NormalizeValue(Decimal(i, 0));
  }

  predicate IsNegative(n: Number) { n.mantissa < 0 }

  lemma NegativeIffBelowZero(n: Number)
    ensures IsNegative(n) <==> Value(n) < 0.0
  {
    Pow10Positive(n.exponent);
  }

  lemma {:induction false} Pow10Positive(e: int)
    ensures Pow10(e) > 0.0
    decreases if e < 0 then -e else e
  {
    if e > 0 { Pow10Positive(e - 1); } else if e < 0 { Pow10Positive(e + 1); }
  }

  datatype JValue =
    | JNull
    | JBool(b: bool)
    | JNumber(n: Number)
    | JString(s: string)
    | JArray(items: seq<JValue>)
    | JObject(members: seq<Member>)

  datatype Member = Member(key: string, value: JValue)

  /** JavaScript truthiness of a JSON value: null, false, 0 and "" are falsy. */
  predicate Truthy(v: JValue) {
    match v
    case JNull => false
    case JBool(b) => b
    case JNumber(n) => n.mantissa != 0
    case JString(s) => s != ""
    case JArray(_) => true
    case JObject(_) => true
  }

  /** Member `i` is the last one with its key. */
  predicate IsLastWithKey(ms: seq<Member>, i: int)
    requires 0 <= i < |ms|
  {
    forall j :: i < j < |ms| ==> ms[j].key != ms[i].key
  }

  /** Some member has key `k`. */
  predicate HasKey(ms: seq<Member>, k: string) {
    exists i :: 0 <= i < |ms| && ms[i].key == k
  }

  /**
   * The key/value mapping of an object's members: a repeated key takes the
   * value of its last occurrence (as `JSON.parse` and Go's decoder do).
   */
  function ToMap(ms: seq<Member>): map<string, JValue>
    decreases |ms|
  {
    if ms == [] then map[] else ToMap(ms[..|ms| - 1])[ms[|ms| - 1].key := ms[|ms| - 1].value]
  }

  /** The keys of the mapping are the keys of the members. */
  lemma {:induction false} ToMapKeys(ms: seq<Member>, k: string)
    ensures k in ToMap(ms) <==> HasKey(ms, k)
    decreases |ms|
  {
    if ms != [] {
      var init := ms[..|ms| - 1];
      ToMapKeys(init, k);
      if HasKey(ms, k) && k != ms[|ms| - 1].key {
        var i :| 0 <= i < |ms| && ms[i].key == k;
        assert init[i] == ms[i];
      }
      if HasKey(init, k) {
        var i :| 0 <= i < |init| && init[i].key == k;
        assert ms[i] == init[i];
      }
    }
  }

  /** A key maps to the value of its last member. */
  lemma {:induction false} ToMapLookup(ms: seq<Member>, i: int)
    requires 0 <= i < |ms| && IsLastWithKey(ms, i)
    ensures ms[i].key in ToMap(ms) && ToMap(ms)[ms[i].key] == ms[i].value
    decreases |ms|
  {
    if i < |ms| - 1 {
      var init := ms[..|ms| - 1];
      assert init[i] == ms[i];
      assert IsLastWithKey(init, i) by {
        forall j | i < j < |init| ensures init[j].key != init[i].key {
          assert init[j] == ms[j];
        }
      }
      ToMapLookup(init, i);
    }
  }
}
