/**
 * The form controls' own logic: which keys a number input swallows, its
 * default `min`, what focusing and editing it store in the form field, and
 * how the text, number and select inputs display the field's value.  A
 * field value is a JSON value, or `None` for `undefined`; a number typed
 * into the input is an exact decimal, or `None` when the browser reports
 * `NaN` (an empty or unparsable entry).
 */
module FormInputs {
  import opened Wrappers
  import opened JsonValues

  /** The keys `blockInvalidChar` cancels. */
  const BlockedKeys: seq<string> := ["e", "E", "+", "-"]

  predicate Blocked(key: string) {
    key in BlockedKeys
  }

  /** Exactly the four keys `e`, `E`, `+` and `-` are blocked. */
  lemma BlockedExactly(key: string)
    ensures Blocked(key) <==> key == "e" || key == "E" || key == "+" || key == "-"
  {
  }

  /** A key press delivered to a number input. */
  class KeyEvent {
    const key: string
    var defaultPrevented: bool

    constructor(key: string)
      ensures this.key == key && !defaultPrevented
    {
      this.key := key;
      defaultPrevented := false;
    }

    /** `blockInvalidChar`: cancels the event for a blocked key, leaves it alone otherwise. */
    method BlockInvalidChar()
      modifies this
      ensures defaultPrevented <==> old(defaultPrevented) || Blocked(key)
    {
      if Blocked(key) {
        defaultPrevented := true;
      }
    }
  }

  /** The input's `min` attribute: the given bound, or 0 when none is given. */
  function MinAttribute(min: Option<Number>): (r: Number)
    ensures min.None? ==> r == Zero
    ensures min.Some? ==> r == min.value
  {
    match min
    case None => Zero
    case Some(m) => m
  }

  /** The field after `onFocus`: a value that is exactly the number 0 is cleared to `""`. */
  function Focused(value: Option<JValue>): (r: Option<JValue>)
    ensures value == Some(JNumber(Zero)) ==> r == Some(JString(""))
    ensures value != Some(JNumber(Zero)) ==> r == value
  {
    if value == Some(JNumber(Zero)) then Some(JString("")) else value
  }

  /**
   * The field after `onChange` with the input's `valueAsNumber`: `NaN`
   * clears it to `""`, a negative number is ignored, any other number is
   * stored.
   */
  function Changed(value: Option<JValue>, typed: Option<Number>): (r: Option<JValue>)
    ensures typed.None? ==> r == Some(JString(""))
    ensures typed.Some? && IsNegative(typed.value) ==> r == value
    ensures typed.Some? && !IsNegative(typed.value) ==> r == Some(JNumber(typed.value))
  {
    match typed
    case None => Some(JString(""))
    case Some(n) => if IsNegative(n) then value else Some(JNumber(n))
  }

  /** The field holds a negative number. */
  predicate HoldsNegative(value: Option<JValue>) {
    value.Some? && value.value.JNumber? && IsNegative(value.value.n)
  }

  /** Something the user does to a number input. */
  datatype Edit = Focus | Type(typed: Option<Number>)

  function ApplyEdit(value: Option<JValue>, e: Edit): Option<JValue> {
    match e
    case Focus => Focused(value)
    case Type(typed) => Changed(value, typed)
  }

  /** The field after a sequence of edits, the first applied first. */
  function ApplyEdits(value: Option<JValue>, es: seq<Edit>): Option<JValue>
    decreases |es|
  {
    if es == [] then value else ApplyEdits(ApplyEdit(value, es[0]), es[1..])
  }

  /** No edit makes a field negative: a negative entry is never stored. */
  lemma EditKeepsNonNegative(value: Option<JValue>, e: Edit)
    requires !HoldsNegative(value)
    ensures !HoldsNegative(ApplyEdit(value, e))
  {
  }

  /** However the user edits a field that starts non-negative, it never holds a negative number. */
  lemma {:induction false} EditsKeepNonNegative(value: Option<JValue>, es: seq<Edit>)
    requires !HoldsNegative(value)
    ensures !HoldsNegative(ApplyEdits(value, es))
    decreases |es|
  {
    if es != [] {
      EditKeepsNonNegative(value, es[0]);
      EditsKeepNonNegative(ApplyEdit(value, es[0]), es[1..]);
    }
  }

  /** After the user types a number, the field holds a number that is not negative, or `""`. */
  lemma TypingNumberStoresIt(value: Option<JValue>, n: Number)
    requires !IsNegative(n)
    ensures Changed(value, Some(n)) == Some(JNumber(n))
    ensures Focused(Changed(value, Some(n))) == if n == Zero then Some(JString("")) else Some(JNumber(n))
  {
  }

  /** The form field behind one number input. */
  class NumberField {
    var value: Option<JValue>

    constructor(value: Option<JValue>)
      ensures this.value == value
    {
      this.value := value;
    }

    method OnFocus()
      modifies this
      ensures value == Focused(old(value))
    {
      if value == Some(JNumber(Zero)) {
        value := Some(JString(""));
      }
    }

    method OnChange(typed: Option<Number>)
      modifies this
      ensures value == Changed(old(value), typed)
    {
      if typed.None? {
        value := Some(JString(""));
        return;
      }
      if IsNegative(typed.value) {
        return;
      }
      value := Some(JNumber(typed.value));
    }
  }

  /** JavaScript truthiness of a field value; `undefined` is falsy. */
  predicate FieldTruthy(value: Option<JValue>) {
    value.Some? && Truthy(value.value)
  }

  /** The number input's `value ?? ""`: only `null` and `undefined` show as empty. */
  function NumberDisplay(value: Option<JValue>): (r: JValue)
    ensures value.None? || value == Some(JNull) ==> r == JString("")
    ensures value.Some? && !value.value.JNull? ==> r == value.value
  {
    match value
    case None => JString("")
    case Some(JNull) => JString("")
    case Some(v) => v
  }

  /** The text and select inputs' `value || ""`: every falsy value shows as empty. */
  function TextDisplay(value: Option<JValue>): (r: JValue)
    ensures !FieldTruthy(value) ==> r == JString("")
    ensures FieldTruthy(value) ==> r == value.value
  {
    if FieldTruthy(value) then value.value else JString("")
  }

  /**
   * The two displays differ exactly on `false` and on the number 0, which
   * the number input shows and the text and select inputs blank out.
   */
  lemma DisplaysDiffer(value: Option<JValue>)
    ensures NumberDisplay(value) != TextDisplay(value) <==>
      value == Some(JBool(false)) || value == Some(JNumber(Zero))
  {
    if value.Some? && value.value.JNumber? && value.value.n.mantissa == 0 {
      assert value.value.n == Zero;
    }
  }
}
