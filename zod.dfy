/**
 * The part of the Zod validation library the census schemas use, as an
 * interpreter: a schema is a map from field name to field rule, and parsing
 * a record of form values either yields the cleaned record (unknown keys
 * dropped, defaults filled in, numbers coerced) or names the fields that
 * failed.  Version 4 semantics: `z.number()` rejects `NaN` and the
 * infinities, `.optional()` accepts only `undefined`, and `.default(d)`
 * yields `d` for `undefined` without validating it.
 */
module Zod {
  import opened Wrappers
  import opened Text
  import opened JsonValues

  /**
   * A record of form values by field name; an absent key is `undefined`.
   * Field names are drawn from a type `K`: each schema module declares its
   * names as an enumeration.
   */
  type Record<K> = map<K, JValue>

  /**
   * What the JavaScript host supplies: `Number(v)` for strings, arrays and
   * objects, and `parseFloat(s)`; `None` is `NaN` or an infinity.
   */
  datatype Host = Host(toNumber: JValue -> Option<Number>, parseFloat: string -> Option<Number>)

  /** `Number(v)` for a possibly `undefined` value. */
  function Coerce(host: Host, v: Option<JValue>): (r: Option<Number>)
    ensures v.None? ==> r.None?
    ensures v == Some(JNull) || v == Some(JBool(false)) ==> r == Some(Zero)
    ensures v == Some(JBool(true)) ==> r == Some(FromInt(1))
    ensures v.Some? && v.value.JNumber? ==> r == Some(v.value.n)
  {
    match v
    case None => None
    case Some(JNull) => Some(Zero)
    case Some(JBool(b)) => Some(if b then FromInt(1) else Zero)
    case Some(JNumber(n)) => Some(n)
    case Some(other) => host.toNumber(other)
  }

  /** A value rule, before `.optional()` or `.default(...)`. */
  datatype Base =
      /** `z.string()` with `.min(min)`, and with `.length(n)` when `exact` is `Some(n)`. */
    | Text(min: nat, exact: Option<nat>)
      /** `z.enum(options)`. */
    | OneOf(options: seq<string>)
      /** `z.coerce.number()`, with `.min(0)` when `nonNegative`. */
    | Coerced(nonNegative: bool)
      /** `z.coerce.number().transform(v => isNaN(v) ? 0 : v).pipe(z.number().min(0))`. */
    | NaNAsZero
      /** `z.preprocess` of a decimal-comma string through `parseFloat`, then `z.coerce.number().min(0)`. */
    | DecimalComma
      /** `z.array(z.string())`, with `.min(min)`. */
    | TextList(min: nat)
      /** `z.boolean().refine(v => v === true)`. */
    | MustBeTrue

  /** A field rule: required, `.optional()`, or `.default(value)`. */
  datatype Field = Required(base: Base) | Optional(base: Base) | Default(base: Base, value: JValue)

  /** A `z.object` shape. */
  type Shape<K> = map<K, Field>

  /** The text `preprocess` hands to `parseFloat`: the first `,` becomes `.`. */
  function DecimalText(s: string): (t: string)
    ensures |t| == |s|
  {
    ReplaceFirst(s, ',', '.')
  }

  /** The number the decimal-comma preprocessing and the coercion after it produce; `None` is `NaN`. */
  function DecimalCommaNumber(host: Host, v: Option<JValue>): Option<Number> {
    match v
    case Some(JString(s)) =>
      var t := DecimalText(s);
      if t == "" then Some(Zero) else host.parseFloat(t)
    case _ => Coerce(host, v)
  }

  /** What a value rule yields for a (possibly `undefined`) value; `None` is a validation issue. */
  function CheckBase(host: Host, b: Base, v: Option<JValue>): (r: Option<JValue>)
    ensures b.Text? ==> (r.Some? <==> v.Some? && v.value.JString? && |v.value.s| >= b.min
                                      && (b.exact.Some? ==> |v.value.s| == b.exact.value))
    ensures b.OneOf? ==> (r.Some? <==> v.Some? && v.value.JString? && v.value.s in b.options)
    ensures b.TextList? ==> (r.Some? <==> v.Some? && v.value.JArray? && |v.value.items| >= b.min
                                          && forall i :: 0 <= i < |v.value.items| ==> v.value.items[i].JString?)
    ensures b.MustBeTrue? ==> (r.Some? <==> v == Some(JBool(true)))
    ensures b.Text? || b.OneOf? || b.TextList? || b.MustBeTrue? ==> (r.Some? ==> r == v)
    ensures b.Coerced? ==> (r.Some? <==> Coerce(host, v).Some? && !(b.nonNegative && IsNegative(Coerce(host, v).value)))
    ensures b.Coerced? && r.Some? ==> r == Some(JNumber(Coerce(host, v).value))
    ensures b.DecimalComma? ==> (r.Some? <==> DecimalCommaNumber(host, v).Some? && !IsNegative(DecimalCommaNumber(host, v).value))
    ensures b.DecimalComma? && r.Some? ==> r == Some(JNumber(DecimalCommaNumber(host, v).value))
  {
    match b
    case Text(min, exact) =>
      if v.Some? && v.value.JString? && |v.value.s| >= min && (exact.None? || |v.value.s| == exact.value)
      then v else None
    case OneOf(options) =>
      if v.Some? && v.value.JString? && v.value.s in options then v else None
    case Coerced(nonNegative) =>
      var n := Coerce(host, v);
      if n.Some? && !(nonNegative && IsNegative(n.value)) then Some(JNumber(n.value)) else None
    case NaNAsZero =>
      var n := Coerce(host, v);
      // `z.coerce.number()` reports `NaN` itself, before the transform runs
      if n.None? then None
      else
        var t := n.GetOr(Zero);
        if IsNegative(t) then None else Some(JNumber(t))
    case DecimalComma =>
      var n := DecimalCommaNumber(host, v);
      if n.Some? && !IsNegative(n.value) then Some(JNumber(n.value)) else None
    case TextList(min) =>
      if v.Some? && v.value.JArray? && |v.value.items| >= min
         && forall i :: 0 <= i < |v.value.items| ==> v.value.items[i].JString?
      then v else None
    case MustBeTrue =>
      if v == Some(JBool(true)) then v else None
  }

  /** What happens to one field: it fails, is left out of the output, or yields a value. */
  datatype Outcome = Invalid | Absent | Value(v: JValue)

  function CheckField(host: Host, f: Field, v: Option<JValue>): (r: Outcome)
    ensures f.Required? ==> !r.Absent?
    ensures f.Optional? && v.None? ==> r.Absent?
    ensures f.Default? && v.None? ==> r == Value(f.value)
    ensures v.Some? || f.Required? ==> (r.Invalid? <==> CheckBase(host, f.base, v).None?)
    ensures (v.Some? || f.Required?) && r.Value? ==> Some(r.v) == CheckBase(host, f.base, v)
  {
    if v.None? && f.Optional? then Absent
    else if v.None? && f.Default? then Value(f.value)
    else
      match CheckBase(host, f.base, v)
      case Some(out) => Value(out)
      case None => Invalid
  }

  function Lookup<K(!new)>(r: Record<K>, k: K): (v: Option<JValue>)
    ensures v.Some? <==> k in r
    ensures v.Some? ==> v.value == r[k]
  {
    if k in r then Some(r[k]) else None
  }

  /** No field of the shape fails on the record. */
  predicate Accepts<K(!new)>(host: Host, shape: Shape<K>, input: Record<K>) {
    forall k {:trigger CheckField(host, shape[k], Lookup(input, k))} ::
      k in shape ==> !CheckField(host, shape[k], Lookup(input, k)).Invalid?
  }

  /**
   * `schema.safeParse(input)`: the cleaned record when every field passes,
   * holding exactly the shape's fields that yield a value; otherwise exactly
   * the fields that fail.
   */
  function Parse<K(!new)>(host: Host, shape: Shape<K>, input: Record<K>): (r: Result<Record<K>, set<K>>)
    ensures r.Ok? <==> Accepts(host, shape, input)
    ensures r.Err? ==> r.error != {}
    ensures r.Err? ==> forall k {:trigger k in r.error} :: k in r.error <==> k in shape && CheckField(host, shape[k], Lookup(input, k)).Invalid?
    ensures r.Ok? ==> forall k {:trigger k in r.value} :: k in r.value <==> k in shape && CheckField(host, shape[k], Lookup(input, k)).Value?
    ensures r.Ok? ==> forall k {:trigger r.value[k]} :: k in r.value ==> r.value[k] == CheckField(host, shape[k], Lookup(input, k)).v
  {
    var bad := set k | k in shape && CheckField(host, shape[k], Lookup(input, k)).Invalid?;
    if bad == {} then
      assert Accepts(host, shape, input) by {
        forall k | k in shape ensures !CheckField(host, shape[k], Lookup(input, k)).Invalid? {
          assert k in bad <==> CheckField(host, shape[k], Lookup(input, k)).Invalid?;
        }
      }
      Ok(map k | k in shape && CheckField(host, shape[k], Lookup(input, k)).Value? :: CheckField(host, shape[k], Lookup(input, k)).v)
    else
      assert exists k :: k in bad;
      Err(bad)
  }

  /** Every field is `.optional()`. */
  predicate AllOptional<K(!new)>(shape: Shape<K>) {
    forall k :: k in shape ==> shape[k].Optional?
  }

  /** A shape of optional fields accepts the empty record and yields it. */
  lemma EmptyPassesOptional<K(!new)>(host: Host, shape: Shape<K>)
    requires AllOptional(shape)
    ensures Parse(host, shape, map[]) == Ok(map[])
  {
  }

  /** A shape of optional fields accepts a record that gives none of them, and yields `{}`. */
  lemma AbsentPassesOptional<K(!new)>(host: Host, shape: Shape<K>, r: Record<K>)
    requires AllOptional(shape)
    requires forall k :: k in shape ==> k !in r
    ensures Parse(host, shape, r) == Ok(map[])
  {
    forall k | k in shape ensures CheckField(host, shape[k], Lookup(r, k)).Absent? {
      assert Lookup(r, k).None?;
    }
    assert Parse(host, shape, r).value == map[];
  }

  /** Unknown keys never matter: only the shape's own fields are looked at, and none is kept. */
  lemma UnknownKeysIgnored<K(!new)>(host: Host, shape: Shape<K>, input: Record<K>, k: K, v: JValue)
    requires k !in shape
    ensures Parse(host, shape, input[k := v]) == Parse(host, shape, input)
  {
    forall j | j in shape
      ensures CheckField(host, shape[j], Lookup(input[k := v], j)) == CheckField(host, shape[j], Lookup(input, j))
    {
      assert Lookup(input[k := v], j) == Lookup(input, j);
    }
    var a, b := Parse(host, shape, input[k := v]), Parse(host, shape, input);
    if a.Ok? {
      assert a.value == b.value;
    } else {
      assert a.error == b.error;
    }
  }

  /** A record that passes gains every `.default(...)` field, with the default when the field was absent. */
  lemma DefaultsFilled<K(!new)>(host: Host, shape: Shape<K>, input: Record<K>, k: K)
    requires Parse(host, shape, input).Ok? && k in shape && shape[k].Default?
    ensures k in Parse(host, shape, input).value
    ensures k !in input ==> Parse(host, shape, input).value[k] == shape[k].value
  {
  }

  /** `z.object({...a.shape, ...b.shape})`: every field of either, `b`'s rule winning on a shared name. */
  function Spread<K(!new)>(a: Shape<K>, b: Shape<K>): (s: Shape<K>)
    ensures forall k :: k in s <==> k in a || k in b
    ensures forall k :: k in b ==> s[k] == b[k]
    ensures forall k :: k in a && k !in b ==> s[k] == a[k]
  {
    a + b
  }

  /** The spread of a list of shapes, the later ones written after the earlier. */
  function SpreadAll<K(!new)>(shapes: seq<Shape<K>>): Shape<K>
    decreases |shapes|
  {
    if shapes == [] then map[] else Spread(SpreadAll(shapes[..|shapes| - 1]), shapes[|shapes| - 1])
  }

  /**
   * A field of the spread comes from the last shape that declares it, and
   * the spread declares exactly the fields some shape declares.
   */
  lemma {:induction false} SpreadAllLastWins<K(!new)>(shapes: seq<Shape<K>>, i: int, k: K)
    requires 0 <= i < |shapes| && k in shapes[i]
    requires forall j :: i < j < |shapes| ==> k !in shapes[j]
    ensures k in SpreadAll(shapes) && SpreadAll(shapes)[k] == shapes[i][k]
    decreases |shapes|
  {
    if i < |shapes| - 1 {
      SpreadAllLastWins(shapes[..|shapes| - 1], i, k);
    }
  }

  lemma {:induction false} SpreadAllKeys<K(!new)>(shapes: seq<Shape<K>>, k: K)
    ensures k in SpreadAll(shapes) <==> exists i :: 0 <= i < |shapes| && k in shapes[i]
    decreases |shapes|
  {
    if shapes != [] {
      var init := shapes[..|shapes| - 1];
      SpreadAllKeys(init, k);
      if exists i :: 0 <= i < |init| && k in init[i] {
        var i :| 0 <= i < |init| && k in init[i];
        assert shapes[i] == init[i];
      }
      if exists i :: 0 <= i < |shapes| && k in shapes[i] {
        var i :| 0 <= i < |shapes| && k in shapes[i];
        if i < |init| { assert init[i] == shapes[i]; }
      }
    }
  }

  // ---------------------------------------------------------------------
  // The vocabulary the schema modules state their rules in

  /** Field `k` is a string of at least `n` characters. */
  predicate TextAtLeast<K(!new)>(r: Record<K>, k: K, n: nat) {
    k in r && r[k].JString? && |r[k].s| >= n
  }

  /** Field `k` is absent or a string. */
  predicate TextOrAbsent<K(!new)>(r: Record<K>, k: K) {
    k in r ==> r[k].JString?
  }

  /** Field `k` is one of `options`. */
  predicate IsOneOf<K(!new)>(r: Record<K>, k: K, options: seq<string>) {
    k in r && r[k].JString? && r[k].s in options
  }

  /** Field `k` is absent or one of `options`. */
  predicate OneOfOrAbsent<K(!new)>(r: Record<K>, k: K, options: seq<string>) {
    k in r ==> r[k].JString? && r[k].s in options
  }

  /** Field `k` is an array of at least `n` strings. */
  predicate TextListAtLeast<K(!new)>(r: Record<K>, k: K, n: nat) {
    k in r && r[k].JArray? && |r[k].items| >= n && forall i :: 0 <= i < |r[k].items| ==> r[k].items[i].JString?
  }

  /** Field `k` is absent or an array of strings. */
  predicate TextListOrAbsent<K(!new)>(r: Record<K>, k: K) {
    k in r ==> TextListAtLeast(r, k, 0)
  }

  /** Field `k` is the boolean `true`. */
  predicate IsTrue<K(!new)>(r: Record<K>, k: K) {
    k in r && r[k] == JBool(true)
  }

  /** Field `k` converts to a number (not `NaN`, not infinite), not negative when `nonNegative`. */
  predicate NumberField<K(!new)>(host: Host, r: Record<K>, k: K, nonNegative: bool) {
    var n := Coerce(host, Lookup(r, k));
    n.Some? && !(nonNegative && IsNegative(n.value))
  }

  /** Field `k` is absent, or converts to a number, not negative when `nonNegative`. */
  predicate NumberOrAbsent<K(!new)>(host: Host, r: Record<K>, k: K, nonNegative: bool) {
    k in r ==> NumberField(host, r, k, nonNegative)
  }

  /** Field `k` passes the decimal-comma rule: a number that is not negative after preprocessing. */
  predicate DecimalCommaField<K(!new)>(host: Host, r: Record<K>, k: K) {
    var n := DecimalCommaNumber(host, Lookup(r, k));
    n.Some? && !IsNegative(n.value)
  }

  /** What a value rule demands of field `k`, in the vocabulary above. */
  predicate BaseMeets<K(!new)>(host: Host, b: Base, r: Record<K>, k: K) {
    match b
    case Text(min, exact) => TextAtLeast(r, k, min) && (exact.Some? ==> |r[k].s| == exact.value)
    case OneOf(options) => IsOneOf(r, k, options)
    case Coerced(nonNegative) => NumberField(host, r, k, nonNegative)
    case NaNAsZero => NumberField(host, r, k, true)
    case DecimalComma => DecimalCommaField(host, r, k)
    case TextList(min) => TextListAtLeast(r, k, min)
    case MustBeTrue => IsTrue(r, k)
  }

  /** What a field rule demands of field `k`: optional and defaulted fields only when present. */
  predicate Meets<K(!new)>(host: Host, f: Field, r: Record<K>, k: K) {
    if f.Required? then BaseMeets(host, f.base, r, k) else k in r ==> BaseMeets(host, f.base, r, k)
  }

  /** A field passes exactly when it meets its rule. */
  lemma MeetsIff<K(!new)>(host: Host, f: Field, r: Record<K>, k: K)
    ensures !CheckField(host, f, Lookup(r, k)).Invalid? <==> Meets(host, f, r, k)
  {
    if f.base.NaNAsZero? { NaNAsZeroAccepts(host, Lookup(r, k)); }
  }

  /** A record passes a shape exactly when every field meets its rule. */
  lemma AcceptsIff<K(!new)>(host: Host, shape: Shape<K>, r: Record<K>)
    ensures Accepts(host, shape, r) <==> forall k :: k in shape ==> Meets(host, shape[k], r, k)
  {
    forall k | k in shape
      ensures !CheckField(host, shape[k], Lookup(r, k)).Invalid? <==> Meets(host, shape[k], r, k)
    {
      MeetsIff(host, shape[k], r, k);
    }
  }

  /** The shape that gives each name in `keys` its rule. */
  function ShapeOf<K(!new)>(keys: set<K>, rule: K -> Field): (s: Shape<K>)
    ensures forall k {:trigger k in s} :: k in s <==> k in keys
    ensures forall k {:trigger s[k]} :: k in s ==> s[k] == rule(k)
  {
    map k | k in keys :: rule(k)
  }

  /** Every name in `keys` meets its rule. */
  predicate AllMeet<K(!new)>(host: Host, keys: set<K>, rule: K -> Field, r: Record<K>) {
    forall k :: k in keys ==> Meets(host, rule(k), r, k)
  }

  /** Meeting every rule of a union of names is meeting those of each part. */
  lemma AllMeetUnion<K(!new)>(host: Host, a: set<K>, b: set<K>, rule: K -> Field, r: Record<K>)
    ensures AllMeet(host, a + b, rule, r) <==> AllMeet(host, a, rule, r) && AllMeet(host, b, rule, r)
  {
  }

  /** Passing a shape given by rules is meeting every rule. */
  lemma ParseShapeOf<K(!new)>(host: Host, keys: set<K>, rule: K -> Field, r: Record<K>)
    ensures Parse(host, ShapeOf(keys, rule), r).Ok? <==> AllMeet(host, keys, rule, r)
  {
    var s := ShapeOf(keys, rule);
    forall k | k in keys ensures k in s && s[k] == rule(k) {
    }
    AcceptsIff(host, ShapeOf(keys, rule), r);
  }

  /** The names of a list of name sets, together. */
  function UnionAll<K(!new)>(keys: seq<set<K>>): (u: set<K>)
    ensures forall k :: k in u <==> exists i :: 0 <= i < |keys| && k in keys[i]
    decreases |keys|
  {
    if keys == [] then {}
    else
      var init := keys[..|keys| - 1];
      var u := UnionAll(init) + keys[|keys| - 1];
      assert forall i :: 0 <= i < |init| ==> init[i] == keys[i];
      u
  }

  /**
   * Spreading shapes that give every name the same rule is the shape of all
   * their names under that rule: no later shape overrides an earlier one
   * with a different rule.
   */
  lemma {:induction false} SpreadShapesOf<K(!new)>(keys: seq<set<K>>, rule: K -> Field, shapes: seq<Shape<K>>)
    requires |shapes| == |keys|
    requires forall i :: 0 <= i < |keys| ==> shapes[i] == ShapeOf(keys[i], rule)
    ensures SpreadAll(shapes) == ShapeOf(UnionAll(keys), rule)
    decreases |keys|
  {
    if keys != [] {
      var n := |keys| - 1;
      SpreadShapesOf(keys[..n], rule, shapes[..n]);
      assert UnionAll(keys) == UnionAll(keys[..n]) + keys[n];
      var a, b := ShapeOf(UnionAll(keys[..n]), rule), ShapeOf(keys[n], rule);
      assert SpreadAll(shapes) == Spread(a, b);
      assert Spread(a, b) == ShapeOf(UnionAll(keys), rule);
    }
  }

  /** A record passes the shape of a union of names exactly when it passes the shape of each part. */
  lemma {:induction false} ParseUnionAll<K(!new)>(host: Host, keys: seq<set<K>>, rule: K -> Field, r: Record<K>)
    ensures Parse(host, ShapeOf(UnionAll(keys), rule), r).Ok? <==>
      forall i :: 0 <= i < |keys| ==> Parse(host, ShapeOf(keys[i], rule), r).Ok?
    decreases |keys|
  {
    ParseShapeOf(host, UnionAll(keys), rule, r);
    if keys != [] {
      var n := |keys| - 1;
      ParseUnionAll(host, keys[..n], rule, r);
      assert UnionAll(keys) == UnionAll(keys[..n]) + keys[n];
      AllMeetUnion(host, UnionAll(keys[..n]), keys[n], rule, r);
      ParseShapeOf(host, UnionAll(keys[..n]), rule, r);
      ParseShapeOf(host, keys[n], rule, r);
      forall i | 0 <= i < n ensures keys[..n][i] == keys[i] { }
    }
  }

  /** Setting a field to a value its rule accepts keeps a passing record passing. */
  lemma SetKeepsPassing<K(!new)>(host: Host, shape: Shape<K>, r: Record<K>, k: K, v: JValue)
    requires Parse(host, shape, r).Ok? && k in shape && !CheckField(host, shape[k], Some(v)).Invalid?
    ensures Parse(host, shape, r[k := v]).Ok?
  {
    forall j | j in shape ensures !CheckField(host, shape[j], Lookup(r[k := v], j)).Invalid? {
      if j != k { assert Lookup(r[k := v], j) == Lookup(r, j); }
    }
  }

  /** Removing fields that are not required keeps a passing record passing. */
  lemma RemoveKeepsPassing<K(!new)>(host: Host, shape: Shape<K>, r: Record<K>, ks: set<K>)
    requires Parse(host, shape, r).Ok? && forall k :: k in ks && k in shape ==> !shape[k].Required?
    ensures Parse(host, shape, r - ks).Ok?
  {
    forall j | j in shape ensures !CheckField(host, shape[j], Lookup(r - ks, j)).Invalid? {
      if j !in ks { assert Lookup(r - ks, j) == Lookup(r, j); }
    }
  }

  /** A field its rule rejects makes the parse fail, and is among the fields reported. */
  lemma FailureReported<K(!new)>(host: Host, shape: Shape<K>, r: Record<K>, k: K)
    requires k in shape && CheckField(host, shape[k], Lookup(r, k)).Invalid?
    ensures Parse(host, shape, r).Err?
    ensures k in Parse(host, shape, r).error
  {
  }

  /**
   * A record whose every field passes through its rule unchanged, and that
   * leaves out only optional fields, parses to itself.
   */
  lemma PassesUnchanged<K(!new)>(host: Host, shape: Shape<K>, r: Record<K>)
    requires forall k :: k in r ==> k in shape && CheckField(host, shape[k], Some(r[k])) == Value(r[k])
    requires forall k :: k in shape && k !in r ==> shape[k].Optional?
    ensures Parse(host, shape, r) == Ok(r)
  {
    forall k | k in shape ensures !CheckField(host, shape[k], Lookup(r, k)).Invalid? {
      if k in r { assert Lookup(r, k) == Some(r[k]); }
    }
    var p := Parse(host, shape, r);
    assert p.Ok?;
    forall k ensures k in p.value <==> k in r {
      if k in shape && k in r { assert Lookup(r, k) == Some(r[k]); }
    }
    forall k | k in r ensures p.value[k] == r[k] {
      assert Lookup(r, k) == Some(r[k]);
    }
    assert p.value == r;
  }

  /** The answer lists the census schemas share. */
  const YesNo: seq<string> := ["Sim", "Não"]
  const YesPartlyNo: seq<string> := ["Sim", "Parcialmente", "Não"]

  /**
   * `numberSchema`'s transform never sees `NaN`: the coercion in front of it
   * already reports `NaN` as an issue, so the rule is exactly
   * `z.coerce.number().min(0)` and a value that is not a number fails
   * instead of becoming 0.
   */
  lemma NaNAsZeroIsCoercedMin(host: Host, v: Option<JValue>)
    ensures CheckBase(host, NaNAsZero, v) == CheckBase(host, Coerced(true), v)
    ensures v.None? ==> CheckBase(host, NaNAsZero, v).None?
  {
  }

  /** A value passes `numberSchema` exactly when it converts to a number that is not negative. */
  lemma NaNAsZeroAccepts(host: Host, v: Option<JValue>)
    ensures CheckBase(host, NaNAsZero, v).Some? <==> Coerce(host, v).Some? && !IsNegative(Coerce(host, v).value)
  {
  }

  /**
   * The decimal-comma rule: only the first `,` is rewritten before
   * `parseFloat`; `""` is 0; anything that is not a string is coerced
   * unchanged.
   */
  lemma DecimalCommaRule(host: Host, s: string, i: int)
    requires 0 <= i < |s| && s[i] == ',' && ',' !in s[..i]
    ensures DecimalCommaNumber(host, Some(JString(s))) == host.parseFloat(s[..i] + "." + s[i + 1..])
  {
    ReplaceFirstAt(s, ',', '.', i);
  }

  lemma DecimalCommaEmpty(host: Host)
    ensures CheckBase(host, DecimalComma, Some(JString(""))) == Some(JNumber(Zero))
  {
  }

  lemma DecimalCommaNonString(host: Host, v: Option<JValue>)
    requires !(v.Some? && v.value.JString?)
    ensures DecimalCommaNumber(host, v) == Coerce(host, v)
  {
  }
}
