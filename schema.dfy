/**
 * The part of Joi the validators rely on, as values: typed key rules that coerce
 * strings, required and optional keys, a closed key set (`unknown(false)`), a
 * minimum key count (`min(n)`) and the `_min`/`_max` cross-check of the filter
 * schema. Validation collects every error (`abortEarly: false`).
 */
module Schema {
  import opened Wrappers
  import opened Text
  import opened Values
  import opened OrderValidator

  /** An incoming value: every query parameter is a string; a JSON body field may be any of these. */
  datatype Json = JStr(s: string) | JNum(r: real) | JBool(b: bool) | JNull | JComposite

  datatype Rule =
    | NumberRule(integer: bool, min: Option<real>, max: Option<real>)  // Joi.number(), .integer(), .min(), .max()
    | BooleanRule                                                      // Joi.boolean()
    | DateRule                                                         // Joi.date()
    | StringRule(minLength: Option<nat>, maxLength: Option<nat>, only: seq<string>)  // Joi.string(), .min(), .max(), .valid(...) when only != []
    | OrderRule(allowedFields: seq<string>)                            // orderValidator(allowedFields)

  datatype KeyRule = KeyRule(rule: Rule, required: bool)

  /** `Joi.object(keys).unknown(false)`, with `.min(minKeys)` and the range check over `rangeFields`. */
  datatype ObjectSchema = ObjectSchema(keys: map<string, KeyRule>, minKeys: nat, rangeFields: seq<string>)

  datatype Violation =
    | UnknownKey(key: string)
    | InvalidValue(key: string)
    | MissingKey(key: string)
    | TooFewKeys
    | InvertedRange(field: string)

  /** How a string denotes an instant (milliseconds since the epoch), or None if it is no valid date. */
  type DateParser = string -> Option<int>

  /** `Number.MAX_SAFE_INTEGER`, the bound of Joi's `integer()` rule. */
  const MaxSafeInteger: real := 9007199254740991.0

  /** The largest magnitude a JavaScript time value may have. */
  const MaxTimeValue: real := 8640000000000000.0

  // -------------------------------------------------------------- coercion

  /** A number, or a string that is a numeric literal, converted to its exact value. */
  function NumberOf(j: Json): (n: Option<real>)
    ensures j.JNum? ==> n == Some(j.r)
    ensures j.JStr? ==> (n.Some? <==> IsNumericLiteral(j.s))
    ensures !j.JNum? && !j.JStr? ==> n == None
  {
    match j
    case JNum(r) => Some(r)
    case JStr(s) => if IsNumericLiteral(s) then Some(LiteralValue(s)) else None
    case _ => None
  }

  /** `Number.isSafeInteger`. */
  predicate IsSafeInteger(r: real) {
    r.Floor as real == r && -MaxSafeInteger <= r <= MaxSafeInteger
  }

  predicate WithinBounds(r: real, min: Option<real>, max: Option<real>) {
    (min.Some? ==> r >= min.value) && (max.Some? ==> r <= max.value)
  }

  /** A boolean, or the string `true`/`false` in any ASCII case (Joi's boolean is case-insensitive by default). */
  function BooleanOf(j: Json): (b: Option<bool>)
    ensures j.JBool? ==> b == Some(j.b)
    ensures j.JStr? ==> (b == Some(true) <==> LowerAscii(j.s) == "true") && (b == Some(false) <==> LowerAscii(j.s) == "false")
    ensures !j.JBool? && !j.JStr? ==> b == None
  {
    match j
    case JBool(b) => Some(b)
    case JStr(s) => if LowerAscii(s) == "true" then Some(true) else if LowerAscii(s) == "false" then Some(false) else None
    case _ => None
  }

  /** Truncation toward zero. */
  function Truncate(r: real): (i: int)
    ensures r >= 0.0 ==> i as real <= r < i as real + 1.0
    ensures r < 0.0 ==> i as real - 1.0 < r <= i as real
  {
    if r >= 0.0 then r.Floor else -((-r).Floor)
  }

  /** A date string as the parser reads it, or a number as a time value (`new Date(n)`), which must be in range. */
  function DateOf(dates: DateParser, j: Json): (t: Option<int>)
    ensures j.JStr? ==> t == dates(j.s)
    ensures j.JNum? ==> (t.Some? <==> -MaxTimeValue <= j.r <= MaxTimeValue)
    ensures !j.JNum? && !j.JStr? ==> t == None
  {
    match j
    case JStr(s) => dates(s)
    case JNum(r) => if -MaxTimeValue <= r <= MaxTimeValue then Some(Truncate(r)) else None
    case _ => None
  }

  /** Joi's string rules: a value listed in `valid(...)` is accepted at once, and with such a list nothing else is; otherwise it must be non-empty and within the length bounds. */
  predicate StringAccepts(minLength: Option<nat>, maxLength: Option<nat>, only: seq<string>, s: string) {
    if only != [] then s in only
    else s != "" && (minLength.Some? ==> |s| >= minLength.value) && (maxLength.Some? ==> |s| <= maxLength.value)
  }

  /** The value a rule turns `j` into, or None when the rule rejects `j`. */
  function Convert(rule: Rule, dates: DateParser, j: Json): (v: Option<Value>)
    ensures rule.NumberRule? ==> (v.Some? <==>
      NumberOf(j).Some? && (rule.integer ==> IsSafeInteger(NumberOf(j).value)) && WithinBounds(NumberOf(j).value, rule.min, rule.max))
    ensures rule.NumberRule? && v.Some? ==> v.value == Num(NumberOf(j).value)
    ensures rule.BooleanRule? ==> (v.Some? <==> BooleanOf(j).Some?) && (v.Some? ==> v.value == Bool(BooleanOf(j).value))
    ensures rule.DateRule? ==> (v.Some? <==> DateOf(dates, j).Some?) && (v.Some? ==> v.value == Time(DateOf(dates, j).value))
    ensures rule.StringRule? ==> (v.Some? <==> j.JStr? && StringAccepts(rule.minLength, rule.maxLength, rule.only, j.s))
    ensures rule.OrderRule? ==> (v.Some? <==> j.JStr? && ValidateOrder(rule.allowedFields, j.s).Success?)
    ensures (rule.StringRule? || rule.OrderRule?) && v.Some? ==> v.value == Str(j.s)
  {
    match rule
    case NumberRule(integer, min, max) =>
      var n := NumberOf(j);
      if n.Some? && (integer ==> IsSafeInteger(n.value)) && WithinBounds(n.value, min, max) then Some(Num(n.value)) else None
    case BooleanRule =>
      var b := BooleanOf(j);
      if b.Some? then Some(Bool(b.value)) else None
    case DateRule =>
      var t := DateOf(dates, j);
      if t.Some? then Some(Time(t.value)) else None
    case StringRule(minLength, maxLength, only) =>
      if j.JStr? && StringAccepts(minLength, maxLength, only, j.s) then Some(Str(j.s)) else None
    case OrderRule(allowedFields) =>
      if j.JStr? && ValidateOrder(allowedFields, j.s).Success? then Some(Str(j.s)) else None
  }

  // ------------------------------------------------------------ validation

  /** Errors found key by key: keys outside the schema, values their rule rejects, required keys missing. */
  function KeyViolations(schema: ObjectSchema, dates: DateParser, input: map<string, Json>): set<Violation> {
    (set k | k in input && k !in schema.keys :: UnknownKey(k))
    + (set k | k in input && k in schema.keys && Convert(schema.keys[k].rule, dates, input[k]).None? :: InvalidValue(k))
    + (set k | k in schema.keys && schema.keys[k].required && k !in input :: MissingKey(k))
  }

  predicate KeysValid(schema: ObjectSchema, dates: DateParser, input: map<string, Json>) {
    forall k :: k in input ==> k in schema.keys && Convert(schema.keys[k].rule, dates, input[k]).Some?
  }

  predicate RequiredPresent(schema: ObjectSchema, input: map<string, Json>) {
    forall k :: k in schema.keys && schema.keys[k].required ==> k in input
  }

  lemma KeyViolationsEmpty(schema: ObjectSchema, dates: DateParser, input: map<string, Json>)
    ensures KeyViolations(schema, dates, input) == {} <==> KeysValid(schema, dates, input) && RequiredPresent(schema, input)
  {
    if !KeysValid(schema, dates, input) {
      var k :| k in input && !(k in schema.keys && Convert(schema.keys[k].rule, dates, input[k]).Some?);
      assert UnknownKey(k) in KeyViolations(schema, dates, input) || InvalidValue(k) in KeyViolations(schema, dates, input);
    } else if !RequiredPresent(schema, input) {
      var k :| k in schema.keys && schema.keys[k].required && k !in input;
      assert MissingKey(k) in KeyViolations(schema, dates, input);
    }
  }

  /** The validated value: every key converted by its rule. */
  function Converted(schema: ObjectSchema, dates: DateParser, input: map<string, Json>): (v: map<string, Value>)
    requires KeysValid(schema, dates, input)
    ensures v.Keys == input.Keys
    ensures forall k :: k in v ==> Convert(schema.keys[k].rule, dates, input[k]) == Some(v[k])
  {
    map k | k in input :: Convert(schema.keys[k].rule, dates, input[k]).value
  }

  /** JavaScript's `min > max` on two converted bounds: numbers and dates compare by value. */
  predicate Exceeds(a: Value, b: Value) {
    match (a, b)
    case (Num(x), Num(y)) => x > y
    case (Time(x), Time(y)) => x > y
    case _ => false
  }

  predicate Inverted(field: string, v: map<string, Value>) {
    field + "_min" in v && field + "_max" in v && Exceeds(v[field + "_min"], v[field + "_max"])
  }

  /** The first field, in order, whose bounds are inverted: the one the custom rule reports. */
  function FirstInverted(fields: seq<string>, v: map<string, Value>): (r: Option<string>)
    ensures r.Some? ==> r.value in fields && Inverted(r.value, v)
    ensures r.None? <==> forall k :: 0 <= k < |fields| ==> !Inverted(fields[k], v)
    ensures r.Some? ==> exists i :: 0 <= i < |fields| && fields[i] == r.value && forall k :: 0 <= k < i ==> !Inverted(fields[k], v)
  {
    if fields == [] then None
    else if Inverted(fields[0], v) then Some(fields[0])
    else
      var r := FirstInverted(fields[1..], v);
      assert forall k :: 1 <= k < |fields| ==> fields[k] == fields[1..][k - 1];
      if r.Some? then
        var i :| 0 <= i < |fields[1..]| && fields[1..][i] == r.value && forall k :: 0 <= k < i ==> !Inverted(fields[1..][k], v);
        assert fields[i + 1] == r.value && forall k :: 0 <= k < i + 1 ==> !Inverted(fields[k], v);
        r
      else r
  }

  /** Errors of the object-level rules, which run only on a value whose keys all passed. */
  function RuleViolations(schema: ObjectSchema, v: map<string, Value>): set<Violation> {
    (if |v| < schema.minKeys then {TooFewKeys} else {})
    + (match FirstInverted(schema.rangeFields, v) case Some(f) => {InvertedRange(f)} case None => {})
  }

  /** `schema.validate(input, {abortEarly: false})`: the converted value, or every error found. */
  function Validate(schema: ObjectSchema, dates: DateParser, input: map<string, Json>): (r: Result<map<string, Value>, set<Violation>>)
    ensures r.Success? ==> r.value.Keys == input.Keys && input.Keys <= schema.keys.Keys
    ensures r.Success? ==> forall k :: k in r.value ==> Convert(schema.keys[k].rule, dates, input[k]) == Some(r.value[k])
    ensures r.Failure? ==> r.error != {}
  {
    var errors := KeyViolations(schema, dates, input);
    if errors != {} then Failure(errors)
    else
      KeyViolationsEmpty(schema, dates, input);
      var v := Converted(schema, dates, input);
      var ruleErrors := RuleViolations(schema, v);
      if ruleErrors != {} then Failure(ruleErrors) else Success(v)
  }

  predicate Accepts(schema: ObjectSchema, dates: DateParser, input: map<string, Json>) {
    Validate(schema, dates, input).Success?
  }

  /** `fork(all keys, k => k.optional())`. */
  function Optional(schema: ObjectSchema): (s: ObjectSchema)
    ensures s.keys.Keys == schema.keys.Keys && s.minKeys == schema.minKeys && s.rangeFields == schema.rangeFields
    ensures forall k :: k in s.keys ==> s.keys[k] == KeyRule(schema.keys[k].rule, false)
  {
    ObjectSchema(map k | k in schema.keys :: KeyRule(schema.keys[k].rule, false), schema.minKeys, schema.rangeFields)
  }

  /** `.min(n)` on an object schema. */
  function WithMinKeys(schema: ObjectSchema, n: nat): (s: ObjectSchema)
    ensures s.keys == schema.keys && s.rangeFields == schema.rangeFields && s.minKeys == n
  {
    schema.(minKeys := n)
  }

  // ------------------------------------------------------------------ lemmas

  /** What acceptance means: known keys with valid values, required keys present, enough keys, no inverted range. */
  lemma AcceptsIff(schema: ObjectSchema, dates: DateParser, input: map<string, Json>)
    ensures Accepts(schema, dates, input) <==>
      && KeysValid(schema, dates, input)
      && RequiredPresent(schema, input)
      && |input| >= schema.minKeys
      && FirstInverted(schema.rangeFields, Converted(schema, dates, input)).None?
  {
    KeyViolationsEmpty(schema, dates, input);
    if KeysValid(schema, dates, input) {
      assert |Converted(schema, dates, input)| == |input| by {
        assert Converted(schema, dates, input).Keys == input.Keys;
      }
    }
  }

  /** A key the schema does not declare makes validation fail and is reported. */
  lemma UnknownKeyRejected(schema: ObjectSchema, dates: DateParser, input: map<string, Json>, k: string)
    requires k in input && k !in schema.keys
    ensures Validate(schema, dates, input).Failure?
    ensures UnknownKey(k) in Validate(schema, dates, input).error
  {
    assert UnknownKey(k) in KeyViolations(schema, dates, input);
  }

  /** A declared key whose value its rule rejects makes validation fail and is reported. */
  lemma InvalidValueRejected(schema: ObjectSchema, dates: DateParser, input: map<string, Json>, k: string)
    requires k in input && k in schema.keys && Convert(schema.keys[k].rule, dates, input[k]).None?
    ensures Validate(schema, dates, input).Failure?
    ensures InvalidValue(k) in Validate(schema, dates, input).error
  {
    assert InvalidValue(k) in KeyViolations(schema, dates, input);
  }

  /** A missing required key makes validation fail and is reported. */
  lemma MissingKeyRejected(schema: ObjectSchema, dates: DateParser, input: map<string, Json>, k: string)
    requires k in schema.keys && schema.keys[k].required && k !in input
    ensures Validate(schema, dates, input).Failure?
    ensures MissingKey(k) in Validate(schema, dates, input).error
  {
    assert MissingKey(k) in KeyViolations(schema, dates, input);
  }

  /** The accepted value has exactly the input's keys, all of them declared: nothing undeclared gets through. */
  lemma NoUndeclaredKeys(schema: ObjectSchema, dates: DateParser, input: map<string, Json>)
    requires Accepts(schema, dates, input)
    ensures Validate(schema, dates, input).value.Keys == input.Keys <= schema.keys.Keys
  {
  }

  /** The partial variant `fork(all, optional).min(1)` accepts exactly the non-empty inputs whose keys are all declared and valid (and whose ranges, if checked, are ordered). */
  lemma PartialIff(schema: ObjectSchema, dates: DateParser, input: map<string, Json>)
    ensures Accepts(WithMinKeys(Optional(schema), 1), dates, input) <==>
      && |input| >= 1
      && KeysValid(schema, dates, input)
      && FirstInverted(schema.rangeFields, Converted(schema, dates, input)).None?
  {
    var p := WithMinKeys(Optional(schema), 1);
    AcceptsIff(p, dates, input);
    SameRules(p, schema, dates, input);
    assert RequiredPresent(p, input);
  }

  /** Two schemas with the same keys and rules check and convert every input alike. */
  lemma SameRules(a: ObjectSchema, b: ObjectSchema, dates: DateParser, input: map<string, Json>)
    requires a.keys.Keys == b.keys.Keys && forall k :: k in a.keys ==> a.keys[k].rule == b.keys[k].rule
    ensures KeysValid(a, dates, input) <==> KeysValid(b, dates, input)
    ensures KeysValid(a, dates, input) ==> Converted(a, dates, input) == Converted(b, dates, input)
  {
    if KeysValid(a, dates, input) {
      var ca, cb := Converted(a, dates, input), Converted(b, dates, input);
      assert ca.Keys == cb.Keys;
      forall k | k in ca ensures ca[k] == cb[k] {
      }
    }
  }

  /** A schema whose keys are all required and that checks no range accepts exactly the inputs with all its keys and nothing else, each value valid. */
  lemma RequiredSchemaIff(schema: ObjectSchema, dates: DateParser, input: map<string, Json>)
    requires schema.minKeys == 0 && schema.rangeFields == []
    requires forall k :: k in schema.keys ==> schema.keys[k].required
    ensures Accepts(schema, dates, input) <==>
      && input.Keys == schema.keys.Keys
      && forall k :: k in input ==> Convert(schema.keys[k].rule, dates, input[k]).Some?
  {
    AcceptsIff(schema, dates, input);
  }

  /** The partial variant of a schema that checks no range accepts exactly the non-empty inputs of declared keys with valid values. */
  lemma PartialNoRangeIff(schema: ObjectSchema, dates: DateParser, input: map<string, Json>)
    requires schema.rangeFields == []
    ensures Accepts(WithMinKeys(Optional(schema), 1), dates, input) <==>
      && input != map[]
      && input.Keys <= schema.keys.Keys
      && forall k :: k in input ==> Convert(schema.keys[k].rule, dates, input[k]).Some?
  {
    PartialIff(schema, dates, input);
    if input == map[] {
      assert |input| == 0;
    } else {
      var k :| k in input;
      assert |input| >= 1 by { assert k in input.Keys; }
    }
  }

  /** A non-empty input the full schema accepts is accepted by its partial variant too. */
  lemma FullImpliesPartial(schema: ObjectSchema, dates: DateParser, input: map<string, Json>)
    requires Accepts(schema, dates, input) && input != map[]
    ensures Accepts(WithMinKeys(Optional(schema), 1), dates, input)
  {
    AcceptsIff(schema, dates, input);
    PartialIff(schema, dates, input);
    assert |input| != 0;
  }

  /** The range check: if some field's bounds are both present and inverted, the value is rejected with that field or an earlier one. */
  lemma InvertedRangeRejected(schema: ObjectSchema, dates: DateParser, input: map<string, Json>, f: string)
    requires KeysValid(schema, dates, input) && f in schema.rangeFields
    requires Inverted(f, Converted(schema, dates, input))
    ensures Validate(schema, dates, input).Failure?
  {
    var v := Converted(schema, dates, input);
    var i :| 0 <= i < |schema.rangeFields| && schema.rangeFields[i] == f;
    assert FirstInverted(schema.rangeFields, v).Some?;
    AcceptsIff(schema, dates, input);
  }

  /** Once every key passes, the result is decided by the object-level rules alone. */
  lemma ValidateKeysValid(schema: ObjectSchema, dates: DateParser, input: map<string, Json>)
    requires KeysValid(schema, dates, input) && RequiredPresent(schema, input)
    ensures var errors := RuleViolations(schema, Converted(schema, dates, input));
      Validate(schema, dates, input) == if errors == {} then Success(Converted(schema, dates, input)) else Failure(errors)
  {
    KeyViolationsEmpty(schema, dates, input);
  }

  /** Two declared keys whose values their rules accept. */
  lemma TwoKeysValid(schema: ObjectSchema, dates: DateParser, a: string, ja: Json, b: string, jb: Json)
    requires a in schema.keys && Convert(schema.keys[a].rule, dates, ja).Some?
    requires b in schema.keys && Convert(schema.keys[b].rule, dates, jb).Some?
    ensures KeysValid(schema, dates, map[a := ja, b := jb])
  {
  }

  /** The only field whose `_min` key is one of `g`'s bounds is `g`. */
  lemma OnlyBoundField(f: string, g: string)
    requires f + "_min" == g + "_min" || f + "_min" == g + "_max"
    ensures f == g
  {
    SuffixDiffers(f, g);
    SuffixCancels(f, g, "_min");
  }

  /** An input made of one field's two bounds, each valid for its rule and the minimum above the maximum, converts to an inverted pair. */
  lemma PairConverted(schema: ObjectSchema, dates: DateParser, f: string, lo: Json, hi: Json)
    requires f + "_min" in schema.keys && f + "_max" in schema.keys
    requires Convert(schema.keys[f + "_min"].rule, dates, lo).Some? && Convert(schema.keys[f + "_max"].rule, dates, hi).Some?
    requires Exceeds(Convert(schema.keys[f + "_min"].rule, dates, lo).value, Convert(schema.keys[f + "_max"].rule, dates, hi).value)
    ensures KeysValid(schema, dates, map[f + "_min" := lo, f + "_max" := hi])
    ensures var v := Converted(schema, dates, map[f + "_min" := lo, f + "_max" := hi]);
      Inverted(f, v) && v.Keys == {f + "_min", f + "_max"}
  {
    SuffixDiffers(f, f);
  }

  /** When a value holds nothing but `f`'s inverted bounds, `f` is the field the range check reports. */
  lemma OnlyInverted(fields: seq<string>, v: map<string, Value>, f: string)
    requires f in fields && Inverted(f, v) && v.Keys == {f + "_min", f + "_max"}
    ensures FirstInverted(fields, v) == Some(f)
  {
    var i :| 0 <= i < |fields| && fields[i] == f;
    var r := FirstInverted(fields, v);
    assert r.Some?;
    assert r.value + "_min" in v;
    OnlyBoundField(r.value, f);
  }

  /** Two valid bounds of a field, the minimum not above the maximum, and nothing else, are accepted. */
  lemma BoundsPairAccepted(schema: ObjectSchema, dates: DateParser, f: string, lo: Json, hi: Json)
    requires f + "_min" in schema.keys && f + "_max" in schema.keys
    requires Convert(schema.keys[f + "_min"].rule, dates, lo).Some? && Convert(schema.keys[f + "_max"].rule, dates, hi).Some?
    requires !Exceeds(Convert(schema.keys[f + "_min"].rule, dates, lo).value, Convert(schema.keys[f + "_max"].rule, dates, hi).value)
    requires forall k :: k in schema.keys ==> !schema.keys[k].required
    requires schema.minKeys <= 2
    ensures Accepts(schema, dates, map[f + "_min" := lo, f + "_max" := hi])
  {
    var q := map[f + "_min" := lo, f + "_max" := hi];
    SuffixDiffers(f, f);
    assert KeysValid(schema, dates, q);
    var v := Converted(schema, dates, q);
    OnlyOrdered(schema.rangeFields, v, f);
    assert |v| == 2 by { assert |v.Keys| == 2; }
    ValidateKeysValid(schema, dates, q);
  }

  /** When a value holds nothing but `f`'s bounds, in order, the range check finds no field inverted. */
  lemma OnlyOrdered(fields: seq<string>, v: map<string, Value>, f: string)
    requires !Inverted(f, v) && v.Keys == {f + "_min", f + "_max"}
    ensures FirstInverted(fields, v) == None
  {
    forall k | 0 <= k < |fields| ensures !Inverted(fields[k], v) {
      if fields[k] + "_min" in v {
        OnlyBoundField(fields[k], f);
      }
    }
  }

  /** Two valid but inverted bounds of a range field, and nothing else, fail with exactly that field's range error. */
  lemma BoundsPairRejected(schema: ObjectSchema, dates: DateParser, f: string, lo: Json, hi: Json)
    requires f + "_min" in schema.keys && f + "_max" in schema.keys && f in schema.rangeFields
    requires Convert(schema.keys[f + "_min"].rule, dates, lo).Some? && Convert(schema.keys[f + "_max"].rule, dates, hi).Some?
    requires Exceeds(Convert(schema.keys[f + "_min"].rule, dates, lo).value, Convert(schema.keys[f + "_max"].rule, dates, hi).value)
    requires forall k :: k in schema.keys ==> !schema.keys[k].required
    requires schema.minKeys <= 2
    ensures Validate(schema, dates, map[f + "_min" := lo, f + "_max" := hi]) == Failure({InvertedRange(f)})
  {
    var q := map[f + "_min" := lo, f + "_max" := hi];
    PairConverted(schema, dates, f, lo, hi);
    var v := Converted(schema, dates, q);
    OnlyInverted(schema.rangeFields, v, f);
    SuffixDiffers(f, f);
    assert |v| == 2 by { assert |v.Keys| == 2; }
    ValidateKeysValid(schema, dates, q);
  }
}
