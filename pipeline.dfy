/**
 * The list request end to end: the query schema validates the raw parameters,
 * then the builder translates them. For every query the schema accepts, the
 * translation keeps the page size in [1, 1000], the offset at least 0, the
 * sort term as validated, and reads each numeric filter as the same number the
 * schema's conversion produces; a range it builds is never inverted.
 */
module Pipeline {
  import opened Wrappers
  import opened Text
  import opened Values
  import opened Models
  import opened OrderValidator
  import opened Schema
  import opened FilterValidator
  import opened QueryValidator
  import opened QueryUtils

  /** The query string as the schema sees it: every parameter a string. */
  function AsJson(q: map<string, string>): (j: map<string, Json>)
    ensures j.Keys == q.Keys
    ensures forall k :: k in j ==> j[k] == JStr(q[k])
  {
    map k | k in q :: JStr(q[k])
  }

  /** The model's query schema accepts the parameters. */
  predicate QueryAccepted(fields: seq<FieldDescriptor>, dates: DateParser, q: map<string, string>) {
    Accepts(QuerySchema(fields), dates, AsJson(q))
  }

  // ------------------------------------------------------------ pagination

  /** A page size the schema accepts is taken literally by the builder; without one the builder uses 100. */
  lemma LimitOfLiteral(q: map<string, string>)
    requires "limit" in q ==>
      NumberOf(JStr(q["limit"])).Some? && IsSafeInteger(NumberOf(JStr(q["limit"])).value) && 1.0 <= NumberOf(JStr(q["limit"])).value <= 1000.0
    ensures 1 <= LimitOf(q) <= 1000
    ensures "limit" in q ==> IsNumericLiteral(q["limit"]) && LimitOf(q) as real == LiteralValue(q["limit"])
    ensures "limit" !in q ==> LimitOf(q) == 100
  {
    if "limit" in q {
      var s := q["limit"];
      assert |IntegerDigits(s)| <= |Unsigned(s)| <= |s|;
      ParseIntOfLiteral(s);
      LiteralIntegral(s);
    }
  }

  /** An offset the schema accepts is taken literally by the builder; without one the builder uses 0. */
  lemma OffsetOfLiteral(q: map<string, string>)
    requires "offset" in q ==>
      NumberOf(JStr(q["offset"])).Some? && IsSafeInteger(NumberOf(JStr(q["offset"])).value) && NumberOf(JStr(q["offset"])).value >= 0.0
    ensures OffsetOf(q) >= 0
    ensures "offset" in q ==> IsNumericLiteral(q["offset"]) && OffsetOf(q) as real == LiteralValue(q["offset"])
    ensures "offset" !in q ==> OffsetOf(q) == 0
  {
    if "offset" in q {
      var s := q["offset"];
      assert |IntegerDigits(s)| <= |Unsigned(s)| <= |s|;
      ParseIntOfLiteral(s);
      LiteralIntegral(s);
    }
  }

  /** For an accepted query the builder's page size is the `limit` given, always in [1, 1000], and 100 without one. */
  lemma AcceptedLimit(fields: seq<FieldDescriptor>, dates: DateParser, q: map<string, string>)
    requires NoReservedNames(fields) && QueryAccepted(fields, dates, q)
    ensures 1 <= LimitOf(q) <= 1000
    ensures "limit" in q ==> IsNumericLiteral(q["limit"]) && LimitOf(q) as real == LiteralValue(q["limit"])
    ensures "limit" !in q ==> LimitOf(q) == 100
  {
    AcceptedPagination(fields, dates, AsJson(q));
    LimitOfLiteral(q);
  }

  /** For an accepted query the builder's offset is the `offset` given, never negative, and 0 without one. */
  lemma AcceptedOffset(fields: seq<FieldDescriptor>, dates: DateParser, q: map<string, string>)
    requires NoReservedNames(fields) && QueryAccepted(fields, dates, q)
    ensures OffsetOf(q) >= 0
    ensures "offset" in q ==> IsNumericLiteral(q["offset"]) && OffsetOf(q) as real == LiteralValue(q["offset"])
    ensures "offset" !in q ==> OffsetOf(q) == 0
  {
    AcceptedPagination(fields, dates, AsJson(q));
    OffsetOfLiteral(q);
  }

  // ------------------------------------------------------------------ sort

  /** For a validated direction, the builder's `toUpperCase() === "DESC"` test agrees with the rule's case-insensitive `desc`. */
  lemma DescIff(d: string)
    requires IsAscDesc(d)
    ensures UpperIsDesc(d) <==> LowerAscii(d) == "desc"
  {
    if LowerAscii(d) == "desc" {
      LowerAsciiAt(d, 0);
      LowerAsciiAt(d, 1);
      LowerAsciiAt(d, 2);
      LowerAsciiAt(d, 3);
    }
  }

  /** For an accepted query the builder sorts by the validated field alone, descending exactly when the direction is `desc` in any case. */
  lemma AcceptedOrder(fields: seq<FieldDescriptor>, dates: DateParser, q: map<string, string>) returns (f: string, d: string)
    requires NoReservedNames(fields) && QueryAccepted(fields, dates, q) && "order" in q
    ensures q["order"] == f + [':'] + d && f in Names(fields) && IsIdent(f) && IsAscDesc(d)
    ensures OrderOf(q, Names(fields)) == [OrderTerm(f, if LowerAscii(d) == "desc" then Desc else Asc)]
  {
    AcceptedPagination(fields, dates, AsJson(q));
    f, d := OrderParts(q["order"]);
    DescIff(d);
  }

  /** Without an `order` parameter nothing is sorted. */
  lemma NoOrderWithoutParameter(q: map<string, string>, allowed: seq<string>)
    requires "order" !in q
    ensures OrderOf(q, allowed) == []
  {
  }

  // --------------------------------------------------------------- filters

  /** Whatever the schema accepted under a key is what the key's rule converts the key's value to. */
  lemma AcceptedValue(schema: ObjectSchema, dates: DateParser, input: map<string, Json>, key: string)
    requires Accepts(schema, dates, input) && key in input
    ensures key in schema.keys && key in Validate(schema, dates, input).value
    ensures Convert(schema.keys[key].rule, dates, input[key]) == Some(Validate(schema, dates, input).value[key])
  {
  }

  /** A string a number rule converts is a literal, and `parseValue` reads it as the same number. */
  lemma ConvertedNumber(rule: Rule, dates: DateParser, s: string, v: Value)
    requires rule.NumberRule? && Convert(rule, dates, JStr(s)) == Some(v)
    ensures IsNumericLiteral(s) && ParseValue(s) == Num(LiteralValue(s)) == v
  {
  }

  /** A string the boolean rule converts reads the same under `parseValue` when it is written in lower case. */
  lemma ConvertedBoolean(dates: DateParser, s: string, v: Value)
    requires Convert(BooleanRule, dates, JStr(s)) == Some(v) && (s == "true" || s == "false")
    ensures ParseValue(s) == v
  {
    assert LowerAscii("true") == "true" && LowerAscii("false") == "false";
  }

  /** An attribute and its bounds carry the attribute's rule in the query schema. */
  lemma FilterRule(fields: seq<FieldDescriptor>, i: nat, key: string)
    requires WellFormed(fields) && NoReservedNames(fields) && i < |fields|
    requires key == fields[i].name || (HasRange(fields[i].kind) && (key == fields[i].name + "_min" || key == fields[i].name + "_max"))
    ensures key in QuerySchema(fields).keys && QuerySchema(fields).keys[key].rule == RuleOf(fields[i].kind)
  {
    FilterKeys(fields, i);
    QueryKeys(fields, key);
  }

  /** An attribute of a well-formed list is an allowed field that is neither special nor a bound. */
  lemma AttributeName(fields: seq<FieldDescriptor>, i: nat)
    requires WellFormed(fields) && NoReservedNames(fields) && i < |fields|
    ensures fields[i].name in Names(fields) && fields[i].name !in SpecialKeys && !IsRangeKey(fields[i].name)
  {
    AttributeListed(fields, i);
    AttributeNotSpecial(fields, i);
    AttributeNotBound(fields, i);
  }

  lemma AttributeListed(fields: seq<FieldDescriptor>, i: nat)
    requires i < |fields|
    ensures fields[i].name in Names(fields)
  {
    assert Names(fields)[i] == fields[i].name;
  }

  lemma AttributeNotSpecial(fields: seq<FieldDescriptor>, i: nat)
    requires NoReservedNames(fields) && i < |fields|
    ensures fields[i].name !in SpecialKeys
  {
  }

  lemma AttributeNotBound(fields: seq<FieldDescriptor>, i: nat)
    requires WellFormed(fields) && i < |fields|
    ensures !IsRangeKey(fields[i].name)
  {
  }

  /** A numeric attribute and its bounds have a number rule in the query schema. */
  lemma NumericRule(fields: seq<FieldDescriptor>, i: nat, key: string)
    requires WellFormed(fields) && NoReservedNames(fields) && i < |fields|
    requires RuleOf(fields[i].kind).NumberRule?
    requires key == fields[i].name || key == fields[i].name + "_min" || key == fields[i].name + "_max"
    ensures key in QuerySchema(fields).keys && QuerySchema(fields).keys[key].rule.NumberRule?
  {
    FilterRule(fields, i, key);
  }

  /** Under a key with a number rule, `parseValue` reads an accepted string as the very number the schema converted. */
  lemma NumberAgrees(schema: ObjectSchema, dates: DateParser, q: map<string, string>, key: string)
    requires Accepts(schema, dates, AsJson(q)) && key in q && key in schema.keys && schema.keys[key].rule.NumberRule?
    ensures IsNumericLiteral(q[key])
    ensures ParseValue(q[key]) == Num(LiteralValue(q[key])) == Validate(schema, dates, AsJson(q)).value[key]
  {
    AcceptedValue(schema, dates, AsJson(q), key);
    ConvertedNumber(schema.keys[key].rule, dates, q[key], Validate(schema, dates, AsJson(q)).value[key]);
  }

  /** Under a numeric attribute's key, the builder's `parseValue` gives exactly the number the schema converted. */
  lemma NumericValueAgrees(fields: seq<FieldDescriptor>, dates: DateParser, q: map<string, string>, i: nat, key: string)
    requires WellFormed(fields) && NoReservedNames(fields) && QueryAccepted(fields, dates, q) && i < |fields|
    requires RuleOf(fields[i].kind).NumberRule?
    requires key in q
    requires key == fields[i].name || key == fields[i].name + "_min" || key == fields[i].name + "_max"
    ensures IsNumericLiteral(q[key])
    ensures ParseValue(q[key]) == Num(LiteralValue(q[key])) == Validate(QuerySchema(fields), dates, AsJson(q)).value[key]
  {
    NumericRule(fields, i, key);
    NumberAgrees(QuerySchema(fields), dates, q, key);
  }

  /** A numeric attribute given itself is filtered by equality with the number the schema converted. */
  lemma AcceptedNumericEquality(fields: seq<FieldDescriptor>, dates: DateParser, q: map<string, string>, i: nat)
    requires WellFormed(fields) && NoReservedNames(fields) && QueryAccepted(fields, dates, q) && i < |fields|
    requires RuleOf(fields[i].kind).NumberRule? && fields[i].name in q
    ensures var n := fields[i].name;
      && n in WhereOf(q, Names(fields))
      && WhereOf(q, Names(fields))[n] == Eq(Validate(QuerySchema(fields), dates, AsJson(q)).value[n])
  {
    NumericValueAgrees(fields, dates, q, i, fields[i].name);
    AttributeName(fields, i);
    EqualityOverridesRange(q, Names(fields), fields[i].name);
  }

  /** A boolean attribute written `true` or `false` is filtered by equality with the boolean the schema converted. */
  lemma AcceptedBooleanEquality(fields: seq<FieldDescriptor>, dates: DateParser, q: map<string, string>, i: nat)
    requires WellFormed(fields) && NoReservedNames(fields) && QueryAccepted(fields, dates, q) && i < |fields|
    requires fields[i].kind == Boolean && fields[i].name in q
    requires q[fields[i].name] == "true" || q[fields[i].name] == "false"
    ensures var n := fields[i].name;
      && n in WhereOf(q, Names(fields))
      && WhereOf(q, Names(fields))[n] == Eq(Validate(QuerySchema(fields), dates, AsJson(q)).value[n])
  {
    BooleanValueAgrees(fields, dates, q, i);
    AttributeName(fields, i);
    EqualityOverridesRange(q, Names(fields), fields[i].name);
  }

  /** Under a key with the boolean rule, `parseValue` reads an accepted lower-case `true` or `false` as the boolean the schema converted. */
  lemma BooleanAgrees(schema: ObjectSchema, dates: DateParser, q: map<string, string>, key: string)
    requires Accepts(schema, dates, AsJson(q)) && key in q && key in schema.keys && schema.keys[key].rule == BooleanRule
    requires q[key] == "true" || q[key] == "false"
    ensures ParseValue(q[key]) == Validate(schema, dates, AsJson(q)).value[key]
  {
    AcceptedValue(schema, dates, AsJson(q), key);
    ConvertedBoolean(dates, q[key], Validate(schema, dates, AsJson(q)).value[key]);
  }

  lemma BooleanValueAgrees(fields: seq<FieldDescriptor>, dates: DateParser, q: map<string, string>, i: nat)
    requires WellFormed(fields) && NoReservedNames(fields) && QueryAccepted(fields, dates, q) && i < |fields|
    requires fields[i].kind == Boolean && fields[i].name in q
    requires q[fields[i].name] == "true" || q[fields[i].name] == "false"
    ensures ParseValue(q[fields[i].name]) == Validate(QuerySchema(fields), dates, AsJson(q)).value[fields[i].name]
  {
    BooleanKeyRule(fields, i);
    BooleanAgrees(QuerySchema(fields), dates, q, fields[i].name);
  }

  /** A boolean attribute has the boolean rule in the query schema. */
  lemma BooleanKeyRule(fields: seq<FieldDescriptor>, i: nat)
    requires WellFormed(fields) && NoReservedNames(fields) && i < |fields| && fields[i].kind == Boolean
    ensures fields[i].name in QuerySchema(fields).keys && QuerySchema(fields).keys[fields[i].name].rule == BooleanRule
  {
    FilterRule(fields, i, fields[i].name);
  }

  /** No attribute's range is inverted in a value the schema accepted. */
  lemma NotInverted(schema: ObjectSchema, dates: DateParser, input: map<string, Json>, i: nat)
    requires Accepts(schema, dates, input) && i < |schema.rangeFields|
    ensures !Inverted(schema.rangeFields[i], Validate(schema, dates, input).value)
  {
    AcceptsIff(schema, dates, input);
  }

  /** Two numbers a range does not find inverted are ordered. */
  lemma OrderedBounds(n: string, v: map<string, Value>, lo: real, hi: real)
    requires !Inverted(n, v) && n + "_min" in v && n + "_max" in v && v[n + "_min"] == Num(lo) && v[n + "_max"] == Num(hi)
    ensures lo <= hi
  {
  }

  /** In an accepted query, a numeric attribute's two bounds are ordered: the schema refuses a minimum above the maximum. */
  lemma AcceptedBoundsOrdered(fields: seq<FieldDescriptor>, dates: DateParser, q: map<string, string>, i: nat)
    requires WellFormed(fields) && NoReservedNames(fields) && QueryAccepted(fields, dates, q) && i < |fields|
    requires RuleOf(fields[i].kind).NumberRule?
    requires fields[i].name + "_min" in q && fields[i].name + "_max" in q
    ensures IsNumericLiteral(q[fields[i].name + "_min"]) && IsNumericLiteral(q[fields[i].name + "_max"])
    ensures LiteralValue(q[fields[i].name + "_min"]) <= LiteralValue(q[fields[i].name + "_max"])
  {
    var n := fields[i].name;
    NumericValueAgrees(fields, dates, q, i, n + "_min");
    NumericValueAgrees(fields, dates, q, i, n + "_max");
    assert QuerySchema(fields).rangeFields[i] == n;
    NotInverted(QuerySchema(fields), dates, AsJson(q), i);
    OrderedBounds(n, Validate(QuerySchema(fields), dates, AsJson(q)).value, LiteralValue(q[n + "_min"]), LiteralValue(q[n + "_max"]));
  }

  /**
   * A numeric attribute given through both bounds, and not itself, is filtered
   * by a range between the two converted numbers, minimum first and never above
   * the maximum.
   */
  lemma AcceptedNumericRange(fields: seq<FieldDescriptor>, dates: DateParser, q: map<string, string>, i: nat)
    requires WellFormed(fields) && NoReservedNames(fields) && QueryAccepted(fields, dates, q) && i < |fields|
    requires RuleOf(fields[i].kind).NumberRule?
    requires fields[i].name + "_min" in q && fields[i].name + "_max" in q && fields[i].name !in q
    ensures var n := fields[i].name;
      && IsNumericLiteral(q[n + "_min"]) && IsNumericLiteral(q[n + "_max"])
      && n in WhereOf(q, Names(fields))
      && WhereOf(q, Names(fields))[n] == Between(Num(LiteralValue(q[n + "_min"])), Num(LiteralValue(q[n + "_max"])))
      && LiteralValue(q[n + "_min"]) <= LiteralValue(q[n + "_max"])
  {
    var n := fields[i].name;
    AcceptedBoundsOrdered(fields, dates, q, i);
    AttributeName(fields, i);
    BoundsRange(q, Names(fields), n);
  }

  /** Two literal bounds on an allowed field not given itself make a range between their numbers. */
  lemma BoundsRange(q: map<string, string>, allowed: seq<string>, n: string)
    requires n in allowed && n !in q && n + "_min" in q && n + "_max" in q
    requires IsNumericLiteral(q[n + "_min"]) && IsNumericLiteral(q[n + "_max"])
    ensures n in WhereOf(q, allowed)
    ensures WhereOf(q, allowed)[n] == Between(Num(LiteralValue(q[n + "_min"])), Num(LiteralValue(q[n + "_max"])))
  {
    RangeFilters(q, allowed, n);
  }
}
