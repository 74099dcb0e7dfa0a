/**
 * The list-query schema: pagination (`limit` in [1, 1000], `offset` at least 0)
 * and the sort parameter, merged with a model's filter schema; every key is
 * optional and any other key is refused.
 */
module QueryValidator {
  import opened Wrappers
  import opened Text
  import opened Values
  import opened Models
  import opened OrderValidator
  import opened Schema
  import opened FilterValidator

  const LimitRule: Rule := NumberRule(true, Some(1.0), Some(1000.0))
  const OffsetRule: Rule := NumberRule(true, Some(0.0), None)

  /** The base object: `limit`, `offset` and `order`, all optional. */
  function BaseKeys(allowedFields: seq<string>): map<string, KeyRule> {
    map["limit" := KeyRule(LimitRule, false),
        "offset" := KeyRule(OffsetRule, false),
        "order" := KeyRule(OrderRule(allowedFields), false)]
  }

  /** No attribute is called like a pagination or sort key, so the merge joins disjoint key sets. */
  predicate NoReservedNames(fields: seq<FieldDescriptor>) {
    forall i :: 0 <= i < |fields| ==> fields[i].name != "limit" && fields[i].name != "offset" && fields[i].name != "order"
  }

  /** `baseSchema.concat(filterValidator(model)).unknown(false)`: the keys and the range check of both. */
  function QuerySchema(fields: seq<FieldDescriptor>): ObjectSchema {
    var filter := FilterSchema(fields);
    ObjectSchema(BaseKeys(Names(fields)) + filter.keys, 0, filter.rangeFields)
  }

  // ------------------------------------------------------------------ lemmas

  /** None of the three base keys is a filter key when no attribute bears their names. */
  lemma ReservedNotFilterKey(fields: seq<FieldDescriptor>, k: string)
    requires NoReservedNames(fields)
    requires k == "limit" || k == "offset" || k == "order"
    ensures k !in FilterSchema(fields).keys
  {
    if k in FilterSchema(fields).keys {
      var i := FilterKeyOrigin(fields, k);
      var n := fields[i].name;
      EndsWithAppend(n, "_min");
      EndsWithAppend(n, "_max");
    }
  }

  /**
   * The accepted key set is exactly `limit`, `offset`, `order` and the filter
   * keys; pagination and sort keep their rules, and no key is required.
   */
  lemma QueryKeys(fields: seq<FieldDescriptor>, k: string)
    requires NoReservedNames(fields)
    ensures k in QuerySchema(fields).keys <==> k == "limit" || k == "offset" || k == "order" || k in FilterSchema(fields).keys
    ensures QuerySchema(fields).keys["limit"] == KeyRule(LimitRule, false)
    ensures QuerySchema(fields).keys["offset"] == KeyRule(OffsetRule, false)
    ensures QuerySchema(fields).keys["order"] == KeyRule(OrderRule(Names(fields)), false)
    ensures k in QuerySchema(fields).keys ==> !QuerySchema(fields).keys[k].required
    ensures k in FilterSchema(fields).keys ==> QuerySchema(fields).keys[k] == FilterSchema(fields).keys[k]
  {
    ReservedNotFilterKey(fields, "limit");
    ReservedNotFilterKey(fields, "offset");
    ReservedNotFilterKey(fields, "order");
  }

  /** `limit`, when given, is an integer in [1, 1000] in an accepted query; `offset` an integer of at least 0. */
  lemma AcceptedPagination(fields: seq<FieldDescriptor>, dates: DateParser, q: map<string, Json>)
    requires NoReservedNames(fields) && Accepts(QuerySchema(fields), dates, q)
    ensures "limit" in q ==>
      NumberOf(q["limit"]).Some? && IsSafeInteger(NumberOf(q["limit"]).value) && 1.0 <= NumberOf(q["limit"]).value <= 1000.0
    ensures "offset" in q ==>
      NumberOf(q["offset"]).Some? && IsSafeInteger(NumberOf(q["offset"]).value) && NumberOf(q["offset"]).value >= 0.0
    ensures "order" in q ==> q["order"].JStr? && ValidateOrder(Names(fields), q["order"].s).Success?
  {
    QueryKeys(fields, "limit");
    AcceptsIff(QuerySchema(fields), dates, q);
  }

  /** Any key outside the derived set, such as `foo`, is rejected. */
  lemma QueryUnknownKey(fields: seq<FieldDescriptor>, dates: DateParser, q: map<string, Json>, k: string)
    requires NoReservedNames(fields)
    requires k in q && k != "limit" && k != "offset" && k != "order" && k !in FilterSchema(fields).keys
    ensures Validate(QuerySchema(fields), dates, q) .Failure?
    ensures UnknownKey(k) in Validate(QuerySchema(fields), dates, q).error
  {
    QueryKeys(fields, k);
    UnknownKeyRejected(QuerySchema(fields), dates, q, k);
  }

  /** A `limit` that is no integer in [1, 1000], as `0`, `1001`, `-5`, `1.5` or `abc`, is reported invalid. */
  lemma InvalidLimitRejected(fields: seq<FieldDescriptor>, dates: DateParser, s: string)
    requires NoReservedNames(fields)
    requires !(IsNumericLiteral(s) && IsSafeInteger(LiteralValue(s)) && 1.0 <= LiteralValue(s) <= 1000.0)
    ensures Validate(QuerySchema(fields), dates, map["limit" := JStr(s)]).Failure?
    ensures InvalidValue("limit") in Validate(QuerySchema(fields), dates, map["limit" := JStr(s)]).error
  {
    QueryKeys(fields, "limit");
    InvalidValueRejected(QuerySchema(fields), dates, map["limit" := JStr(s)], "limit");
  }

  /** An `offset` that is no integer of at least 0, as `-1`, `0.5` or `abc`, is reported invalid. */
  lemma InvalidOffsetRejected(fields: seq<FieldDescriptor>, dates: DateParser, s: string)
    requires NoReservedNames(fields)
    requires !(IsNumericLiteral(s) && IsSafeInteger(LiteralValue(s)) && LiteralValue(s) >= 0.0)
    ensures Validate(QuerySchema(fields), dates, map["offset" := JStr(s)]).Failure?
    ensures InvalidValue("offset") in Validate(QuerySchema(fields), dates, map["offset" := JStr(s)]).error
  {
    QueryKeys(fields, "offset");
    InvalidValueRejected(QuerySchema(fields), dates, map["offset" := JStr(s)], "offset");
  }

  /** Integral `limit` in [1, 1000] and `offset` of at least 0, and nothing else, pass: `limit=10&offset=0`. */
  lemma PaginationAccepted(fields: seq<FieldDescriptor>, dates: DateParser, l: string, o: string)
    requires NoReservedNames(fields)
    requires IsNumericLiteral(l) && IsSafeInteger(LiteralValue(l)) && 1.0 <= LiteralValue(l) <= 1000.0
    requires IsNumericLiteral(o) && IsSafeInteger(LiteralValue(o)) && LiteralValue(o) >= 0.0
    ensures Accepts(QuerySchema(fields), dates, map["limit" := JStr(l), "offset" := JStr(o)])
  {
    var q := map["limit" := JStr(l), "offset" := JStr(o)];
    PaginationKeysValid(fields, dates, l, o);
    QueryNothingRequired(fields);
    assert RequiredPresent(QuerySchema(fields), q);
    PaginationNotInverted(QuerySchema(fields).rangeFields, Converted(QuerySchema(fields), dates, q));
    ValidateKeysValid(QuerySchema(fields), dates, q);
  }

  lemma PaginationKeysValid(fields: seq<FieldDescriptor>, dates: DateParser, l: string, o: string)
    requires NoReservedNames(fields)
    requires IsNumericLiteral(l) && IsSafeInteger(LiteralValue(l)) && 1.0 <= LiteralValue(l) <= 1000.0
    requires IsNumericLiteral(o) && IsSafeInteger(LiteralValue(o)) && LiteralValue(o) >= 0.0
    ensures KeysValid(QuerySchema(fields), dates, map["limit" := JStr(l), "offset" := JStr(o)])
  {
    QueryKeys(fields, "limit");
    PaginationRulesAccept(QuerySchema(fields), dates, l, o);
  }

  /** Under the pagination rules, an integral `limit` in range and an integral non-negative `offset` are valid keys. */
  lemma PaginationRulesAccept(schema: ObjectSchema, dates: DateParser, l: string, o: string)
    requires "limit" in schema.keys && schema.keys["limit"].rule == LimitRule
    requires "offset" in schema.keys && schema.keys["offset"].rule == OffsetRule
    requires IsNumericLiteral(l) && IsSafeInteger(LiteralValue(l)) && 1.0 <= LiteralValue(l) <= 1000.0
    requires IsNumericLiteral(o) && IsSafeInteger(LiteralValue(o)) && LiteralValue(o) >= 0.0
    ensures KeysValid(schema, dates, map["limit" := JStr(l), "offset" := JStr(o)])
  {
    TwoKeysValid(schema, dates, "limit", JStr(l), "offset", JStr(o));
  }

  /** A value holding only pagination and sort keys has no bounds, so no range is inverted. */
  lemma PaginationNotInverted(rangeFields: seq<string>, v: map<string, Value>)
    requires forall k :: k in v ==> k == "limit" || k == "offset" || k == "order"
    ensures FirstInverted(rangeFields, v) == None
  {
    forall k | 0 <= k < |rangeFields| ensures !Inverted(rangeFields[k], v) {
      BoundKeyNotPagination(rangeFields[k]);
    }
  }

  /** No bound key is called `limit`, `offset` or `order`. */
  lemma BoundKeyNotPagination(f: string)
    ensures f + "_min" != "limit" && f + "_min" != "offset" && f + "_min" != "order"
    ensures f + "_max" != "limit" && f + "_max" != "offset" && f + "_max" != "order"
  {
    EndsWithAppend(f, "_min");
    EndsWithAppend(f, "_max");
  }

  /** An identifier that names no attribute, as in `order=noexiste:asc`, makes `order` invalid. */
  lemma UnknownOrderFieldRejected(fields: seq<FieldDescriptor>, dates: DateParser, f: string, d: string)
    requires NoReservedNames(fields)
    requires IsIdent(f) && f !in Names(fields) && IsAscDesc(d)
    ensures Validate(QuerySchema(fields), dates, map["order" := JStr(f + [':'] + d)]).Failure?
    ensures InvalidValue("order") in Validate(QuerySchema(fields), dates, map["order" := JStr(f + [':'] + d)]).error
  {
    QueryKeys(fields, "order");
    UnknownFieldOnly(Names(fields), f, d);
    InvalidValueRejected(QuerySchema(fields), dates, map["order" := JStr(f + [':'] + d)], "order");
  }

  /** A non-number such as `abc` is rejected for a numeric attribute, as `capacidad_teu=abc` and `longitud_m=abc` are. */
  lemma NonNumericFilterRejected(fields: seq<FieldDescriptor>, dates: DateParser, i: nat)
    requires WellFormed(fields) && NoReservedNames(fields) && i < |fields| && RuleOf(fields[i].kind).NumberRule?
    ensures Validate(QuerySchema(fields), dates, map[fields[i].name := JStr("abc")]).Failure?
    ensures InvalidValue(fields[i].name) in Validate(QuerySchema(fields), dates, map[fields[i].name := JStr("abc")]).error
  {
    FilterKeys(fields, i);
    QueryKeys(fields, fields[i].name);
    assert !IsNumericLiteral("abc") by {
      assert !IsDigit('a');
    }
    InvalidValueRejected(QuerySchema(fields), dates, map[fields[i].name := JStr("abc")], fields[i].name);
  }

  /** A numeric attribute with both bounds valid and the minimum above the maximum is rejected by the range check alone, naming that attribute. */
  lemma InvertedBoundsRejected(fields: seq<FieldDescriptor>, dates: DateParser, i: nat, lo: string, hi: string)
    requires WellFormed(fields) && NoReservedNames(fields) && i < |fields| && RuleOf(fields[i].kind).NumberRule?
    requires Convert(RuleOf(fields[i].kind), dates, JStr(lo)).Some? && Convert(RuleOf(fields[i].kind), dates, JStr(hi)).Some?
    requires LiteralValue(lo) > LiteralValue(hi)
    ensures Validate(QuerySchema(fields), dates, map[fields[i].name + "_min" := JStr(lo), fields[i].name + "_max" := JStr(hi)])
            == Failure({InvertedRange(fields[i].name)})
  {
    var n := fields[i].name;
    QueryBounds(fields, i);
    QueryNothingRequired(fields);
    BoundsPairRejected(QuerySchema(fields), dates, n, JStr(lo), JStr(hi));
  }

  /** A numeric attribute with both bounds valid and the minimum not above the maximum, and nothing else, is accepted. */
  lemma OrderedBoundsAccepted(fields: seq<FieldDescriptor>, dates: DateParser, i: nat, lo: string, hi: string)
    requires WellFormed(fields) && NoReservedNames(fields) && i < |fields| && RuleOf(fields[i].kind).NumberRule?
    requires Convert(RuleOf(fields[i].kind), dates, JStr(lo)).Some? && Convert(RuleOf(fields[i].kind), dates, JStr(hi)).Some?
    requires LiteralValue(lo) <= LiteralValue(hi)
    ensures Accepts(QuerySchema(fields), dates, map[fields[i].name + "_min" := JStr(lo), fields[i].name + "_max" := JStr(hi)])
  {
    var n := fields[i].name;
    QueryBounds(fields, i);
    QueryNothingRequired(fields);
    BoundsPairAccepted(QuerySchema(fields), dates, n, JStr(lo), JStr(hi));
  }

  /** A BOOLEAN or string attribute has no bounds: its `_min` or `_max` key, as `activo_min`, is rejected as unknown. */
  lemma UnrangedBoundRejected(fields: seq<FieldDescriptor>, dates: DateParser, i: nat, key: string, value: string)
    requires WellFormed(fields) && NoReservedNames(fields) && i < |fields| && !HasRange(fields[i].kind)
    requires key == fields[i].name + "_min" || key == fields[i].name + "_max"
    ensures Validate(QuerySchema(fields), dates, map[key := JStr(value)]).Failure?
    ensures UnknownKey(key) in Validate(QuerySchema(fields), dates, map[key := JStr(value)]).error
  {
    FilterKeys(fields, i);
    BoundKeyNotPagination(fields[i].name);
    QueryUnknownKey(fields, dates, map[key := JStr(value)], key);
  }

  /** A numeric or date attribute's bounds are query keys with its rule, and the attribute is a range field. */
  lemma QueryBounds(fields: seq<FieldDescriptor>, i: nat)
    requires WellFormed(fields) && NoReservedNames(fields) && i < |fields| && HasRange(fields[i].kind)
    ensures var s := QuerySchema(fields); var n := fields[i].name;
      && n + "_min" in s.keys && s.keys[n + "_min"].rule == RuleOf(fields[i].kind)
      && n + "_max" in s.keys && s.keys[n + "_max"].rule == RuleOf(fields[i].kind)
      && n in s.rangeFields
  {
    var n := fields[i].name;
    FilterKeys(fields, i);
    QueryKeys(fields, n + "_min");
    QueryKeys(fields, n + "_max");
    assert QuerySchema(fields).rangeFields[i] == n;
  }

  /** Every key of the query schema is optional. */
  lemma QueryNothingRequired(fields: seq<FieldDescriptor>)
    requires NoReservedNames(fields)
    ensures forall k :: k in QuerySchema(fields).keys ==> !QuerySchema(fields).keys[k].required
  {
    forall k | k in QuerySchema(fields).keys ensures !QuerySchema(fields).keys[k].required {
      QueryKeys(fields, k);
    }
  }

  /** A key that is neither an attribute nor a bound nor a base key, such as `foo`, is rejected. */
  lemma UnknownParameterRejected(fields: seq<FieldDescriptor>, dates: DateParser, k: string, value: string)
    requires NoReservedNames(fields) && k != "limit" && k != "offset" && k != "order"
    requires !EndsWith(k, "_min") && !EndsWith(k, "_max")
    requires forall i :: 0 <= i < |fields| ==> fields[i].name != k
    ensures Validate(QuerySchema(fields), dates, map[k := JStr(value)]).Failure?
    ensures UnknownKey(k) in Validate(QuerySchema(fields), dates, map[k := JStr(value)]).error
  {
    NotFilterKey(fields, k);
    QueryUnknownKey(fields, dates, map[k := JStr(value)], k);
  }

  /** A name that is no attribute and carries no bound suffix is no filter key. */
  lemma NotFilterKey(fields: seq<FieldDescriptor>, k: string)
    requires !EndsWith(k, "_min") && !EndsWith(k, "_max")
    requires forall i :: 0 <= i < |fields| ==> fields[i].name != k
    ensures k !in FilterSchema(fields).keys
  {
    if k in FilterSchema(fields).keys {
      var i := FilterKeyOrigin(fields, k);
      EndsWithAppend(fields[i].name, "_min");
      EndsWithAppend(fields[i].name, "_max");
    }
  }

  /** The puerto model meets the assumptions of the lemmas above. */
  lemma PuertoFieldsWellFormed()
    ensures WellFormed(PuertoFields) && NoReservedNames(PuertoFields)
  {
    PuertoFieldsDistinct();
    PuertoFieldsNoBoundNames();
    PuertoFieldsNoReserved();
  }

  lemma PuertoFieldsDistinct()
    ensures forall i, j :: 0 <= i < j < |PuertoFields| ==> PuertoFields[i].name != PuertoFields[j].name
  {
  }

  lemma PuertoFieldsNoBoundNames()
    ensures forall i :: 0 <= i < |PuertoFields| ==> !EndsWith(PuertoFields[i].name, "_min") && !EndsWith(PuertoFields[i].name, "_max")
  {
    forall i | 0 <= i < |PuertoFields| ensures !EndsWith(PuertoFields[i].name, "_min") && !EndsWith(PuertoFields[i].name, "_max") {
      NameEndings(PuertoFields[i].name);
    }
  }

  lemma PuertoFieldsNoReserved()
    ensures NoReservedNames(PuertoFields)
  {
  }

  /** The muelle model meets the assumptions of the lemmas above. */
  lemma MuelleFieldsWellFormed()
    ensures WellFormed(MuelleFields) && NoReservedNames(MuelleFields)
  {
    MuelleFieldsDistinct();
    MuelleFieldsNoBoundNames();
    MuelleFieldsNoReserved();
  }

  lemma MuelleFieldsDistinct()
    ensures forall i, j :: 0 <= i < j < |MuelleFields| ==> MuelleFields[i].name != MuelleFields[j].name
  {
  }

  lemma MuelleFieldsNoBoundNames()
    ensures forall i :: 0 <= i < |MuelleFields| ==> !EndsWith(MuelleFields[i].name, "_min") && !EndsWith(MuelleFields[i].name, "_max")
  {
    forall i | 0 <= i < |MuelleFields| ensures !EndsWith(MuelleFields[i].name, "_min") && !EndsWith(MuelleFields[i].name, "_max") {
      NameEndings(MuelleFields[i].name);
    }
  }

  lemma MuelleFieldsNoReserved()
    ensures NoReservedNames(MuelleFields)
  {
  }

  /** A name whose fourth- and third-last characters are not `_m` ends in neither `_min` nor `_max`. */
  lemma NameEndings(n: string)
    requires |n| >= 4 ==> n[|n| - 4] != '_' || n[|n| - 3] != 'm'
    ensures !EndsWith(n, "_min") && !EndsWith(n, "_max")
  {
  }
}
