/**
 * The query builder: turns the parameters of a list request (a flat map of
 * query-string keys to raw string values) and the names of the model's
 * fields into the `{where, limit, offset, order}` options of a Sequelize
 * `findAndCountAll` call.
 *
 * `BuildSequelizeQuery` follows the source step by step (reassigned limit and
 * offset, a pushed order array, and a `where` object filled by two loops over
 * the parameter keys); `Translate` is the declarative reference it is proved
 * against, and the lemmas below state what that reference promises.
 */
module QueryUtils {
  import opened Wrappers
  import opened Text
  import opened Values

  // ------------------------------------------------------------- parseValue

  /**
   * `parseValue`: the strings "true" and "false" become booleans, a literal
   * `-?\d+(?:\.\d+)?` becomes the number it denotes, anything else stays the
   * same string.
   */
  function ParseValue(value: string): (r: Value)
    ensures r == Bool(true) <==> value == "true"
    ensures r == Bool(false) <==> value == "false"
    ensures r.Num? <==> IsNumericLiteral(value)
    ensures r.Num? ==> r.r == LiteralValue(value)
    ensures r.Str? <==> value != "true" && value != "false" && !IsNumericLiteral(value)
    ensures r.Str? ==> r.s == value
    ensures !r.Time?
  {
    if value == "true" then Bool(true)
    else if value == "false" then Bool(false)
    else if IsNumericLiteral(value) then Num(LiteralValue(value))
    else Str(value)
  }

  /** What `String(v)` prints for the booleans. */
  function BoolText(b: bool): string {
    if b then "true" else "false"
  }

  /** Printing a boolean or an integer and parsing it again gives back the same value. */
  lemma ParseValueRoundTrip(b: bool, n: int)
    ensures ParseValue(BoolText(b)) == Bool(b)
    ensures ParseValue(IntToDecimal(n)) == Num(n as real)
  {
    DecimalIsLiteral(n);
  }

  /** Coercion is case-sensitive and only accepts the plain literal grammar: `True`, `+1`, `.5`, `1.` and `abc` stay strings. */
  lemma ParseValueKeepsText(s: string)
    requires s == "True" || s == "+1" || s == ".5" || s == "1." || s == "abc"
    ensures ParseValue(s) == Str(s)
  {
    if s == "1." {
      assert TakeRadixDigits("1.", 10) == "1";
      assert !IsDigits(s[2..]);
    } else if s == "True" {
      assert TakeRadixDigits("True", 10) == "";
    } else if s == "+1" {
      assert TakeRadixDigits("+1", 10) == "";
    } else if s == ".5" {
      assert TakeRadixDigits(".5", 10) == "";
    } else {
      assert TakeRadixDigits("abc", 10) == "";
    }
  }

  /** A negative literal with a fraction, `-2.50`, becomes the number -2.5. */
  lemma ParseValueDecimal(s: string)
    requires s == "-2.50"
    ensures ParseValue(s) == Num(-2.5)
  {
    assert Unsigned(s) == "2.50";
    assert TakeRadixDigits("2.50", 10) == "2";
    assert IntegerDigits(s) == "2";
    assert IsDigits("2.50"[2..]);
    assert FractionDigits(s) == "50";
    assert RadixValue("50", 10) == 50;
    assert RadixValue("2", 10) == 2;
  }

  // --------------------------------------------------------- the result shape

  /** The Sequelize operators the builder uses; `Eq` is the plain `where[key] = value` form. */
  datatype Condition = Eq(v: Value) | Between(lo: Value, hi: Value) | Gte(v: Value) | Lte(v: Value)

  datatype Direction = Asc | Desc

  datatype OrderTerm = OrderTerm(field: string, dir: Direction)

  /** The object `{where, limit, offset, order}` the builder returns. */
  datatype SequelizeQuery = SequelizeQuery(where: map<string, Condition>, limit: int, offset: int, order: seq<OrderTerm>)

  /** Keys the equality loop never turns into filters. */
  const SpecialKeys: seq<string> := ["limit", "offset", "order"]

  predicate IsRangeKey(key: string) {
    EndsWith(key, "_min") || EndsWith(key, "_max")
  }

  /** `key.replace(/_(min|max)$/, "")` for a key that ends in one of the two suffixes. */
  function BaseField(key: string): string
    requires IsRangeKey(key)
  {
    key[..|key| - 4]
  }

  lemma RangeKeyParts(key: string)
    requires IsRangeKey(key)
    ensures key == BaseField(key) + "_min" || key == BaseField(key) + "_max"
  {
    assert key == key[..|key| - 4] + key[|key| - 4..];
  }

  lemma BaseFieldOf(b: string)
    ensures IsRangeKey(b + "_min") && BaseField(b + "_min") == b
    ensures IsRangeKey(b + "_max") && BaseField(b + "_max") == b
  {
    EndsWithAppend(b, "_min");
    EndsWithAppend(b, "_max");
  }

  /** A JavaScript string is truthy when it is not empty. */
  predicate Present(q: map<string, string>, key: string) {
    key in q && q[key] != ""
  }

  /**
   * `t.toUpperCase() === "DESC"`. Besides the ASCII letters, U+017F (long s)
   * upper-cases to S; no other character upper-cases to one of D, E, S, C, and
   * none to a longer string that could make up "DESC".
   */
  predicate UpperIsDesc(t: string) {
    && |t| == 4
    && (t[0] == 'd' || t[0] == 'D')
    && (t[1] == 'e' || t[1] == 'E')
    && (t[2] == 's' || t[2] == 'S' || t[2] == '\U{017F}')
    && (t[3] == 'c' || t[3] == 'C')
  }

  // ----------------------------------------------------- the reference meaning

  /** The page size: 100 unless a non-empty `limit` starts with an integer, which is then capped at 1000. */
  function LimitOf(q: map<string, string>): (limit: int)
    ensures limit <= 1000
    ensures !(Present(q, "limit") && ParseInt(q["limit"]).Some?) ==> limit == 100
    ensures Present(q, "limit") && ParseInt(q["limit"]).Some? && ParseInt(q["limit"]).value <= 1000
            ==> limit == ParseInt(q["limit"]).value
    ensures Present(q, "limit") && ParseInt(q["limit"]).Some? && ParseInt(q["limit"]).value > 1000 ==> limit == 1000
  {
    if Present(q, "limit") && ParseInt(q["limit"]).Some? then
      var l := ParseInt(q["limit"]).value;
      if l < 1000 then l else 1000
    else 100
  }

  /** The offset: a parsed non-negative integer, otherwise 0. */
  function OffsetOf(q: map<string, string>): (offset: int)
    ensures offset >= 0
    ensures Present(q, "offset") && ParseInt(q["offset"]).Some? && ParseInt(q["offset"]).value >= 0
            ==> offset == ParseInt(q["offset"]).value
    ensures !(Present(q, "offset") && ParseInt(q["offset"]).Some? && ParseInt(q["offset"]).value >= 0)
            ==> offset == 0
  {
    if Present(q, "offset") && ParseInt(q["offset"]).Some? && ParseInt(q["offset"]).value >= 0 then
      ParseInt(q["offset"]).value
    else 0
  }

  /** At most one sort term: the field named before the first `:` if it is allowed, descending iff the next piece upper-cases to DESC. */
  function OrderOf(q: map<string, string>, allowed: seq<string>): (order: seq<OrderTerm>)
    ensures |order| <= 1
    ensures |order| == 1 <==> Present(q, "order") && Split(q["order"], ':')[0] in allowed
    ensures |order| == 1 ==> order[0].field == Split(q["order"], ':')[0]
    ensures |order| == 1 ==> (order[0].dir == Desc <==> |Split(q["order"], ':')| > 1 && UpperIsDesc(Split(q["order"], ':')[1]))
  {
    if Present(q, "order") then
      var pieces := Split(q["order"], ':');
      if pieces[0] in allowed then
        [OrderTerm(pieces[0], if |pieces| > 1 && UpperIsDesc(pieces[1]) then Desc else Asc)]
      else []
    else []
  }

  /** Allowed fields with a `_min` or a `_max` parameter. */
  function RangeBases(q: map<string, string>, allowed: seq<string>): set<string> {
    set b | b in allowed && (b + "_min" in q || b + "_max" in q)
  }

  /** Parameters that are allowed fields themselves, other than the special and range keys. */
  function EqualityKeys(q: map<string, string>, allowed: seq<string>): set<string> {
    set k | k in q && k !in SpecialKeys && !IsRangeKey(k) && k in allowed
  }

  /** Between for both bounds, Gte for a minimum alone, Lte for a maximum alone; bounds are coerced. */
  function RangeCondition(q: map<string, string>, base: string): Condition
    requires base + "_min" in q || base + "_max" in q
  {
    var min, max := base + "_min", base + "_max";
    if min in q && max in q then Between(ParseValue(q[min]), ParseValue(q[max]))
    else if min in q then Gte(ParseValue(q[min]))
    else Lte(ParseValue(q[max]))
  }

  /** The conditions the range loop leaves in `where`. */
  function RangeWhere(q: map<string, string>, allowed: seq<string>): map<string, Condition> {
    map b | b in RangeBases(q, allowed) :: RangeCondition(q, b)
  }

  /** The conditions the equality loop writes. */
  function EqualityWhere(q: map<string, string>, allowed: seq<string>): map<string, Condition> {
    map k | k in EqualityKeys(q, allowed) :: Eq(ParseValue(q[k]))
  }

  /** The filters: the equality loop runs second, so its conditions replace range conditions on the same field. */
  function WhereOf(q: map<string, string>, allowed: seq<string>): map<string, Condition> {
    RangeWhere(q, allowed) + EqualityWhere(q, allowed)
  }

  /** The query options the builder must return. */
  function Translate(q: map<string, string>, allowed: seq<string>): SequelizeQuery {
    SequelizeQuery(WhereOf(q, allowed), LimitOf(q), OffsetOf(q), OrderOf(q, allowed))
  }

  // --------------------------------------------------------------- the lemmas

  /** A printed integer as `limit` is taken as it is up to the cap of 1000, with no lower bound: `limit=0` gives 0 and `limit=-5` gives -5. */
  lemma PrintedLimit(q: map<string, string>, n: int)
    requires "limit" in q && q["limit"] == IntToDecimal(n)
    ensures LimitOf(q) == if n <= 1000 then n else 1000
  {
    ParseIntOfDecimal(n);
  }

  /** A printed integer as `offset` is taken as it is when it is not negative, and gives 0 otherwise. */
  lemma PrintedOffset(q: map<string, string>, n: int)
    requires "offset" in q && q["offset"] == IntToDecimal(n)
    ensures OffsetOf(q) == if n >= 0 then n else 0
  {
    ParseIntOfDecimal(n);
  }

  /** Without the parameter, or with an empty one, the page size is 100 and the offset 0. */
  lemma PaginationDefaults(q: map<string, string>)
    requires !Present(q, "limit") && !Present(q, "offset")
    ensures LimitOf(q) == 100 && OffsetOf(q) == 0
  {
  }

  /** Only allowed fields are filtered, and the special keys and `_min`/`_max` keys never become equality filters. */
  lemma WhereKeysAllowed(q: map<string, string>, allowed: seq<string>, k: string)
    requires k in WhereOf(q, allowed)
    ensures k in allowed
    ensures WhereOf(q, allowed)[k].Eq? <==> k in q && k !in SpecialKeys && !IsRangeKey(k)
    ensures WhereOf(q, allowed)[k].Eq? ==> WhereOf(q, allowed)[k] == Eq(ParseValue(q[k]))
  {
  }

  /** The range filter of an allowed field follows which of its two bounds are given. */
  lemma RangeFilters(q: map<string, string>, allowed: seq<string>, b: string)
    requires b in allowed && !(b in q && b !in SpecialKeys && !IsRangeKey(b))
    ensures b + "_min" in q && b + "_max" in q ==>
      b in WhereOf(q, allowed) && WhereOf(q, allowed)[b] == Between(ParseValue(q[b + "_min"]), ParseValue(q[b + "_max"]))
    ensures b + "_min" in q && b + "_max" !in q ==>
      b in WhereOf(q, allowed) && WhereOf(q, allowed)[b] == Gte(ParseValue(q[b + "_min"]))
    ensures b + "_min" !in q && b + "_max" in q ==>
      b in WhereOf(q, allowed) && WhereOf(q, allowed)[b] == Lte(ParseValue(q[b + "_max"]))
    ensures b + "_min" !in q && b + "_max" !in q ==> b !in WhereOf(q, allowed)
  {
  }

  /** An equality parameter on a field replaces a range on that field. */
  lemma EqualityOverridesRange(q: map<string, string>, allowed: seq<string>, b: string)
    requires b in allowed && b in q && b !in SpecialKeys && !IsRangeKey(b)
    ensures b in WhereOf(q, allowed) && WhereOf(q, allowed)[b] == Eq(ParseValue(q[b]))
  {
  }

  /** Parameters naming no allowed field change nothing: the builder depends only on the allowed ones and the special keys. */
  lemma UnknownKeysIgnored(q: map<string, string>, allowed: seq<string>, k: string, v: string)
    requires k !in allowed && k !in SpecialKeys && !IsRangeKey(k)
    ensures Translate(q[k := v], allowed) == Translate(q, allowed)
  {
    UnknownKeyKeepsWhere(q, allowed, k, v);
    assert k != "limit" && k != "offset" && k != "order";
    SameLimit(q, q[k := v]);
    SameOffset(q, q[k := v]);
    SameOrder(q, q[k := v], allowed);
  }

  /** Two parameter maps that agree on a key: both lack it, or both hold the same value. */
  predicate AgreeOn(q: map<string, string>, q': map<string, string>, key: string) {
    (key in q <==> key in q') && (key in q ==> q[key] == q'[key])
  }

  lemma SameLimit(q: map<string, string>, q': map<string, string>)
    requires AgreeOn(q, q', "limit")
    ensures LimitOf(q) == LimitOf(q')
  {
  }

  lemma SameOffset(q: map<string, string>, q': map<string, string>)
    requires AgreeOn(q, q', "offset")
    ensures OffsetOf(q) == OffsetOf(q')
  {
  }

  lemma SameOrder(q: map<string, string>, q': map<string, string>, allowed: seq<string>)
    requires AgreeOn(q, q', "order")
    ensures OrderOf(q, allowed) == OrderOf(q', allowed)
  {
  }

  lemma UnknownKeyKeepsWhere(q: map<string, string>, allowed: seq<string>, k: string, v: string)
    requires k !in allowed && !IsRangeKey(k)
    ensures WhereOf(q[k := v], allowed) == WhereOf(q, allowed)
  {
    UnknownKeyKeepsRanges(q, allowed, k, v);
    UnknownKeyKeepsEqualities(q, allowed, k, v);
  }

  lemma UnknownKeyKeepsRanges(q: map<string, string>, allowed: seq<string>, k: string, v: string)
    requires k !in allowed && !IsRangeKey(k)
    ensures RangeWhere(q[k := v], allowed) == RangeWhere(q, allowed)
  {
    var q' := q[k := v];
    forall b | b in allowed
      ensures (b + "_min" in q' <==> b + "_min" in q) && (b + "_max" in q' <==> b + "_max" in q)
      ensures b + "_min" in q ==> q'[b + "_min"] == q[b + "_min"]
      ensures b + "_max" in q ==> q'[b + "_max"] == q[b + "_max"]
    {
      BaseFieldOf(b);
    }
    assert RangeBases(q', allowed) == RangeBases(q, allowed);
  }

  lemma UnknownKeyKeepsEqualities(q: map<string, string>, allowed: seq<string>, k: string, v: string)
    requires k !in allowed
    ensures EqualityWhere(q[k := v], allowed) == EqualityWhere(q, allowed)
  {
    assert EqualityKeys(q[k := v], allowed) == EqualityKeys(q, allowed);
  }

  // ------------------------------------------------------- buildSequelizeQuery

  /** Range bases met among the keys processed so far. */
  ghost function BasesAmong(keys: set<string>, allowed: seq<string>): set<string> {
    set k | k in keys && IsRangeKey(k) && BaseField(k) in allowed :: BaseField(k)
  }

  lemma BasesAmongAll(q: map<string, string>, allowed: seq<string>)
    ensures BasesAmong(q.Keys, allowed) == RangeBases(q, allowed)
  {
    forall b | b in BasesAmong(q.Keys, allowed) ensures b in RangeBases(q, allowed) {
      var k :| k in q.Keys && IsRangeKey(k) && BaseField(k) in allowed && BaseField(k) == b;
      RangeKeyParts(k);
    }
    forall b | b in RangeBases(q, allowed) ensures b in BasesAmong(q.Keys, allowed) {
      BaseFieldOf(b);
      var k := if b + "_min" in q then b + "_min" else b + "_max";
      assert k in q.Keys && IsRangeKey(k) && BaseField(k) == b;
    }
  }

  /**
   * `buildSequelizeQuery`, statement by statement; its two `for...in` loops over
   * the parameter keys are AddRangeFilters and AddEqualityFilters.
   */
  method BuildSequelizeQuery(queryParams: map<string, string>, allowed: seq<string>) returns (r: SequelizeQuery)
    ensures r == Translate(queryParams, allowed)
  {
    var q := queryParams;
    var limit := 100;
    var offset := 0;

    if Present(q, "limit") {
      var l := ParseInt(q["limit"]);
      if l.Some? {
        limit := if l.value < 1000 then l.value else 1000;
      }
    }

    if Present(q, "offset") {
      var o := ParseInt(q["offset"]);
      if o.Some? && o.value >= 0 {
        offset := o.value;
      }
    }

    var order: seq<OrderTerm> := [];
    if Present(q, "order") {
      var pieces := Split(q["order"], ':');
      var campo := pieces[0];
      if campo in allowed {
        order := order + [OrderTerm(campo, if |pieces| > 1 && UpperIsDesc(pieces[1]) then Desc else Asc)];
      }
    }

    var where := AddRangeFilters(q, allowed);
    where := AddEqualityFilters(q, allowed, where);
    r := SequelizeQuery(where, limit, offset, order);
  }

  /** Range conditions for the bases of the parameter keys visited so far. */
  ghost function RangeSoFar(q: map<string, string>, allowed: seq<string>, done: set<string>): map<string, Condition> {
    map b | b in BasesAmong(done, allowed) && (b + "_min" in q || b + "_max" in q) :: RangeCondition(q, b)
  }

  /** Visiting a parameter key adds a condition for its base exactly when the key is a bound of an allowed field. */
  lemma RangeStep(q: map<string, string>, allowed: seq<string>, done: set<string>, key: string)
    requires key in q
    ensures IsRangeKey(key) && BaseField(key) in allowed ==>
      (BaseField(key) + "_min" in q || BaseField(key) + "_max" in q) &&
      RangeSoFar(q, allowed, done + {key}) == RangeSoFar(q, allowed, done)[BaseField(key) := RangeCondition(q, BaseField(key))]
    ensures !(IsRangeKey(key) && BaseField(key) in allowed) ==>
      RangeSoFar(q, allowed, done + {key}) == RangeSoFar(q, allowed, done)
  {
    var after, before := RangeSoFar(q, allowed, done + {key}), RangeSoFar(q, allowed, done);
    BasesAmongStep(done, allowed, key);
    if IsRangeKey(key) && BaseField(key) in allowed {
      RangeKeyParts(key);
      assert after.Keys == before.Keys + {BaseField(key)};
    } else {
      assert after.Keys == before.Keys;
    }
  }

  lemma BasesAmongStep(keys: set<string>, allowed: seq<string>, key: string)
    ensures IsRangeKey(key) && BaseField(key) in allowed ==>
      BasesAmong(keys + {key}, allowed) == BasesAmong(keys, allowed) + {BaseField(key)}
    ensures !(IsRangeKey(key) && BaseField(key) in allowed) ==>
      BasesAmong(keys + {key}, allowed) == BasesAmong(keys, allowed)
  {
  }

  /** Once every parameter key is visited, the conditions are those the reference prescribes. */
  lemma RangeAll(q: map<string, string>, allowed: seq<string>)
    ensures RangeSoFar(q, allowed, q.Keys) == RangeWhere(q, allowed)
  {
    BasesAmongAll(q, allowed);
    assert RangeSoFar(q, allowed, q.Keys).Keys == RangeWhere(q, allowed).Keys;
  }

  /**
   * The range loop: every parameter key ending in `_min` or `_max` whose base
   * field is allowed sets that field's condition from both bounds. Keys are
   * visited in an unspecified order; the outcome does not depend on it.
   */
  method AddRangeFilters(q: map<string, string>, allowed: seq<string>) returns (where: map<string, Condition>)
    ensures where == RangeWhere(q, allowed)
  {
    where := map[];
    var rest, done := q.Keys, {};
    while rest != {}
      invariant rest + done == q.Keys && rest !! done
      invariant where == RangeSoFar(q, allowed, done)
      decreases rest
    {
      var key :| key in rest;
      RangeStep(q, allowed, done, key);
      rest, done := rest - {key}, done + {key};
      if !EndsWith(key, "_min") && !EndsWith(key, "_max") {
        continue;
      }
      var baseField := BaseField(key);
      if baseField !in allowed {
        continue;
      }
      var min, max := baseField + "_min", baseField + "_max";
      if min in q && max in q {
        where := where[baseField := Between(ParseValue(q[min]), ParseValue(q[max]))];
      } else if min in q {
        where := where[baseField := Gte(ParseValue(q[min]))];
      } else if max in q {
        where := where[baseField := Lte(ParseValue(q[max]))];
      }
    }
    RangeAll(q, allowed);
  }

  /** The entries of `m` whose keys are in `done`. */
  ghost function Restrict<K, V>(m: map<K, V>, done: set<K>): map<K, V> {
    map k | k in m && k in done :: m[k]
  }

  /** Visiting one more key adds its entry exactly when `m` has it. */
  lemma RestrictStep<K, V>(m: map<K, V>, done: set<K>, key: K)
    ensures key in m ==> Restrict(m, done + {key}) == Restrict(m, done)[key := m[key]]
    ensures key !in m ==> Restrict(m, done + {key}) == Restrict(m, done)
  {
  }

  lemma UpdateUnion<K, V>(m: map<K, V>, n: map<K, V>, k: K, v: V)
    ensures m + n[k := v] == (m + n)[k := v]
  {
  }

  /**
   * The equality loop: every parameter that is an allowed field, other than
   * `limit`, `offset`, `order` and the range keys, becomes `where[key] = parseValue(value)`.
   */
  method AddEqualityFilters(q: map<string, string>, allowed: seq<string>, where0: map<string, Condition>)
    returns (where: map<string, Condition>)
    ensures where == where0 + EqualityWhere(q, allowed)
  {
    ghost var target := EqualityWhere(q, allowed);
    where := where0;
    var rest, done := q.Keys, {};
    while rest != {}
      invariant rest + done == q.Keys && rest !! done
      invariant where == where0 + Restrict(target, done)
      decreases rest
    {
      var key :| key in rest;
      RestrictStep(target, done, key);
      UpdateUnion(where0, Restrict(target, done), key, Eq(ParseValue(q[key])));
      rest, done := rest - {key}, done + {key};
      if key in SpecialKeys {
        continue;
      }
      if EndsWith(key, "_min") || EndsWith(key, "_max") {
        continue;
      }
      if key in allowed {
        where := where[key := Eq(ParseValue(q[key]))];
      }
    }
    assert Restrict(target, done) == target;
  }
}
