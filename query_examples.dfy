/**
 * The query cases of the two entities' request tests, stated on the model:
 * each rejected query fails for the reason the test names.
 */
module QueryExamples {
  import opened Wrappers
  import opened Text
  import opened Values
  import opened Models
  import opened OrderValidator
  import opened Schema
  import opened FilterValidator
  import opened QueryValidator

  /** The one-digit literals of the examples, with their values. */
  lemma ShortLiterals()
    ensures IsNumericLiteral("0") && LiteralValue("0") == 0.0
    ensures IsNumericLiteral("-1") && LiteralValue("-1") == -1.0
  {
    DigitsLiteral("0");
    NegativeDigitsLiteral("1");
    assert "-1" == "-" + "1";
  }

  /** `10` and `100`, with their values. */
  lemma LongLiterals()
    ensures IsNumericLiteral("10") && LiteralValue("10") == 10.0
    ensures IsNumericLiteral("100") && LiteralValue("100") == 100.0
  {
    DigitsLiteral("10");
    DigitsLiteral("100");
    assert RadixValue("10", 10) == 10 by {
      assert "10"[..1] == "1" && "1"[..0] == "";
    }
    assert "100"[..2] == "10";
  }

  /** `100` and `10` are valid values of an integer or decimal filter, and the first is larger. */
  lemma BoundsPremises(dates: DateParser, kind: Kind, lo: string, hi: string)
    requires kind == Integer || kind == Decimal
    requires lo == "100" && hi == "10"
    ensures Convert(RuleOf(kind), dates, JStr(lo)).Some? && Convert(RuleOf(kind), dates, JStr(hi)).Some?
    ensures IsNumericLiteral(lo) && IsNumericLiteral(hi) && LiteralValue(lo) > LiteralValue(hi)
  {
    LongLiterals();
  }

  /** `10` and `100` are valid values of an integer or decimal filter, and the first is not larger. */
  lemma OrderedPremises(dates: DateParser, kind: Kind, lo: string, hi: string)
    requires kind == Integer || kind == Decimal
    requires lo == "10" && hi == "100"
    ensures Convert(RuleOf(kind), dates, JStr(lo)).Some? && Convert(RuleOf(kind), dates, JStr(hi)).Some?
    ensures IsNumericLiteral(lo) && IsNumericLiteral(hi) && LiteralValue(lo) <= LiteralValue(hi)
  {
    LongLiterals();
  }

  /** `abc` is no numeric literal. */
  lemma AbcNotNumeric()
    ensures !IsNumericLiteral("abc")
  {
    assert !IsDigit('a');
  }

  /** The port's boolean attribute: `activo`. */
  lemma ActivoAttribute()
    ensures PuertoFields[5].kind == Boolean && PuertoFields[5].name + "_min" == "activo_min"
  {
    assert PuertoFields[5] == FieldDescriptor("activo", Boolean);
  }

  /** The berth's string attribute: `tipo`. */
  lemma TipoAttribute()
    ensures MuelleFields[7].kind == Other("STRING") && MuelleFields[7].name + "_max" == "tipo_max"
  {
    assert MuelleFields[7] == FieldDescriptor("tipo", Other("STRING"));
  }

  /** The port attribute the examples filter on: `capacidad_teu`, an integer. */
  lemma CapacidadAttribute()
    ensures PuertoFields[4].kind == Integer && PuertoFields[4].name == "capacidad_teu"
    ensures PuertoFields[4].name + "_min" == "capacidad_teu_min" && PuertoFields[4].name + "_max" == "capacidad_teu_max"
  {
    assert PuertoFields[4] == FieldDescriptor("capacidad_teu", Integer);
  }

  /** The berth attribute the examples filter on: `longitud_m`, a decimal. */
  lemma LongitudAttribute()
    ensures MuelleFields[3].kind == Decimal && MuelleFields[3].name == "longitud_m"
    ensures MuelleFields[3].name + "_min" == "longitud_m_min" && MuelleFields[3].name + "_max" == "longitud_m_max"
  {
    assert MuelleFields[3] == FieldDescriptor("longitud_m", Decimal);
  }

  /** `noexiste:asc` is an identifier, a colon and a direction. */
  lemma NoexisteAsc()
    ensures IsIdent("noexiste") && IsAscDesc("asc") && "noexiste:asc" == "noexiste" + [':'] + "asc"
  {
  }

  /** A name no attribute bears is not among the allowed fields. */
  lemma NotAnAttribute(fields: seq<FieldDescriptor>, k: string)
    requires forall i :: 0 <= i < |fields| ==> fields[i].name != k
    ensures k !in Names(fields)
  {
  }

  // ------------------------------------------------------------ puerto

  /** `GET /api/puertos?limit=0` is refused: `limit` is invalid. */
  lemma PuertoLimitZero(dates: DateParser)
    ensures Validate(QuerySchema(PuertoFields), dates, map["limit" := JStr("0")]).Failure?
    ensures InvalidValue("limit") in Validate(QuerySchema(PuertoFields), dates, map["limit" := JStr("0")]).error
  {
    PuertoFieldsNoReserved();
    ShortLiterals();
    InvalidLimitRejected(PuertoFields, dates, "0");
  }

  /** `GET /api/puertos?offset=-1` is refused: `offset` is invalid. */
  lemma PuertoNegativeOffset(dates: DateParser)
    ensures Validate(QuerySchema(PuertoFields), dates, map["offset" := JStr("-1")]).Failure?
    ensures InvalidValue("offset") in Validate(QuerySchema(PuertoFields), dates, map["offset" := JStr("-1")]).error
  {
    PuertoFieldsNoReserved();
    ShortLiterals();
    InvalidOffsetRejected(PuertoFields, dates, "-1");
  }

  lemma PuertoLacksNoexiste()
    ensures "noexiste" !in Names(PuertoFields)
  {
    NotAnAttribute(PuertoFields, "noexiste");
  }

  /** `GET /api/puertos?order=noexiste:asc` is refused: `order` is invalid. */
  lemma PuertoUnknownOrderField(dates: DateParser)
    ensures Validate(QuerySchema(PuertoFields), dates, map["order" := JStr("noexiste:asc")]).Failure?
    ensures InvalidValue("order") in Validate(QuerySchema(PuertoFields), dates, map["order" := JStr("noexiste:asc")]).error
  {
    PuertoFieldsNoReserved();
    PuertoLacksNoexiste();
    NoexisteAsc();
    UnknownOrderFieldRejected(PuertoFields, dates, "noexiste", "asc");
  }

  /** `GET /api/puertos?capacidad_teu=abc` is refused: `capacidad_teu` is invalid. */
  lemma PuertoNonNumericFilter(dates: DateParser)
    ensures Validate(QuerySchema(PuertoFields), dates, map["capacidad_teu" := JStr("abc")]).Failure?
    ensures InvalidValue("capacidad_teu") in Validate(QuerySchema(PuertoFields), dates, map["capacidad_teu" := JStr("abc")]).error
  {
    PuertoFieldsWellFormed();
    CapacidadAttribute();
    NonNumericFilterRejected(PuertoFields, dates, 4);
  }

  /** `GET /api/puertos?capacidad_teu_min=100&capacidad_teu_max=10` (`lo` and `hi`) is refused by the range check alone, naming `capacidad_teu`. */
  lemma PuertoInvertedRange(dates: DateParser, lo: string, hi: string)
    requires lo == "100" && hi == "10"
    ensures Validate(QuerySchema(PuertoFields), dates, map["capacidad_teu_min" := JStr(lo), "capacidad_teu_max" := JStr(hi)])
            == Failure({InvertedRange("capacidad_teu")})
  {
    PuertoFieldsWellFormed();
    CapacidadAttribute();
    BoundsPremises(dates, Integer, lo, hi);
    InvertedBoundsRejected(PuertoFields, dates, 4, lo, hi);
  }

  /** `GET /api/puertos?capacidad_teu_min=10&capacidad_teu_max=100` (`lo` and `hi`) is accepted. */
  lemma PuertoOrderedRange(dates: DateParser, lo: string, hi: string)
    requires lo == "10" && hi == "100"
    ensures Accepts(QuerySchema(PuertoFields), dates, map["capacidad_teu_min" := JStr(lo), "capacidad_teu_max" := JStr(hi)])
  {
    PuertoFieldsWellFormed();
    CapacidadAttribute();
    OrderedPremises(dates, Integer, lo, hi);
    OrderedBoundsAccepted(PuertoFields, dates, 4, lo, hi);
  }

  /** `GET /api/puertos?activo_min=true` is refused: a boolean attribute has no bounds, so `activo_min` is an unknown key. */
  lemma PuertoBooleanBound(dates: DateParser)
    ensures Validate(QuerySchema(PuertoFields), dates, map["activo_min" := JStr("true")]).Failure?
    ensures UnknownKey("activo_min") in Validate(QuerySchema(PuertoFields), dates, map["activo_min" := JStr("true")]).error
  {
    PuertoFieldsWellFormed();
    ActivoAttribute();
    UnrangedBoundRejected(PuertoFields, dates, 5, "activo_min", "true");
  }

  /** `GET /api/puertos?limit=abc` is refused: `limit` is invalid. */
  lemma PuertoNonNumericLimit(dates: DateParser)
    ensures Validate(QuerySchema(PuertoFields), dates, map["limit" := JStr("abc")]).Failure?
    ensures InvalidValue("limit") in Validate(QuerySchema(PuertoFields), dates, map["limit" := JStr("abc")]).error
  {
    PuertoFieldsNoReserved();
    AbcNotNumeric();
    InvalidLimitRejected(PuertoFields, dates, "abc");
  }

  /** `GET /api/puertos?foo=bar` is refused: `foo` is an unknown key. */
  lemma PuertoUnknownParameter(dates: DateParser)
    ensures Validate(QuerySchema(PuertoFields), dates, map["foo" := JStr("bar")]).Failure?
    ensures UnknownKey("foo") in Validate(QuerySchema(PuertoFields), dates, map["foo" := JStr("bar")]).error
  {
    PuertoFieldsNoReserved();
    UnknownParameterRejected(PuertoFields, dates, "foo", "bar");
  }

  // ------------------------------------------------------------ muelle

  /** `GET /api/muelles?limit=0` is refused: `limit` is invalid. */
  lemma MuelleLimitZero(dates: DateParser)
    ensures Validate(QuerySchema(MuelleFields), dates, map["limit" := JStr("0")]).Failure?
    ensures InvalidValue("limit") in Validate(QuerySchema(MuelleFields), dates, map["limit" := JStr("0")]).error
  {
    MuelleFieldsNoReserved();
    ShortLiterals();
    InvalidLimitRejected(MuelleFields, dates, "0");
  }

  /** `GET /api/muelles?offset=-1` is refused: `offset` is invalid. */
  lemma MuelleNegativeOffset(dates: DateParser)
    ensures Validate(QuerySchema(MuelleFields), dates, map["offset" := JStr("-1")]).Failure?
    ensures InvalidValue("offset") in Validate(QuerySchema(MuelleFields), dates, map["offset" := JStr("-1")]).error
  {
    MuelleFieldsNoReserved();
    ShortLiterals();
    InvalidOffsetRejected(MuelleFields, dates, "-1");
  }

  lemma MuelleLacksNoexiste()
    ensures "noexiste" !in Names(MuelleFields)
  {
    NotAnAttribute(MuelleFields, "noexiste");
  }

  /** `GET /api/muelles?order=noexiste:asc` is refused: `order` is invalid. */
  lemma MuelleUnknownOrderField(dates: DateParser)
    ensures Validate(QuerySchema(MuelleFields), dates, map["order" := JStr("noexiste:asc")]).Failure?
    ensures InvalidValue("order") in Validate(QuerySchema(MuelleFields), dates, map["order" := JStr("noexiste:asc")]).error
  {
    MuelleFieldsNoReserved();
    MuelleLacksNoexiste();
    NoexisteAsc();
    UnknownOrderFieldRejected(MuelleFields, dates, "noexiste", "asc");
  }

  /** `GET /api/muelles?longitud_m=abc` is refused: `longitud_m` is invalid. */
  lemma MuelleNonNumericFilter(dates: DateParser)
    ensures Validate(QuerySchema(MuelleFields), dates, map["longitud_m" := JStr("abc")]).Failure?
    ensures InvalidValue("longitud_m") in Validate(QuerySchema(MuelleFields), dates, map["longitud_m" := JStr("abc")]).error
  {
    MuelleFieldsWellFormed();
    LongitudAttribute();
    NonNumericFilterRejected(MuelleFields, dates, 3);
  }

  /** `GET /api/muelles?longitud_m_min=100&longitud_m_max=10` (`lo` and `hi`) is refused by the range check alone, naming `longitud_m`. */
  lemma MuelleInvertedRange(dates: DateParser, lo: string, hi: string)
    requires lo == "100" && hi == "10"
    ensures Validate(QuerySchema(MuelleFields), dates, map["longitud_m_min" := JStr(lo), "longitud_m_max" := JStr(hi)])
            == Failure({InvertedRange("longitud_m")})
  {
    MuelleFieldsWellFormed();
    LongitudAttribute();
    BoundsPremises(dates, Decimal, lo, hi);
    InvertedBoundsRejected(MuelleFields, dates, 3, lo, hi);
  }

  /** `GET /api/muelles?longitud_m_min=10&longitud_m_max=100` (`lo` and `hi`) is accepted. */
  lemma MuelleOrderedRange(dates: DateParser, lo: string, hi: string)
    requires lo == "10" && hi == "100"
    ensures Accepts(QuerySchema(MuelleFields), dates, map["longitud_m_min" := JStr(lo), "longitud_m_max" := JStr(hi)])
  {
    MuelleFieldsWellFormed();
    LongitudAttribute();
    OrderedPremises(dates, Decimal, lo, hi);
    OrderedBoundsAccepted(MuelleFields, dates, 3, lo, hi);
  }

  /** `GET /api/muelles?tipo_max=carga` is refused: a string attribute has no bounds, so `tipo_max` is an unknown key. */
  lemma MuelleStringBound(dates: DateParser)
    ensures Validate(QuerySchema(MuelleFields), dates, map["tipo_max" := JStr("carga")]).Failure?
    ensures UnknownKey("tipo_max") in Validate(QuerySchema(MuelleFields), dates, map["tipo_max" := JStr("carga")]).error
  {
    MuelleFieldsWellFormed();
    TipoAttribute();
    UnrangedBoundRejected(MuelleFields, dates, 7, "tipo_max", "carga");
  }

  /** `GET /api/muelles?foo=bar` is refused: `foo` is an unknown key. */
  lemma MuelleUnknownParameter(dates: DateParser)
    ensures Validate(QuerySchema(MuelleFields), dates, map["foo" := JStr("bar")]).Failure?
    ensures UnknownKey("foo") in Validate(QuerySchema(MuelleFields), dates, map["foo" := JStr("bar")]).error
  {
    MuelleFieldsNoReserved();
    UnknownParameterRejected(MuelleFields, dates, "foo", "bar");
  }
}
