/**
 * The request-body rules for a port: the full schema of creation and
 * replacement (every field required, no other field allowed) and the partial
 * schema of a patch (every field optional, at least one given).
 */
module PuertoBodyValidator {
  import opened Wrappers
  import opened Text
  import opened Values
  import opened Schema

  /** `Joi.string().min(2).max(100)`. */
  const NameRule: Rule := StringRule(Some(2), Some(100), [])

  /** `puertoSchemaFull`. */
  const PuertoSchemaFull: ObjectSchema := ObjectSchema(map[
    "nombre" := KeyRule(NameRule, true),
    "ciudad" := KeyRule(NameRule, true),
    "pais" := KeyRule(NameRule, true),
    "capacidad_teu" := KeyRule(NumberRule(true, Some(0.0), None), true),
    "activo" := KeyRule(BooleanRule, true),
    "fecha_inauguracion" := KeyRule(DateRule, true),
    "profundidad_media" := KeyRule(NumberRule(false, Some(0.0), Some(999.99)), true)
  ], 0, [])

  /** `puertoSchemaFull.fork(all keys, optional).min(1)`. */
  const PuertoSchemaPartial: ObjectSchema := WithMinKeys(Optional(PuertoSchemaFull), 1)

  const PuertoKeys: set<string> :=
    {"nombre", "ciudad", "pais", "capacidad_teu", "activo", "fecha_inauguracion", "profundidad_media"}

  /** What the rules demand of one field of a port, in plain terms; a key outside the list is never acceptable. */
  predicate PuertoFieldOk(dates: DateParser, k: string, j: Json) {
    if k == "nombre" || k == "ciudad" || k == "pais" then j.JStr? && 2 <= |j.s| <= 100
    else if k == "capacidad_teu" then
      NumberOf(j).Some? && IsSafeInteger(NumberOf(j).value) && NumberOf(j).value >= 0.0
    else if k == "activo" then BooleanOf(j).Some?
    else if k == "fecha_inauguracion" then DateOf(dates, j).Some?
    else if k == "profundidad_media" then NumberOf(j).Some? && 0.0 <= NumberOf(j).value <= 999.99
    else false
  }

  // ------------------------------------------------------------------ lemmas

  /** The full schema declares exactly the port's fields, all required, and its rule for each is the plain one. */
  lemma PuertoKey(dates: DateParser, k: string, j: Json)
    ensures k in PuertoSchemaFull.keys <==> k in PuertoKeys
    ensures k in PuertoSchemaFull.keys ==> PuertoSchemaFull.keys[k].required
    ensures k in PuertoSchemaFull.keys ==> (Convert(PuertoSchemaFull.keys[k].rule, dates, j).Some? <==> PuertoFieldOk(dates, k, j))
    ensures k !in PuertoKeys ==> !PuertoFieldOk(dates, k, j)
  {
    if k in PuertoKeys {
      PuertoKeyRule(dates, k, j);
    }
  }

  lemma PuertoKeyRule(dates: DateParser, k: string, j: Json)
    requires k in PuertoKeys
    ensures k in PuertoSchemaFull.keys && PuertoSchemaFull.keys[k].required
    ensures Convert(PuertoSchemaFull.keys[k].rule, dates, j).Some? <==> PuertoFieldOk(dates, k, j)
  {
    var m := PuertoSchemaFull.keys;
    if k == "nombre" || k == "ciudad" || k == "pais" {
      assert m[k] == KeyRule(NameRule, true);
    } else if k == "capacidad_teu" {
      assert m[k] == KeyRule(NumberRule(true, Some(0.0), None), true);
    } else if k == "activo" {
      assert m[k] == KeyRule(BooleanRule, true);
    } else if k == "fecha_inauguracion" {
      assert m[k] == KeyRule(DateRule, true);
    } else {
      assert m[k] == KeyRule(NumberRule(false, Some(0.0), Some(999.99)), true);
    }
  }

  /** Creation and replacement accept exactly a body with every port field and no other, each field acceptable. */
  lemma PuertoFullIff(dates: DateParser, body: map<string, Json>)
    ensures Accepts(PuertoSchemaFull, dates, body) <==>
      body.Keys == PuertoKeys && forall k :: k in body ==> PuertoFieldOk(dates, k, body[k])
  {
    forall k | k in PuertoSchemaFull.keys ensures PuertoSchemaFull.keys[k].required {
      PuertoKey(dates, k, JNull);
    }
    RequiredSchemaIff(PuertoSchemaFull, dates, body);
    assert PuertoSchemaFull.keys.Keys == PuertoKeys by {
      forall k ensures k in PuertoSchemaFull.keys <==> k in PuertoKeys {
        PuertoKey(dates, k, JNull);
      }
    }
    forall k | k in body ensures
      (k in PuertoSchemaFull.keys && Convert(PuertoSchemaFull.keys[k].rule, dates, body[k]).Some?) <==> PuertoFieldOk(dates, k, body[k])
    {
      PuertoKey(dates, k, body[k]);
    }
  }

  /** A patch accepts exactly a non-empty body of port fields, each acceptable. */
  lemma PuertoPartialIff(dates: DateParser, body: map<string, Json>)
    ensures Accepts(PuertoSchemaPartial, dates, body) <==>
      body != map[] && forall k :: k in body ==> PuertoFieldOk(dates, k, body[k])
  {
    PartialNoRangeIff(PuertoSchemaFull, dates, body);
    forall k | k in body ensures
      (k in PuertoSchemaFull.keys && Convert(PuertoSchemaFull.keys[k].rule, dates, body[k]).Some?) <==> PuertoFieldOk(dates, k, body[k])
    {
      PuertoKey(dates, k, body[k]);
    }
  }

  /** A rule of the full schema is also the patch's rule for that key. */
  lemma PartialSameRules(k: string)
    requires k in PuertoSchemaFull.keys
    ensures k in PuertoSchemaPartial.keys && PuertoSchemaPartial.keys[k].rule == PuertoSchemaFull.keys[k].rule
  {
  }

  /** A body without `nombre` (or any other field) cannot create or replace a port: the key is reported missing. */
  lemma PuertoMissingField(dates: DateParser, body: map<string, Json>, k: string)
    requires k in PuertoKeys && k !in body
    ensures Validate(PuertoSchemaFull, dates, body).Failure?
    ensures MissingKey(k) in Validate(PuertoSchemaFull, dates, body).error
  {
    PuertoKey(dates, k, JNull);
    MissingKeyRejected(PuertoSchemaFull, dates, body, k);
  }

  /** A field the rules refuse makes both the full schema and the patch fail, reporting that field. */
  lemma PuertoInvalidField(dates: DateParser, body: map<string, Json>, k: string)
    requires k in PuertoKeys && k in body && !PuertoFieldOk(dates, k, body[k])
    ensures Validate(PuertoSchemaFull, dates, body).Failure?
    ensures InvalidValue(k) in Validate(PuertoSchemaFull, dates, body).error
    ensures Validate(PuertoSchemaPartial, dates, body).Failure?
    ensures InvalidValue(k) in Validate(PuertoSchemaPartial, dates, body).error
  {
    PuertoKey(dates, k, body[k]);
    PartialSameRules(k);
    InvalidValueRejected(PuertoSchemaFull, dates, body, k);
    InvalidValueRejected(PuertoSchemaPartial, dates, body, k);
  }

  /** The request tests' refused fields: `capacidad_teu` -1 or -5, `profundidad_media` -2 or -1, a one-letter name, `activo: 'si'`, an unparsable date. */
  lemma PuertoRefusedValues(dates: DateParser)
    requires dates("invalid-date") == None
    ensures !PuertoFieldOk(dates, "capacidad_teu", JNum(-1.0)) && !PuertoFieldOk(dates, "capacidad_teu", JNum(-5.0))
    ensures !PuertoFieldOk(dates, "profundidad_media", JNum(-2.0)) && !PuertoFieldOk(dates, "profundidad_media", JNum(-1.0))
    ensures !PuertoFieldOk(dates, "nombre", JStr("P")) && !PuertoFieldOk(dates, "ciudad", JStr("V"))
    ensures !PuertoFieldOk(dates, "activo", JStr("si"))
    ensures !PuertoFieldOk(dates, "fecha_inauguracion", JStr("invalid-date"))
  {
    assert LowerAscii("si") == "si";
  }

  /** An empty patch is refused for having no key, and for nothing else. */
  lemma PuertoEmptyPatch(dates: DateParser)
    ensures Validate(PuertoSchemaPartial, dates, map[]) == Failure({TooFewKeys})
  {
    var v := Converted(PuertoSchemaPartial, dates, map[]);
    assert |v| == 0;
    ValidateKeysValid(PuertoSchemaPartial, dates, map[]);
  }

  /** One acceptable field is a valid patch, as `{profundidad_media: 15.0}` and `{nombre: 'Nuevo'}` are. */
  lemma PuertoSingleFieldPatch(dates: DateParser, k: string, j: Json)
    requires PuertoFieldOk(dates, k, j)
    ensures Accepts(PuertoSchemaPartial, dates, map[k := j])
  {
    PuertoKey(dates, k, j);
    assert k in map[k := j];
    PartialNoRangeIff(PuertoSchemaFull, dates, map[k := j]);
  }

  lemma PuertoPatchExamples(dates: DateParser)
    ensures Accepts(PuertoSchemaPartial, dates, map["profundidad_media" := JNum(15.0)])
    ensures Accepts(PuertoSchemaPartial, dates, map["nombre" := JStr("Nuevo")])
  {
    PuertoSingleFieldPatch(dates, "profundidad_media", JNum(15.0));
    PuertoSingleFieldPatch(dates, "nombre", JStr("Nuevo"));
  }

  /** The request tests' new port is a valid creation body, given that `2007-01-15` parses as a date. */
  lemma PuertoCreateExample(dates: DateParser)
    requires dates("2007-01-15").Some?
    ensures Accepts(PuertoSchemaFull, dates, map[
      "nombre" := JStr("Puerto Nuevo"), "ciudad" := JStr("Tánger"), "pais" := JStr("Marruecos"),
      "capacidad_teu" := JNum(6000000.0), "activo" := JBool(true),
      "fecha_inauguracion" := JStr("2007-01-15"), "profundidad_media" := JNum(18.0)])
  {
    var body := map[
      "nombre" := JStr("Puerto Nuevo"), "ciudad" := JStr("Tánger"), "pais" := JStr("Marruecos"),
      "capacidad_teu" := JNum(6000000.0), "activo" := JBool(true),
      "fecha_inauguracion" := JStr("2007-01-15"), "profundidad_media" := JNum(18.0)];
    assert body.Keys == PuertoKeys;
    assert forall k :: k in body ==> PuertoFieldOk(dates, k, body[k]);
    PuertoFullIff(dates, body);
  }
}
