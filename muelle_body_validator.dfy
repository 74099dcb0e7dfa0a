/**
 * The request-body rules for a berth: the full schema of creation and
 * replacement (every field required, no other field allowed) and the partial
 * schema of a patch (every field optional, at least one given).
 */
module MuelleBodyValidator {
  import opened Wrappers
  import opened Text
  import opened Values
  import opened Schema

  /** `Joi.string().min(2).max(100)`. */
  const NameRule: Rule := StringRule(Some(2), Some(100), [])

  /** The berth kinds `Joi.string().valid(...)` lists. */
  const BerthKinds: seq<string> := ["carga", "pasajeros", "granel"]

  /** `muelleSchemaFull`. */
  const MuelleSchemaFull: ObjectSchema := ObjectSchema(map[
    "id_puerto" := KeyRule(NumberRule(true, Some(1.0), None), true),
    "nombre" := KeyRule(NameRule, true),
    "longitud_m" := KeyRule(NumberRule(false, Some(0.0), None), true),
    "calado_m" := KeyRule(NumberRule(false, Some(0.0), None), true),
    "operativo" := KeyRule(BooleanRule, true),
    "fecha_construccion" := KeyRule(DateRule, true),
    "tipo" := KeyRule(StringRule(None, None, BerthKinds), true)
  ], 0, [])

  /** `muelleSchemaFull.fork(all keys, optional).min(1)`. */
  const MuelleSchemaPartial: ObjectSchema := WithMinKeys(Optional(MuelleSchemaFull), 1)

  const MuelleKeys: set<string> :=
    {"id_puerto", "nombre", "longitud_m", "calado_m", "operativo", "fecha_construccion", "tipo"}

  /** What the rules demand of one field of a berth, in plain terms; a key outside the list is never acceptable. */
  predicate MuelleFieldOk(dates: DateParser, k: string, j: Json) {
    if k == "id_puerto" then NumberOf(j).Some? && IsSafeInteger(NumberOf(j).value) && NumberOf(j).value >= 1.0
    else if k == "nombre" then j.JStr? && 2 <= |j.s| <= 100
    else if k == "longitud_m" || k == "calado_m" then NumberOf(j).Some? && NumberOf(j).value >= 0.0
    else if k == "operativo" then BooleanOf(j).Some?
    else if k == "fecha_construccion" then DateOf(dates, j).Some?
    else if k == "tipo" then j.JStr? && (j.s == "carga" || j.s == "pasajeros" || j.s == "granel")
    else false
  }

  // ------------------------------------------------------------------ lemmas

  /** The full schema declares exactly the berth's fields, all required, and its rule for each is the plain one. */
  lemma MuelleKey(dates: DateParser, k: string, j: Json)
    ensures k in MuelleSchemaFull.keys <==> k in MuelleKeys
    ensures k in MuelleSchemaFull.keys ==> MuelleSchemaFull.keys[k].required
    ensures k in MuelleSchemaFull.keys ==> (Convert(MuelleSchemaFull.keys[k].rule, dates, j).Some? <==> MuelleFieldOk(dates, k, j))
    ensures k !in MuelleKeys ==> !MuelleFieldOk(dates, k, j)
  {
    if k in MuelleKeys {
      MuelleKeyRule(dates, k, j);
    }
  }

  lemma MuelleKeyRule(dates: DateParser, k: string, j: Json)
    requires k in MuelleKeys
    ensures k in MuelleSchemaFull.keys && MuelleSchemaFull.keys[k].required
    ensures Convert(MuelleSchemaFull.keys[k].rule, dates, j).Some? <==> MuelleFieldOk(dates, k, j)
  {
    var m := MuelleSchemaFull.keys;
    if k == "id_puerto" {
      assert m[k] == KeyRule(NumberRule(true, Some(1.0), None), true);
    } else if k == "nombre" {
      assert m[k] == KeyRule(NameRule, true);
    } else if k == "longitud_m" || k == "calado_m" {
      assert m[k] == KeyRule(NumberRule(false, Some(0.0), None), true);
    } else if k == "operativo" {
      assert m[k] == KeyRule(BooleanRule, true);
    } else if k == "fecha_construccion" {
      assert m[k] == KeyRule(DateRule, true);
    } else {
      assert m[k] == KeyRule(StringRule(None, None, BerthKinds), true);
    }
  }

  /** Creation and replacement accept exactly a body with every berth field and no other, each field acceptable. */
  lemma MuelleFullIff(dates: DateParser, body: map<string, Json>)
    ensures Accepts(MuelleSchemaFull, dates, body) <==>
      body.Keys == MuelleKeys && forall k :: k in body ==> MuelleFieldOk(dates, k, body[k])
  {
    forall k | k in MuelleSchemaFull.keys ensures MuelleSchemaFull.keys[k].required {
      MuelleKey(dates, k, JNull);
    }
    RequiredSchemaIff(MuelleSchemaFull, dates, body);
    assert MuelleSchemaFull.keys.Keys == MuelleKeys by {
      forall k ensures k in MuelleSchemaFull.keys <==> k in MuelleKeys {
        MuelleKey(dates, k, JNull);
      }
    }
    forall k | k in body ensures
      (k in MuelleSchemaFull.keys && Convert(MuelleSchemaFull.keys[k].rule, dates, body[k]).Some?) <==> MuelleFieldOk(dates, k, body[k])
    {
      MuelleKey(dates, k, body[k]);
    }
  }

  /** A patch accepts exactly a non-empty body of berth fields, each acceptable. */
  lemma MuellePartialIff(dates: DateParser, body: map<string, Json>)
    ensures Accepts(MuelleSchemaPartial, dates, body) <==>
      body != map[] && forall k :: k in body ==> MuelleFieldOk(dates, k, body[k])
  {
    PartialNoRangeIff(MuelleSchemaFull, dates, body);
    forall k | k in body ensures
      (k in MuelleSchemaFull.keys && Convert(MuelleSchemaFull.keys[k].rule, dates, body[k]).Some?) <==> MuelleFieldOk(dates, k, body[k])
    {
      MuelleKey(dates, k, body[k]);
    }
  }

  /** A rule of the full schema is also the patch's rule for that key. */
  lemma PartialSameRules(k: string)
    requires k in MuelleSchemaFull.keys
    ensures k in MuelleSchemaPartial.keys && MuelleSchemaPartial.keys[k].rule == MuelleSchemaFull.keys[k].rule
  {
  }

  /** A body without `nombre` (or any other field) cannot create or replace a berth: the key is reported missing. */
  lemma MuelleMissingField(dates: DateParser, body: map<string, Json>, k: string)
    requires k in MuelleKeys && k !in body
    ensures Validate(MuelleSchemaFull, dates, body).Failure?
    ensures MissingKey(k) in Validate(MuelleSchemaFull, dates, body).error
  {
    MuelleKey(dates, k, JNull);
    MissingKeyRejected(MuelleSchemaFull, dates, body, k);
  }

  /** A field the rules refuse makes both the full schema and the patch fail, reporting that field. */
  lemma MuelleInvalidField(dates: DateParser, body: map<string, Json>, k: string)
    requires k in MuelleKeys && k in body && !MuelleFieldOk(dates, k, body[k])
    ensures Validate(MuelleSchemaFull, dates, body).Failure?
    ensures InvalidValue(k) in Validate(MuelleSchemaFull, dates, body).error
    ensures Validate(MuelleSchemaPartial, dates, body).Failure?
    ensures InvalidValue(k) in Validate(MuelleSchemaPartial, dates, body).error
  {
    MuelleKey(dates, k, body[k]);
    PartialSameRules(k);
    InvalidValueRejected(MuelleSchemaFull, dates, body, k);
    InvalidValueRejected(MuelleSchemaPartial, dates, body, k);
  }

  /** The request tests' refused fields: `longitud_m` -1 or -5, `calado_m` -2 or -1, a one-letter name, `operativo: 'si'`, an unparsable date, an unlisted kind. */
  lemma MuelleRefusedValues(dates: DateParser)
    requires dates("invalid-date") == None
    ensures !MuelleFieldOk(dates, "longitud_m", JNum(-1.0)) && !MuelleFieldOk(dates, "longitud_m", JNum(-5.0))
    ensures !MuelleFieldOk(dates, "calado_m", JNum(-2.0)) && !MuelleFieldOk(dates, "calado_m", JNum(-1.0))
    ensures !MuelleFieldOk(dates, "nombre", JStr("X")) && !MuelleFieldOk(dates, "nombre", JStr("M"))
    ensures !MuelleFieldOk(dates, "operativo", JStr("si"))
    ensures !MuelleFieldOk(dates, "fecha_construccion", JStr("invalid-date"))
    ensures !MuelleFieldOk(dates, "tipo", JStr("Ínvalido")) && !MuelleFieldOk(dates, "tipo", JStr("Invalido"))
  {
    assert LowerAscii("si") == "si";
  }

  /** An empty patch is refused for having no key, and for nothing else. */
  lemma MuelleEmptyPatch(dates: DateParser)
    ensures Validate(MuelleSchemaPartial, dates, map[]) == Failure({TooFewKeys})
  {
    var v := Converted(MuelleSchemaPartial, dates, map[]);
    assert |v| == 0;
    ValidateKeysValid(MuelleSchemaPartial, dates, map[]);
  }

  /** One acceptable field is a valid patch, as `{calado_m: 15.0}` and `{nombre: 'Nuevo'}` are. */
  lemma MuelleSingleFieldPatch(dates: DateParser, k: string, j: Json)
    requires MuelleFieldOk(dates, k, j)
    ensures Accepts(MuelleSchemaPartial, dates, map[k := j])
  {
    MuelleKey(dates, k, j);
    assert k in map[k := j];
    PartialNoRangeIff(MuelleSchemaFull, dates, map[k := j]);
  }

  lemma MuellePatchExamples(dates: DateParser)
    ensures Accepts(MuelleSchemaPartial, dates, map["calado_m" := JNum(15.0)])
    ensures Accepts(MuelleSchemaPartial, dates, map["nombre" := JStr("Nuevo")])
  {
    MuelleSingleFieldPatch(dates, "calado_m", JNum(15.0));
    MuelleSingleFieldPatch(dates, "nombre", JStr("Nuevo"));
  }

  /** The request tests' new berth is a valid creation body, given that `2007-01-15` parses as a date. */
  lemma MuelleCreateExample(dates: DateParser)
    requires dates("2007-01-15").Some?
    ensures Accepts(MuelleSchemaFull, dates, map[
      "id_puerto" := JNum(1.0), "nombre" := JStr("Muelle Nuevo"), "longitud_m" := JNum(450.5),
      "calado_m" := JNum(13.0), "operativo" := JBool(true),
      "fecha_construccion" := JStr("2007-01-15"), "tipo" := JStr("granel")])
  {
    var body := map[
      "id_puerto" := JNum(1.0), "nombre" := JStr("Muelle Nuevo"), "longitud_m" := JNum(450.5),
      "calado_m" := JNum(13.0), "operativo" := JBool(true),
      "fecha_construccion" := JStr("2007-01-15"), "tipo" := JStr("granel")];
    assert body.Keys == MuelleKeys;
    assert forall k :: k in body ==> MuelleFieldOk(dates, k, body[k]);
    MuelleFullIff(dates, body);
  }
}
