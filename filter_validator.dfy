/**
 * The filter schema derived from a model's attributes: each attribute admits
 * itself and, for numeric and date kinds, `_min`/`_max` bounds; no other key is
 * admitted, and a minimum greater than its maximum is an error.
 */
module FilterValidator {
  import opened Wrappers
  import opened Text
  import opened Values
  import opened Models
  import opened Schema

  /** The rule a field of this kind gets, for the field itself and for its bounds. */
  function RuleOf(kind: Kind): Rule {
    match kind
    case Integer => NumberRule(true, None, None)
    case Float => NumberRule(false, None, None)
    case Double => NumberRule(false, None, None)
    case Decimal => NumberRule(false, None, None)
    case Boolean => BooleanRule
    case Date => DateRule
    case DateOnly => DateRule
    case Other(_) => StringRule(None, None, [])
  }

  /** Kinds that admit `_min`/`_max` keys: every kind but BOOLEAN and the string fallback. */
  predicate HasRange(kind: Kind) {
    !kind.Boolean? && !kind.Other?
  }

  /** The keys one field contributes, each with its rule. */
  function FieldEntries(f: FieldDescriptor): (m: map<string, Rule>)
    ensures f.name in m && m[f.name] == RuleOf(f.kind)
    ensures HasRange(f.kind) ==> f.name + "_min" in m && f.name + "_max" in m
    ensures HasRange(f.kind) ==> m[f.name + "_min"] == RuleOf(f.kind) && m[f.name + "_max"] == RuleOf(f.kind)
    ensures forall k :: k in m ==> k == f.name || (HasRange(f.kind) && (k == f.name + "_min" || k == f.name + "_max"))
  {
    var r := RuleOf(f.kind);
    if HasRange(f.kind) then map[f.name := r, f.name + "_min" := r, f.name + "_max" := r]
    else map[f.name := r]
  }

  /** The shape after visiting the fields in order; a later field's keys replace an earlier one's. */
  function FilterShape(fields: seq<FieldDescriptor>): map<string, Rule>
    decreases |fields|
  {
    if fields == [] then map[]
    else FilterShape(fields[..|fields| - 1]) + FieldEntries(fields[|fields| - 1])
  }

  /** The object schema: every shape key optional, unknown keys refused, ranges checked over all attribute names. */
  function FilterSchema(fields: seq<FieldDescriptor>): ObjectSchema {
    var shape := FilterShape(fields);
    ObjectSchema(map k | k in shape :: KeyRule(shape[k], false), 0, Names(fields))
  }

  /** Attribute names are distinct (they are object keys) and none is itself a bound key. */
  predicate WellFormed(fields: seq<FieldDescriptor>) {
    && (forall i, j :: 0 <= i < j < |fields| ==> fields[i].name != fields[j].name)
    && (forall i :: 0 <= i < |fields| ==> !EndsWith(fields[i].name, "_min") && !EndsWith(fields[i].name, "_max"))
  }

  // ------------------------------------------------------- filterValidator

  /** `filterValidator(model)`: fills the shape field by field with the kind switch, then wraps it. */
  method BuildFilterSchema(fields: seq<FieldDescriptor>) returns (schema: ObjectSchema)
    ensures schema == FilterSchema(fields)
  {
    var allowed := Names(fields);
    var schemaShape: map<string, Rule> := map[];
    for i := 0 to |fields|
      invariant schemaShape == FilterShape(fields[..i])
    {
      var field := fields[i].name;
      ghost var before := schemaShape;
      match fields[i].kind {
        case Integer =>
          schemaShape := schemaShape[field := NumberRule(true, None, None)];
          schemaShape := schemaShape[field + "_min" := NumberRule(true, None, None)];
          schemaShape := schemaShape[field + "_max" := NumberRule(true, None, None)];
          RangedUpdate(before, fields[i], NumberRule(true, None, None));
        case Float | Double | Decimal =>
          schemaShape := schemaShape[field := NumberRule(false, None, None)];
          schemaShape := schemaShape[field + "_min" := NumberRule(false, None, None)];
          schemaShape := schemaShape[field + "_max" := NumberRule(false, None, None)];
          RangedUpdate(before, fields[i], NumberRule(false, None, None));
        case Boolean =>
          schemaShape := schemaShape[field := BooleanRule];
        case Date | DateOnly =>
          schemaShape := schemaShape[field := DateRule];
          schemaShape := schemaShape[field + "_min" := DateRule];
          schemaShape := schemaShape[field + "_max" := DateRule];
          RangedUpdate(before, fields[i], DateRule);
        case Other(_) =>
          schemaShape := schemaShape[field := StringRule(None, None, [])];
      }
      assert schemaShape == before + FieldEntries(fields[i]);
      ShapeStep(fields, i);
    }
    assert fields[..|fields|] == fields;
    schema := ObjectSchema(map k | k in schemaShape :: KeyRule(schemaShape[k], false), 0, allowed);
  }

  /** The custom rule: the first attribute, in order, whose two bounds are present with the minimum above the maximum. */
  method CheckRanges(allowed: seq<string>, value: map<string, Value>) returns (err: Option<string>)
    ensures err == FirstInverted(allowed, value)
  {
    for i := 0 to |allowed|
      invariant FirstInverted(allowed, value) == FirstInverted(allowed[i..], value)
    {
      var field := allowed[i];
      var min, max := field + "_min", field + "_max";
      if min in value && max in value && Exceeds(value[min], value[max]) {
        return Some(field);
      }
      assert allowed[i..][1..] == allowed[i + 1..];
    }
    return None;
  }

  // ------------------------------------------------------------------ lemmas

  /** The three assignments of a ranged kind add exactly the field's entries. */
  lemma RangedUpdate(m: map<string, Rule>, f: FieldDescriptor, r: Rule)
    requires HasRange(f.kind) && r == RuleOf(f.kind)
    ensures m[f.name := r][f.name + "_min" := r][f.name + "_max" := r] == m + FieldEntries(f)
  {
  }

  lemma ShapeStep(fields: seq<FieldDescriptor>, i: nat)
    requires i < |fields|
    ensures FilterShape(fields[..i + 1]) == FilterShape(fields[..i]) + FieldEntries(fields[i])
  {
    assert fields[..i + 1][..i] == fields[..i];
  }

  /** A key is in the shape exactly when some field contributes it. */
  lemma {:induction false} ShapeKeys(fields: seq<FieldDescriptor>, k: string)
    ensures k in FilterShape(fields) <==> exists i :: 0 <= i < |fields| && k in FieldEntries(fields[i])
    decreases |fields|
  {
    if fields != [] {
      var init := fields[..|fields| - 1];
      ShapeKeys(init, k);
      if k in FilterShape(init) {
        var i :| 0 <= i < |init| && k in FieldEntries(init[i]);
        assert fields[i] == init[i];
      }
      if exists i :: 0 <= i < |fields| && k in FieldEntries(fields[i]) {
        var i :| 0 <= i < |fields| && k in FieldEntries(fields[i]);
        if i < |init| {
          assert init[i] == fields[i];
        }
      }
    }
  }

  /** Two different well-formed names contribute disjoint keys. */
  lemma EntriesDisjoint(f: FieldDescriptor, g: FieldDescriptor, k: string)
    requires f.name != g.name
    requires !EndsWith(f.name, "_min") && !EndsWith(f.name, "_max")
    requires !EndsWith(g.name, "_min") && !EndsWith(g.name, "_max")
    ensures !(k in FieldEntries(f) && k in FieldEntries(g))
  {
    if k in FieldEntries(f) && k in FieldEntries(g) {
      EndsWithAppend(f.name, "_min");
      EndsWithAppend(f.name, "_max");
      EndsWithAppend(g.name, "_min");
      EndsWithAppend(g.name, "_max");
      SuffixDiffers(f.name, g.name);
      SuffixDiffers(g.name, f.name);
      if k == f.name + "_min" && k == g.name + "_min" {
        SuffixCancels(f.name, g.name, "_min");
      }
      if k == f.name + "_max" && k == g.name + "_max" {
        SuffixCancels(f.name, g.name, "_max");
      }
    }
  }

  /** In a well-formed list, the shape holds each field's keys with that field's rule. */
  lemma {:induction false} ShapeAt(fields: seq<FieldDescriptor>, i: nat, k: string)
    requires WellFormed(fields) && i < |fields| && k in FieldEntries(fields[i])
    ensures k in FilterShape(fields) && FilterShape(fields)[k] == RuleOf(fields[i].kind)
    decreases |fields|
  {
    var init := fields[..|fields| - 1];
    var last := fields[|fields| - 1];
    if i == |fields| - 1 {
      assert FilterShape(fields)[k] == FieldEntries(last)[k];
    } else {
      assert WellFormed(init) by {
        forall a, b | 0 <= a < b < |init| ensures init[a].name != init[b].name {
          assert init[a] == fields[a] && init[b] == fields[b];
        }
        forall a | 0 <= a < |init| ensures !EndsWith(init[a].name, "_min") && !EndsWith(init[a].name, "_max") {
          assert init[a] == fields[a];
        }
      }
      assert init[i] == fields[i];
      ShapeAt(init, i, k);
      EntriesDisjoint(fields[i], last, k);
    }
  }

  /**
   * The filter keys of a well-formed attribute list: each attribute with its
   * kind's rule, `_min`/`_max` with the same rule exactly for numeric and date
   * kinds, every key optional, and nothing else.
   */
  lemma FilterKeys(fields: seq<FieldDescriptor>, i: nat)
    requires WellFormed(fields) && i < |fields|
    ensures var s := FilterSchema(fields).keys; var f := fields[i];
      && f.name in s && s[f.name] == KeyRule(RuleOf(f.kind), false)
      && (HasRange(f.kind) ==> f.name + "_min" in s && s[f.name + "_min"] == KeyRule(RuleOf(f.kind), false))
      && (HasRange(f.kind) ==> f.name + "_max" in s && s[f.name + "_max"] == KeyRule(RuleOf(f.kind), false))
      && (!HasRange(f.kind) ==> f.name + "_min" !in s && f.name + "_max" !in s)
  {
    var f := fields[i];
    ShapeAt(fields, i, f.name);
    if HasRange(f.kind) {
      ShapeAt(fields, i, f.name + "_min");
      ShapeAt(fields, i, f.name + "_max");
    } else {
      NoBoundsWithoutRange(fields, i, f.name + "_min");
      NoBoundsWithoutRange(fields, i, f.name + "_max");
    }
  }

  /** A BOOLEAN or string field admits neither bound: no other well-formed field contributes them. */
  lemma NoBoundsWithoutRange(fields: seq<FieldDescriptor>, i: nat, k: string)
    requires WellFormed(fields) && i < |fields| && !HasRange(fields[i].kind)
    requires k == fields[i].name + "_min" || k == fields[i].name + "_max"
    ensures k !in FilterShape(fields)
  {
    ShapeKeys(fields, k);
    EndsWithAppend(fields[i].name, "_min");
    EndsWithAppend(fields[i].name, "_max");
    forall j | 0 <= j < |fields| ensures k !in FieldEntries(fields[j]) {
      if j != i {
        var g := fields[j];
        if k in FieldEntries(g) {
          if k == g.name + "_min" || k == g.name + "_max" {
            SuffixDiffers(fields[i].name, g.name);
            SuffixDiffers(g.name, fields[i].name);
            if k == g.name + "_min" && k == fields[i].name + "_min" {
              SuffixCancels(fields[i].name, g.name, "_min");
            }
            if k == g.name + "_max" && k == fields[i].name + "_max" {
              SuffixCancels(fields[i].name, g.name, "_max");
            }
          }
        }
      } else {
        SuffixDiffers(fields[i].name, fields[i].name);
        assert fields[i].name != k;
      }
    }
  }

  /** Every filter key belongs to some attribute: the attribute itself, or one of its bounds when its kind has them. */
  lemma FilterKeyOrigin(fields: seq<FieldDescriptor>, k: string) returns (i: nat)
    requires k in FilterSchema(fields).keys
    ensures i < |fields|
    ensures k == fields[i].name || (HasRange(fields[i].kind) && (k == fields[i].name + "_min" || k == fields[i].name + "_max"))
  {
    ShapeKeys(fields, k);
    var j :| 0 <= j < |fields| && k in FieldEntries(fields[j]);
    i := j;
  }
}
