/**
 * Field metadata of the two entities, as the list of (name, type key) pairs
 * that the validators and the query builder read from a Sequelize model's
 * `rawAttributes`.
 */
module Models {

  /** The `attr.type.constructor.key` of a Sequelize attribute; `Other` covers STRING and every key not listed. */
  datatype Kind = Integer | Float | Double | Decimal | Boolean | Date | DateOnly | Other(key: FallbackKey)

  /** A type key the kind switch sends to its default case: none of the keys it names. */
  type FallbackKey = k: string
    | k != "INTEGER" && k != "FLOAT" && k != "DOUBLE" && k != "DECIMAL" && k != "BOOLEAN" && k != "DATE" && k != "DATEONLY"
    witness "STRING"

  datatype FieldDescriptor = FieldDescriptor(name: string, kind: Kind)

  /** `getAllowedFields`: the attribute names in declaration order. */
  function Names(fields: seq<FieldDescriptor>): (names: seq<string>)
    ensures |names| == |fields|
    ensures forall i :: 0 <= i < |fields| ==> names[i] == fields[i].name
  {
    if fields == [] then [] else [fields[0].name] + Names(fields[1..])
  }

  /** Attributes of the `puerto` model. */
  const PuertoFields: seq<FieldDescriptor> := [
    FieldDescriptor("id_puerto", Integer),
    FieldDescriptor("nombre", Other("STRING")),
    FieldDescriptor("ciudad", Other("STRING")),
    FieldDescriptor("pais", Other("STRING")),
    FieldDescriptor("capacidad_teu", Integer),
    FieldDescriptor("activo", Boolean),
    FieldDescriptor("fecha_inauguracion", DateOnly),
    FieldDescriptor("profundidad_media", Decimal)
  ]

  /** Attributes of the `muelle` model. */
  const MuelleFields: seq<FieldDescriptor> := [
    FieldDescriptor("id_muelle", Integer),
    FieldDescriptor("id_puerto", Integer),
    FieldDescriptor("nombre", Other("STRING")),
    FieldDescriptor("longitud_m", Decimal),
    FieldDescriptor("calado_m", Decimal),
    FieldDescriptor("operativo", Boolean),
    FieldDescriptor("fecha_construccion", DateOnly),
    FieldDescriptor("tipo", Other("STRING"))
  ]
}
