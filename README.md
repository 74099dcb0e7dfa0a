# Port and berth list queries, in Dafny

This project models the request-checking and query-building core of a small
REST service for ports (`puerto`) and berths (`muelle`). A list request's
query string is a flat map of parameter names to strings. The core does two things with it:

- it validates the map against a schema derived from the entity's attributes;
- it translates the map into Sequelize `findAndCountAll` options.

The options are a `where` object of equality and range conditions, a page size, an offset, and at
most one sort term. Beside that pipeline are three pure checks: the route
identifier, a port's body and a berth's body. Each body schema has a full
variant (create and replace) and a partial variant (patch).

Modules, in dependency order:

- `Wrappers`, `Values`, `Models`: option/result types, the converted JavaScript
  values, and the two entities' attribute lists (name and Sequelize type key).
- `Text`: the JavaScript built-ins the core calls:
  - `parseInt` without a radix;
  - `String(n)`;
  - `split` on one character;
  - `endsWith`;
  - ASCII lower-casing;
  - the numeric literal grammar `-?\d+(?:\.\d+)?` with the exact value `Number` gives it.
- `OrderValidator`: the `field:asc|desc` rule and its allowed-field check.
- `Schema`: the part of Joi the validators use, as values. This covers:
  - typed rules that coerce strings;
  - required and optional keys;
  - a closed key set;
  - `min(n)` keys;
  - `fork(..., optional)`;
  - the custom `_min`/`_max` cross-check.

  Errors are collected, not cut short.
- `FilterValidator`: `filterValidator`. `BuildFilterSchema` fills the shape
  field by field, with the kind switch. `CheckRanges` is the cross-check loop.
  Both are methods proved against the reference functions `FilterSchema` and
  `FirstInverted`.
- `QueryValidator`: `queryValidator`, which merges pagination and sort keys
  with the filter schema.
- `QueryUtils`: `parseValue`, and `buildSequelizeQuery` as an imperative method:
  - reassigned `limit` and `offset`;
  - a pushed `order`;
  - two loops over the parameter keys that fill `where`.

  The method is proved equal to the declarative reference `Translate`, and
  lemmas state what `Translate` promises.
- `IdValidator`, `PuertoBodyValidator`, `MuelleBodyValidator`: the route
  identifier check and the two body schemas. Each body schema comes with a
  plain per-field predicate, and an if-and-only-if connects the schema to it.
- `Pipeline`: validation followed by translation. For every query the schema
  accepts:
  - the builder's page size is the given `limit`, in [1, 1000];
  - the offset is the given value and never negative;
  - the sort term is the validated one;
  - numeric filters read the number the schema converted;
  - a range it builds is never inverted.
- `QueryExamples`: the query cases of the two request test suites, stated on the model.

Query values enter the model as raw strings (`map<string, string>`), and body
values as JSON values. Date parsing is a parameter (`DateParser`): a function
from a string to an optional time value in milliseconds.

## Model

Rows whose third column starts with "definition:" name the functions and constants that model a part of the source directly. They carry no contract of their own; the lemmas in the other rows state what they promise.

| member | source | states |
|---|---|---|
| `Models.PuertoFields` | models/puerto.js:3-38 | definition: the port's eight attributes in declaration order, with their type keys (INTEGER, STRING, BOOLEAN, DATEONLY, DECIMAL) |
| `Models.MuelleFields` | models/muelle.js:3-42 | definition: the berth's eight attributes in declaration order, with their type keys |
| `Models.Names` | utils/queryUtils.js:39-45 | the allowed fields are the attribute names, one per attribute, in declaration order |
| `QueryUtils.Translate` | utils/queryUtils.js:67-141 | definition: the reference result of `buildSequelizeQuery`, made of the filters, page size, offset and sort term defined below |
| `QueryUtils.WhereOf` | utils/queryUtils.js:99-138 | definition: the range conditions overlaid by the equality conditions, as the equality loop runs after the range loop |
| `QueryUtils.RangeWhere` | utils/queryUtils.js:99-126 | definition: one condition for each allowed field that has a `_min` or `_max` parameter |
| `QueryUtils.EqualityWhere` | utils/queryUtils.js:129-138 | definition: an equality on the coerced value for each allowed field given itself, other than the special keys and bounds |
| `QueryUtils.RangeCondition` | utils/queryUtils.js:107-125 | definition: Between for both bounds, Gte for the minimum alone, Lte for the maximum alone, each bound coerced by `parseValue` |
| `QueryUtils.UpperIsDesc` | utils/queryUtils.js:94 | definition: `toUpperCase() === "DESC"`, with the long s (U+017F) upper-casing to S |
| `QueryUtils.IsRangeKey` | utils/queryUtils.js:100 | definition: the key ends in `_min` or `_max` |
| `QueryUtils.BaseField` | utils/queryUtils.js:102 | definition: the key without its four-character suffix, as `replace(/_(min\|max)$/, "")` gives it |
| `QueryUtils.ParseValue` | utils/queryUtils.js:24-30 | a boolean exactly for `"true"`/`"false"`; a number exactly for a literal `-?\d+(\.\d+)?`, with its exact value; otherwise the same string unchanged; never a date |
| `QueryUtils.ParseValueRoundTrip` | utils/queryUtils.js:24-30 | printing a boolean or any integer and coercing the text gives the same value back |
| `QueryUtils.ParseValueKeepsText` | utils/queryUtils.js:25-29 | matching is case-sensitive and literal: `True`, `+1`, `.5`, `1.` and `abc` stay strings |
| `QueryUtils.ParseValueDecimal` | utils/queryUtils.js:28 | `-2.50` becomes the number -2.5 |
| `QueryUtils.LimitOf` | utils/queryUtils.js:72-79 | the page size is never above 1000; it is 100 unless a non-empty `limit` starts with an integer; an integer up to 1000 is taken as it is |
| `QueryUtils.PrintedLimit` | utils/queryUtils.js:76-79 | any printed integer as `limit` is kept up to the cap of 1000, with no lower bound (`0` gives 0, `-5` gives -5) |
| `QueryUtils.OffsetOf` | utils/queryUtils.js:82-85 | the offset is never negative; a parsed non-negative integer is kept; anything else gives 0 |
| `QueryUtils.PrintedOffset` | utils/queryUtils.js:82-85 | any printed integer as `offset` is kept when non-negative and gives 0 otherwise |
| `QueryUtils.PaginationDefaults` | utils/queryUtils.js:72-73 | without (or with empty) parameters the page size is 100 and the offset 0 |
| `QueryUtils.OrderOf` | utils/queryUtils.js:88-96 | at most one sort term; one exactly when the text before the first `:` is an allowed field; it sorts by that field, descending iff the next piece upper-cases to `DESC` |
| `QueryUtils.WhereKeysAllowed` | utils/queryUtils.js:129-138 | every filtered field is allowed; a filter is an equality exactly when the field itself is a parameter that is neither special nor a bound, and then it is its coerced value |
| `QueryUtils.RangeFilters` | utils/queryUtils.js:99-126 | for an allowed field not given itself: both bounds give Between, `_min` alone Gte, `_max` alone Lte (bounds coerced), neither gives no filter |
| `QueryUtils.EqualityOverridesRange` | utils/queryUtils.js:128-138 | an equality parameter on a field replaces any range on it, as the equality loop runs second |
| `QueryUtils.UnknownKeysIgnored` | utils/queryUtils.js:67-140 | adding or changing a parameter that names no allowed field, no special key and no bound leaves the whole result unchanged |
| `QueryUtils.UnknownKeyKeepsWhere` | utils/queryUtils.js:99-138 | such a parameter leaves `where` unchanged |
| `QueryUtils.SameLimit` | utils/queryUtils.js:76-79 | the page size depends on the `limit` parameter alone |
| `QueryUtils.SameOffset` | utils/queryUtils.js:82-85 | the offset depends on the `offset` parameter alone |
| `QueryUtils.SameOrder` | utils/queryUtils.js:89-96 | the sort term depends on the `order` parameter alone |
| `QueryUtils.RangeKeyParts` | utils/queryUtils.js:100-102 | a bound key is its base field followed by `_min` or `_max` |
| `QueryUtils.BaseFieldOf` | utils/queryUtils.js:102 | removing the suffix from `f_min` or `f_max` gives `f` |
| `QueryUtils.BuildSequelizeQuery` | utils/queryUtils.js:67-141 | the statement-by-statement builder returns exactly the reference translation |
| `QueryUtils.AddRangeFilters` | utils/queryUtils.js:99-126 | the range loop, in any key order, leaves exactly the reference range conditions |
| `QueryUtils.AddEqualityFilters` | utils/queryUtils.js:129-138 | the equality loop, in any key order, adds exactly the reference equality conditions over what the range loop left |
| `QueryUtils.RangeStep` | utils/queryUtils.js:100-125 | visiting one key sets its base field's condition when it is a bound of an allowed field, and changes nothing otherwise |
| `QueryUtils.RangeAll` | utils/queryUtils.js:99-126 | after all keys are visited, the conditions built are the reference's |
| `FilterValidator.RuleOf` | validators/filterValidator.js:35-61 | definition: the kind switch. INTEGER gives an integer rule; FLOAT, DOUBLE and DECIMAL a number rule; BOOLEAN a boolean rule; DATE and DATEONLY a date rule; any other key a string rule |
| `FilterValidator.FilterShape` | validators/filterValidator.js:31-62 | definition: the shape after visiting the attributes in order, a later attribute's keys replacing an earlier one's |
| `FilterValidator.FilterSchema` | validators/filterValidator.js:24-79 | definition: the shape's keys, all optional, with unknown keys refused and the range check over every attribute name |
| `FilterValidator.FieldEntries` | validators/filterValidator.js:35-61 | each kind's keys: the field with its kind's rule, plus `_min` and `_max` with the same rule exactly for numeric and date kinds, and nothing else |
| `FilterValidator.BuildFilterSchema` | validators/filterValidator.js:24-79 | the loop with the kind switch builds exactly the reference filter schema, whose keys and rules `FilterKeys` and `FilterKeyOrigin` state |
| `FilterValidator.CheckRanges` | validators/filterValidator.js:66-77 | the custom rule reports the first attribute, in order, whose two bounds are present with the minimum above the maximum, or none |
| `FilterValidator.FilterKeys` | validators/filterValidator.js:31-62 | in a well-formed attribute list each attribute admits itself with its kind's rule, and its bounds with that rule exactly when its kind is numeric or a date |
| `FilterValidator.FilterKeyOrigin` | validators/filterValidator.js:31-62 | every filter key is an attribute or, for numeric and date kinds, one of its two bounds |
| `FilterValidator.ShapeKeys` | validators/filterValidator.js:31-62 | a key is in the shape exactly when some field contributes it |
| `FilterValidator.ShapeAt` | validators/filterValidator.js:31-62 | in a well-formed attribute list every key a field contributes is in the shape with that field's rule, so no later field overwrites it |
| `FilterValidator.NoBoundsWithoutRange` | validators/filterValidator.js:48-50 | a BOOLEAN or string attribute's `_min`/`_max` is no key of the shape |
| `FilterValidator.EntriesDisjoint` | validators/filterValidator.js:36-60 | two differently named fields whose names carry no bound suffix contribute disjoint keys |
| `OrderValidator.MatchesOrderPattern` | validators/orderValidator.js:30 | definition: `^[a-zA-Z_]+:(asc\|desc)$` with the `i` flag, so identifier characters up to the first colon followed by a direction in any ASCII case |
| `OrderValidator.OrderField` | validators/orderValidator.js:34 | definition: the first piece of `split(":")` |
| `OrderValidator.ValidateOrder` | validators/orderValidator.js:27-42 | accepted exactly when the value matches `^[a-zA-Z_]+:(asc\|desc)$` (direction in any ASCII case) and its field is allowed, returned unchanged; each failing rule is reported |
| `OrderValidator.OrderParts` | validators/orderValidator.js:30-34 | a matching value is exactly a field, a colon and a direction, and splits into those two pieces |
| `OrderValidator.AcceptedOrderShape` | validators/orderValidator.js:28-41 | every accepted value is an allowed identifier, a colon and a direction |
| `OrderValidator.OrderOfParts` | validators/orderValidator.js:28-41 | any allowed identifier, a colon and a direction is accepted, unchanged |
| `OrderValidator.OrderFieldOf` | validators/orderValidator.js:34 | the field of `f:d` is `f` whenever `f` has no colon |
| `OrderValidator.NonIdentFieldRejected` | validators/orderValidator.js:30 | a field name with a digit or any other character outside `[a-zA-Z_]` is never accepted |
| `OrderValidator.UnknownFieldOnly` | validators/orderValidator.js:34-38 | a well-formed value naming a field outside the list fails on the membership rule alone |
| `OrderValidator.BadDirectionOnly` | validators/orderValidator.js:30 | an allowed field with a direction other than asc/desc fails on the pattern alone |
| `OrderValidator.ColonNotAscDesc` | validators/orderValidator.js:30 | a direction never holds a colon |
| `OrderValidator.OrderAcceptedExamples` | validators/orderValidator.js:23-25 | with `['nombre']`, `nombre:asc` and `nombre:DESC` pass unchanged |
| `OrderValidator.OrderPrecioExample` | validators/orderValidator.js:25 | with `['nombre']`, `precio:asc` fails on the field only |
| `OrderValidator.OrderNoexisteExample` | test/puerto.test.js:52-57 | `noexiste:asc` fails on the field only |
| `OrderValidator.OrderSidewaysExample` | validators/orderValidator.js:30 | `nombre:sideways` fails on the pattern only |
| `Schema.Accepts` | middleware/validateQuery.js:28-36 | definition: `validate` returns no error |
| `Schema.KeyViolations` | middleware/validateQuery.js:28-31 | definition: every key-level error, collected as `abortEarly: false` asks. These are undeclared keys, values their rule refuses and missing required keys |
| `Schema.RuleViolations` | validators/filterValidator.js:66-77 | definition: the object-level errors, run on a value whose keys all passed: too few keys for `.min(n)`, and the first inverted range the custom rule finds |
| `Schema.Inverted` | validators/filterValidator.js:68-72 | definition: both bounds of the field are present and the minimum is above the maximum |
| `Schema.Exceeds` | validators/filterValidator.js:72 | definition: `min > max` on converted values. Numbers and dates compare by value. These are the only pairs the bounds of a well-formed attribute list can hold, since only number and date rules get `_min`/`_max` keys. JavaScript's `>` on two strings or a mixed pair is not modelled |
| `Schema.IsSafeInteger` | validators/filterValidator.js:37 | definition: what `Joi.number().integer()` admits, an integral value within ±(2^53 − 1) |
| `Schema.StringAccepts` | validators/puertoBodyValidator.js:17 | definition: `Joi.string()` with `min`, `max` and `valid(...)`. A listed value is accepted and nothing else is; without a list the string must be non-empty and within the length bounds |
| `Schema.NumberOf` | validators/filterValidator.js:44 | a number is itself; a string converts exactly when it is a numeric literal; nothing else converts |
| `Schema.BooleanOf` | validators/filterValidator.js:49 | a boolean is itself; a string converts exactly when it is `true` or `false` in any ASCII case |
| `Schema.DateOf` | validators/filterValidator.js:53 | a string converts as the date parser reads it; a number converts when it is a valid time value |
| `Schema.Convert` | validators/puertoBodyValidator.js:17-23 | each rule accepts exactly what its predicate admits (integer, bounds, length, listed values, order rule) and yields the converted value |
| `Schema.Truncate` | validators/filterValidator.js:53 | a time value is truncated toward zero |
| `Schema.Validate` | middleware/validateQuery.js:28-31 | a success converts every input key by its declared rule, and no undeclared key gets through; a failure reports at least one error |
| `Schema.Converted` | middleware/validateQuery.js:28-39 | the validated value has the input's keys, each converted by its rule |
| `Schema.KeyViolationsEmpty` | middleware/validateQuery.js:28-31 | no key-level error exactly when every key is declared with a valid value and every required key is present |
| `Schema.FirstInverted` | validators/filterValidator.js:67-75 | the field reported is the first in order whose bounds are inverted; none exactly when no field's bounds are |
| `Schema.Optional` | validators/puertoBodyValidator.js:31-33 | `fork(all, optional)` keeps every key and rule and makes each optional |
| `Schema.WithMinKeys` | validators/puertoBodyValidator.js:34 | `.min(n)` changes only the minimum key count |
| `Schema.AcceptsIff` | middleware/validateQuery.js:28-36 | accepted exactly when keys are declared and valid, required keys are present, there are enough keys and no range is inverted |
| `Schema.UnknownKeyRejected` | validators/filterValidator.js:78 | an undeclared key makes validation fail and is reported |
| `Schema.InvalidValueRejected` | validators/puertoBodyValidator.js:16-23 | a declared key whose value its rule refuses makes validation fail and is reported |
| `Schema.MissingKeyRejected` | validators/puertoBodyValidator.js:17-23 | a missing required key makes validation fail and is reported |
| `Schema.NoUndeclaredKeys` | validators/puertoBodyValidator.js:24 | an accepted value holds exactly the input's keys, all declared |
| `Schema.PartialIff` | validators/puertoBodyValidator.js:31-34 | the partial schema accepts exactly the non-empty inputs whose keys are declared with valid values and whose ranges are ordered |
| `Schema.SameRules` | validators/puertoBodyValidator.js:31-33 | two schemas with the same keys and rules check and convert every input alike |
| `Schema.RequiredSchemaIff` | validators/puertoBodyValidator.js:16-24 | an all-required schema without ranges accepts exactly the inputs with all its keys and no other, each valid |
| `Schema.PartialNoRangeIff` | validators/muelleBodyValidator.js:31-34 | the partial variant without ranges accepts exactly the non-empty inputs of declared keys with valid values |
| `Schema.FullImpliesPartial` | validators/muelleBodyValidator.js:31-34 | a non-empty input the full schema accepts is accepted by the partial one |
| `Schema.InvertedRangeRejected` | validators/filterValidator.js:66-77 | keys that all pass but hold an inverted range are rejected |
| `Schema.ValidateKeysValid` | validators/filterValidator.js:65-66 | once every key passes, the object-level rules alone decide |
| `Schema.BoundsPairRejected` | validators/filterValidator.js:72-73 | a field's two valid bounds with the minimum above the maximum fail with exactly that field's range error |
| `Schema.BoundsPairAccepted` | validators/filterValidator.js:72-76 | a field's two valid bounds with the minimum not above the maximum are accepted |
| `Schema.OnlyInverted` | validators/filterValidator.js:67-75 | with only one field's inverted bounds present, that field is reported |
| `Schema.OnlyOrdered` | validators/filterValidator.js:67-76 | with only one field's ordered bounds present, nothing is reported |
| `QueryValidator.LimitRule` | validators/queryValidator.js:32 | definition: `Joi.number().integer().min(1).max(1000)` |
| `QueryValidator.OffsetRule` | validators/queryValidator.js:33 | definition: `Joi.number().integer().min(0)` |
| `QueryValidator.BaseKeys` | validators/queryValidator.js:31-35 | definition: the base object with optional `limit`, `offset` and `order`, the order rule taking the attribute names |
| `QueryValidator.QuerySchema` | validators/queryValidator.js:26-41 | definition: the base keys merged with the filter schema's keys and range check, unknown keys refused |
| `QueryValidator.ReservedNotFilterKey` | validators/queryValidator.js:31-39 | `limit`, `offset` and `order` are no filter keys when no attribute has those names |
| `QueryValidator.QueryKeys` | validators/queryValidator.js:31-40 | the accepted key set is exactly `limit`, `offset`, `order` and the filter keys, all optional, each with its rule |
| `QueryValidator.AcceptedPagination` | validators/queryValidator.js:32-34 | in an accepted query `limit` is an integer in [1, 1000], `offset` an integer of at least 0, and `order` passes the order rule |
| `QueryValidator.QueryUnknownKey` | validators/queryValidator.js:38-40 | a key outside that set is rejected as unknown |
| `QueryValidator.InvalidLimitRejected` | validators/queryValidator.js:32 | a `limit` that is no integer in [1, 1000] (`0`, `1001`, `-5`, `1.5`, `abc`) is reported invalid |
| `QueryValidator.InvalidOffsetRejected` | validators/queryValidator.js:33 | an `offset` that is no integer of at least 0 is reported invalid |
| `QueryValidator.PaginationAccepted` | validators/queryValidator.js:32-33 | any integral `limit` in [1, 1000] together with any integral `offset` of at least 0 is accepted |
| `QueryValidator.PaginationKeysValid` | validators/queryValidator.js:32-33 | such a `limit` and `offset` are valid keys of the query schema |
| `QueryValidator.PaginationRulesAccept` | validators/queryValidator.js:32-33 | the two pagination rules accept them |
| `QueryValidator.PaginationNotInverted` | validators/queryValidator.js:38-39 | pagination and sort keys alone never trigger the range check |
| `QueryValidator.UnknownOrderFieldRejected` | validators/queryValidator.js:34 | an order naming no attribute makes `order` invalid |
| `QueryValidator.NonNumericFilterRejected` | validators/queryValidator.js:39 | a non-number is refused for a numeric attribute |
| `QueryValidator.InvertedBoundsRejected` | validators/queryValidator.js:39 | a numeric attribute's valid bounds with the minimum above the maximum fail with exactly its range error |
| `QueryValidator.OrderedBoundsAccepted` | validators/queryValidator.js:39 | a numeric attribute's valid bounds with the minimum not above the maximum are accepted |
| `QueryValidator.UnrangedBoundRejected` | validators/queryValidator.js:39-40 | a BOOLEAN or string attribute's `_min` or `_max` is rejected as unknown |
| `QueryValidator.QueryBounds` | validators/queryValidator.js:39 | a numeric or date attribute's bounds are query keys with its rule, and it is range-checked |
| `QueryValidator.QueryNothingRequired` | validators/queryValidator.js:32-34 | no key of the query schema is required |
| `QueryValidator.UnknownParameterRejected` | validators/queryValidator.js:40 | a key that is no attribute, bound, or pagination or sort key, such as `foo`, is rejected as unknown |
| `QueryValidator.NotFilterKey` | validators/queryValidator.js:38-40 | a name that is no attribute and has no bound suffix is no filter key |
| `QueryValidator.PuertoFieldsWellFormed` | models/puerto.js:3-38 | the port's attribute names are distinct, none ends in `_min`/`_max`, and none is a pagination or sort key |
| `QueryValidator.MuelleFieldsWellFormed` | models/muelle.js:3-42 | likewise for the berth |
| `IdValidator.ValidateId` | validators/idValidator.js:24-31 | a failure is always `Invalid identifier` with status 400; what passes is a digit string without a leading zero |
| `IdValidator.ValidIdIff` | validators/idValidator.js:25-28 | an identifier passes exactly when it is digits only with no leading zero |
| `IdValidator.PositiveDecimalPasses` | validators/idValidator.js:25-28 | a canonical positive decimal parses to its own value, which is positive, and passes |
| `IdValidator.PassedIdValue` | validators/idValidator.js:25 | what passes denotes the positive integer its digits spell |
| `IdValidator.PrintedPositivePasses` | validators/idValidator.js:28 | every positive integer, printed, passes |
| `IdValidator.PrintedNonPositiveFails` | validators/idValidator.js:28 | zero and every negative integer, printed, fail |
| `IdValidator.NonDigitFails` | validators/idValidator.js:28 | a non-digit anywhere makes the identifier fail |
| `IdValidator.LeadingZeroFails` | validators/idValidator.js:28 | a leading zero makes the identifier fail |
| `IdValidator.IdAcceptedExamples` | test/puerto.test.js:82-115 | `5` passes (lines 82-90). `9999` passes too, after which the mocked service answers 404 (lines 110-115) |
| `IdValidator.IdRefusedExamples` | test/muelle.test.js:92-108 | `0`, `1.0`, `abc`, `-5`, `01` and `5abc` fail with the 400 error |
| `PuertoBodyValidator.PuertoSchemaFull` | validators/puertoBodyValidator.js:16-24 | definition: `puertoSchemaFull`, seven required keys with the rules of lines 17-23 and unknown keys refused |
| `PuertoBodyValidator.PuertoSchemaPartial` | validators/puertoBodyValidator.js:31-34 | definition: the full schema with every key forked optional and `.min(1)` |
| `PuertoBodyValidator.PuertoFieldOk` | validators/puertoBodyValidator.js:17-23 | definition: each port field's rule in plain terms. Names are strings of 2 to 100 characters, `capacidad_teu` a safe integer of at least 0, `activo` a boolean, the date parsable, and `profundidad_media` a number in [0, 999.99] |
| `PuertoBodyValidator.PuertoKey` | validators/puertoBodyValidator.js:16-24 | the full schema declares exactly the seven port fields, all required, each rule admitting exactly what the field predicate says |
| `PuertoBodyValidator.PuertoKeyRule` | validators/puertoBodyValidator.js:17-23 | the rule of each port field, stated plainly |
| `PuertoBodyValidator.PuertoFullIff` | validators/puertoBodyValidator.js:16-24 | create and replace accept exactly a body with every port field and no other, each acceptable |
| `PuertoBodyValidator.PuertoPartialIff` | validators/puertoBodyValidator.js:31-34 | a patch accepts exactly a non-empty body of port fields, each acceptable |
| `PuertoBodyValidator.PartialSameRules` | validators/puertoBodyValidator.js:31-33 | the patch keeps each field's rule |
| `PuertoBodyValidator.PuertoMissingField` | test/puerto.test.js:149-154 | a body lacking any port field is rejected, reporting that field missing |
| `PuertoBodyValidator.PuertoInvalidField` | validators/puertoBodyValidator.js:17-23 | an unacceptable field makes both the full schema and the patch fail, reporting that field |
| `PuertoBodyValidator.PuertoRefusedValues` | test/puerto.test.js:156-208 | the tests' refused values: negative capacity or depth, a one-letter name, `activo: 'si'`, an unparsable date |
| `PuertoBodyValidator.PuertoEmptyPatch` | test/puerto.test.js:237-246 | an empty patch fails for having too few keys, and for nothing else |
| `PuertoBodyValidator.PuertoSingleFieldPatch` | validators/puertoBodyValidator.js:31-34 | any one acceptable field is a valid patch |
| `PuertoBodyValidator.PuertoPatchExamples` | test/puerto.test.js:224-259 | `{profundidad_media: 15.0}` and `{nombre: 'Nuevo'}` are valid patches |
| `PuertoBodyValidator.PuertoCreateExample` | test/puerto.test.js:119-131 | the tests' new port is a valid creation body |
| `MuelleBodyValidator.MuelleSchemaFull` | validators/muelleBodyValidator.js:16-24 | definition: `muelleSchemaFull`, seven required keys with the rules of lines 17-23 and unknown keys refused |
| `MuelleBodyValidator.MuelleSchemaPartial` | validators/muelleBodyValidator.js:31-34 | definition: the full schema with every key forked optional and `.min(1)` |
| `MuelleBodyValidator.MuelleFieldOk` | validators/muelleBodyValidator.js:17-23 | definition: each berth field's rule in plain terms. `id_puerto` is a safe integer of at least 1, `nombre` 2 to 100 characters, the lengths numbers of at least 0, `operativo` a boolean, the date parsable, and `tipo` one of the three kinds |
| `MuelleBodyValidator.MuelleKey` | validators/muelleBodyValidator.js:16-24 | the full schema declares exactly the seven berth fields, all required, each rule admitting exactly what the field predicate says |
| `MuelleBodyValidator.MuelleKeyRule` | validators/muelleBodyValidator.js:17-23 | the rule of each berth field, stated plainly, `tipo` one of `carga`, `pasajeros`, `granel` |
| `MuelleBodyValidator.MuelleFullIff` | validators/muelleBodyValidator.js:16-24 | create and replace accept exactly a body with every berth field and no other, each acceptable |
| `MuelleBodyValidator.MuellePartialIff` | validators/muelleBodyValidator.js:31-34 | a patch accepts exactly a non-empty body of berth fields, each acceptable |
| `MuelleBodyValidator.PartialSameRules` | validators/muelleBodyValidator.js:31-33 | the patch keeps each field's rule |
| `MuelleBodyValidator.MuelleMissingField` | test/muelle.test.js:149-154 | a body lacking any berth field is rejected, reporting that field missing |
| `MuelleBodyValidator.MuelleInvalidField` | validators/muelleBodyValidator.js:17-23 | an unacceptable field makes both the full schema and the patch fail, reporting that field |
| `MuelleBodyValidator.MuelleRefusedValues` | test/muelle.test.js:156-215 | the tests' refused values: negative length or draught, a one-letter name, `operativo: 'si'`, an unparsable date, an unlisted `tipo` |
| `MuelleBodyValidator.MuelleEmptyPatch` | test/muelle.test.js:244-253 | an empty patch fails for having too few keys, and for nothing else |
| `MuelleBodyValidator.MuelleSingleFieldPatch` | validators/muelleBodyValidator.js:31-34 | any one acceptable field is a valid patch |
| `MuelleBodyValidator.MuellePatchExamples` | test/muelle.test.js:231-262 | `{calado_m: 15.0}` and `{nombre: 'Nuevo'}` are valid patches |
| `MuelleBodyValidator.MuelleCreateExample` | test/muelle.test.js:119-131 | the tests' new berth is a valid creation body |
| `Pipeline.AsJson` | middleware/validateQuery.js:28 | the schema sees each query parameter as the same string |
| `Pipeline.LimitOfLiteral` | utils/queryUtils.js:76-79 | a `limit` the schema's rule admits is read by `parseInt` as the same integer; none gives 100 |
| `Pipeline.OffsetOfLiteral` | utils/queryUtils.js:82-85 | an `offset` the schema's rule admits is read by `parseInt` as the same integer; none gives 0 |
| `Pipeline.AcceptedLimit` | services/puertoService.js:30-42 | for an accepted query the page size is the `limit` given, in [1, 1000], or 100 without one |
| `Pipeline.AcceptedOffset` | services/puertoService.js:30-42 | for an accepted query the offset is the `offset` given, never negative, or 0 without one |
| `Pipeline.DescIff` | utils/queryUtils.js:94 | for a validated direction, upper-casing to `DESC` agrees with being `desc` in any ASCII case |
| `Pipeline.AcceptedOrder` | utils/queryUtils.js:89-96 | for an accepted query the only sort term is the validated field, descending exactly when the direction is `desc` |
| `Pipeline.NoOrderWithoutParameter` | utils/queryUtils.js:88-89 | without `order` nothing is sorted |
| `Pipeline.AcceptedValue` | middleware/validateQuery.js:28-39 | what the schema holds under a key is its rule's conversion of the key's value |
| `Pipeline.ConvertedNumber` | utils/queryUtils.js:28 | a string a number rule converts is a literal that `parseValue` reads as the same number |
| `Pipeline.ConvertedBoolean` | utils/queryUtils.js:25-26 | a lower-case `true`/`false` the boolean rule converts reads the same under `parseValue` |
| `Pipeline.FilterRule` | validators/queryValidator.js:39 | an attribute and its bounds carry the attribute's rule in the query schema |
| `Pipeline.AttributeName` | utils/queryUtils.js:131-135 | an attribute is an allowed field that is neither special nor a bound |
| `Pipeline.NumericRule` | validators/filterValidator.js:36-47 | a numeric attribute and its bounds have a number rule |
| `Pipeline.NumberAgrees` | services/puertoService.js:30-42 | under a number rule, `parseValue` of an accepted string is the number the schema converted |
| `Pipeline.NumericValueAgrees` | services/puertoService.js:30-42 | under a numeric attribute's keys, `parseValue` gives exactly the converted number |
| `Pipeline.AcceptedNumericEquality` | utils/queryUtils.js:135-136 | a numeric attribute given itself is filtered by equality with the converted number |
| `Pipeline.AcceptedBooleanEquality` | utils/queryUtils.js:135-136 | a boolean attribute written `true`/`false` is filtered by equality with the converted boolean |
| `Pipeline.BooleanAgrees` | utils/queryUtils.js:25-26 | under the boolean rule, `parseValue` of an accepted `true`/`false` is the converted boolean |
| `Pipeline.BooleanValueAgrees` | utils/queryUtils.js:25-26 | likewise under a boolean attribute's key |
| `Pipeline.BooleanKeyRule` | validators/filterValidator.js:48-49 | a boolean attribute has the boolean rule in the query schema |
| `Pipeline.NotInverted` | validators/filterValidator.js:72 | no range field's bounds are inverted in an accepted value |
| `Pipeline.OrderedBounds` | validators/filterValidator.js:72 | two numbers the check does not find inverted are ordered |
| `Pipeline.AcceptedBoundsOrdered` | validators/filterValidator.js:67-75 | in an accepted query a numeric attribute's two bounds are literals with the minimum not above the maximum |
| `Pipeline.AcceptedNumericRange` | utils/queryUtils.js:110-114 | a numeric attribute given by both bounds (and not itself) is filtered by Between the two converted numbers, never inverted |
| `Pipeline.BoundsRange` | utils/queryUtils.js:110-114 | two literal bounds on an allowed field not given itself make Between their numbers |
| `QueryExamples.PuertoLimitZero` | test/puerto.test.js:37-43 | `limit=0` is refused, `limit` invalid |
| `QueryExamples.PuertoNegativeOffset` | test/puerto.test.js:45-50 | `offset=-1` is refused, `offset` invalid |
| `QueryExamples.PuertoUnknownOrderField` | test/puerto.test.js:52-57 | `order=noexiste:asc` is refused, `order` invalid |
| `QueryExamples.PuertoNonNumericFilter` | test/puerto.test.js:59-64 | `capacidad_teu=abc` is refused, `capacidad_teu` invalid |
| `QueryExamples.PuertoInvertedRange` | test/puerto.test.js:66-71 | `capacidad_teu_min=100&capacidad_teu_max=10` fails with exactly the range error on `capacidad_teu` |
| `QueryExamples.PuertoOrderedRange` | validators/filterValidator.js:72-76 | `capacidad_teu_min=10&capacidad_teu_max=100` is accepted |
| `QueryExamples.PuertoBooleanBound` | validators/filterValidator.js:48-50 | `activo_min=true` is refused, `activo_min` unknown |
| `QueryExamples.PuertoNonNumericLimit` | validators/queryValidator.js:32 | `limit=abc` is refused, `limit` invalid |
| `QueryExamples.PuertoUnknownParameter` | test/puerto.test.js:73-78 | `foo=bar` is refused, `foo` unknown |
| `QueryExamples.MuelleLimitZero` | test/muelle.test.js:37-43 | `limit=0` is refused, `limit` invalid |
| `QueryExamples.MuelleNegativeOffset` | test/muelle.test.js:45-50 | `offset=-1` is refused, `offset` invalid |
| `QueryExamples.MuelleUnknownOrderField` | test/muelle.test.js:52-57 | `order=noexiste:asc` is refused, `order` invalid |
| `QueryExamples.MuelleNonNumericFilter` | test/muelle.test.js:59-64 | `longitud_m=abc` is refused, `longitud_m` invalid |
| `QueryExamples.MuelleInvertedRange` | test/muelle.test.js:66-71 | `longitud_m_min=100&longitud_m_max=10` fails with exactly the range error on `longitud_m` |
| `QueryExamples.MuelleOrderedRange` | validators/filterValidator.js:72-76 | `longitud_m_min=10&longitud_m_max=100` is accepted |
| `QueryExamples.MuelleStringBound` | validators/filterValidator.js:57-60 | `tipo_max=carga` is refused, `tipo_max` unknown |
| `QueryExamples.MuelleUnknownParameter` | test/muelle.test.js:73-78 | `foo=bar` is refused, `foo` unknown |
| `Text.ParseInt` | validators/idValidator.js:25 | definition: `parseInt` without a radix. It skips leading white space, takes an optional sign, reads hexadecimal after `0x` and decimal otherwise, and stops at the first non-digit; NaN is `None` |
| `Text.IntToDecimal` | validators/idValidator.js:28 | definition: `String(n)` for an integer |
| `Text.IsNumericLiteral` | utils/queryUtils.js:28 | definition: the anchored pattern `^-?\d+(\.\d+)?$` |
| `Text.LiteralValue` | utils/queryUtils.js:28 | definition: the exact value `Number(s)` denotes for such a literal |
| `Text.LowerAscii` | validators/orderValidator.js:30 | ASCII lower-casing, which keeps the length; it is the only folding the `i` flag applies to these letters |
| `Text.EndsWith` | utils/queryUtils.js:100 | definition: `endsWith` |
| `Text.TrimStart` | validators/idValidator.js:25 | `parseInt` skips exactly the leading white space and line terminators |
| `Text.TakeRadixDigits` | validators/idValidator.js:25 | `parseInt` reads the longest prefix of digits and stops at the first non-digit |
| `Text.NatToDecimal` | validators/idValidator.js:28 | `String(n)` of a natural number is its digits without a leading zero, denoting `n` |
| `Text.ParseIntOfDecimal` | validators/idValidator.js:25-28 | `parseInt` reads back exactly what `String(n)` prints, for every integer |
| `Text.DecimalRoundTrip` | validators/idValidator.js:28 | a digit string without a superfluous leading zero is what `String` prints for its value |
| `Text.ParseIntOfLiteral` | utils/queryUtils.js:77 | `parseInt` of a numeric literal is its signed integer part |
| `Text.ParseIntDecimalForm` | utils/queryUtils.js:83 | `parseInt` of an optional minus and a digit run (without a hexadecimal prefix) is the signed value of the leading digits |
| `Text.LiteralIntegral` | validators/queryValidator.js:32 | a literal denotes a whole number exactly when it equals its integer part |
| `Text.DecimalIsLiteral` | utils/queryUtils.js:28 | every printed integer is a numeric literal denoting that integer |
| `Text.DigitsLiteral` | utils/queryUtils.js:28 | a plain digit string is a literal denoting its digits' value |
| `Text.NegativeDigitsLiteral` | utils/queryUtils.js:28 | a minus before digits negates their value |
| `Text.Split` | utils/queryUtils.js:90 | `split(":")` gives at least one piece and no piece holds the separator |
| `Text.JoinSplit` | utils/queryUtils.js:90 | joining the pieces of a split gives the string back |
| `Text.SplitJoin` | utils/queryUtils.js:90 | splitting pieces without the separator, once joined, gives them back |
| `Text.FirstPiece` | validators/orderValidator.js:34 | the first piece is everything before the first separator |
| `Text.IndexOf` | validators/orderValidator.js:34 | the first position of the separator |
| `Text.EndsWithAppend` | utils/queryUtils.js:100 | a name with a suffix appended ends with that suffix |
| `Text.SuffixDiffers` | utils/queryUtils.js:107-108 | no `f_min` equals any `g_max` |
| `Text.SuffixCancels` | utils/queryUtils.js:102 | appending the same suffix is injective |

## Left out

- Services, controllers, routes, the Express application and the middleware are not part of this model. Persistence (`findAndCountAll`, `findByPk`, `create`, `update`, `destroy`), the association `include`, error mapping to status 500, logging and response writing are I/O. The middleware only calls the validators modelled here.
- The services hand the builder Joi's converted value (services/puertoService.js:33-42), but the builder here takes the raw strings. `Pipeline` proves that the builder, run on the raw strings, yields the values Joi converted: page size, offset, sort term, numeric filters and bounds, and booleans written `true`/`false`. That the source's builder leaves an already converted value unchanged is not modelled. This covers `parseInt` on a number and `parseValue` on a number, a boolean or a `Date`. Dates and booleans in other casing are not modelled either.
- Unknown query and body keys are rejected, as the request tests require. With `stripUnknown: true` (middleware/validateQuery.js:28-31) Joi could strip them instead. Which of the two Joi lets win is not modelled.
- Schema.NumberOf: a string converts only when it matches `-?\d+(\.\d+)?`. Joi's `number()` also converts strings with surrounding white space, a leading `+`, a missing integer or fraction part (`.5`, `5.`, `-.5`) or an exponent (`1e3`), which the model refuses.
- Schema.Convert: only integer rules are bounded by ±(2^53 − 1). Joi's plain `number()` also refuses values outside that range (`number.unsafe`), and strings whose value does not survive conversion to a double. The model accepts them, for example `calado_m: 1e16` in a berth patch.
- OrderValidator.ValidateOrder: for the empty string it reports both the pattern and the field rule. Joi's `string()` stops at its own empty-string error and runs neither rule. At the schema level both make `order` invalid.
- All numbers are exact: integers are unbounded and numbers are reals. Double rounding (`Number("0.1")`), the 2^53 precision limit and exponent forms of `String(n)` are not modelled.
- IdValidator.ValidateId: every canonical positive decimal (digits only, no leading zero) passes here. The source's `parseInt` yields a double, and the identifier passes only if `String` of that double prints the same digits. So the source refuses an identifier whose nearest double prints differently, such as `9007199254740993`, and every identifier from 10^21 up, which `String` prints in exponent form. It still accepts larger identifiers whose double prints back unchanged, such as `9007199254740994` (2^53 + 2) and `100000000000000000000` (10^20).
- Date parsing and validity are a parameter (`DateParser`). Only the time value's range for numbers and the ordering of two dates are modelled.
- String lengths count Dafny characters (code points), not UTF-16 code units as JavaScript does.
- `concat` is modelled for disjoint key sets (`NoReservedNames`). Neither entity has an attribute called `limit`, `offset` or `order`.
- Errors are sets of violations (key and kind). Joi's ordered error details, messages and the `ApiError` wrapper's message for query and body failures are not modelled. The identifier's error is modelled as its message and status.
- Choosing a parameter key in a `for...in` loop is nondeterministic, so every visiting order is covered. JavaScript's own property order is not modelled.
- utils/validateId.js, validators/puertoValidator.js and validators/muelleValidator.js are earlier revisions that the routes do not use. They are not part of this model.
