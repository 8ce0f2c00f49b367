# MADlib Postgres value bridge: `PGAbstractValue::DatumToValue`

MADlib's Postgres connector has to turn a Postgres `Datum` into a typed value
object that algorithm code can use. The datum comes with its type `Oid` and a
flag saying whether the memory it points to may be written. This project
models that conversion in Dafny and proves what it promises.

The conversion has one of three outcomes:

- a value object:
  - a row passed through as a `HeapTupleHeader`;
  - a one-dimensional float8 array view, mutable (`Array<double>`) or
    read-only (`Array_const<double>`);
  - one of six scalars: bool, int16, int32, int64, float4 or float8;
- a null `AbstractValueSPtr`, meaning the type has no decode strategy;
- a thrown `std::invalid_argument` for an array whose dimension count is not
  1 or whose has-null flag is set.

Files:

- `pg_types.dfy` (module `PgTypes`): `Oid`, `Datum`, the Postgres scalar type
  identifiers, the array header fields the conversion reads, and two records
  of total functions. `Catalog` stands for `type_is_rowtype` and
  `type_is_array`. `Decoders` stands for the `DatumGet*` macros. Every
  property below holds for every catalog and every decoder, provided the
  array decoder returns well-formed Postgres array headers (see
  "## Left out").
- `scalar_types.dfy` (module `ScalarTypes`): the six scalar payload types,
  the switch on the type identifier, its inverse, and the decode of a datum
  into the matching payload.
- `pg_abstract_value.dfy` (module `PgAbstractValue`): the conversion itself,
  its outcome types, and the properties it has.
- `bridge_design.dfy` (module `BridgeDesign`): the conversion with the
  default case that the `// FIXME: Default case` comment at
  `src/ports/postgres/dbconnector/PGAbstractValue.cpp:62` asks for. In this
  default-case form, an array whose element type has no strategy returns a
  null `AbstractValueSPtr`, as line 81 does for unknown types. It
  classifies the type once (row, array or scalar) and picks a strategy per
  class, looking scalars up in a table. A lemma characterises exactly when
  the conversion as written agrees with this form.
- `scenarios.dfy` (module `Scenarios`): concrete conversions against a small
  excerpt of the Postgres catalog.

The scalar type identifiers are the values of the Postgres system catalog:
`BOOLOID` 16, `INT8OID` 20, `INT2OID` 21, `INT4OID` 23, `FLOAT4OID` 700 and
`FLOAT8OID` 701.

### The missing default case

The element-type switch has no default case, only a
`// FIXME: Default case` comment
(`src/ports/postgres/dbconnector/PGAbstractValue.cpp:62`). For an array
whose element type is not float8, control therefore leaves the array branch
and reaches the scalar switch on the array's *own* type identifier (line 66).
`PgAbstractValue` models the code as written. `BridgeDesign.DesignToValue` is
the same conversion with the default case filled in: it returns a null
`AbstractValueSPtr`, as line 81 does.

`BridgeDesign.ImplementationMeetsDesign` proves the two agree except in one
case. That case is a type the catalog calls an array type, whose shape is
accepted, whose element type is not float8, and whose identifier is one of
the six scalar identifiers. The Postgres catalog has no such type, so there
the code as written yields no value, as the default-case form does
(`BridgeDesign.ValueClassMatchesTypeClass`, applied to a catalog excerpt in
`Scenarios.PgCatalogMeetsDefaultCaseForm`). Under a catalog that does have
one, the code decodes the array datum as a scalar
(`Scenarios.MisclassifiedScalarFallsThrough`).

A Postgres empty array (`'{}'`) has zero dimensions. It is therefore rejected
with the message for multidimensional arrays
(`PgAbstractValue.EmptyArrayReportsMultidimensional`).

## Model

| member | source | states |
|---|---|---|
| `PgAbstractValue.DatumToValue` | src/ports/postgres/dbconnector/PGAbstractValue.cpp:26-82 | Row types win over every other classification. An exception is thrown exactly for a non-row array type whose array is not one-dimensional or has its has-null flag set, and the dimension message takes precedence. A float8 array view is returned exactly for a supported array of float8 elements: it wraps the decoded array, has its single extent, and is writable exactly as requested. A scalar is returned exactly when the scalar switch is reached with a scalar identifier, and its payload type matches that identifier. No value is returned exactly when that switch finds no case. |
| `PgAbstractValue.ScalarSwitch` | src/ports/postgres/dbconnector/PGAbstractValue.cpp:66-81 | Never throws. Yields a value exactly for the six scalar identifiers. That value is a scalar whose payload type is the one the identifier names, holding the matching decode of the datum. |
| `PgAbstractValue.WritableSelectsOnlyArrayVariant` | src/ports/postgres/dbconnector/PGAbstractValue.cpp:46-59 | Making any array view read-only turns the writable outcome into the read-only one. The two requests differ exactly when the outcome is a float8 array view. |
| `PgAbstractValue.DimensionCheckPrecedesNullCheck` | src/ports/postgres/dbconnector/PGAbstractValue.cpp:36-40 | An array of a non-row array type with a dimension count other than 1 fails with "Multidimensional arrays not yet supported", whether or not its has-null flag is set. |
| `PgAbstractValue.EmptyArrayReportsMultidimensional` | src/ports/postgres/dbconnector/PGAbstractValue.cpp:36-37 | A zero-dimensional (empty) array also fails with the multidimensional message. |
| `PgAbstractValue.NonFloat8ArrayFallsThrough` | src/ports/postgres/dbconnector/PGAbstractValue.cpp:62-81 | A supported array with another element type neither throws nor yields an array. Its outcome is the scalar switch on the array's own type identifier, which yields no value unless that identifier is a scalar one. |
| `PgAbstractValue.UnknownTypeYieldsNull` | src/ports/postgres/dbconnector/PGAbstractValue.cpp:81 | A type that is neither row nor array and matches no scalar identifier yields no value, never an exception. |
| `PgAbstractValue.ScalarTypeDecodes` | src/ports/postgres/dbconnector/PGAbstractValue.cpp:66-78 | Each scalar identifier of a type that is neither row nor array yields that payload type's decode of the datum, whatever the writability request. |
| `ScalarTypes.ScalarKindOf` | src/ports/postgres/dbconnector/PGAbstractValue.cpp:66-79 | The switch recognises exactly the six scalar identifiers. The payload type it picks maps back to the identifier it was given. |
| `ScalarTypes.ScalarOid` | src/ports/postgres/dbconnector/PGAbstractValue.cpp:66-79 | Every payload type is decoded from one of the six scalar identifiers. |
| `ScalarTypes.ScalarOidRoundTrip` | src/ports/postgres/dbconnector/PGAbstractValue.cpp:66-79 | Each payload type is recognised from its own identifier. |
| `ScalarTypes.ScalarOidInjective` | src/ports/postgres/dbconnector/PGAbstractValue.cpp:66-79 | Distinct payload types come from distinct identifiers, so the mapping is one-to-one. |
| `ScalarTypes.Decode` | src/ports/postgres/dbconnector/PGAbstractValue.cpp:67-78 | The decoded scalar has the requested payload type and holds the output of that type's `DatumGet*` decoder. |
| `BridgeDesign.Classify` | src/ports/postgres/dbconnector/PGAbstractValue.cpp:30-33 | A type is a row type exactly when the catalog says so. It is an array type exactly when the catalog says it is an array type and not a row type. |
| `BridgeDesign.Lookup` | src/ports/postgres/dbconnector/PGAbstractValue.cpp:66-79 | A table lookup finds an entry exactly when the table holds the identifier, and it returns the first such entry. |
| `BridgeDesign.ScalarTableIsOneToOne` | src/ports/postgres/dbconnector/PGAbstractValue.cpp:66-79 | The scalar table has no repeated identifier and no repeated payload type, and it lists every payload type with its identifier. |
| `BridgeDesign.SwitchIsTableLookup` | src/ports/postgres/dbconnector/PGAbstractValue.cpp:66-79 | The scalar switch agrees with the table lookup on every identifier. |
| `BridgeDesign.DesignToValue` | src/ports/postgres/dbconnector/PGAbstractValue.cpp:26-82 | In the default-case form, every value matches its type's classification, only array types throw, and every unsupported array shape throws. |
| `BridgeDesign.ImplementationMeetsDesign` | src/ports/postgres/dbconnector/PGAbstractValue.cpp:42-66 | The code as written agrees with the default-case form exactly when the fall-through case is not hit, that is unless an accepted non-float8 array reaches the scalar switch under a scalar identifier. |
| `BridgeDesign.FallThroughYieldsScalarForArrayType` | src/ports/postgres/dbconnector/PGAbstractValue.cpp:62-78 | In that fall-through case the code returns a scalar for an array type, while the default-case form returns no value. |
| `BridgeDesign.ValueClassMatchesTypeClass` | src/ports/postgres/dbconnector/PGAbstractValue.cpp:26-82 | When no scalar identifier is an array type, the code as written equals the default-case form, and every value it returns is of its type's class. |
| `Scenarios.BooleanTrue` | src/ports/postgres/dbconnector/PGAbstractValue.cpp:67-68 | A boolean datum encoding true yields a boolean value holding true. |
| `Scenarios.Float8ArrayOfThree` | src/ports/postgres/dbconnector/PGAbstractValue.cpp:43-60 | A read-only request for a one-dimensional float8 array of length 3 yields a read-only view with extent 3. |
| `Scenarios.TwoDimensionalArrays` | src/ports/postgres/dbconnector/PGAbstractValue.cpp:36-37 | Two-dimensional arrays are rejected with the multidimensional message, whether or not the has-null flag is set. |
| `Scenarios.ArrayWithNull` | src/ports/postgres/dbconnector/PGAbstractValue.cpp:39-40 | A one-dimensional array whose has-null flag is set is rejected with the NULL message. |
| `Scenarios.TextArrayYieldsNull` | src/ports/postgres/dbconnector/PGAbstractValue.cpp:62-81 | A text array yields no value and no exception. |
| `Scenarios.PgCatalogMeetsDefaultCaseForm` | src/ports/postgres/dbconnector/PGAbstractValue.cpp:62-81 | In the catalog excerpt, the code as written equals the default-case form on every type, datum and decoder. |
| `Scenarios.CatalogKeepsScalarsApart` | src/ports/postgres/dbconnector/PGAbstractValue.cpp:33 | In the catalog excerpt, none of the six scalar types is an array type. |
| `Scenarios.MisclassifiedScalarFallsThrough` | src/ports/postgres/dbconnector/PGAbstractValue.cpp:62-78 | A catalog that calls float8 an array type makes a text array header decode as a float8 scalar, where the default-case form gives no value. |

## Left out

- `type_is_rowtype`, `type_is_array` and the array header macros (`ARR_NDIM`, `ARR_DIMS`, `ARR_HASNULL`, `ARR_ELEMTYPE`): these are Postgres catalog and memory-layout code. They appear as fields of the `Catalog` record and of the decoded `ArrayHeader`.
- `DatumGetBool`, `DatumGetInt16/32/64`, `DatumGetFloat4/8`, `DatumGetHeapTupleHeader` and `DatumGetArrayTypeP`: these reinterpret raw memory (and may detoast). They appear as the uninterpreted functions of `Decoders`. Only their result types are fixed, as C fixed-width integers.
- Array headers are assumed well-formed, as Postgres lays them out: the dimension count is non-negative, there is one length per dimension, and every length is non-negative (`PgTypes.PgArray`). The properties say nothing about a decoder that returns any other header.
- Floating-point semantics: float4 and float8 payloads are carried opaquely as bit patterns.
- `PGArrayHandle`, `MemHandleSPtr` and shared-pointer reference counting: these manage foreign memory lifetime. The array view records the decoded array header as its handle.
- Element indexing, bounds checks and the zero-copy aliasing of `Array`/`Array_const`: that code is not part of this model, so a view carries only its extent, writability and handle.
- The `AbstractValue` capability interface (`as<T>()` and friends): it is defined outside `PGAbstractValue.cpp` and is not part of this model. `BridgeDesign.ClassOf` stands in for asking a value its kind.
