/**
 Concrete conversions against a small excerpt of the Postgres catalog:
 the float8 and text array types and the six scalar types.
 */
module Scenarios {
  import opened PgTypes
  import opened ScalarTypes
  import opened PgAbstractValue
  import opened BridgeDesign

  /** `_float8` and `_text`, the array types of float8 and text. */
  const FLOAT8ARRAYOID: Oid := 1022
  const TEXTARRAYOID: Oid := 1009
  const TEXTOID: Oid := 25

  /** No row types; the two array types above. */
  const PgCatalog := Catalog(t => false, t => t == FLOAT8ARRAYOID || t == TEXTARRAYOID)

  /** The array header each datum word stands for in these scenarios. */
  function HeaderOf(d: Datum): PgArray {
    if d == 1 then ArrayHeader(1, [3], false, FLOAT8OID)
    else if d == 2 then ArrayHeader(2, [2, 2], false, FLOAT8OID)
    else if d == 3 then ArrayHeader(1, [3], true, FLOAT8OID)
    else if d == 4 then ArrayHeader(2, [2, 2], true, FLOAT8OID)
    else ArrayHeader(1, [2], false, TEXTOID)
  }

  /** Decoders that read a boolean as "word is not zero". */
  const Dec := Decoders(
    d => d != 0,
    d => 0,
    d => 0,
    d => 0,
    d => Float4(0),
    d => Float8(0),
    (d: Datum) => TupleHeader(d),
    HeaderOf)

  /** Boolean type, encoded true: a boolean value holding true. */
  lemma BooleanTrue(w: bool)
    ensures DatumToValue(w, BOOLOID, 1, PgCatalog, Dec) == Value(ScalarValue(BoolValue(true)))
  {
  }

  /** One-dimensional float8 array of three elements, read-only request. */
  lemma Float8ArrayOfThree()
    ensures DatumToValue(false, FLOAT8ARRAYOID, 1, PgCatalog, Dec)
      == Value(Float8ArrayValue(false, ArrayHeader(1, [3], false, FLOAT8OID), 3))
  {
  }

  /** Two-dimensional arrays are rejected whether or not the has-null flag is set. */
  lemma TwoDimensionalArrays()
    ensures DatumToValue(true, FLOAT8ARRAYOID, 2, PgCatalog, Dec) == InvalidArgument(MultidimensionalMessage)
    ensures DatumToValue(true, FLOAT8ARRAYOID, 4, PgCatalog, Dec) == InvalidArgument(MultidimensionalMessage)
  {
  }

  /** A one-dimensional array whose has-null flag is set is rejected. */
  lemma ArrayWithNull()
    ensures DatumToValue(true, FLOAT8ARRAYOID, 3, PgCatalog, Dec) == InvalidArgument(NullsMessage)
  {
  }

  /** A text array has no decode strategy: no value, no exception. */
  lemma TextArrayYieldsNull(w: bool)
    ensures DatumToValue(w, TEXTARRAYOID, 5, PgCatalog, Dec) == NullValue
  {
  }

  /** The six scalar types are not array types in this catalog. */
  lemma CatalogKeepsScalarsApart()
    ensures ScalarIdsAreNotArrays(PgCatalog)
  {
  }

  /**
   In this catalog the conversion agrees with its default-case form on
   every type, every datum and every decoder.
   */
  lemma {:induction false} PgCatalogMeetsDefaultCaseForm(w: bool, t: Oid, d: Datum, dec: Decoders)
    ensures DatumToValue(w, t, d, PgCatalog, dec) == DesignToValue(w, t, d, PgCatalog, dec)
  {
    CatalogKeepsScalarsApart();
    ValueClassMatchesTypeClass(w, t, d, PgCatalog, dec);
  }

  /**
   A catalog that marks float8 itself as an array type reaches the
   fall-through: a text array header under the float8 identifier decodes
   as a float8 scalar, where the default-case form yields no value.
   */
  lemma MisclassifiedScalarFallsThrough()
    ensures DatumToValue(false, FLOAT8OID, 5, Catalog(t => false, t => t == FLOAT8OID), Dec)
      == Value(ScalarValue(Float8Value(Float8(0))))
    ensures DesignToValue(false, FLOAT8OID, 5, Catalog(t => false, t => t == FLOAT8OID), Dec) == NullValue
  {
  }
}
