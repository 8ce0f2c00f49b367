/**
 `PGAbstractValue::DatumToValue`: the conversion of a Postgres datum, given
 its type identifier, into a typed value object.

 The outcome is one of three things: a value object behind an
 `AbstractValueSPtr`, a null `AbstractValueSPtr` (no decode strategy for the
 type), or a thrown `std::invalid_argument` for array shapes the bridge does
 not support.
 */
module PgAbstractValue {
  import opened PgTypes
  import opened ScalarTypes

  /** The value objects the conversion constructs (the `ConcreteValue<T>` instances). */
  datatype AbstractValue =
      /** `PGValue<HeapTupleHeader>`: a row passed through undecoded. */
    | RowValue(tuple: TupleHeader)
      /**
       `ConcreteValue<Array<double>>` when `writable`, else
       `ConcreteValue<Array_const<double>>`: a one-dimensional view of
       `extent` float8 elements over the array `handle` wraps.
       */
    | Float8ArrayValue(writable: bool, handle: PgArray, extent: nat)
      /** `ConcreteValue<T>` for one of the six scalar payload types. */
    | ScalarValue(scalar: Scalar)

  /** What a call to the conversion ends in. */
  datatype Conversion =
    | Value(value: AbstractValue)
    | NullValue
    | InvalidArgument(message: string)

  const MultidimensionalMessage := "Multidimensional arrays not yet supported"
  const NullsMessage := "Arrays with NULLs not yet supported"

  /** An array the bridge accepts: exactly one dimension and the has-null flag clear. */
  predicate SupportedShape(a: PgArray) {
    a.ndim == 1 && !a.hasNull
  }

  /**
   True when control reaches the scalar switch: the type is not a row type,
   and it is either not an array type or an array of a supported shape whose
   element type has no case in the element-type switch.
   */
  predicate ReachesScalarSwitch(t: Oid, d: Datum, cat: Catalog, dec: Decoders) {
    && !cat.isRowtype(t)
    && (cat.isArray(t) ==> SupportedShape(dec.getArray(d)) && dec.getArray(d).elemType != FLOAT8OID)
  }

  /**
   The switch on the type identifier that ends the conversion: a scalar
   value for the six scalar identifiers, a null result otherwise.
   */
  function ScalarSwitch(t: Oid, d: Datum, dec: Decoders): (r: Conversion)
    ensures !r.InvalidArgument?
    ensures r.Value? <==> t in ScalarOids
    ensures r.Value? ==> r.value.ScalarValue?
    ensures r.Value? ==> ScalarOid(r.value.scalar.Kind()) == t
    ensures r.Value? ==> r.value.scalar == Decode(r.value.scalar.Kind(), d, dec)
  {
    match ScalarKindOf(t)
    case Some(k) => Value(ScalarValue(Decode(k, d, dec)))
    case None => NullValue
  }

  /**
   The conversion. Row types are tested first, then array types; an array
   that passes both shape checks and does not hold float8 elements falls
   through, as a non-array type does, to the scalar switch on the type
   identifier itself.
   */
  function DatumToValue(writable: bool, t: Oid, d: Datum, cat: Catalog, dec: Decoders): (r: Conversion)
    // row types take precedence over every other classification
    ensures cat.isRowtype(t) ==> r == Value(RowValue(dec.getTuple(d)))
    ensures r.Value? && r.value.RowValue? ==> cat.isRowtype(t)
    // an exception is thrown exactly for an array of an unsupported shape,
    // and the dimension check comes before the has-null check
    ensures r.InvalidArgument? <==> !cat.isRowtype(t) && cat.isArray(t) && !SupportedShape(dec.getArray(d))
    ensures r.InvalidArgument? ==>
      r.message == (if dec.getArray(d).ndim != 1 then MultidimensionalMessage else NullsMessage)
    // a float8 array view exactly for a supported array of float8 elements;
    // it wraps the decoded array, has its single extent, and is writable
    // exactly when writable memory was requested
    ensures r.Value? && r.value.Float8ArrayValue? <==>
      !cat.isRowtype(t) && cat.isArray(t) && SupportedShape(dec.getArray(d)) && dec.getArray(d).elemType == FLOAT8OID
    ensures r.Value? && r.value.Float8ArrayValue? ==>
      && r.value.handle == dec.getArray(d)
      && r.value.handle.dims == [r.value.extent]
      && r.value.writable == writable
    // a scalar exactly when the scalar switch is reached with one of its six
    // identifiers; its payload type matches the identifier and it holds the
    // matching decode of the datum
    ensures r.Value? && r.value.ScalarValue? <==> ReachesScalarSwitch(t, d, cat, dec) && t in ScalarOids
    ensures r.Value? && r.value.ScalarValue? ==>
      && ScalarOid(r.value.scalar.Kind()) == t
      && r.value.scalar == Decode(r.value.scalar.Kind(), d, dec)
    // no value and no exception exactly when the scalar switch finds no case
    ensures r.NullValue? <==> ReachesScalarSwitch(t, d, cat, dec) && t !in ScalarOids
  {
    if cat.isRowtype(t) then
      Value(RowValue(dec.getTuple(d)))
    else if cat.isArray(t) then
      var a := dec.getArray(d);
      if a.ndim != 1 then InvalidArgument(MultidimensionalMessage)
      else if a.hasNull then InvalidArgument(NullsMessage)
      else if a.elemType == FLOAT8OID then Value(Float8ArrayValue(writable, a, a.dims[0]))
      else ScalarSwitch(t, d, dec)
    else
      ScalarSwitch(t, d, dec)
  }

  /** The conversion result with any array view made read-only. */
  function AsConst(r: Conversion): Conversion {
    if r.Value? && r.value.Float8ArrayValue? then Value(r.value.(writable := false)) else r
  }

  /**
   The writability request selects between the mutable and the read-only
   float8 array view and has no other effect on the outcome.
   */
  lemma WritableSelectsOnlyArrayVariant(t: Oid, d: Datum, cat: Catalog, dec: Decoders)
    ensures AsConst(DatumToValue(true, t, d, cat, dec)) == DatumToValue(false, t, d, cat, dec)
    ensures DatumToValue(true, t, d, cat, dec) != DatumToValue(false, t, d, cat, dec) <==>
      DatumToValue(false, t, d, cat, dec).Value? && DatumToValue(false, t, d, cat, dec).value.Float8ArrayValue?
  {
  }

  /**
   An array that is not one-dimensional is rejected with the dimension
   message whether or not its has-null flag is also set.
   */
  lemma DimensionCheckPrecedesNullCheck(w: bool, t: Oid, d: Datum, cat: Catalog, dec: Decoders)
    requires !cat.isRowtype(t) && cat.isArray(t)
    requires dec.getArray(d).ndim != 1
    ensures DatumToValue(w, t, d, cat, dec) == InvalidArgument(MultidimensionalMessage)
  {
  }

  /**
   A Postgres empty array has zero dimensions, so it is rejected with the
   message for multidimensional arrays.
   */
  lemma EmptyArrayReportsMultidimensional(w: bool, t: Oid, d: Datum, cat: Catalog, dec: Decoders)
    requires !cat.isRowtype(t) && cat.isArray(t)
    requires dec.getArray(d).dims == []
    ensures DatumToValue(w, t, d, cat, dec) == InvalidArgument(MultidimensionalMessage)
  {
  }

  /**
   A supported array whose element type is not float8 neither throws nor
   yields an array: it ends in the scalar switch on the array's own type
   identifier, and so yields no value unless that identifier is a scalar one.
   */
  lemma NonFloat8ArrayFallsThrough(w: bool, t: Oid, d: Datum, cat: Catalog, dec: Decoders)
    requires !cat.isRowtype(t) && cat.isArray(t)
    requires SupportedShape(dec.getArray(d)) && dec.getArray(d).elemType != FLOAT8OID
    ensures DatumToValue(w, t, d, cat, dec) == ScalarSwitch(t, d, dec)
    ensures t !in ScalarOids ==> DatumToValue(w, t, d, cat, dec) == NullValue
  {
  }

  /**
   A type that is neither a row nor an array type and is not a scalar
   identifier yields no value, never an exception.
   */
  lemma UnknownTypeYieldsNull(w: bool, t: Oid, d: Datum, cat: Catalog, dec: Decoders)
    requires !cat.isRowtype(t) && !cat.isArray(t) && t !in ScalarOids
    ensures DatumToValue(w, t, d, cat, dec) == NullValue
  {
  }

  /**
   Each scalar identifier that the catalog classifies as neither row nor
   array yields the matching decode of the datum, whatever the writability
   request.
   */
  lemma ScalarTypeDecodes(k: ScalarKind, w: bool, d: Datum, cat: Catalog, dec: Decoders)
    requires !cat.isRowtype(ScalarOid(k)) && !cat.isArray(ScalarOid(k))
    ensures DatumToValue(w, ScalarOid(k), d, cat, dec) == Value(ScalarValue(Decode(k, d, dec)))
  {
  }
}
