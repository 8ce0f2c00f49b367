/**
 The six scalar Postgres types the bridge decodes, the switch that
 recognises their type identifiers, and the typed payloads it produces.
 */
module ScalarTypes {
  import opened PgTypes

  datatype Option<+T> = None | Some(value: T)

  /** The C++ payload type a scalar is wrapped in: bool, int16_t, int32_t, int64_t, float, double. */
  datatype ScalarKind = BoolKind | Int16Kind | Int32Kind | Int64Kind | Float4Kind | Float8Kind

  /** A decoded scalar, held by a `ConcreteValue<T>`. */
  datatype Scalar =
    | BoolValue(b: bool)
    | Int16Value(i16: Int16)
    | Int32Value(i32: Int32)
    | Int64Value(i64: Int64)
    | Float4Value(f4: Float4)
    | Float8Value(f8: Float8)
  {
    /** The payload type of this scalar. */
    function Kind(): ScalarKind {
      match this
      case BoolValue(_) => BoolKind
      case Int16Value(_) => Int16Kind
      case Int32Value(_) => Int32Kind
      case Int64Value(_) => Int64Kind
      case Float4Value(_) => Float4Kind
      case Float8Value(_) => Float8Kind
    }
  }

  /** The type identifiers that have a case in the scalar switch. */
  const ScalarOids: set<Oid> := {BOOLOID, INT2OID, INT4OID, INT8OID, FLOAT4OID, FLOAT8OID}

  /** The catalog type identifier each payload type is decoded from. */
  function ScalarOid(k: ScalarKind): (t: Oid)
    ensures t in ScalarOids
  {
    match k
    case BoolKind => BOOLOID
    case Int16Kind => INT2OID
    case Int32Kind => INT4OID
    case Int64Kind => INT8OID
    case Float4Kind => FLOAT4OID
    case Float8Kind => FLOAT8OID
  }

  /**
   The scalar switch on a type identifier: the payload type its case
   constructs, or None when no case matches and control leaves the switch.
   */
  function ScalarKindOf(t: Oid): (r: Option<ScalarKind>)
    ensures r.Some? <==> t in ScalarOids
    ensures r.Some? ==> ScalarOid(r.value) == t
  {
    if t == BOOLOID then Some(BoolKind)
    else if t == INT2OID then Some(Int16Kind)
    else if t == INT4OID then Some(Int32Kind)
    else if t == INT8OID then Some(Int64Kind)
    else if t == FLOAT4OID then Some(Float4Kind)
    else if t == FLOAT8OID then Some(Float8Kind)
    else None
  }

  /** Each payload type is recognised from its own type identifier. */
  lemma ScalarOidRoundTrip(k: ScalarKind)
    ensures ScalarKindOf(ScalarOid(k)) == Some(k)
  {
  }

  /** Distinct payload types are decoded from distinct type identifiers. */
  lemma ScalarOidInjective(k1: ScalarKind, k2: ScalarKind)
    ensures ScalarOid(k1) == ScalarOid(k2) <==> k1 == k2
  {
  }

  /** The `DatumGet*` decode of a datum matching a payload type. */
  function Decode(k: ScalarKind, d: Datum, dec: Decoders): (s: Scalar)
    ensures s.Kind() == k
    ensures s.BoolValue? ==> s.b == dec.getBool(d)
    ensures s.Int16Value? ==> s.i16 == dec.getInt16(d)
    ensures s.Int32Value? ==> s.i32 == dec.getInt32(d)
    ensures s.Int64Value? ==> s.i64 == dec.getInt64(d)
    ensures s.Float4Value? ==> s.f4 == dec.getFloat4(d)
    ensures s.Float8Value? ==> s.f8 == dec.getFloat8(d)
  {
    match k
    case BoolKind => BoolValue(dec.getBool(d))
    case Int16Kind => Int16Value(dec.getInt16(d))
    case Int32Kind => Int32Value(dec.getInt32(d))
    case Int64Kind => Int64Value(dec.getInt64(d))
    case Float4Kind => Float4Value(dec.getFloat4(d))
    case Float8Kind => Float8Value(dec.getFloat8(d))
  }
}
