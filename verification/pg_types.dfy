/**
 The host-side vocabulary the value bridge works with: Postgres type
 identifiers (Oid), the tagged machine word (Datum), the header of a
 Postgres array, and the foreign services the bridge consults.

 The catalog predicates (`type_is_rowtype`, `type_is_array`) and the
 `DatumGet*` decode macros reinterpret memory this model cannot see, so they
 are carried as fields of two records of total functions: every lemma about
 the bridge holds for every catalog and every decoder.
 */
module PgTypes {

  /** Postgres `Oid`: an unsigned 32-bit type identifier. */
  type Oid = x: int | 0 <= x < 0x1_0000_0000

  /** Postgres `Datum`: a 64-bit tagged word, an inline value or a pointer. */
  type Datum = x: int | 0 <= x < 0x1_0000_0000_0000_0000

  /** The scalar type identifiers of the Postgres system catalog. */
  const BOOLOID: Oid := 16
  const INT8OID: Oid := 20
  const INT2OID: Oid := 21
  const INT4OID: Oid := 23
  const FLOAT4OID: Oid := 700
  const FLOAT8OID: Oid := 701

  /** C fixed-width integers, as the `DatumGetInt*` macros return them. */
  type Int16 = x: int | -0x8000 <= x < 0x8000
  type Int32 = x: int | -0x8000_0000 <= x < 0x8000_0000
  type Int64 = x: int | -0x8000_0000_0000_0000 <= x < 0x8000_0000_0000_0000

  /** Floating-point payloads are carried opaquely, by their bit patterns. */
  datatype Float4 = Float4(bits: bv32)
  datatype Float8 = Float8(bits: bv64)

  /** An opaque reference to a composite (row) value, `HeapTupleHeader`. */
  datatype TupleHeader = TupleHeader(address: Datum)

  /**
   The fields of a Postgres `ArrayType` header the bridge reads:
   `ARR_NDIM`, `ARR_DIMS`, `ARR_HASNULL` and `ARR_ELEMTYPE`.
   */
  datatype ArrayHeader = ArrayHeader(ndim: int, dims: seq<int>, hasNull: bool, elemType: Oid)
  {
    /** Postgres keeps one non-negative length per dimension. */
    predicate WellFormed() {
      0 <= ndim && |dims| == ndim && forall i :: 0 <= i < |dims| ==> 0 <= dims[i]
    }
  }

  /** The array headers a Postgres array datum can decode to. */
  type PgArray = a: ArrayHeader | a.WellFormed() witness ArrayHeader(0, [], false, 0)

  /** The type-catalog service: `type_is_rowtype` and `type_is_array`. */
  datatype Catalog = Catalog(isRowtype: Oid -> bool, isArray: Oid -> bool)

  /**
   The datum decoders: `DatumGetBool`, `DatumGetInt16`, `DatumGetInt32`,
   `DatumGetInt64`, `DatumGetFloat4`, `DatumGetFloat8`,
   `DatumGetHeapTupleHeader` and `DatumGetArrayTypeP`.
   */
  datatype Decoders = Decoders(
    getBool: Datum -> bool,
    getInt16: Datum -> Int16,
    getInt32: Datum -> Int32,
    getInt64: Datum -> Int64,
    getFloat4: Datum -> Float4,
    getFloat8: Datum -> Float8,
    getTuple: Datum -> TupleHeader,
    getArray: Datum -> PgArray)
}
