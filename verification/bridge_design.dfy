/**
 The conversion with the default case that the FIXME in the element-type
 switch asks for: an array whose element type has no decode strategy yields
 a null value object, as an unknown type does at the end of the conversion.
 It is written as one classification into row, array or scalar, followed by
 one strategy per class, with scalar identifiers looked up in a fixed table.

 The conversion in `PgAbstractValue` has no default case. It falls through
 to the scalar switch on the array's own type identifier instead. The lemmas
 below show the two agree exactly when that identifier is not a scalar one.
 */
module BridgeDesign {
  import opened PgTypes
  import opened ScalarTypes
  import opened PgAbstractValue

  datatype TypeClass = RowClass | ArrayClass | ScalarClass

  /** Row beats array beats scalar. */
  function Classify(t: Oid, cat: Catalog): (c: TypeClass)
    ensures c == RowClass <==> cat.isRowtype(t)
    ensures c == ArrayClass <==> !cat.isRowtype(t) && cat.isArray(t)
  {
    if cat.isRowtype(t) then RowClass
    else if cat.isArray(t) then ArrayClass
    else ScalarClass
  }

  /** The class a value object answers when asked for its kind. */
  function ClassOf(v: AbstractValue): TypeClass {
    match v
    case RowValue(_) => RowClass
    case Float8ArrayValue(_, _, _) => ArrayClass
    case ScalarValue(_) => ScalarClass
  }

  /** The scalar decode strategies, one entry per recognised type identifier. */
  const ScalarTable: seq<(Oid, ScalarKind)> := [
    (BOOLOID, BoolKind),
    (INT2OID, Int16Kind),
    (INT4OID, Int32Kind),
    (INT8OID, Int64Kind),
    (FLOAT4OID, Float4Kind),
    (FLOAT8OID, Float8Kind)
  ]

  /** The first entry of `table` for type identifier `t`, if any. */
  function Lookup(table: seq<(Oid, ScalarKind)>, t: Oid): (r: Option<ScalarKind>)
    ensures r.Some? <==> exists i :: 0 <= i < |table| && table[i].0 == t
    ensures r.Some? ==> exists i ::
      && 0 <= i < |table|
      && table[i] == (t, r.value)
      && forall j :: 0 <= j < i ==> table[j].0 != t
  {
    if |table| == 0 then None
    else if table[0].0 == t then Some(table[0].1)
    else
      var r := Lookup(table[1..], t);
      assert forall i :: 0 < i < |table| ==> table[i] == table[1..][i - 1];
      r
  }

  /** Every identifier and every payload type appears in the table exactly once. */
  lemma ScalarTableIsOneToOne()
    ensures forall i, j :: 0 <= i < j < |ScalarTable| ==> ScalarTable[i].0 != ScalarTable[j].0
    ensures forall i, j :: 0 <= i < j < |ScalarTable| ==> ScalarTable[i].1 != ScalarTable[j].1
    ensures forall k: ScalarKind :: (ScalarOid(k), k) in ScalarTable
  {
  }

  /** The scalar switch of the implementation is a lookup in the table. */
  lemma {:induction false} SwitchIsTableLookup(t: Oid)
    ensures ScalarKindOf(t) == Lookup(ScalarTable, t)
  {
    var r := Lookup(ScalarTable, t);
    if r.Some? {
      var i :| 0 <= i < |ScalarTable| && ScalarTable[i] == (t, r.value);
      assert ScalarOid(r.value) == t;
    } else {
      assert forall i :: 0 <= i < |ScalarTable| ==> ScalarTable[i].0 != t;
      assert t != ScalarTable[0].0 && t != ScalarTable[1].0 && t != ScalarTable[2].0;
      assert t != ScalarTable[3].0 && t != ScalarTable[4].0 && t != ScalarTable[5].0;
    }
  }

  /** The conversion with a default case in the element-type switch: one classification, one strategy per class. */
  function DesignToValue(writable: bool, t: Oid, d: Datum, cat: Catalog, dec: Decoders): (r: Conversion)
    ensures r.Value? ==> ClassOf(r.value) == Classify(t, cat)
    ensures r.InvalidArgument? ==> Classify(t, cat) == ArrayClass
    ensures Classify(t, cat) == ArrayClass && !SupportedShape(dec.getArray(d)) ==> r.InvalidArgument?
  {
    match Classify(t, cat)
    case RowClass => Value(RowValue(dec.getTuple(d)))
    case ArrayClass =>
      var a := dec.getArray(d);
      if a.ndim != 1 then InvalidArgument(MultidimensionalMessage)
      else if a.hasNull then InvalidArgument(NullsMessage)
      else if a.elemType == FLOAT8OID then Value(Float8ArrayValue(writable, a, a.dims[0]))
      else NullValue
    case ScalarClass =>
      match Lookup(ScalarTable, t)
      case Some(k) => Value(ScalarValue(Decode(k, d, dec)))
      case None => NullValue
  }

  /**
   The conversion agrees with its default-case form exactly when a type the catalog
   classifies as an array does not carry one of the six scalar identifiers,
   or the array is rejected or decoded before the scalar switch is reached.
   */
  lemma {:induction false} ImplementationMeetsDesign(w: bool, t: Oid, d: Datum, cat: Catalog, dec: Decoders)
    ensures DatumToValue(w, t, d, cat, dec) == DesignToValue(w, t, d, cat, dec) <==>
      !(Classify(t, cat) == ArrayClass && ReachesScalarSwitch(t, d, cat, dec) && t in ScalarOids)
  {
    SwitchIsTableLookup(t);
  }

  /**
   Where the two differ, the conversion returns a scalar value for an array
   type and its default-case form returns no value.
   */
  lemma FallThroughYieldsScalarForArrayType(w: bool, t: Oid, d: Datum, cat: Catalog, dec: Decoders)
    requires Classify(t, cat) == ArrayClass && ReachesScalarSwitch(t, d, cat, dec) && t in ScalarOids
    ensures DatumToValue(w, t, d, cat, dec).Value?
    ensures ClassOf(DatumToValue(w, t, d, cat, dec).value) == ScalarClass
    ensures DesignToValue(w, t, d, cat, dec) == NullValue
  {
  }

  /**
   A catalog in which no array type carries a scalar identifier, as in the
   Postgres system catalog, where the six scalar types are not array types.
   */
  ghost predicate ScalarIdsAreNotArrays(cat: Catalog) {
    forall k: ScalarKind :: !cat.isArray(ScalarOid(k))
  }

  /**
   Under such a catalog every value the conversion returns answers the
   class its type identifier is classified as.
   */
  lemma {:induction false} ValueClassMatchesTypeClass(w: bool, t: Oid, d: Datum, cat: Catalog, dec: Decoders)
    requires ScalarIdsAreNotArrays(cat)
    ensures DatumToValue(w, t, d, cat, dec) == DesignToValue(w, t, d, cat, dec)
    ensures DatumToValue(w, t, d, cat, dec).Value? ==>
      ClassOf(DatumToValue(w, t, d, cat, dec).value) == Classify(t, cat)
  {
    if t in ScalarOids {
      var k := ScalarKindOf(t).value;
      assert ScalarOid(k) == t;
    }
    ImplementationMeetsDesign(w, t, d, cat, dec);
  }
}
