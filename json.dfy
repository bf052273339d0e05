/**
 * The part of serde_json's data model that the layer produces: scalar values
 * for fields, and one object per logged event.
 */
module Json {

  /** An IEEE 754 double, kept opaque apart from its bit pattern. */
  datatype F64 = F64(bits: bv64)

  /** Neither an infinity nor a NaN: the exponent bits are not all ones. */
  predicate IsFinite(x: F64) {
    (x.bits >> 52) & 0x7FF != 0x7FF
  }

  /**
   * A JSON number. Signed and unsigned integers compare by value in
   * serde_json, so both are kept as one unbounded integer.
   */
  datatype JsonNumber = Int(i: int) | Float(f: F64)

  /** A JSON value. Arrays are never produced by the layer and are omitted. */
  datatype Value =
    | Null
    | Bool(b: bool)
    | Number(n: JsonNumber)
    | String(s: string)
    | Object(fields: map<string, Value>)

  /** A value that is not an object. */
  predicate IsScalar(v: Value) {
    !v.Object?
  }

  /** A field mapping whose values are all scalars (no nesting). */
  predicate Flat(m: map<string, Value>) {
    forall k | k in m :: IsScalar(m[k])
  }

  /** What a sink may receive: a top-level JSON object holding only scalars. */
  predicate IsRecord(v: Value) {
    v.Object? && Flat(v.fields)
  }
}
