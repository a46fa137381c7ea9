/**
  Field-level conversions shared by the translators: optional string keys of
  a configuration map that are omitted from a request when empty, and Go's
  `int32(x)` conversion of a configuration integer.
 */
module FieldCodec {
  import opened Wrappers

  /** A configuration key that is present and holds a non-empty string. */
  predicate Declared(v: Option<string>) {
    v.Some? && v.value != ""
  }

  /**
    The `if v, ok := config[k]; ok && v.(string) != ""` guard: the value is
    carried into the request only when the key is present and non-empty.
   */
  function OmitEmpty(v: Option<string>): (r: Option<string>)
    ensures r.Some? <==> Declared(v)
    ensures Declared(v) ==> r == v
  {
    if v.Some? && v.value != "" then v else None
  }

  /** The same guard for an enum-typed (non-pointer) field, whose unset value is "". */
  function EnumOrUnset(v: Option<string>): (r: string)
    ensures r != "" <==> Declared(v)
    ensures Declared(v) ==> r == v.value
  {
    if v.Some? then v.value else ""
  }

  const Int32Modulus: int := 0x1_0000_0000
  const Int32Min: int := -0x8000_0000
  const Int32Max: int := 0x7fff_ffff

  newtype Int32 = x: int | Int32Min <= x <= Int32Max

  predicate FitsInt32(x: int) {
    Int32Min <= x <= Int32Max
  }

  /**
    Go's `int32(x)` conversion: keeps the low 32 bits of the two's-complement
    value, so it wraps around instead of failing.
   */
  function ToInt32(x: int): (r: Int32)
    ensures (x - r as int) % Int32Modulus == 0
    ensures FitsInt32(x) ==> r as int == x
  {
    var low := (x - Int32Min) % Int32Modulus;
    (low + Int32Min) as Int32
  }

  /** Conversion is lossless exactly on the int32 range. */
  lemma ToInt32Lossless(x: int)
    ensures ToInt32(x) as int == x <==> FitsInt32(x)
  {
  }

  /** Omitting empty values twice is the same as once: a value that was sent is sent again unchanged. */
  lemma OmitEmptyIdempotent(v: Option<string>)
    ensures OmitEmpty(OmitEmpty(v)) == OmitEmpty(v)
    ensures EnumOrUnset(Some(EnumOrUnset(v))) == EnumOrUnset(v)
  {
  }
}
