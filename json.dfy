/**
  The fixed-width integers of the program and the part of a JSON value
  (serde_json::Value) that the quantity decoder inspects.
*/
module Json {
  import opened Wrappers

  const I32_MIN: int := -0x8000_0000
  const I32_MAX: int := 0x7FFF_FFFF
  const I64_MIN: int := -0x8000_0000_0000_0000
  const I64_MAX: int := 0x7FFF_FFFF_FFFF_FFFF

  predicate IsI32(x: int) { I32_MIN <= x <= I32_MAX }
  predicate IsI64(x: int) { I64_MIN <= x <= I64_MAX }

  /** Rust's `i32`. */
  type Int32 = x: int | IsI32(x)

  /**
    A JSON value. Integers are kept exact; any non-integral number, a
    boolean, null or an object is `JOther`, since the decoder treats them
    all alike.
  */
  datatype Value =
    | JStr(s: string)
    | JNum(n: int)
    | JArr(items: seq<Value>)
    | JOther

  /** `Value::as_str`: the text of a JSON string, nothing otherwise. */
  function AsStr(v: Value): (r: Option<string>)
    ensures r.Some? <==> v.JStr?
    ensures r.Some? ==> r.value == v.s
  {
    match v
    case JStr(s) => Some(s)
    case _ => None
  }

  /**
    `Value::as_i64`: an integer that fits in 64 signed bits; a larger
    integer, or anything that is not an integer, gives nothing.
  */
  function AsI64(v: Value): (r: Option<int>)
    ensures r.Some? <==> v.JNum? && IsI64(v.n)
    ensures r.Some? ==> r.value == v.n
  {
    if v.JNum? && IsI64(v.n) then Some(v.n) else None
  }

  /**
    The cast `x as i32` of a 64-bit integer: keep the low 32 bits and read
    them as two's complement.
  */
  function WrapI32(x: int): (r: Int32)
    ensures (r - x) % 0x1_0000_0000 == 0
    ensures IsI32(x) ==> r == x
  {
    (x - I32_MIN) % 0x1_0000_0000 + I32_MIN
  }
}
