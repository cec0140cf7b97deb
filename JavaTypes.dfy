/** Java value types the task processor's core relies on: fixed-width
    integers, the heterogeneous values stored in parameter and output maps,
    exceptions, and the Option/Result wrappers used for `null` and `throw`. */
module JavaTypes {

  /** A Java `int`. */
  type Int32 = x: int | -0x8000_0000 <= x < 0x8000_0000

  /** A Java `long` (timestamps in milliseconds). */
  type Int64 = x: int | -0x8000_0000_0000_0000 <= x < 0x8000_0000_0000_0000

  type Byte = b: int | -128 <= b < 128

  /** Java `int` arithmetic: the two's-complement value congruent to `x`
      modulo 2^32. */
  function Wrap32(x: int): (r: Int32)
    ensures (r - x) % 0x1_0000_0000 == 0
    ensures -0x8000_0000 <= x < 0x8000_0000 ==> r == x
  {
    var m := x % 0x1_0000_0000;
    if m < 0x8000_0000 then m else m - 0x1_0000_0000
  }

  /** Exceptions the core throws or stores in a result's output. */
  datatype Exception =
    | IllegalArgumentException(message: string)
    | RuntimeException(message: string, cause: Option<Exception>)
    | OtherException(className: string, message: string)

  /** The run-time values that occur in a `Map<String, Object>` here. A Java
      `double` is kept as an opaque real: nothing in the core computes with it. */
  datatype Value =
    | Null
    | ByteArray(bytes: seq<Byte>)
    | BoxedInteger(i: Int32)
    | BoxedLong(l: Int64)
    | BoxedDouble(d: real)
    | BoxedBoolean(b: bool)
    | Str(s: string)
    | Thrown(e: Exception)

  /** The `Class<?>` objects a parameter schema can name. */
  datatype Kind = ByteArrayClass | IntPrimitive | DoublePrimitive | StringClass

  /** `Class.isInstance`: a primitive class object is an instance check that
      no object passes, and `null` is an instance of nothing. */
  predicate IsInstance(k: Kind, v: Value)
    ensures IsInstance(k, v) ==> !v.Null?
    ensures IsInstance(k, v) ==> k == ByteArrayClass || k == StringClass
  {
    match k
    case ByteArrayClass => v.ByteArray?
    case StringClass => v.Str?
    case IntPrimitive => false
    case DoublePrimitive => false
  }

  /** A primitive kind rejects every value, even a boxed value of that type. */
  lemma PrimitiveKindsRejectAll(k: Kind, v: Value)
    requires k == IntPrimitive || k == DoublePrimitive
    ensures !IsInstance(k, v)
  {
  }

  datatype Option<+T> = None | Some(value: T)

  datatype Result<+T, +E> = Success(value: T) | Failure(error: E)
}
