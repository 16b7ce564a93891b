/**
 * The HLSL vector value types touched by the modelled conversions. Double and
 * float components are `real`: the modelled members do no arithmetic, so IEEE
 * rounding plays no part.
 */
module VectorTypes {
  import opened BoundedInts

  datatype Int2 = Int2(X: Int32, Y: Int32)
  datatype UInt2 = UInt2(X: UInt32, Y: UInt32)
  datatype Float2 = Float2(X: real, Y: real)
  datatype Double2 = Double2(X: real, Y: real)

  datatype Int3 = Int3(X: Int32, Y: Int32, Z: Int32)
  datatype UInt3 = UInt3(X: UInt32, Y: UInt32, Z: UInt32)
  datatype Float3 = Float3(X: real, Y: real, Z: real)
  datatype Double3 = Double3(X: real, Y: real, Z: real)

  /** Thrown by every HLSL-only operation invoked from managed code. */
  datatype InvalidExecutionContextException = InvalidExecutionContextException(message: string)

  /** The result of a conversion operator: a value, or the exception it threw. */
  datatype Conversion<T> = Converted(value: T) | Threw(exception: InvalidExecutionContextException)

  /** The message of a throwing cast: `"<Source>.(<Target>)"`, as built with `nameof`. */
  function CastMessage(source: string, target: string): (m: string)
    ensures |m| == |source| + |target| + 3
    ensures m[..|source|] == source
    ensures m[|m| - |target| - 1..|m| - 1] == target
  {
    source + ".(" + target + ")"
  }
}
