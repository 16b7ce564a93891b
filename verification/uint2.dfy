/** The `UInt2` members that construct values and the casts that always throw. */
module UInt2Members {
  import opened BoundedInts
  import opened VectorTypes

  /** `new UInt2(x, y)`. */
  function New(x: UInt32, y: UInt32): (r: UInt2)
    ensures r.X == x && r.Y == y
  {
    UInt2(x, y)
  }

  /** The implicit conversion from `uint`: every component gets the scalar. */
  function FromScalar(v: UInt32): (r: UInt2)
    ensures r.X == v && r.Y == v
  {
    New(v, v)
  }

  /** `UInt2.Zero`, written in the source as the implicit conversion of 0. */
  function Zero(): (r: UInt2)
    ensures r.X == 0 && r.Y == 0
  {
    FromScalar(0)
  }

  /** `UInt2.One`, written in the source as the implicit conversion of 1. */
  function One(): (r: UInt2)
    ensures r.X == 1 && r.Y == 1
  {
    FromScalar(1)
  }

  function UnitX(): (r: UInt2)
    ensures r.X == 1 && r.Y == 0
  {
    New(1, 0)
  }

  function UnitY(): (r: UInt2)
    ensures r.X == 0 && r.Y == 1
  {
    New(0, 1)
  }

  /** The explicit cast to `Int2`: never yields a value. */
  function ToInt2(xy: UInt2): (r: Conversion<Int2>)
    ensures r.Threw? && r.exception.message == "UInt2.(Int2)"
  {
    Threw(InvalidExecutionContextException(CastMessage("UInt2", "Int2")))
  }

  /** The implicit cast to `Float2`: never yields a value. */
  function ToFloat2(xy: UInt2): (r: Conversion<Float2>)
    ensures r.Threw? && r.exception.message == "UInt2.(Float2)"
  {
    Threw(InvalidExecutionContextException(CastMessage("UInt2", "Float2")))
  }

  /** The implicit cast to `Double2`: never yields a value. */
  function ToDouble2(xy: UInt2): (r: Conversion<Double2>)
    ensures r.Threw? && r.exception.message == "UInt2.(Double2)"
  {
    Threw(InvalidExecutionContextException(CastMessage("UInt2", "Double2")))
  }

  /** A vector is a splat exactly when its components agree, and then of its first one. */
  lemma SplatsAreTheDiagonal(v: UInt2)
    ensures (exists s :: FromScalar(s) == v) <==> v.X == v.Y
    ensures v.X == v.Y ==> FromScalar(v.X) == v
  {
    if v.X == v.Y {
      assert FromScalar(v.X) == v;
    }
  }

  /** The named constants are four distinct vectors; Zero and One are splats, the units are not. */
  lemma NamedConstantsAreDistinct()
    ensures |{Zero(), One(), UnitX(), UnitY()}| == 4
    ensures UnitX().X != UnitX().Y && UnitY().X != UnitY().Y
  {
  }

  /** Rebuilding a vector from its components gives it back. */
  lemma ComponentsRoundTrip(v: UInt2)
    ensures New(v.X, v.Y) == v
  {
  }
}
