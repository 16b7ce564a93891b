/** The `Double3` constructors, named constants and the casts that always throw. */
module Double3Members {
  import opened VectorTypes

  /** `new Double3(x, y, z)`. */
  function New(x: real, y: real, z: real): (r: Double3)
    ensures r.X == x && r.Y == y && r.Z == z
  {
    Double3(x, y, z)
  }

  /** `new Double3(Double2 xy, double z)`. */
  function FromXYAndZ(xy: Double2, z: real): (r: Double3)
    ensures r.X == xy.X && r.Y == xy.Y && r.Z == z
  {
    Double3(xy.X, xy.Y, z)
  }

  /** `new Double3(double x, Double2 yz)`. */
  function FromXAndYZ(x: real, yz: Double2): (r: Double3)
    ensures r.X == x && r.Y == yz.X && r.Z == yz.Y
  {
    Double3(x, yz.X, yz.Y)
  }

  /** The implicit conversion from `double`: every component gets the scalar. */
  function FromScalar(v: real): (r: Double3)
    ensures r.X == v && r.Y == v && r.Z == v
  {
    New(v, v, v)
  }

  function Zero(): (r: Double3)
    ensures r.X == 0.0 && r.Y == 0.0 && r.Z == 0.0
  {
    FromScalar(0.0)
  }

  function One(): (r: Double3)
    ensures r.X == 1.0 && r.Y == 1.0 && r.Z == 1.0
  {
    FromScalar(1.0)
  }

  function UnitX(): (r: Double3)
    ensures r.X == 1.0 && r.Y == 0.0 && r.Z == 0.0
  {
    New(1.0, 0.0, 0.0)
  }

  function UnitY(): (r: Double3)
    ensures r.X == 0.0 && r.Y == 1.0 && r.Z == 0.0
  {
    New(0.0, 1.0, 0.0)
  }

  function UnitZ(): (r: Double3)
    ensures r.X == 0.0 && r.Y == 0.0 && r.Z == 1.0
  {
    New(0.0, 0.0, 1.0)
  }

  /** The explicit cast to `Int3`: never yields a value. */
  function ToInt3(xyz: Double3): (r: Conversion<Int3>)
    ensures r.Threw? && r.exception.message == "Double3.(Int3)"
  {
    Threw(InvalidExecutionContextException(CastMessage("Double3", "Int3")))
  }

  /** The explicit cast to `UInt3`: never yields a value. */
  function ToUInt3(xyz: Double3): (r: Conversion<UInt3>)
    ensures r.Threw? && r.exception.message == "Double3.(UInt3)"
  {
    Threw(InvalidExecutionContextException(CastMessage("Double3", "UInt3")))
  }

  /** The explicit cast to `Float3`: never yields a value. */
  function ToFloat3(xyz: Double3): (r: Conversion<Float3>)
    ensures r.Threw? && r.exception.message == "Double3.(Float3)"
  {
    Threw(InvalidExecutionContextException(CastMessage("Double3", "Float3")))
  }

  /** The three constructors agree: both two-part forms are the three-component one. */
  lemma ConstructorsAgree(x: real, y: real, z: real)
    ensures FromXYAndZ(Double2(x, y), z) == New(x, y, z)
    ensures FromXAndYZ(x, Double2(y, z)) == New(x, y, z)
  {
  }

  /** Any vector splits both ways into a two-component part and a scalar. */
  lemma SplitRoundTrip(v: Double3)
    ensures FromXYAndZ(Double2(v.X, v.Y), v.Z) == v
    ensures FromXAndYZ(v.X, Double2(v.Y, v.Z)) == v
  {
  }

  /** A vector is a splat exactly when its three components agree. */
  lemma SplatsAreTheDiagonal(v: Double3)
    ensures (exists s :: FromScalar(s) == v) <==> (v.X == v.Y && v.Y == v.Z)
  {
    if v.X == v.Y && v.Y == v.Z {
      assert FromScalar(v.X) == v;
    }
  }

  /** The named constants are five distinct vectors. */
  lemma NamedConstantsAreDistinct()
    ensures |{Zero(), One(), UnitX(), UnitY(), UnitZ()}| == 5
  {
  }
}
