/**
 * The few engine value types the three scripts use: the `Vec3` of node
 * positions and directions, a move-range rectangle, a width/height pair, and
 * an optional value for a component lookup that may find nothing.
 * Numbers are `real`: floating-point rounding is not modelled.
 */
module Engine {

  datatype Option<T> = None | Some(value: T)

  /** A 3-component vector: node positions and movement directions. */
  datatype Vec3 = Vec3(x: real, y: real, z: real)

  /** An axis-aligned rectangle given by its lower-left corner and its extent. */
  datatype Rect = Rect(x: real, y: real, width: real, height: real)

  /** A width/height pair: the visible screen size or a node's content size. */
  datatype Size = Size(width: real, height: real)

  const Zero: Vec3 := Vec3(0.0, 0.0, 0.0)

  function Add(a: Vec3, b: Vec3): Vec3
  {
    Vec3(a.x + b.x, a.y + b.y, a.z + b.z)
  }

  function Scale(v: Vec3, k: real): Vec3
  {
    Vec3(v.x * k, v.y * k, v.z * k)
  }

  /** The squared Euclidean length; the engine's `length()` is its square root. */
  function LengthSquared(v: Vec3): real
  {
    v.x * v.x + v.y * v.y + v.z * v.z
  }

  /** The squared Euclidean distance; the engine's `Vec3.distance` is its square root. */
  function DistanceSquared(a: Vec3, b: Vec3): real
  {
    LengthSquared(Vec3(b.x - a.x, b.y - a.y, b.z - a.z))
  }

  /** Scaling a vector by k scales its squared length by k * k. */
  lemma ScaleLengthSquared(v: Vec3, k: real)
    ensures LengthSquared(Scale(v, k)) == k * k * LengthSquared(v)
  {
    calc {
      LengthSquared(Scale(v, k));
      (v.x * k) * (v.x * k) + (v.y * k) * (v.y * k) + (v.z * k) * (v.z * k);
      { assert (v.x * k) * (v.x * k) == k * k * (v.x * v.x);
        assert (v.y * k) * (v.y * k) == k * k * (v.y * v.y);
        assert (v.z * k) * (v.z * k) == k * k * (v.z * v.z); }
      k * k * (v.x * v.x + v.y * v.y + v.z * v.z);
    }
  }

  /** Scaling a unit vector by k gives a vector of length |k|. */
  lemma ScaleUnitLength(v: Vec3, k: real)
    requires LengthSquared(v) == 1.0
    ensures LengthSquared(Scale(v, k)) == k * k
  {
    ScaleLengthSquared(v, k);
    var n := LengthSquared(v);
    assert k * k * n == k * k;
  }

  /** Multiplying by a positive number keeps the sign. */
  lemma SignOfProduct(a: real, k: real)
    requires k > 0.0
    ensures (a * k > 0.0 <==> a > 0.0) && (a * k < 0.0 <==> a < 0.0)
  {
    if a > 0.0 {
      assert a * k > 0.0;
    } else if a < 0.0 {
      assert (-a) * k > 0.0;
    }
  }

  /** JavaScript's `Math.max` and `Math.min` on two non-NaN numbers. */
  function Max(a: real, b: real): (m: real)
    ensures m >= a && m >= b && (m == a || m == b)
  {
    if a >= b then a else b
  }

  function Min(a: real, b: real): (m: real)
    ensures m <= a && m <= b && (m == a || m == b)
  {
    if a <= b then a else b
  }

  function Abs(a: real): (m: real)
    ensures m >= 0.0 && (m == a || m == -a)
  {
    if a >= 0.0 then a else -a
  }
}
