/**
  Three-component real vectors: the part of UnityEngine.Vector3 and of the
  VectorMath helpers that the locomotion core uses. Floats are modelled as
  reals and the world up axis is the y component, so projecting on `up` keeps
  the y component alone.

  Dafny has no square root on reals. Where the source takes a magnitude
  (`.magnitude`, `.normalized`, `Vector3.Distance`), the model receives that
  magnitude as an input `m` tied to the vector by `IsMagnitude(v, m)`;
  comparisons `|v| < b` are decided exactly on squares.
*/
module Vectors {
  datatype Vec3 = Vec3(x: real, y: real, z: real)

  /** An orientation (a Quaternion). The model never computes with it: it is
      stored, copied and compared only. */
  datatype Rotation = Rotation(w: real, x: real, y: real, z: real)

  const Zero: Vec3 := Vec3(0.0, 0.0, 0.0)
  const Up: Vec3 := Vec3(0.0, 1.0, 0.0)
  const Down: Vec3 := Vec3(0.0, -1.0, 0.0)

  /** Vector3.kEpsilon: `normalized` yields the zero vector at or below it. */
  const NormalizeEpsilon: real := 0.00001

  function Add(a: Vec3, b: Vec3): Vec3 { Vec3(a.x + b.x, a.y + b.y, a.z + b.z) }

  function Sub(a: Vec3, b: Vec3): Vec3 { Vec3(a.x - b.x, a.y - b.y, a.z - b.z) }

  function Scale(a: Vec3, k: real): Vec3 { Vec3(a.x * k, a.y * k, a.z * k) }

  function Div(a: Vec3, k: real): Vec3
    requires k != 0.0
  {
    Vec3(a.x / k, a.y / k, a.z / k)
  }

  function Dot(a: Vec3, b: Vec3): real { a.x * b.x + a.y * b.y + a.z * b.z }

  /** The squared magnitude, `sqrMagnitude`. */
  function NormSq(a: Vec3): real { Dot(a, a) }

  /** `Vector3.Scale(v, (1, 0, 1))`: the horizontal part of `v`. */
  function Horizontal(v: Vec3): Vec3
  {
    Vec3(v.x, 0.0, v.z)
  }

  /** `VectorMath.ExtractDotVector(v, up)`: the component of `v` along up. */
  function Vertical(v: Vec3): Vec3
  {
    Vec3(0.0, v.y, 0.0)
  }

  /** A vector is its horizontal part plus its part along up; the first is
      perpendicular to up, the second is up scaled by the dot product. */
  lemma SplitsAlongUp(v: Vec3)
    ensures Add(Horizontal(v), Vertical(v)) == v
    ensures Dot(Horizontal(v), Up) == 0.0
    ensures Vertical(v) == Scale(Up, Dot(v, Up))
  {
  }

  /** `m` is the Euclidean length of `v`. */
  ghost predicate IsMagnitude(v: Vec3, m: real)
  {
    0.0 <= m && m * m == NormSq(v)
  }

  /** `v.normalized` for a vector whose magnitude is `m`. */
  function Normalized(v: Vec3, m: real): (n: Vec3)
    ensures m <= NormalizeEpsilon ==> n == Zero
  {
    if m > NormalizeEpsilon then Div(v, m) else Zero
  }

  /** Scaling a normalized vector by its magnitude gives it back. */
  lemma NormalizedScalesBack(v: Vec3, m: real)
    requires m > NormalizeEpsilon
    ensures Scale(Normalized(v, m), m) == v
  {
  }

  /** `v.magnitude < bound`, decided without the square root. */
  predicate MagnitudeBelow(v: Vec3, bound: real)
  {
    0.0 < bound && NormSq(v) < bound * bound
  }

  /** `Vector3.Reflect(d, n)` as Unity documents it: `d - 2 (n . d) n`. */
  function Reflect(d: Vec3, n: Vec3): Vec3
  {
    Add(Scale(n, -2.0 * Dot(n, d)), d)
  }

  lemma ScaleZero(k: real)
    ensures Scale(Zero, k) == Zero
  {
  }

  lemma DotZero(v: Vec3)
    ensures Dot(Zero, v) == 0.0
  {
  }

  /** A normalized vector has unit length unless it collapsed to zero. */
  lemma NormalizedIsUnit(v: Vec3, m: real)
    requires IsMagnitude(v, m)
    ensures m > NormalizeEpsilon ==> IsMagnitude(Normalized(v, m), 1.0)
    ensures m <= NormalizeEpsilon ==> IsMagnitude(Normalized(v, m), 0.0)
  {
    if m > NormalizeEpsilon {
      var n := Normalized(v, m);
      NormalizedScalesBack(v, m);
      assert v == Scale(n, m);
      assert NormSq(v) == NormSq(n) * (m * m) by {
        assert NormSq(Scale(n, m)) == (n.x * n.x + n.y * n.y + n.z * n.z) * (m * m);
      }
      assert NormSq(n) * (m * m) == 1.0 * (m * m);
    }
  }

  /** The square comparison agrees with comparing the magnitude itself. */
  lemma MagnitudeBelowIsExact(v: Vec3, m: real, bound: real)
    requires IsMagnitude(v, m)
    ensures MagnitudeBelow(v, bound) <==> m < bound
  {
    if m < bound {
      assert 0.0 < bound;
      calc {
        NormSq(v);
        m * m;
      <= { assert m >= 0.0; }
        m * bound;
      < { assert bound > 0.0; }
        bound * bound;
      }
    }
  }

  /** Dividing by a factor of at least one never lengthens a vector. */
  lemma DivShrinks(v: Vec3, k: real)
    requires k >= 1.0
    ensures NormSq(Div(v, k)) <= NormSq(v)
  {
    var d := Div(v, k);
    assert v == Scale(d, k);
    assert NormSq(v) == NormSq(d) * (k * k) by {
      assert NormSq(Scale(d, k)) == (d.x * d.x + d.y * d.y + d.z * d.z) * (k * k);
    }
    assert NormSq(d) >= 0.0;
    assert k * k >= 1.0;
    assert NormSq(d) * (k * k) >= NormSq(d) * 1.0;
  }

  /** A non-negative multiple of the normalised vector never points away
      from the vector itself. */
  lemma NormalizedAligns(v: Vec3, m: real, s: real)
    requires m > NormalizeEpsilon && s >= 0.0
    ensures Dot(Scale(Normalized(v, m), s), v) >= 0.0
  {
    var n := Normalized(v, m);
    NormalizedScalesBack(v, m);
    ScaledSelfDot(n, s, m);
    assert NormSq(n) >= 0.0;
    assert s * m >= 0.0;
  }

  /** Two multiples of one vector: their dot product is the product of the
      factors times the squared length. */
  lemma ScaledSelfDot(a: Vec3, p: real, q: real)
    ensures Dot(Scale(a, p), Scale(a, q)) == (p * q) * NormSq(a)
  {
  }

  /** Cauchy-Schwarz for three components, through Lagrange's identity. */
  lemma DotBound(a: Vec3, b: Vec3)
    ensures Dot(a, b) * Dot(a, b) <= NormSq(a) * NormSq(b)
  {
    var cx := a.y * b.z - a.z * b.y;
    var cy := a.z * b.x - a.x * b.z;
    var cz := a.x * b.y - a.y * b.x;
    assert NormSq(a) * NormSq(b) - Dot(a, b) * Dot(a, b) == cx * cx + cy * cy + cz * cz;
  }
}
