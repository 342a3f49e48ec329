/** Points, linear interpolation and squared distances shared by every layer of the
    gesture-to-choreography engine. Numbers are exact reals: floating-point rounding
    is not modelled. */
module Geometry {

  /** A point in scene space or in normalised image space (three.js' Vector3). */
  datatype Vec3 = Vec3(x: real, y: real, z: real)

  /** A point in the image plane, x and y only. */
  datatype Point2 = Point2(x: real, y: real)

  /** The image-plane projection of a point: z is dropped. */
  function Planar(v: Vec3): Point2
  {
    Point2(v.x, v.y)
  }

  /** r lies in the closed interval spanned by a and b, whichever order they come in. */
  predicate Between(a: real, r: real, b: real)
  {
    (a <= r <= b) || (b <= r <= a)
  }

  function Abs(v: real): (r: real)
    ensures r >= 0.0 && (r == v || r == -v)
  {
    if v < 0.0 then -v else v
  }

  /** One interpolation step from a toward b by the fraction t, as Vector3.lerp
      (`a += (b - a) * t`) and MathUtils.lerp compute it. Its properties are stated
      by `LerpFacts`, which callers invoke where they need them. */
  function Lerp(a: real, b: real, t: real): real
  {
    a + Mul(b - a, t)
  }

  lemma LerpFacts(a: real, b: real, t: real)
    // the remaining distance to b is scaled by exactly 1 - t
    ensures b - Lerp(a, b, t) == Mul(b - a, 1.0 - t)
    ensures a == b ==> Lerp(a, b, t) == b
    ensures 0.0 <= t <= 1.0 ==> Between(a, Lerp(a, b, t), b)
    // a fraction below 1 never lands on b from elsewhere
    ensures t < 1.0 && a != b ==> Lerp(a, b, t) != b
  {
    MulComplement(b - a, t);
    if 0.0 <= t <= 1.0 {
      MulFraction(b - a, t);
    }
    if t < 1.0 && a != b {
      MulNonZero(b - a, 1.0 - t);
    }
  }

  /** Vector3.lerp, component by component; its properties are stated by `LerpVecFacts`. */
  function LerpVec(a: Vec3, b: Vec3, t: real): Vec3
  {
    Vec3(Lerp(a.x, b.x, t), Lerp(a.y, b.y, t), Lerp(a.z, b.z, t))
  }

  lemma LerpVecFacts(a: Vec3, b: Vec3, t: real)
    ensures a == b ==> LerpVec(a, b, t) == b
    // a fraction in [0, 1] moves every coordinate toward b without overshooting,
    // so the distance to b never grows
    ensures 0.0 <= t <= 1.0 ==>
      var r := LerpVec(a, b, t);
      Between(a.x, r.x, b.x) && Between(a.y, r.y, b.y) && Between(a.z, r.z, b.z)
      && DistSq(r, b) <= DistSq(a, b)
    // a fraction below 1 never lands on b from elsewhere
    ensures t < 1.0 && a != b ==> LerpVec(a, b, t) != b
  {
    LerpFacts(a.x, b.x, t);
    LerpFacts(a.y, b.y, t);
    LerpFacts(a.z, b.z, t);
    if 0.0 <= t <= 1.0 {
      LerpCloser(a.x, b.x, t);
      LerpCloser(a.y, b.y, t);
      LerpCloser(a.z, b.z, t);
    }
  }

  /** One interpolation step by a fraction in [0, 1] does not increase the squared gap. */
  lemma LerpCloser(a: real, b: real, t: real)
    requires 0.0 <= t <= 1.0
    ensures Sq(Lerp(a, b, t) - b) <= Sq(a - b)
  {
    LerpFacts(a, b, t);
    MulFraction(b - a, 1.0 - t);
    SqMonotone(Lerp(a, b, t) - b, a - b);
  }

  /** Real multiplication behind a function symbol: products of a variable with
      itself are only ever reasoned about through the lemmas below. */
  function Mul(a: real, b: real): real
  {
    a * b
  }

  lemma MulPositive(a: real, b: real)
    requires a > 0.0 && b > 0.0
    ensures Mul(a, b) > 0.0
  {
    assert a * b > 0.0;
  }

  lemma MulNonNegative(a: real, b: real)
    requires a >= 0.0 && b >= 0.0
    ensures Mul(a, b) >= 0.0
  {
    if a > 0.0 && b > 0.0 {
      MulPositive(a, b);
    }
  }

  lemma MulNegatives(a: real, b: real)
    requires a < 0.0 && b < 0.0
    ensures Mul(a, b) > 0.0
  {
    assert a * b == (-a) * (-b);
    MulPositive(-a, -b);
  }

  lemma MulNonZero(a: real, b: real)
    requires a != 0.0 && b != 0.0
    ensures Mul(a, b) != 0.0
  {
    assert a * b != 0.0;
  }

  /** x * (1 - t) == x - x * t */
  lemma MulComplement(x: real, t: real)
    ensures Mul(x, 1.0 - t) == x - Mul(x, t)
  {
  }

  /** A fraction of x lies between 0 and x. */
  lemma MulFraction(x: real, t: real)
    requires 0.0 <= t <= 1.0
    ensures Between(0.0, Mul(x, t), x)
  {
    if x >= 0.0 {
      FractionOfNonNegative(x, t);
    } else {
      FractionOfNonNegative(-x, t);
      assert Mul(x, t) == -Mul(-x, t);
    }
  }

  lemma FractionOfNonNegative(x: real, t: real)
    requires x >= 0.0 && 0.0 <= t <= 1.0
    ensures 0.0 <= Mul(x, t) <= x
  {
    assert x * t <= x * 1.0;
  }

  /** The square of a real; never negative, and zero only at zero. */
  function Sq(d: real): (r: real)
    ensures r >= 0.0
    ensures d != 0.0 ==> r > 0.0
  {
    if d > 0.0 then
      MulPositive(d, d);
      Mul(d, d)
    else if d < 0.0 then
      MulNegatives(d, d);
      Mul(d, d)
    else
      Mul(d, d)
  }

  lemma SqIsProduct(d: real)
    ensures Sq(d) == d * d
  {
  }

  /** A cosine or sine in [-1, 1] times a radius of magnitude at most m is at most m. */
  lemma BoundedProduct(c: real, r: real, m: real)
    requires -1.0 <= c <= 1.0 && Abs(r) <= m
    ensures Abs(c * r) <= m
  {
    if c >= 0.0 {
      FractionOfNonNegative(Abs(r), c);
      assert Abs(c * r) == Mul(Abs(r), c);
    } else {
      FractionOfNonNegative(Abs(r), -c);
      assert Abs(c * r) == Mul(Abs(r), -c);
    }
  }

  /** Squares grow with the magnitude of what is squared. */
  lemma SqMonotone(a: real, b: real)
    requires Abs(a) <= Abs(b)
    ensures Sq(a) <= Sq(b)
  {
    var x, y := Abs(a), Abs(b);
    assert Mul(a, a) == Mul(x, x) by { assert a * a == x * x; }
    assert Mul(b, b) == Mul(y, y) by { assert b * b == y * y; }
    assert Mul(x, y) - Mul(x, x) == Mul(x, y - x);
    MulNonNegative(x, y - x);
    assert Mul(y, y) - Mul(x, y) == Mul(y - x, y);
    MulNonNegative(y - x, y);
  }

  /** Square of the Euclidean distance in the image plane (the square of Math.hypot(dx, dy)). */
  function PlanarDistSq(a: Point2, b: Point2): (r: real)
    ensures r >= 0.0
    ensures r == 0.0 <==> a == b
  {
    Sq(a.x - b.x) + Sq(a.y - b.y)
  }

  /** Square of the Euclidean distance in space (Vector3.distanceToSquared). */
  function DistSq(a: Vec3, b: Vec3): (r: real)
    ensures r >= 0.0
    ensures r == 0.0 <==> a == b
  {
    Sq(a.x - b.x) + Sq(a.y - b.y) + Sq(a.z - b.z)
  }

  function Pow(b: real, n: nat): real
  {
    if n == 0 then 1.0 else b * Pow(b, n - 1)
  }

  /** A uniform draw u in [0, 1) spread over a box of the given width centred on 0:
      `(Math.random() - 0.5) * width`. */
  function Spread(u: real, width: real): (r: real)
    requires width > 0.0
    ensures 0.0 <= u < 1.0 ==> -width / 2.0 <= r < width / 2.0
  {
    (u - 0.5) * width
  }

  /** A draw of Math.random(), which lies in [0, 1). */
  predicate UnitDraw(u: real)
  {
    0.0 <= u < 1.0
  }

  predicate UnitDraws(v: Vec3)
  {
    UnitDraw(v.x) && UnitDraw(v.y) && UnitDraw(v.z)
  }
}
