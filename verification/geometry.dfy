/** Points, plane coefficients and the inlier test of estimate_ground_planes.py.
    Coordinates are exact reals: floating-point rounding and NaN are not modelled. */
module Geometry {

  /** One row of a point cloud. */
  datatype Point = Point(x: real, y: real, z: real)

  /** Plane coefficients (a, b, c, d) of a*x + b*y + c*z + d = 0, as the
      fit returns them (any scale, any sign). */
  datatype Plane = Plane(a: real, b: real, c: real, d: real)

  function Coefficients(m: Plane): (u: seq<real>) {
    [m.a, m.b, m.c, m.d]
  }

  function Negated(m: Plane): (n: Plane) {
    Plane(-m.a, -m.b, -m.c, -m.d)
  }

  function Abs(r: real): (a: real)
    ensures a >= 0.0 && (a == r || a == -r)
  {
    if r < 0.0 then -r else r
  }

  /** The signed residual of p under m's homogeneous form. */
  function Residual(m: Plane, p: Point): (e: real) {
    m.a * p.x + m.b * p.y + m.c * p.z + m.d
  }

  /** `augment`: each point becomes the homogeneous row (x, y, z, 1). */
  function Augment(ps: seq<Point>): (rows: seq<seq<real>>)
    ensures |rows| == |ps|
    ensures forall i :: 0 <= i < |ps| ==>
      |rows[i]| == 4 && rows[i][3] == 1.0 && rows[i][..3] == [ps[i].x, ps[i].y, ps[i].z]
  {
    seq(|ps|, i requires 0 <= i < |ps| => [ps[i].x, ps[i].y, ps[i].z, 1.0])
  }

  function Dot(u: seq<real>, v: seq<real>): (s: real)
    requires |u| == |v|
  {
    if |u| == 0 then 0.0 else u[0] * v[0] + Dot(u[1..], v[1..])
  }

  /** `is_inlier`: |coeffs . augment([xyz])| < threshold. */
  predicate IsInlier(coeffs: Plane, p: Point, threshold: real): (b: bool)
    ensures b ==> threshold > 0.0
  {
    Abs(Dot(Coefficients(coeffs), Augment([p])[0])) < threshold
  }

  /** The dot product with the augmented row is the plane's residual, so the
      inlier test bounds the absolute residual. */
  lemma IsInlierResidual(m: Plane, p: Point, threshold: real)
    ensures IsInlier(m, p, threshold) <==> Abs(Residual(m, p)) < threshold
  {
    var row := Augment([p])[0];
    assert row == [p.x, p.y, p.z, 1.0];
    var u := Coefficients(m);
    assert Dot(u[3..], row[3..]) == m.d;
    assert Dot(u[2..], row[2..]) == m.c * p.z + m.d;
    assert Dot(u[1..], row[1..]) == m.b * p.y + m.c * p.z + m.d;
  }

  /** The fit does not fix the sign of the coefficients; scoring does not
      depend on it. */
  lemma IsInlierSignInvariant(m: Plane, p: Point, threshold: real)
    ensures IsInlier(Negated(m), p, threshold) <==> IsInlier(m, p, threshold)
  {
    IsInlierResidual(m, p, threshold);
    IsInlierResidual(Negated(m), p, threshold);
    assert Residual(Negated(m), p) == -Residual(m, p);
  }

  /** A point lying on the plane is an inlier for every positive threshold. */
  lemma PointOnPlaneIsInlier(m: Plane, p: Point, threshold: real)
    requires Residual(m, p) == 0.0 && threshold > 0.0
    ensures IsInlier(m, p, threshold)
  {
    IsInlierResidual(m, p, threshold);
  }
}
