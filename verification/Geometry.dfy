/** View poses around a tool axis, in exact reals. Square roots enter only through their defining
    property, cosine and sine only as a point (c, s) of the unit circle. */
module Geometry {
  import opened Reals

  datatype Vec = Vec(x: real, y: real, z: real)

  const UNIT_X := Vec(1.0, 0.0, 0.0)
  const UNIT_Z := Vec(0.0, 0.0, 1.0)
  const ZERO := Vec(0.0, 0.0, 0.0)

  function Dot(a: Vec, b: Vec): real { Mul(a.x, b.x) + Mul(a.y, b.y) + Mul(a.z, b.z) }
  function Add(a: Vec, b: Vec): Vec { Vec(a.x + b.x, a.y + b.y, a.z + b.z) }
  function Sub(a: Vec, b: Vec): Vec { Vec(a.x - b.x, a.y - b.y, a.z - b.z) }
  function Scale(k: real, a: Vec): Vec { Vec(Mul(k, a.x), Mul(k, a.y), Mul(k, a.z)) }
  function Neg(a: Vec): Vec { Vec(-a.x, -a.y, -a.z) }
  function Cross(a: Vec, b: Vec): Vec {
    Vec(Mul(a.y, b.z) - Mul(a.z, b.y), Mul(a.z, b.x) - Mul(a.x, b.z), Mul(a.x, b.y) - Mul(a.y, b.x))
  }

  /** r is the square root of x. */
  predicate IsRoot(r: real, x: real) { r >= 0.0 && Sq(r) == x }

  /** Division by the norm, leaving a zero vector alone as Eigen does. */
  function Normalized(a: Vec, norm: real): Vec
    requires IsRoot(norm, Dot(a, a))
  {
    if norm > 0.0 then Vec(a.x / norm, a.y / norm, a.z / norm) else a
  }

  datatype Axis = Axis(point: Vec, dir: Vec)
  datatype Pose = Pose(position: Vec, x: Vec, y: Vec, z: Vec)

  /** The norms the construction divides by, in the order it takes them. */
  datatype Roots = Roots(axis: real, u: real, v: real, y: real, x: real)

  function Seed(a: Vec): Vec { if Abs(a.z) < 0.9 then UNIT_Z else UNIT_X }

  /** v with its component along the unit vector a removed. */
  function Reject(v: Vec, a: Vec): Vec { Sub(v, Scale(Dot(v, a), a)) }

  // The successive vectors of the construction, each with the root it needs.

  function AxisUnit(axis: Axis, r: Roots): Vec
    requires IsRoot(r.axis, Dot(axis.dir, axis.dir))
  {
    Normalized(axis.dir, r.axis)
  }

  predicate FrameRoots(a: Vec, r: Roots) {
    && IsRoot(r.u, Dot(Reject(Seed(a), a), Reject(Seed(a), a)))
    && var u0 := Normalized(Reject(Seed(a), a), r.u);
       IsRoot(r.v, Dot(Cross(a, u0), Cross(a, u0)))
  }

  function U0(a: Vec, r: Roots): Vec
    requires FrameRoots(a, r)
  {
    Normalized(Reject(Seed(a), a), r.u)
  }

  function V0(a: Vec, r: Roots): Vec
    requires FrameRoots(a, r)
  {
    Normalized(Cross(a, U0(a, r)), r.v)
  }

  function Radial(u0: Vec, v0: Vec, c: real, s: real): Vec { Add(Scale(c, u0), Scale(s, v0)) }

  /** Camera up before orthogonalisation. */
  function Up(a: Vec, flip: bool): Vec { if flip then Neg(a) else a }

  predicate CameraRoots(y: Vec, z: Vec, r: Roots) {
    && IsRoot(r.y, Dot(Reject(y, z), Reject(y, z)))
    && var y1 := Normalized(Reject(y, z), r.y);
       IsRoot(r.x, Dot(Cross(y1, z), Cross(y1, z)))
  }

  predicate RootsFit(axis: Axis, c: real, s: real, flip: bool, r: Roots) {
    && IsRoot(r.axis, Dot(axis.dir, axis.dir))
    && var a := AxisUnit(axis, r);
       FrameRoots(a, r) && CameraRoots(Up(a, flip), Neg(Radial(U0(a, r), V0(a, r), c, s)), r)
  }

  function ViewPose(axis: Axis, distance: real, c: real, s: real, flip: bool, r: Roots): Pose
    requires RootsFit(axis, c, s, flip, r)
  {
    var a := AxisUnit(axis, r);
    var radial := Radial(U0(a, r), V0(a, r), c, s);
    var z := Neg(radial);
    var y := Normalized(Reject(Up(a, flip), z), r.y);
    var x := Normalized(Cross(y, z), r.x);
    Pose(Add(axis.point, Scale(distance, radial)), x, y, z)
  }

  // ---------- vector algebra ----------

  predicate Unit(a: Vec) { Dot(a, a) == 1.0 }
  predicate Orthogonal(a: Vec, b: Vec) { Dot(a, b) == 0.0 }

  lemma DotCommutes(a: Vec, b: Vec)
    ensures Dot(a, b) == Dot(b, a)
  {
    MulCommutes(a.x, b.x);
    MulCommutes(a.y, b.y);
    MulCommutes(a.z, b.z);
    hide Mul;
  }

  lemma DotScale(k: real, a: Vec, b: Vec)
    ensures Dot(Scale(k, a), b) == Mul(k, Dot(a, b)) && Dot(b, Scale(k, a)) == Mul(k, Dot(a, b))
  {
    hide Mul;
    MulAssociates(k, a.x, b.x);
    MulAssociates(k, a.y, b.y);
    MulAssociates(k, a.z, b.z);
    MulAdds(k, Mul(a.x, b.x), Mul(a.y, b.y));
    MulAdds(k, Mul(a.x, b.x) + Mul(a.y, b.y), Mul(a.z, b.z));
    DotCommutes(b, Scale(k, a));
  }

  lemma DotAdd(a: Vec, b: Vec, c: Vec)
    ensures Dot(Add(a, b), c) == Dot(a, c) + Dot(b, c) && Dot(c, Add(a, b)) == Dot(a, c) + Dot(b, c)
  {
    hide Mul;
    MulAdds(c.x, a.x, b.x);
    MulAdds(c.y, a.y, b.y);
    MulAdds(c.z, a.z, b.z);
    DotCommutes(a, c);
    DotCommutes(b, c);
  }

  lemma DotSub(a: Vec, b: Vec, c: Vec)
    ensures Dot(Sub(a, b), c) == Dot(a, c) - Dot(b, c) && Dot(c, Sub(a, b)) == Dot(a, c) - Dot(b, c)
  {
    hide Mul;
    MulAdds(c.x, a.x, b.x);
    MulAdds(c.y, a.y, b.y);
    MulAdds(c.z, a.z, b.z);
    DotCommutes(a, c);
    DotCommutes(b, c);
  }

  lemma DotNeg(a: Vec, b: Vec)
    ensures Dot(Neg(a), b) == -Dot(a, b) && Dot(b, Neg(a)) == -Dot(a, b) && Dot(Neg(a), Neg(a)) == Dot(a, a)
  {
    hide Mul;
    MulNegates(a.x, b.x);
    MulNegates(a.y, b.y);
    MulNegates(a.z, b.z);
    DotCommutes(b, Neg(a));
    MulNegates(a.x, a.x);
    MulNegates(a.y, a.y);
    MulNegates(a.z, a.z);
  }

  lemma DotSquares(a: Vec)
    ensures Dot(a, a) == Sq(a.x) + Sq(a.y) + Sq(a.z)
    ensures Sq(a.x) >= 0.0 && Sq(a.y) >= 0.0 && Sq(a.z) >= 0.0
  {
    SquarePositive(a.x);
    SquarePositive(a.y);
    SquarePositive(a.z);
    hide Mul;
  }

  lemma CrossOrthogonal(a: Vec, b: Vec)
    ensures Orthogonal(Cross(a, b), a) && Orthogonal(Cross(a, b), b)
    ensures Orthogonal(a, Cross(a, b)) && Orthogonal(b, Cross(a, b))
  {}

  lemma Lagrange(a: Vec, b: Vec)
    ensures Dot(Cross(a, b), Cross(a, b)) == Mul(Dot(a, a), Dot(b, b)) - Sq(Dot(a, b))
  {}

  // ---------- normalisation and rejection ----------

  lemma RootUnique(r: real, q: real)
    requires r >= 0.0 && q >= 0.0 && Sq(r) == Sq(q)
    ensures r == q
  {
    hide Mul;
    SquareValues();
    SquarePositive(r);
    SquarePositive(q);
    if q > 0.0 { SquareGrows(r, q); }
  }

  lemma NormalizedIsUnit(a: Vec, norm: real)
    requires IsRoot(norm, Dot(a, a)) && Dot(a, a) > 0.0
    ensures Unit(Normalized(a, norm)) && norm > 0.0
    ensures a == Scale(norm, Normalized(a, norm))
  {
    hide Mul;
    SquareValues();
    var n := Normalized(a, norm);
    Quotient(a.x, norm);
    Quotient(a.y, norm);
    Quotient(a.z, norm);
    var q := Sq(norm);
    DotScale(norm, n, a);
    DotScale(norm, n, n);
    MulAssociates(norm, norm, Dot(n, n));
    MulUnits(q);
    MulCancels(q, Dot(n, n), 1.0);
  }

  /** A vector that is already a unit is left as it is. */
  lemma NormalizedFixesUnit(a: Vec, norm: real)
    requires Unit(a) && IsRoot(norm, Dot(a, a))
    ensures norm == 1.0 && Normalized(a, norm) == a
  {
    SquareValues();
    RootUnique(norm, 1.0);
  }

  lemma RejectIsOrthogonal(v: Vec, a: Vec)
    requires Unit(a)
    ensures Orthogonal(Reject(v, a), a)
    ensures Dot(Reject(v, a), Reject(v, a)) == Dot(v, v) - Sq(Dot(v, a))
  {
    hide Dot, Sub, Scale, Mul;
    var p, r := Dot(v, a), Reject(v, a);
    DotSub(v, Scale(p, a), a);
    DotScale(p, a, a);
    MulUnits(p);
    DotSub(v, Scale(p, a), r);
    DotScale(p, a, r);
    DotCommutes(a, r);
    DotSub(v, Scale(p, a), v);
    DotScale(p, a, v);
    DotCommutes(v, r);
    DotCommutes(a, v);
  }

  lemma RejectNothing(y: Vec, z: Vec)
    requires Orthogonal(y, z)
    ensures Reject(y, z) == y
  {
    hide Mul, Dot;
    MulUnits(z.x);
    MulUnits(z.y);
    MulUnits(z.z);
  }

  lemma DotSeed(a: Vec)
    ensures Dot(UNIT_Z, a) == a.z && Dot(UNIT_X, a) == a.x && Unit(UNIT_X) && Unit(UNIT_Z)
  {
    hide Mul;
    MulUnits(a.x);
    MulUnits(a.y);
    MulUnits(a.z);
    MulUnits(0.0);
    MulUnits(1.0);
  }

  /** The reference vector is never close to the axis. */
  lemma SeedIsFar(a: Vec)
    requires Unit(a)
    ensures Dot(Reject(Seed(a), a), Reject(Seed(a), a)) > 0.19
  {
    hide Reject, Dot, Mul, Sq;
    RejectIsOrthogonal(Seed(a), a);
    DotSquares(a);
    DotSeed(a);
    SquareValues();
    SquareGrows(a.z, 0.9);
  }

  /** u0 and v0 complete the axis direction to an orthonormal triple. */
  lemma BaseFrame(a: Vec, r: Roots)
    requires Unit(a) && FrameRoots(a, r)
    ensures Unit(U0(a, r)) && Unit(V0(a, r))
    ensures Orthogonal(U0(a, r), a) && Orthogonal(V0(a, r), a) && Orthogonal(U0(a, r), V0(a, r))
    ensures V0(a, r) == Cross(a, U0(a, r)) && r.u > 0.0 && Scale(r.u, U0(a, r)) == Reject(Seed(a), a)
  {
    hide Dot, Cross, Scale, Normalized, Reject, Seed, Mul;
    var w := Reject(Seed(a), a);
    SeedIsFar(a);
    RejectIsOrthogonal(Seed(a), a);
    var u0 := U0(a, r);
    NormalizedIsUnit(w, r.u);
    DotScale(r.u, u0, a);
    MulUnits(r.u);
    MulCancels(r.u, Dot(u0, a), 0.0);
    DotCommutes(a, u0);
    Lagrange(a, u0);
    MulUnits(1.0);
    MulUnits(0.0);
    CrossOrthogonal(a, u0);
    NormalizedFixesUnit(Cross(a, u0), r.v);
  }

  lemma RadialIsUnit(a: Vec, u0: Vec, v0: Vec, c: real, s: real)
    requires Unit(u0) && Unit(v0) && Orthogonal(u0, a) && Orthogonal(v0, a) && Orthogonal(u0, v0)
    requires Sq(c) + Sq(s) == 1.0
    ensures Unit(Radial(u0, v0, c, s)) && Orthogonal(Radial(u0, v0, c, s), a)
  {
    hide Dot, Add, Scale, Mul;
    var p, q, r := Scale(c, u0), Scale(s, v0), Radial(u0, v0, c, s);
    MulUnits(c);
    MulUnits(s);
    DotAdd(p, q, a);
    DotScale(c, u0, a);
    DotScale(s, v0, a);
    DotAdd(p, q, r);
    DotAdd(p, q, p);
    DotAdd(p, q, q);
    DotScale(c, u0, p);
    DotScale(c, u0, u0);
    DotScale(s, v0, q);
    DotScale(s, v0, v0);
    DotScale(c, u0, q);
    DotScale(s, v0, u0);
    DotCommutes(p, r);
    DotCommutes(q, r);
    DotCommutes(q, p);
    DotCommutes(u0, v0);
  }

  // ---------- the camera frame ----------

  function Det(x: Vec, y: Vec, z: Vec): real { Dot(x, Cross(y, z)) }

  /** A right-handed orthonormal frame. */
  predicate ProperRotation(x: Vec, y: Vec, z: Vec) {
    && Unit(x) && Unit(y) && Unit(z)
    && Orthogonal(x, y) && Orthogonal(y, z) && Orthogonal(x, z)
    && Det(x, y, z) == 1.0
  }

  lemma CameraFrame(y: Vec, z: Vec, r: Roots)
    requires Unit(y) && Unit(z) && Orthogonal(y, z) && CameraRoots(y, z, r)
    ensures Normalized(Reject(y, z), r.y) == y
    ensures Normalized(Cross(y, z), r.x) == Cross(y, z)
    ensures ProperRotation(Cross(y, z), y, z)
  {
    hide Dot, Cross, Normalized, Reject, Mul;
    RejectNothing(y, z);
    NormalizedFixesUnit(y, r.y);
    Lagrange(y, z);
    MulUnits(1.0);
    MulUnits(0.0);
    CrossOrthogonal(y, z);
    NormalizedFixesUnit(Cross(y, z), r.x);
  }

  /** The radial direction of a view: a unit vector perpendicular to the axis direction. */
  lemma ViewRadial(axis: Axis, c: real, s: real, flip: bool, r: Roots)
    requires RootsFit(axis, c, s, flip, r) && Dot(axis.dir, axis.dir) > 0.0 && Sq(c) + Sq(s) == 1.0
    ensures var a := AxisUnit(axis, r);
            var radial := Radial(U0(a, r), V0(a, r), c, s);
            && Unit(a) && axis.dir == Scale(r.axis, a)
            && Dot(Reject(Seed(a), a), Reject(Seed(a), a)) > 0.19
            && Unit(radial) && Orthogonal(radial, a)
  {
    hide Dot, Scale, Normalized, Reject, Seed, U0, V0, Radial, CameraRoots, Mul;
    var a := AxisUnit(axis, r);
    NormalizedIsUnit(axis.dir, r.axis);
    SeedIsFar(a);
    BaseFrame(a, r);
    RadialIsUnit(a, U0(a, r), V0(a, r), c, s);
  }

  /** The camera looks straight at the tool from the requested distance: the columns form a proper
      rotation, position + distance * z is the axis point, the offset is perpendicular to the
      axis, the up vector is the axis direction (or its opposite), and the orthogonalisation step
      changed nothing. */
  lemma ViewPoseLooksAtTool(axis: Axis, distance: real, c: real, s: real, flip: bool, r: Roots)
    requires RootsFit(axis, c, s, flip, r) && Dot(axis.dir, axis.dir) > 0.0 && Sq(c) + Sq(s) == 1.0
    ensures var pose := ViewPose(axis, distance, c, s, flip, r);
            && ProperRotation(pose.x, pose.y, pose.z)
            && Add(pose.position, Scale(distance, pose.z)) == axis.point
            && Orthogonal(Sub(pose.position, axis.point), axis.dir)
            && axis.dir == Scale(if flip then -r.axis else r.axis, pose.y) && r.axis > 0.0
            && Reject(Up(AxisUnit(axis, r), flip), pose.z) == pose.y
  {
    hide Dot, Normalized, Reject, Seed, U0, V0, Cross, Det, FrameRoots, CameraRoots, Mul, Radial, Scale, Add, Sub, Neg;
    var a := AxisUnit(axis, r);
    var radial := Radial(U0(a, r), V0(a, r), c, s);
    ViewRadial(axis, c, s, flip, r);
    NormalizedIsUnit(axis.dir, r.axis);
    var y, z := Up(a, flip), Neg(radial);
    DotNeg(radial, a);
    DotNeg(a, z);
    DotCommutes(z, a);
    CameraFrame(y, z, r);
    RejectNothing(y, z);
    OffsetOrthogonal(axis, distance, radial, a, r.axis);
    BackToPoint(axis.point, distance, radial);
    FlippedScale(r.axis, a);
  }

  /** The pose spelled out over the orthonormal triple of the axis unit a, u and a x u, where u is
      the part of z, or of x for an axis close to z, that is perpendicular to the axis. */
  lemma ViewSpelled(axis: Axis, distance: real, c: real, s: real, flip: bool, r: Roots)
    requires RootsFit(axis, c, s, flip, r) && Dot(axis.dir, axis.dir) > 0.0 && Sq(c) + Sq(s) == 1.0
    ensures var a := AxisUnit(axis, r);
            var u := U0(a, r);
            var v := Cross(a, u);
            var radial := Add(Scale(c, u), Scale(s, v));
            var y := if flip then Neg(a) else a;
            && ViewPose(axis, distance, c, s, flip, r)
               == Pose(Add(axis.point, Scale(distance, radial)), Cross(y, Neg(radial)), y, Neg(radial))
            && axis.dir == Scale(r.axis, a) && r.axis > 0.0
            && Unit(a) && Unit(u) && Unit(v) && Orthogonal(u, a) && Orthogonal(v, a) && Orthogonal(u, v)
            && r.u > 0.0
            && Scale(r.u, u) == (var seed := if -0.9 < a.z < 0.9 then Vec(0.0, 0.0, 1.0) else Vec(1.0, 0.0, 0.0);
                                 Sub(seed, Scale(Dot(seed, a), a)))
  {
    hide Dot, Normalized, U0, V0, Cross, Det, FrameRoots, CameraRoots, Mul, Scale, Add, Sub, Neg, AxisUnit;
    var a := AxisUnit(axis, r);
    ViewRadial(axis, c, s, flip, r);
    NormalizedIsUnit(axis.dir, r.axis);
    BaseFrame(a, r);
    var radial := Radial(U0(a, r), V0(a, r), c, s);
    var y, z := Up(a, flip), Neg(radial);
    DotNeg(radial, a);
    DotNeg(a, z);
    DotCommutes(z, a);
    CameraFrame(y, z, r);
    hide Reject;
    RejectNothing(y, z);
  }

  /** Two points of a circle around the axis: their distance depends on the angle between them. */
  lemma CircleDistance(point: Vec, d: real, u: Vec, v: Vec, c1: real, s1: real, c2: real, s2: real)
    requires Unit(u) && Unit(v) && Orthogonal(u, v) && Sq(c1) + Sq(s1) == 1.0 && Sq(c2) + Sq(s2) == 1.0
    ensures var p := Add(point, Scale(d, Add(Scale(c1, u), Scale(s1, v))));
            var q := Add(point, Scale(d, Add(Scale(c2, u), Scale(s2, v))));
            Dot(Sub(p, q), Sub(p, q)) == Mul(2.0 * Mul(d, d), 1.0 - Mul(c1, c2) - Mul(s1, s2))
  {
    hide Dot, Add, Scale, Sub, Mul;
    var ra, rb := Radial(u, v, c1, s1), Radial(u, v, c2, s2);
    var away := Sub(ra, rb);
    OffsetsDiffer(point, d, ra, rb);
    DotScale(d, away, Scale(d, away));
    DotScale(d, away, away);
    DotSub(ra, rb, away);
    DotSub(ra, rb, ra);
    DotSub(ra, rb, rb);
    DotCommutes(ra, rb);
    RadialsMeet(u, v, c1, s1, c1, s1);
    RadialsMeet(u, v, c2, s2, c2, s2);
    RadialsMeet(u, v, c1, s1, c2, s2);
    var m := Mul(c1, c2) + Mul(s1, s2);
    assert Dot(away, away) == 2.0 - 2.0 * m;
    TwiceSquare(d, m);
  }

  lemma TwiceSquare(d: real, m: real)
    ensures Mul(d, Mul(d, 2.0 - 2.0 * m)) == Mul(2.0 * Mul(d, d), 1.0 - m)
  {}

  lemma OffsetsDiffer(point: Vec, d: real, ra: Vec, rb: Vec)
    ensures Sub(Add(point, Scale(d, ra)), Add(point, Scale(d, rb))) == Scale(d, Sub(ra, rb))
  {
    hide Mul;
    MulAdds(d, ra.x, rb.x);
    MulAdds(d, ra.y, rb.y);
    MulAdds(d, ra.z, rb.z);
  }

  lemma RadialsMeet(u: Vec, v: Vec, c1: real, s1: real, c2: real, s2: real)
    requires Unit(u) && Unit(v) && Orthogonal(u, v)
    ensures Dot(Radial(u, v, c1, s1), Radial(u, v, c2, s2)) == Mul(c1, c2) + Mul(s1, s2)
  {
    hide Dot, Add, Scale, Mul;
    var rb := Radial(u, v, c2, s2);
    DotAdd(Scale(c1, u), Scale(s1, v), rb);
    DotScale(c1, u, rb);
    DotScale(s1, v, rb);
    DotAdd(Scale(c2, u), Scale(s2, v), u);
    DotAdd(Scale(c2, u), Scale(s2, v), v);
    DotScale(c2, u, u);
    DotScale(c2, u, v);
    DotScale(s2, v, u);
    DotScale(s2, v, v);
    DotCommutes(u, v);
    MulUnits(c2);
    MulUnits(s2);
  }

  /** The cross product is the right-handed one. */
  lemma CrossIsRightHanded(k: real)
    ensures Cross(Vec(1.0, 0.0, 0.0), Vec(0.0, k, 0.0)) == Vec(0.0, 0.0, k)
    ensures Cross(Vec(0.0, 1.0, 0.0), Vec(0.0, 0.0, k)) == Vec(k, 0.0, 0.0)
    ensures Cross(Vec(0.0, 0.0, 1.0), Vec(k, 0.0, 0.0)) == Vec(0.0, k, 0.0)
  {
    hide Mul;
    MulUnits(k);
    MulUnits(0.0);
  }

  lemma FlippedScale(k: real, a: Vec)
    ensures Scale(-k, Neg(a)) == Scale(k, a)
  {
    hide Mul;
    MulNegates(k, a.x);
    MulNegates(k, a.y);
    MulNegates(k, a.z);
  }

  lemma BackToPoint(point: Vec, d: real, radial: Vec)
    ensures Add(Add(point, Scale(d, radial)), Scale(d, Neg(radial))) == point
    ensures Sub(Add(point, Scale(d, radial)), point) == Scale(d, radial)
  {
    hide Mul;
    MulNegates(d, radial.x);
    MulNegates(d, radial.y);
    MulNegates(d, radial.z);
  }

  lemma OffsetOrthogonal(axis: Axis, distance: real, radial: Vec, a: Vec, norm: real)
    requires Orthogonal(radial, a) && axis.dir == Scale(norm, a)
    ensures Orthogonal(Sub(Add(axis.point, Scale(distance, radial)), axis.point), axis.dir)
  {
    BackToPoint(axis.point, distance, radial);
    hide Dot, Scale, Mul, Sub, Add;
    DotScale(distance, radial, axis.dir);
    DotScale(norm, a, radial);
    DotCommutes(a, radial);
    MulUnits(norm);
    MulUnits(distance);
  }

  // ---------- where a view can be ----------

  lemma ComponentBound(r: Vec)
    requires Dot(r, r) <= 1.0
    ensures Abs(r.x) <= 1.0 && Abs(r.y) <= 1.0 && Abs(r.z) <= 1.0
  {
    DotSquares(r);
    hide Dot, Sq, Mul;
    SquareValues();
    SquareGrows(r.x, 1.0);
    SquareGrows(r.y, 1.0);
    SquareGrows(r.z, 1.0);
  }

  lemma NoLength(v: Vec, norm: real)
    requires IsRoot(norm, Dot(v, v)) && Dot(v, v) <= 0.0
    ensures v == ZERO && norm == 0.0 && Normalized(v, norm) == v
  {
    DotSquares(v);
    SquarePositive(v.x);
    SquarePositive(v.y);
    SquarePositive(v.z);
    SquarePositive(norm);
    hide Dot, Sq, Mul;
  }

  lemma ZeroVector(v: Vec)
    ensures Dot(ZERO, v) == 0.0 && Dot(v, ZERO) == 0.0 && Cross(ZERO, v) == ZERO
  {
    hide Mul;
    MulUnits(v.x);
    MulUnits(v.y);
    MulUnits(v.z);
  }

  lemma RadialOfZero(c: real, s: real)
    ensures Radial(UNIT_Z, ZERO, c, s) == Vec(0.0, 0.0, c)
  {
    hide Mul;
    MulUnits(c);
    MulUnits(s);
  }

  /** Even a zero axis direction gives a radial direction no longer than a unit. */
  lemma ZeroAxisRadial(axis: Axis, c: real, s: real, flip: bool, r: Roots)
    requires RootsFit(axis, c, s, flip, r) && Dot(axis.dir, axis.dir) <= 0.0
    ensures var a := AxisUnit(axis, r); Radial(U0(a, r), V0(a, r), c, s) == Vec(0.0, 0.0, c)
  {
    hide Dot, Normalized, Reject, Cross, CameraRoots, Radial, Sq, Mul;
    var a := AxisUnit(axis, r);
    NoLength(axis.dir, r.axis);
    assert a == ZERO;
    ZeroVector(UNIT_Z);
    RejectNothing(UNIT_Z, ZERO);
    assert Seed(a) == UNIT_Z;
    DotSeed(a);
    NormalizedFixesUnit(UNIT_Z, r.u);
    assert U0(a, r) == UNIT_Z;
    ZeroVector(ZERO);
    NoLength(ZERO, r.v);
    RadialOfZero(c, s);
  }

  lemma ViewRadialBound(axis: Axis, c: real, s: real, flip: bool, r: Roots)
    requires RootsFit(axis, c, s, flip, r) && Sq(c) + Sq(s) == 1.0
    ensures var a := AxisUnit(axis, r);
            var radial := Radial(U0(a, r), V0(a, r), c, s);
            Abs(radial.x) <= 1.0 && Abs(radial.y) <= 1.0 && Abs(radial.z) <= 1.0
  {
    hide Dot, Normalized, Reject, Cross, CameraRoots, FrameRoots, Radial, Sq, Mul, U0, V0, Seed;
    var a := AxisUnit(axis, r);
    if Dot(axis.dir, axis.dir) > 0.0 {
      ViewRadial(axis, c, s, flip, r);
      ComponentBound(Radial(U0(a, r), V0(a, r), c, s));
    } else {
      ZeroAxisRadial(axis, c, s, flip, r);
      SquarePositive(s);
      SquareValues();
      SquareGrows(c, 1.0);
    }
  }

  /** No coordinate of a view is further from the axis point than the distance, for every axis
      direction, zero included. */
  lemma ViewWithinDistance(axis: Axis, distance: real, c: real, s: real, flip: bool, r: Roots)
    requires RootsFit(axis, c, s, flip, r) && Sq(c) + Sq(s) == 1.0
    ensures var p := ViewPose(axis, distance, c, s, flip, r).position;
            && Abs(p.x - axis.point.x) <= Abs(distance)
            && Abs(p.y - axis.point.y) <= Abs(distance)
            && Abs(p.z - axis.point.z) <= Abs(distance)
  {
    ViewRadialBound(axis, c, s, flip, r);
    hide Dot, Normalized, Reject, Cross, CameraRoots, FrameRoots, Radial, Sq, Mul, U0, V0, Seed;
    var a := AxisUnit(axis, r);
    var radial := Radial(U0(a, r), V0(a, r), c, s);
    Reach(distance, radial.x);
    Reach(distance, radial.y);
    Reach(distance, radial.z);
  }

  lemma Reach(d: real, x: real)
    requires Abs(x) <= 1.0
    ensures Abs(Mul(d, x)) <= Abs(d)
  {
    hide Mul;
    var size := Abs(d);
    MulNegates(d, x);
    MulUnits(size);
    MulGrows(size, x, 1.0);
    MulGrows(size, -1.0, x);
    MulNegates(size, 1.0);
  }
}
