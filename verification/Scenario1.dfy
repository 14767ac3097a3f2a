/** The wrist-mounted orbit inspection: the axis in the CNC frame, the orbit around it, and the run
    that commands one view after another inside the safe region. */
module Scenario1 {
  import opened Geometry
  import opened Orbit
  import opened Reals
  import opened RobotIo

  /** The circular functions and the square root, known only by their defining properties. */
  datatype Trig = Trig(cos: real -> real, sin: real -> real, root: real -> real)

  ghost predicate Exact(t: Trig) {
    && (forall x :: Sq(t.cos(x)) + Sq(t.sin(x)) == 1.0)
    && (forall x :: x >= 0.0 ==> IsRoot(t.root(x), x))
  }

  // ---------- the CNC frame ----------

  /** A pose of the CNC frame in the base frame: the columns of its rotation and its origin. */
  datatype Frame = Frame(origin: Vec, x: Vec, y: Vec, z: Vec)

  function Turn(f: Frame, v: Vec): Vec { Add(Add(Scale(v.x, f.x), Scale(v.y, f.y)), Scale(v.z, f.z)) }

  /** In hybrid mode the axis is given in the CNC frame, otherwise in the base frame. */
  function ResolveAxis(hybrid: bool, point: Vec, dir: Vec, frame: Frame): Axis {
    if hybrid then Axis(Add(frame.origin, Turn(frame, point)), Turn(frame, dir)) else Axis(point, dir)
  }

  lemma DotSum(a: Vec, b: Vec, c: Vec, w: Vec)
    ensures Dot(Add(Add(a, b), c), w) == Dot(a, w) + Dot(b, w) + Dot(c, w)
  {
    hide Dot, Add;
    DotAdd(Add(a, b), c, w);
    DotAdd(a, b, w);
  }

  /** The rotated vector measured along one axis of the frame is its coordinate there. */
  lemma TurnAlong(f: Frame, v: Vec, w: Vec)
    ensures Dot(Turn(f, v), w) == Mul(v.x, Dot(f.x, w)) + Mul(v.y, Dot(f.y, w)) + Mul(v.z, Dot(f.z, w))
  {
    hide Dot, Add, Scale, Mul;
    DotSum(Scale(v.x, f.x), Scale(v.y, f.y), Scale(v.z, f.z), w);
    DotScale(v.x, f.x, w);
    DotScale(v.y, f.y, w);
    DotScale(v.z, f.z, w);
  }

  /** A proper rotation keeps inner products, so lengths and right angles. */
  lemma TurnKeepsDot(f: Frame, v: Vec, w: Vec)
    requires ProperRotation(f.x, f.y, f.z)
    ensures Dot(Turn(f, v), Turn(f, w)) == Dot(v, w)
  {
    Coordinates(f, w);
    TurnAlong(f, v, Turn(f, w));
    hide Turn, ProperRotation, Mul;
  }

  lemma Coordinates(f: Frame, w: Vec)
    requires ProperRotation(f.x, f.y, f.z)
    ensures Dot(f.x, Turn(f, w)) == w.x && Dot(f.y, Turn(f, w)) == w.y && Dot(f.z, Turn(f, w)) == w.z
  {
    hide Dot, Turn, Det, Mul;
    TurnAlong(f, w, f.x);
    TurnAlong(f, w, f.y);
    TurnAlong(f, w, f.z);
    DotCommutes(f.x, Turn(f, w));
    DotCommutes(f.y, Turn(f, w));
    DotCommutes(f.z, Turn(f, w));
    DotCommutes(f.x, f.y);
    DotCommutes(f.x, f.z);
    DotCommutes(f.y, f.z);
    MulUnits(w.x);
    MulUnits(w.y);
    MulUnits(w.z);
  }

  /** The CNC frame moves the axis rigidly: its direction keeps its length, and distances between
      points are kept. */
  lemma AxisMovesRigidly(f: Frame, p: Vec, q: Vec, dir: Vec)
    requires ProperRotation(f.x, f.y, f.z)
    ensures var a := ResolveAxis(true, p, dir, f);
            var b := ResolveAxis(true, q, dir, f);
            var d := Sub(a.point, b.point);
            && Dot(a.dir, a.dir) == Dot(dir, dir)
            && Dot(d, d) == Dot(Sub(p, q), Sub(p, q))
            && Dot(d, a.dir) == Dot(Sub(p, q), dir)
  {
    hide Dot, Turn, ProperRotation, Mul;
    TurnKeepsDot(f, dir, dir);
    TurnOfDifference(f, p, q);
    TurnKeepsDot(f, Sub(p, q), Sub(p, q));
    TurnKeepsDot(f, Sub(p, q), dir);
  }

  /** Without the hybrid mode the axis is the one given; with it, the given coordinates are those of
      the resolved axis along the columns of the frame, the point's counted from its origin. */
  lemma AxisInFrame(f: Frame, p: Vec, dir: Vec)
    ensures ResolveAxis(false, p, dir, f) == Axis(p, dir)
    ensures ProperRotation(f.x, f.y, f.z) ==>
      var axis := ResolveAxis(true, p, dir, f);
      var offset := Sub(axis.point, f.origin);
      && Dot(f.x, offset) == p.x && Dot(f.y, offset) == p.y && Dot(f.z, offset) == p.z
      && Dot(f.x, axis.dir) == dir.x && Dot(f.y, axis.dir) == dir.y && Dot(f.z, axis.dir) == dir.z
  {
    hide Dot, Turn, ProperRotation;
    if ProperRotation(f.x, f.y, f.z) {
      Coordinates(f, p);
      Coordinates(f, dir);
      assert Sub(Add(f.origin, Turn(f, p)), f.origin) == Turn(f, p);
    }
  }

  lemma TurnOfDifference(f: Frame, p: Vec, q: Vec)
    ensures Sub(Add(f.origin, Turn(f, p)), Add(f.origin, Turn(f, q))) == Turn(f, Sub(p, q))
  {
    hide Mul;
    MulAdds(f.x.x, p.x, q.x);
    MulAdds(f.x.y, p.x, q.x);
    MulAdds(f.x.z, p.x, q.x);
    MulAdds(f.y.x, p.y, q.y);
    MulAdds(f.y.y, p.y, q.y);
    MulAdds(f.y.z, p.y, q.y);
    MulAdds(f.z.x, p.z, q.z);
    MulAdds(f.z.y, p.z, q.z);
    MulAdds(f.z.z, p.z, q.z);
  }

  // ---------- the orbit ----------

  lemma NormPositive(v: Vec)
    ensures Dot(v, v) >= 0.0
  {
    hide Dot, Mul;
    DotSquares(v);
  }

  /** Every norm the view construction divides by, taken with the given root. */
  function RootsFor(axis: Axis, c: real, s: real, flip: bool, t: Trig): (r: Roots)
    requires Exact(t)
    ensures RootsFit(axis, c, s, flip, r)
  {
    NormPositive(axis.dir);
    var n := t.root(Dot(axis.dir, axis.dir));
    var a := Normalized(axis.dir, n);
    var w := Reject(Seed(a), a);
    NormPositive(w);
    var nu := t.root(Dot(w, w));
    var u := Normalized(w, nu);
    NormPositive(Cross(a, u));
    var nv := t.root(Dot(Cross(a, u), Cross(a, u)));
    var v := Normalized(Cross(a, u), nv);
    var z := Neg(Radial(u, v, c, s));
    var y := Reject(Up(a, flip), z);
    NormPositive(y);
    var ny := t.root(Dot(y, y));
    var x := Cross(Normalized(y, ny), z);
    NormPositive(x);
    Roots(n, nu, nv, ny, t.root(Dot(x, x)))
  }

  function View(axis: Axis, distance: real, angle: real, flip: bool, t: Trig): Pose
    requires Exact(t)
  {
    var c, s := t.cos(angle), t.sin(angle);
    ViewPose(axis, distance, c, s, flip, RootsFor(axis, c, s, flip, t))
  }

  /** The norms taken before the angle comes in are the same for every view. */
  lemma BaseIsShared(axis: Axis, c1: real, s1: real, c2: real, s2: real, flip: bool, t: Trig)
    requires Exact(t)
    ensures var r1, r2 := RootsFor(axis, c1, s1, flip, t), RootsFor(axis, c2, s2, flip, t);
            r1.axis == r2.axis && r1.u == r2.u && r1.v == r2.v
  {
    hide RootsFit, Dot, Cross, Reject, Seed, Up, Neg, Radial, Normalized;
  }

  /** The first two directions of the orbit's frame, and the norms they were divided by. */
  function Base(axis: Axis, flip: bool, t: Trig): (Vec, Vec, real, real)
    requires Exact(t)
  {
    var r := RootsFor(axis, t.cos(0.0), t.sin(0.0), flip, t);
    var a := AxisUnit(axis, r);
    (a, U0(a, r), r.axis, r.u)
  }

  lemma ViewOnOrbit(axis: Axis, distance: real, angle: real, flip: bool, t: Trig)
    requires Exact(t) && Dot(axis.dir, axis.dir) > 0.0
    ensures var (a, u, norm, stretch) := Base(axis, flip, t);
            var radial := Add(Scale(t.cos(angle), u), Scale(t.sin(angle), Cross(a, u)));
            var pose := View(axis, distance, angle, flip, t);
            && pose.position == Add(axis.point, Scale(distance, radial))
            && pose.z == Neg(radial) && pose.y == (if flip then Neg(a) else a) && pose.x == Cross(pose.y, pose.z)
            && ProperRotation(pose.x, pose.y, pose.z)
            && Add(pose.position, Scale(distance, pose.z)) == axis.point
  {
    var c, s := t.cos(angle), t.sin(angle);
    assert Sq(t.cos(angle)) + Sq(t.sin(angle)) == 1.0;
    hide RootsFit, ViewPose, Sq, RootsFor, Dot, Cross, Normalized, Reject, Seed, FrameRoots, ProperRotation, Add, Scale, Neg, Unit,
         Orthogonal;
    BaseIsShared(axis, c, s, t.cos(0.0), t.sin(0.0), flip, t);
    var r := RootsFor(axis, c, s, flip, t);
    ViewSpelled(axis, distance, c, s, flip, r);
    ViewPoseLooksAtTool(axis, distance, c, s, flip, r);
  }

  lemma BaseSpelled(axis: Axis, flip: bool, t: Trig)
    requires Exact(t) && Dot(axis.dir, axis.dir) > 0.0
    ensures var (a, u, norm, stretch) := Base(axis, flip, t);
            && norm > 0.0 && axis.dir == Scale(norm, a)
            && Unit(a) && Unit(u) && Unit(Cross(a, u))
            && Orthogonal(u, a) && Orthogonal(Cross(a, u), a) && Orthogonal(u, Cross(a, u))
            && stretch > 0.0
            && Scale(stretch, u) == (var seed := if -0.9 < a.z < 0.9 then Vec(0.0, 0.0, 1.0) else Vec(1.0, 0.0, 0.0);
                                     Sub(seed, Scale(Dot(seed, a), a)))
  {
    var c, s := t.cos(0.0), t.sin(0.0);
    assert Sq(t.cos(0.0)) + Sq(t.sin(0.0)) == 1.0;
    hide RootsFit, ViewPose, Sq, RootsFor, Dot, Cross, Normalized, Reject, Seed, FrameRoots, ProperRotation, Add, Scale, Neg, Sub, Unit,
         Orthogonal;
    ViewSpelled(axis, 0.0, c, s, flip, RootsFor(axis, c, s, flip, t));
  }

  /** One pose per angle of the sweep. About an axis with a direction they lie on one circle: a is
      the unit vector of the axis, u the part of the reference vector perpendicular to it, made a
      unit, and view i stands at its angle from u towards a x u, at the given distance from the axis
      point, looking at that point, with the axis or its opposite as its up direction. */
  method ScenarioOrbit(axis: Axis, distance: real, a0: real, a1: real, n: int, flip: bool, pi: real, t: Trig)
    returns (poses: seq<Pose>, ghost angles: seq<real>, ghost a: Vec, ghost u: Vec, ghost norm: real, ghost stretch: real)
    requires Exact(t)
    ensures |poses| == |angles| == if n <= 0 then 0 else n
    ensures n > 0 ==> angles[0] == a0
    ensures var steps := if Abs(Abs(a1 - a0) - 2.0 * pi) < 0.001 then n else n - 1;
            n > 1 ==> forall i :: 0 <= i < |angles| ==> (angles[i] - a0) * steps as real == (a1 - a0) * i as real
    ensures forall i :: 0 <= i < |poses| ==> poses[i] == View(axis, distance, AngleAt(a0, a1, n, pi, i), flip, t)
    ensures Dot(axis.dir, axis.dir) > 0.0 ==>
              && norm > 0.0 && axis.dir == Scale(norm, a)
              && Unit(a) && Unit(u) && Unit(Cross(a, u))
              && Orthogonal(u, a) && Orthogonal(Cross(a, u), a) && Orthogonal(u, Cross(a, u))
              && stretch > 0.0
              && Scale(stretch, u) == (var seed := if -0.9 < a.z < 0.9 then Vec(0.0, 0.0, 1.0) else Vec(1.0, 0.0, 0.0);
                                       Sub(seed, Scale(Dot(seed, a), a)))
    ensures Dot(axis.dir, axis.dir) > 0.0 ==>
              forall i :: 0 <= i < |poses| ==>
                var radial := Add(Scale(t.cos(angles[i]), u), Scale(t.sin(angles[i]), Cross(a, u)));
                && poses[i].position == Add(axis.point, Scale(distance, radial))
                && poses[i].z == Neg(radial) && poses[i].y == (if flip then Neg(a) else a)
                && poses[i].x == Cross(poses[i].y, poses[i].z)
                && ProperRotation(poses[i].x, poses[i].y, poses[i].z)
                && Add(poses[i].position, Scale(distance, poses[i].z)) == axis.point
  {
    hide *;
    var sweep := OrbitAngles(a0, a1, n, pi);
    angles := sweep;
    poses := [];
    var i := 0;
    while i < |sweep|
      invariant 0 <= i <= |sweep| && |poses| == i
      invariant forall k :: 0 <= k < i ==> poses[k] == View(axis, distance, sweep[k], flip, t)
    {
      poses := poses + [View(axis, distance, sweep[i], flip, t)];
      i := i + 1;
    }
    var base := Base(axis, flip, t);
    a, u, norm, stretch := base.0, base.1, base.2, base.3;
    if Dot(axis.dir, axis.dir) > 0.0 {
      BaseSpelled(axis, flip, t);
      forall k | 0 <= k < |poses|
        ensures var radial := Add(Scale(t.cos(angles[k]), u), Scale(t.sin(angles[k]), Cross(a, u)));
                && poses[k].position == Add(axis.point, Scale(distance, radial))
                && poses[k].z == Neg(radial) && poses[k].y == (if flip then Neg(a) else a)
                && poses[k].x == Cross(poses[k].y, poses[k].z)
                && ProperRotation(poses[k].x, poses[k].y, poses[k].z)
                && Add(poses[k].position, Scale(distance, poses[k].z)) == axis.point
      {
        ViewOnOrbit(axis, distance, angles[k], flip, t);
      }
    }
  }

  /** How far apart two views of one orbit are: the chord of the angle between them. */
  lemma ViewsApart(axis: Axis, distance: real, x: real, y: real, flip: bool, t: Trig)
    requires Exact(t) && Dot(axis.dir, axis.dir) > 0.0
    ensures var p, q := View(axis, distance, x, flip, t).position, View(axis, distance, y, flip, t).position;
            Dot(Sub(p, q), Sub(p, q))
            == Mul(2.0 * Mul(distance, distance), 1.0 - Mul(t.cos(x), t.cos(y)) - Mul(t.sin(x), t.sin(y)))
  {
    assert Sq(t.cos(x)) + Sq(t.sin(x)) == 1.0 && Sq(t.cos(y)) + Sq(t.sin(y)) == 1.0;
    hide *;
    ViewOnOrbit(axis, distance, x, flip, t);
    ViewOnOrbit(axis, distance, y, flip, t);
    BaseSpelled(axis, flip, t);
    var base := Base(axis, flip, t);
    CircleDistance(axis.point, distance, base.1, Cross(base.0, base.1), t.cos(x), t.sin(x), t.cos(y), t.sin(y));
  }

  // ---------- the safe region ----------

  datatype Box = Box(min: Vec, max: Vec)

  predicate InSafeRegion(p: Vec, box: Box) {
    && box.min.x <= p.x <= box.max.x
    && box.min.y <= p.y <= box.max.y
    && box.min.z <= p.z <= box.max.z
  }

  /** The box holds the point with this margin on each coordinate. */
  predicate HoldsWithMargin(box: Box, p: Vec, margin: real) {
    && box.min.x + margin <= p.x <= box.max.x - margin
    && box.min.y + margin <= p.y <= box.max.y - margin
    && box.min.z + margin <= p.z <= box.max.z - margin
  }

  /** A box around the axis point with the inspection distance as margin contains every view, at any
      angle, for any axis direction and either camera orientation. */
  lemma MarginCoversViews(axis: Axis, distance: real, angle: real, flip: bool, t: Trig, box: Box)
    requires Exact(t) && HoldsWithMargin(box, axis.point, Abs(distance))
    ensures InSafeRegion(View(axis, distance, angle, flip, t).position, box)
  {
    var c, s := t.cos(angle), t.sin(angle);
    assert Sq(t.cos(angle)) + Sq(t.sin(angle)) == 1.0;
    hide RootsFit, ViewPose, Sq, RootsFor;
    ViewWithinDistance(axis, distance, c, s, flip, RootsFor(axis, c, s, flip, t));
  }

  // ---------- the run ----------

  /** How a run of the orbit can end. */
  datatype Outcome =
    | DryRun | NoServices | StateMissing | Unsafe
    | Outside(i: nat) | MoveFailed(i: nat) | ShuttingDown(i: nat) | Complete

  class Scenario1Inspect {
    const bridge: RobotIoBridge
    const hybrid: bool
    const dryRun: bool
    const useLine: bool
    const flipUp: bool
    const point: Vec
    const dir: Vec
    const frame: Frame
    const distance: real
    const angleStart: real
    const angleEnd: real
    const numViews: int
    const velocity: real
    const lineVelocity: real
    const accTime: real
    const moveTimeout: int
    const settleMs: int
    const region: Box
    const pi: real
    const trig: Trig

    constructor (b: RobotIoBridge, mode: bool, dry: bool, line: bool, flip: bool, axisPoint: Vec, axisDir: Vec, cnc: Frame,
                 d: real, a0: real, a1: real, n: int, v: real, lineV: real, acc: real, timeout: int, settle: int,
                 box: Box, halfTurn: real, t: Trig)
      ensures bridge == b && hybrid == mode && dryRun == dry && useLine == line && flipUp == flip
      ensures point == axisPoint && dir == axisDir && frame == cnc && distance == d && angleStart == a0 && angleEnd == a1
      ensures numViews == n && velocity == v && lineVelocity == lineV && accTime == acc
      ensures moveTimeout == timeout && settleMs == settle && region == box && pi == halfTurn && trig == t
    {
      bridge, hybrid, dryRun, useLine, flipUp := b, mode, dry, line, flip;
      point, dir, frame, distance, angleStart, angleEnd := axisPoint, axisDir, cnc, d, a0, a1;
      numViews, velocity, lineVelocity, accTime := n, v, lineV, acc;
      moveTimeout, settleMs, region, pi, trig := timeout, settle, box, halfTurn, t;
    }

    function ToolAxis(): Axis { ResolveAxis(hybrid, point, dir, frame) }

    function ViewAt(i: nat): Pose
      requires Exact(trig)
    {
      View(ToolAxis(), distance, AngleAt(angleStart, angleEnd, numViews, pi, i), flipUp, trig)
    }

    /** The axis of the run: as configured, or, in hybrid mode, at the configured coordinates in the
        CNC frame. */
    lemma ToolAxisSpelled()
      ensures !hybrid ==> ToolAxis() == Axis(point, dir)
      ensures hybrid && ProperRotation(frame.x, frame.y, frame.z) ==>
        var axis := ToolAxis();
        var offset := Sub(axis.point, frame.origin);
        && Dot(frame.x, offset) == point.x && Dot(frame.y, offset) == point.y && Dot(frame.z, offset) == point.z
        && Dot(frame.x, axis.dir) == dir.x && Dot(frame.y, axis.dir) == dir.y && Dot(frame.z, axis.dir) == dir.z
    {
      AxisInFrame(frame, point, dir);
      hide ResolveAxis, Dot, Sub, ProperRotation;
    }

    /** View i of the run: its angle is i steps from the configured start, and the pose stands at
        that angle on the circle about the run's axis, looking at the axis point. */
    lemma ViewAtSpelled(i: nat) returns (angle: real, a: Vec, u: Vec)
      requires Exact(trig) && i < numViews && Dot(ToolAxis().dir, ToolAxis().dir) > 0.0
      ensures a == Base(ToolAxis(), flipUp, trig).0 && u == Base(ToolAxis(), flipUp, trig).1
      ensures Unit(a) && Unit(u) && Orthogonal(u, a)
      ensures i == 0 ==> angle == angleStart
      ensures var steps := if Abs(Abs(angleEnd - angleStart) - 2.0 * pi) < 0.001 then numViews else numViews - 1;
              numViews > 1 ==> (angle - angleStart) * steps as real == (angleEnd - angleStart) * i as real
      ensures var radial := Add(Scale(trig.cos(angle), u), Scale(trig.sin(angle), Cross(a, u)));
              && ViewAt(i).position == Add(ToolAxis().point, Scale(distance, radial))
              && ViewAt(i).z == Neg(radial) && ViewAt(i).y == (if flipUp then Neg(a) else a)
              && ViewAt(i).x == Cross(ViewAt(i).y, ViewAt(i).z)
    {
      SweepLaw(angleStart, angleEnd, numViews, pi);
      angle := AngleAt(angleStart, angleEnd, numViews, pi, i);
      var base := Base(ToolAxis(), flipUp, trig);
      a, u := base.0, base.1;
      hide View, AngleAt, ToolAxis, Dot, Cross, Add, Scale, Neg, Unit, Orthogonal, ProperRotation, Base, Exact;
      BaseSpelled(ToolAxis(), flipUp, trig);
      ViewOnOrbit(ToolAxis(), distance, angle, flipUp, trig);
    }

    function CommandFor(pose: Pose): Command {
      Command(ToolTarget(pose, useLine), if useLine then lineVelocity else velocity, accTime)
    }

    /** The commands for the first k views. */
    function ViewCommands(k: nat): (cs: seq<Command>)
      requires Exact(trig)
      ensures |cs| == k
    {
      if k == 0 then [] else ViewCommands(k - 1) + [CommandFor(ViewAt(k - 1))]
    }

    predicate Allowed(i: nat)
      requires Exact(trig)
    {
      hybrid ==> InSafeRegion(ViewAt(i).position, region)
    }

    /** What the record of a run says of its outcome. */
    ghost predicate Ended(run: seq<Entry>, outcome: Outcome)
      requires Exact(trig)
    {
      var total: nat := if numViews <= 0 then 0 else numViews;
      match outcome
      case DryRun => dryRun && run == []
      case NoServices => run == [Services(false)]
      case StateMissing => run == [Services(true)]
      case Unsafe => run == [Services(true)] + [Checked(false)]
      case Outside(i) => i < total && hybrid && !Allowed(i) && AllAllowed(i) && HaltedRun(run, ViewCommands(i), 0.0)
      case MoveFailed(i) => i < total && AllAllowed(i + 1) && Stuck(run, ViewCommands(i + 1), 0.0)
      case ShuttingDown(i) =>
        i < total && AllAllowed(i) && Commands(run) == ViewCommands(i) && Follow(Idle, run, 0.0) == Down
      case Complete => AllAllowed(total) && OnPlan(run, ViewCommands(total), 0.0)
    }

    ghost predicate AllAllowed(k: nat)
      requires Exact(trig)
    {
      forall i :: 0 <= i < k ==> Allowed(i)
    }

    lemma DownJoins(run: seq<Entry>, done: seq<Command>)
      requires OnPlan(run, done, 0.0)
      ensures Commands(run + [ShutDown]) == done && Follow(Idle, run + [ShutDown], 0.0) == Down
    {
      Snoc(Idle, run, ShutDown, 0.0);
    }

    /** The whole program: nothing in a dry run; otherwise the orbit once the driver is there and the
        robot is safe. */
    method Run() returns (ghost outcome: Outcome, ghost run: seq<Entry>)
      requires bridge.Valid() && Exact(trig)
      modifies bridge
      ensures bridge.Valid() && bridge.log == old(bridge.log) + run && Ended(run, outcome)
      ensures dryRun <==> outcome.DryRun?
      ensures outcome.StateMissing? ==> old(bridge.heard) == []
    {
      hide View, Exact, AngleAt, ResolveAxis, AllAllowed, ViewCommands, Follow, Commands, Dot, Cross, Unit, Orthogonal, ProperRotation,
           Add, Sub, Scale, Neg, Abs, Honest;
      run := [];
      var axis := ResolveAxis(hybrid, point, dir, frame);
      var poses, angles, a, u, norm, stretch := ScenarioOrbit(axis, distance, angleStart, angleEnd, numViews, flipUp, pi, trig);
      if dryRun { return DryRun, run; }
      var ready, naps, gaveUp := bridge.WaitForServices(10);
      run := [Services(ready)];
      if !ready { return NoServices, run; }
      var goOn := AwaitState();
      if !goOn { return StateMissing, run; }
      var safe, fault := bridge.SafetyOk();
      run := [Services(true)] + [Checked(safe)];
      if !safe { return Unsafe, run; }
      ServicesRecord(run, true, 0.0);
      assert OnPlan(run, [], 0.0);
      outcome, run := FollowOrbit(poses, old(bridge.log), run);
    }

    /** The orbit, one view after the other. */
    method FollowOrbit(poses: seq<Pose>, ghost before: seq<Entry>, ghost start: seq<Entry>)
      returns (ghost outcome: Outcome, ghost run: seq<Entry>)
      requires Exact(trig) && bridge.Valid() && bridge.log == before + start && OnPlan(start, [], 0.0)
      requires |poses| == if numViews <= 0 then 0 else numViews
      requires forall i :: 0 <= i < |poses| ==> poses[i] == ViewAt(i)
      modifies bridge
      ensures bridge.Valid() && bridge.log == before + run && Ended(run, outcome)
      ensures outcome.Outside? || outcome.MoveFailed? || outcome.ShuttingDown? || outcome.Complete?
    {
      hide ViewAt, Exact, InSafeRegion, OnPlan, Stuck, HaltedRun, Follow, Commands;
      run := start;
      var i := 0;
      while i < |poses|
        invariant 0 <= i <= |poses| && bridge.Valid() && bridge.log == before + run
        invariant AllAllowed(i) && OnPlan(run, ViewCommands(i), 0.0)
      {
        var alive := bridge.Alive();
        if !alive {
          DownJoins(run, ViewCommands(i));
          return ShuttingDown(i), run + [ShutDown];
        }
        if hybrid && !InSafeRegion(poses[i].position, region) {
          var halted := bridge.Halt();
          StopJoins(run, ViewCommands(i));
          return Outside(i), run + [Halt];
        }
        var ok;
        ok, run := MoveView(poses[i], i, before, run);
        if !ok { return MoveFailed(i), run; }
        bridge.Sleep(settleMs);
        i := i + 1;
      }
      outcome := Complete;
    }

    /** Waits up to five seconds for the first robot state. */
    method AwaitState() returns (goOn: bool)
      requires bridge.Valid()
      modifies bridge
      ensures bridge.Valid() && bridge.log == old(bridge.log) && (!goOn ==> old(bridge.heard) == [])
    {
      var deadline := bridge.clock + 5 * SECOND;
      var alive: bool := *;
      var have := bridge.HaveState();
      while alive && !have
        invariant bridge.Valid() && bridge.log == old(bridge.log) && (!have ==> old(bridge.heard) == [])
        decreases if bridge.clock > deadline then 0 else deadline - bridge.clock + 1
      {
        if bridge.clock > deadline { return false; }
        bridge.Sleep(50);
        alive := *;
        have := bridge.HaveState();
      }
      goOn := true;
    }

    lemma StopJoins(run: seq<Entry>, done: seq<Command>)
      requires OnPlan(run, done, 0.0)
      ensures HaltedRun(run + [Halt], done, 0.0)
    {
      HaltJoins(run, done, 0.0);
    }

    method MoveView(pose: Pose, ghost i: nat, ghost before: seq<Entry>, ghost run: seq<Entry>)
      returns (ok: bool, ghost next: seq<Entry>)
      requires Exact(trig) && pose == ViewAt(i)
      requires bridge.Valid() && bridge.log == before + run && OnPlan(run, ViewCommands(i), 0.0)
      modifies bridge
      ensures bridge.Valid() && bridge.log == before + next
      ensures if ok then OnPlan(next, ViewCommands(i + 1), 0.0) else Stuck(next, ViewCommands(i + 1), 0.0)
    {
      hide OnPlan, Stuck, Moved, View, Exact, AngleAt;
      ghost var t0, mark := bridge.clock, bridge.log;
      ok := bridge.Move(CommandFor(pose), 0.0, moveTimeout);
      ghost var moved := bridge.log[|mark|..];
      next := run + moved;
      MoveJoins(run, ViewCommands(i), moved, CommandFor(pose), ok, 0.0, moveTimeout, bridge.clock - t0);
    }

    // ---------- main results ----------

    lemma ViewCommandAt(k: nat, j: nat)
      requires Exact(trig) && j < k
      ensures ViewCommands(k)[j] == CommandFor(ViewAt(j))
    {
      hide ViewAt;
      if j < k - 1 { ViewCommandAt(k - 1, j); }
    }

    lemma ViewsCommanded(run: seq<Entry>, outcome: Outcome) returns (m: nat)
      requires Exact(trig) && Ended(run, outcome)
      ensures Commands(run) == ViewCommands(m) && (m == 0 || m <= numViews) && AllAllowed(m)
      ensures Follow(Idle, run, 0.0) != Astray
    {
      if outcome.DryRun? { FreshRecord(run, 0.0); }
      if outcome.NoServices? || outcome.StateMissing? || outcome.Unsafe? { ServicesRecord(run, !outcome.NoServices?, 0.0); }
      hide Allowed, Exact, Follow, Commands;
      m := match outcome
        case Outside(i) => i
        case ShuttingDown(i) => i
        case MoveFailed(i) => i + 1
        case Complete => if numViews <= 0 then 0 else numViews
        case _ => 0;
    }

    /** However a run ends, the commanded views are a consecutive prefix of the orbit, each commanded
        with its configured velocity and acceleration time; in hybrid mode no coordinate of one
        leaves the safe region; and each command was given only after safety was confirmed and the
        previous view reached, and none after a halt. */
    lemma CommandsStayInside(run: seq<Entry>, outcome: Outcome, j: nat, k: nat)
      requires Exact(trig) && Ended(run, outcome) && j < |Commands(run)| && k < |run|
      ensures |Commands(run)| <= numViews
      ensures Commands(run)[j] == Command(ToolTarget(ViewAt(j), useLine), if useLine then lineVelocity else velocity, accTime)
      ensures hybrid ==>
                var p := ViewAt(j).position;
                && region.min.x <= p.x <= region.max.x
                && region.min.y <= p.y <= region.max.y
                && region.min.z <= p.z <= region.max.z
      ensures run[k].SetPositions? ==> Halt !in run[..k] && Cleared(run[..k], 0.0)
    {
      hide ViewAt, Exact, Cleared, Follow, Commands, Ended;
      var m := ViewsCommanded(run, outcome);
      ViewCommandAt(m, j);
      assert Allowed(j);
      if run[k].SetPositions? { InOrder(run, k, 0.0); }
    }

    /** How many views a run commanded, by its outcome; and a run stopped for leaving the region had
        reached the first view with a coordinate outside it, halted there and gave that view no
        command. */
    lemma OutcomeMeans(run: seq<Entry>, outcome: Outcome)
      requires Exact(trig) && Ended(run, outcome)
      ensures |Commands(run)| ==
              match outcome
              case Outside(i) => i
              case ShuttingDown(i) => i
              case MoveFailed(i) => i + 1
              case Complete => if numViews <= 0 then 0 else numViews
              case _ => 0
      ensures outcome.Outside? ==>
                var p := ViewAt(outcome.i).position;
                && hybrid && outcome.i < numViews && run != [] && run[|run| - 1] == Halt
                && !(region.min.x <= p.x <= region.max.x && region.min.y <= p.y <= region.max.y && region.min.z <= p.z <= region.max.z)
    {
      if outcome.DryRun? { FreshRecord(run, 0.0); }
      if outcome.NoServices? || outcome.StateMissing? || outcome.Unsafe? { ServicesRecord(run, !outcome.NoServices?, 0.0); }
      hide ViewAt, Exact, Follow, Commands, AllAllowed;
    }

    /** When the region holds the axis point, after the CNC-frame transform, with the inspection
        distance as margin on each coordinate, no run is ever stopped for leaving it, whatever the
        angle range, the number of views and the camera orientation. */
    lemma MarginNeverRejects(run: seq<Entry>, outcome: Outcome)
      requires Exact(trig) && Ended(run, outcome)
      requires HoldsWithMargin(region, ToolAxis().point, Abs(distance))
      ensures !outcome.Outside?
    {
      hide View, Exact, InSafeRegion, HoldsWithMargin, AngleAt, HaltedRun, Stuck, OnPlan;
      if outcome.Outside? {
        var angle := AngleAt(angleStart, angleEnd, numViews, pi, outcome.i);
        MarginCoversViews(ToolAxis(), distance, angle, flipUp, trig, region);
      }
    }
  }
}
