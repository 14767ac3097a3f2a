/** The owner of robot motion: named moves, jogs and inspection runs. */
module InspectionManager {
  import opened Orbit
  import opened Reals
  import opened RobotIo

  /** uint16 counters; every value stored in one is shown to fit. */
  type Count = n: int | 0 <= n < 65536

  datatype Goal = Goal(numViews: Count, angleStart: real, angleEnd: real)
  datatype Waypoint = Waypoint(joints: Joints, angle: real)
  datatype Phase = Init | Approach | Inspect | Retreat | Home | Done
  datatype Progress = Progress(phase: Phase, progress: real, captured: Count)
  datatype Sample = Sample(view: nat, angle: real, joints: Joints, image: string)
  datatype Terminal = Succeeded(images: Count) | Aborted(images: Count) | Canceled(images: Count)
  datatype Reply = UnknownPose | Busy | BadJoint | StateMissing | Unsafe | BadState | MoveDone | MoveFailed

  // ---------- feedback of a run ----------

  function InspectProgress(n: Count, i: nat): Progress
    requires i < n
  {
    Progress(Inspect, 0.2 + Mul(0.7, (i + 1) as real) / n as real, i + 1)
  }

  /** The feedback of a run of n views that goes all the way. */
  function FullFeedback(n: Count): seq<Progress> {
    [Progress(Init, 0.0, 0), Progress(Approach, 0.1, 0)]
    + seq(n, i requires 0 <= i < n => InspectProgress(n, i))
    + [Progress(Retreat, 0.92, n), Progress(Home, 0.98, n), Progress(Done, 1.0, n)]
  }

  /** k of n views: the fraction done lies in (0, 0.7], strictly increasing with k. */
  lemma FractionGrows(n: nat, i: nat, j: nat)
    requires i < j <= n
    ensures 0.0 <= Mul(0.7, i as real) / n as real < Mul(0.7, j as real) / n as real <= 0.7
  {
    hide Mul;
    var m, x, y := n as real, Mul(0.7, i as real) / n as real, Mul(0.7, j as real) / n as real;
    Quotient(Mul(0.7, i as real), m);
    Quotient(Mul(0.7, j as real), m);
    MulAdds(0.7, j as real, i as real);
    MulPositive(0.7, (j - i) as real);
    MulPositive(0.7, i as real);
    MulGrows(0.7, j as real, m);
    MulCommutes(m, 0.7);
    if x < 0.0 { MulPositive(m, -x); MulNegates(m, x); }
    if y <= x { MulGrows(m, y, x); }
    if y > 0.7 { MulAdds(m, y, 0.7); MulPositive(m, y - 0.7); }
  }

  /** Progress strictly increases from 0 to 1, and the captured count never decreases nor passes n. */
  lemma ProgressIncreases(n: Count, i: nat, j: nat)
    requires i < j < |FullFeedback(n)|
    ensures 0.0 <= FullFeedback(n)[i].progress < FullFeedback(n)[j].progress <= 1.0
    ensures FullFeedback(n)[i].captured <= FullFeedback(n)[j].captured <= n
  {
    hide Mul;
    if 2 <= i < n + 2 { FractionGrows(n, i - 2, i - 1); }
    if 2 <= j < n + 2 { FractionGrows(n, j - 2, j - 1); }
    if 2 <= i && j < n + 2 { FractionGrows(n, i - 1, j - 1); }
  }

  // ---------- the account of a run ----------

  /** All a run did: its record with the driver, the feedback it published, the answers to its
      cancel checks, the outcomes of its captures, its samples, for each sample the record at the
      moment of its capture, and whether the run began before any robot state arrived. */
  datatype Account = Account(
    run: seq<Entry>, feedback: seq<Progress>, asked: seq<bool>, shots: seq<bool>, taken: seq<Sample>,
    at: seq<seq<Entry>>, unheard: bool)

  function Fresh(unheard: bool): Account { Account([], [], [], [], [], [], unheard) }

  /** How many INSPECT messages the first k of a full feedback hold. */
  function InspectCount(k: nat, n: nat): nat {
    if k < 2 then 0 else if k - 2 < n then k - 2 else n
  }

  ghost predicate AllAre(answers: seq<bool>, value: bool) { forall k :: 0 <= k < |answers| ==> answers[k] == value }

  /** What can stop a run whose record is this: the state missing or unsafe, a move given up, or a
      failed capture. */
  ghost predicate Cause(run: seq<Entry>, a: Account, tol: real) {
    match Follow(Idle, run, tol)
    case Idle => a.unheard
    case Faulted | Denied | Halted | Down | Moving(_) => |a.shots| == |a.taken|
    case Ready => |a.shots| == |a.taken| + 1 && !a.shots[|a.taken|]
    case _ => false
  }

  lemma FullFeedbackAt(n: Count)
    ensures var all := FullFeedback(n);
            && |all| == n + 5
            && all[0] == Progress(Init, 0.0, 0) && all[1] == Progress(Approach, 0.1, 0)
            && (forall i :: 0 <= i < n ==> all[i + 2] == InspectProgress(n, i))
            && all[n + 2] == Progress(Retreat, 0.92, n) && all[n + 3] == Progress(Home, 0.98, n)
            && all[n + 4] == Progress(Done, 1.0, n)
  {}

  lemma CapturedCount(n: Count, k: nat)
    requires k < |FullFeedback(n)|
    ensures |FullFeedback(n)| == n + 5 && FullFeedback(n)[k].captured == InspectCount(k + 1, n)
  {
    FullFeedbackAt(n);
    hide FullFeedback;
    if 2 <= k < n + 2 { assert FullFeedback(n)[k - 2 + 2] == InspectProgress(n, k - 2); }
  }

  lemma PrefixGrows<T>(part: seq<T>, whole: seq<T>, e: T)
    requires part <= whole && |part| < |whole| && whole[|part|] == e
    ensures part + [e] <= whole
  {}

  /** The action server's handle on one accepted goal. */
  class GoalHandle {
    const goal: Goal
    ghost var feedback: seq<Progress>
    /** The answers of is_canceling(). */
    ghost var asked: seq<bool>
    ghost var terminals: seq<Terminal>

    constructor (g: Goal)
      ensures goal == g && feedback == [] && asked == [] && terminals == []
    {
      goal, feedback, asked, terminals := g, [], [], [];
    }

    method PublishFeedback(phase: Phase, progress: real, captured: Count)
      modifies this
      ensures feedback == old(feedback) + [Progress(phase, progress, captured)]
      ensures asked == old(asked) && terminals == old(terminals)
    {
      feedback := feedback + [Progress.Progress(phase, progress, captured)];
    }

    method IsCanceling() returns (canceling: bool)
      modifies this
      ensures asked == old(asked) + [canceling] && feedback == old(feedback) && terminals == old(terminals)
    {
      canceling := *;
      asked := asked + [canceling];
    }

    method Finish(t: Terminal)
      modifies this
      ensures terminals == old(terminals) + [t] && feedback == old(feedback) && asked == old(asked)
    {
      terminals := terminals + [t];
    }
  }

  class InspectionManager {
    const bridge: RobotIoBridge
    const poses: map<string, Joints>
    const velocity: real
    const accTime: real
    const tol: real
    const moveTimeout: int
    const settleMs: int
    const sweepJoint: int
    const pi: real
    var motionBusy: bool
    var inspecting: bool
    /** Samples published, and the outcomes of the capture calls. */
    ghost var samples: seq<Sample>
    ghost var shots: seq<bool>

    /** Only poses with a value are kept, by the constructor of the node. */
    ghost predicate Valid()
      reads this, bridge
    {
      bridge.Valid() && forall name :: name in poses ==> poses[name] != []
    }

    /** Loads the named poses that have a value. */
    constructor (b: RobotIoBridge, names: seq<string>, values: map<string, Joints>, v: real, acc: real, reachTol: real,
                 timeout: int, settle: int, sweep: int, halfTurn: real)
      requires b.Valid()
      ensures Valid() && !motionBusy && !inspecting && bridge == b
      ensures forall name :: name in poses <==> name in names && name in values && values[name] != []
      ensures forall name :: name in poses ==> poses[name] == values[name]
      ensures velocity == v && accTime == acc && tol == reachTol && moveTimeout == timeout && settleMs == settle
      ensures sweepJoint == sweep && pi == halfTurn && samples == [] && shots == []
    {
      bridge, velocity, accTime, tol := b, v, acc, reachTol;
      moveTimeout, settleMs, sweepJoint, pi := timeout, settle, sweep, halfTurn;
      poses := map name | name in names && name in values && values[name] != [] :: values[name];
      motionBusy, inspecting := false, false;
      samples, shots := [], [];
    }

    function MoveTarget(q: Joints, v: real): Command { Command(JointTarget(q), v, accTime) }

    /** The command for a named pose, when it is set. */
    function Leg(name: string): seq<Command> {
      if name in poses then [MoveTarget(poses[name], velocity)] else []
    }

    function SweepIndex(base: Joints): int {
      if 0 <= sweepJoint < |base| then sweepJoint else |base| - 1
    }

    /** View i: the reference pose with only the sweep joint turned. */
    function View(goal: Goal, i: nat): Waypoint
      requires "inspect" in poses && poses["inspect"] != []
    {
      var base, angle := poses["inspect"], AngleAt(goal.angleStart, goal.angleEnd, goal.numViews, pi, i);
      var sj := SweepIndex(base);
      Waypoint(base[sj := base[sj] + (angle - goal.angleStart)], angle)
    }

    function Views(goal: Goal, k: nat): (cs: seq<Command>)
      requires "inspect" in poses && poses["inspect"] != []
      ensures |cs| == k
    {
      if k == 0 then [] else Views(goal, k - 1) + [MoveTarget(View(goal, k - 1).joints, velocity)]
    }

    function Lead(): seq<Command> { Leg("init") + Leg("approach") + Leg("inspect") }

    /** Everything a run commands when nothing goes wrong. */
    function Plan(goal: Goal): seq<Command>
      requires "inspect" in poses && poses["inspect"] != []
    {
      Lead() + Views(goal, goal.numViews) + Leg("retreat") + Leg("home")
    }

    /** A view turns the sweep joint, the last joint when the parameter is out of range, by the
        angle swept so far and leaves every other joint of the reference pose alone. */
    lemma ViewTurnsSweepJoint(goal: Goal, i: nat)
      requires "inspect" in poses && poses["inspect"] != []
      ensures var base, w := poses["inspect"], View(goal, i);
              var sj := if 0 <= sweepJoint < |base| then sweepJoint else |base| - 1;
              && |w.joints| == |base| && w.joints[sj] == base[sj] + (w.angle - goal.angleStart)
              && (forall m :: 0 <= m < |base| && m != sj ==> w.joints[m] == base[m])
    {
      hide AngleAt;
    }

    lemma FirstViewIsReference(goal: Goal)
      requires "inspect" in poses && poses["inspect"] != []
      ensures View(goal, 0) == Waypoint(poses["inspect"], goal.angleStart)
    {
      SweepLaw(goal.angleStart, goal.angleEnd, goal.numViews, pi);
      hide AngleAt;
      var base := poses["inspect"];
      assert base[SweepIndex(base) := base[SweepIndex(base)]] == base;
    }

    /** One waypoint per view: the reference pose with the sweep joint turned by the angle swept so
        far, the angles evenly spread over the requested range, the first waypoint the reference
        pose itself. */
    method MakeWaypoints(goal: Goal) returns (wps: seq<Waypoint>)
      requires "inspect" in poses && poses["inspect"] != []
      ensures |wps| == goal.numViews
      ensures forall i :: 0 <= i < |wps| ==> wps[i] == View(goal, i)
      ensures var base := poses["inspect"];
              var sj := if 0 <= sweepJoint < |base| then sweepJoint else |base| - 1;
              forall i :: 0 <= i < |wps| ==>
                && |wps[i].joints| == |base|
                && wps[i].joints[sj] == base[sj] + (wps[i].angle - goal.angleStart)
                && (forall m :: 0 <= m < |base| && m != sj ==> wps[i].joints[m] == base[m])
      ensures |wps| > 0 ==> wps[0] == Waypoint(poses["inspect"], goal.angleStart)
      ensures var n, range := goal.numViews, goal.angleEnd - goal.angleStart;
              var steps := if Abs(Abs(range) - 2.0 * pi) < 0.001 then n else n - 1;
              n > 1 ==> forall i :: 0 <= i < |wps| ==> (wps[i].angle - goal.angleStart) * steps as real == range * i as real
    {
      wps := [];
      var base, n, a0, a1 := poses["inspect"], goal.numViews, goal.angleStart, goal.angleEnd;
      var range := a1 - a0;
      var full := Abs(Abs(range) - 2.0 * pi) < 0.001;
      var step := 0.0;
      if n > 1 {
        step := if full then range / n as real else range / (n - 1) as real;
      }
      var sj := sweepJoint;
      if sj < 0 || sj >= |base| { sj := |base| - 1; }
      var i := 0;
      while i < n
        invariant 0 <= i <= n && |wps| == i
        invariant forall k :: 0 <= k < i ==> wps[k] == View(goal, k)
      {
        var angle := a0 + Mul(step, i as real);
        var w := Waypoint(base[sj := base[sj] + (angle - a0)], angle);
        wps := wps + [w];
        i := i + 1;
      }
      WaypointLaws(goal, wps);
    }

    lemma WaypointLaws(goal: Goal, wps: seq<Waypoint>)
      requires "inspect" in poses && poses["inspect"] != [] && |wps| == goal.numViews
      requires forall i :: 0 <= i < |wps| ==> wps[i] == View(goal, i)
      ensures var base := poses["inspect"];
              var sj := if 0 <= sweepJoint < |base| then sweepJoint else |base| - 1;
              forall i :: 0 <= i < |wps| ==>
                && |wps[i].joints| == |base|
                && wps[i].joints[sj] == base[sj] + (wps[i].angle - goal.angleStart)
                && (forall m :: 0 <= m < |base| && m != sj ==> wps[i].joints[m] == base[m])
      ensures |wps| > 0 ==> wps[0] == Waypoint(poses["inspect"], goal.angleStart)
      ensures var n, range := goal.numViews, goal.angleEnd - goal.angleStart;
              var steps := if Abs(Abs(range) - 2.0 * pi) < 0.001 then n else n - 1;
              n > 1 ==> forall i :: 0 <= i < |wps| ==> (wps[i].angle - goal.angleStart) * steps as real == range * i as real
    {
      FirstViewIsReference(goal);
      SweepLaw(goal.angleStart, goal.angleEnd, goal.numViews, pi);
      hide AngleAt;
      forall i | 0 <= i < |wps| ensures wps[i].angle == AngleAt(goal.angleStart, goal.angleEnd, goal.numViews, pi, i) {}
      hide View;
      forall i | 0 <= i < |wps|
        ensures var base := poses["inspect"];
                var sj := if 0 <= sweepJoint < |base| then sweepJoint else |base| - 1;
                && |wps[i].joints| == |base|
                && wps[i].joints[sj] == base[sj] + (wps[i].angle - goal.angleStart)
                && (forall m :: 0 <= m < |base| && m != sj ==> wps[i].joints[m] == base[m])
      {
        ViewTurnsSweepJoint(goal, i);
      }
    }

    lemma {:induction false} ViewsSpelled(goal: Goal, k: nat, i: nat)
      requires "inspect" in poses && poses["inspect"] != [] && i < k
      ensures Views(goal, k)[i] == Command(JointTarget(View(goal, i).joints), velocity, accTime)
    {
      hide View;
      if i < k - 1 { ViewsSpelled(goal, k - 1, i); }
    }

    /** The plan of a run, command by command: the init and approach poses when they are set, the
        reference pose, every view in order, then the retreat and home poses when they are set; all
        at the configured velocity and acceleration time. */
    lemma PlanInOrder(goal: Goal) returns (views: seq<Command>)
      requires "inspect" in poses && poses["inspect"] != []
      ensures |views| == goal.numViews
      ensures forall i :: 0 <= i < |views| ==> views[i] == Command(JointTarget(View(goal, i).joints), velocity, accTime)
      ensures Plan(goal) ==
              (if "init" in poses then [Command(JointTarget(poses["init"]), velocity, accTime)] else [])
              + (if "approach" in poses then [Command(JointTarget(poses["approach"]), velocity, accTime)] else [])
              + [Command(JointTarget(poses["inspect"]), velocity, accTime)]
              + views
              + (if "retreat" in poses then [Command(JointTarget(poses["retreat"]), velocity, accTime)] else [])
              + (if "home" in poses then [Command(JointTarget(poses["home"]), velocity, accTime)] else [])
    {
      hide View;
      views := Views(goal, goal.numViews);
      forall i | 0 <= i < |views| ensures views[i] == Command(JointTarget(View(goal, i).joints), velocity, accTime) {
        ViewsSpelled(goal, goal.numViews, i);
      }
    }

    /** Moves within a run, whose record since `before` is `run`. */
    method MoveTo(q: Joints, v: real, ghost before: seq<Entry>, ghost run: seq<Entry>, ghost done: seq<Command>)
      returns (ok: bool, ghost next: seq<Entry>)
      requires Valid() && bridge.log == before + run && OnPlan(run, done, tol)
      modifies bridge
      ensures Valid() && bridge.log == before + next && run <= next
      ensures if ok then OnPlan(next, done + [MoveTarget(q, v)], tol) else Stuck(next, done + [MoveTarget(q, v)], tol)
    {
      hide OnPlan, Stuck, Moved;
      ghost var t0, mark := bridge.clock, bridge.log;
      ok := bridge.Move(MoveTarget(q, v), tol, moveTimeout);
      ghost var moved := bridge.log[|mark|..];
      next := run + moved;
      MoveJoins(run, done, moved, MoveTarget(q, v), ok, tol, moveTimeout, bridge.clock - t0);
    }

    /** A named move. It claims the motion slot and gives it back on every path; a move that is
        not carried out leaves no command, and one that fails is halted if and only if a safety
        check failed while it waited. */
    method HandleGoto(name: string, v: real) returns (reply: Reply, ghost run: seq<Entry>)
      requires Valid()
      modifies this`motionBusy, bridge
      ensures Valid() && bridge.log == old(bridge.log) + run && motionBusy == old(motionBusy)
      ensures reply.UnknownPose? <==> name !in poses
      ensures reply.Busy? <==> name in poses && old(motionBusy)
      ensures match reply
        case UnknownPose | Busy => run == []
        case Unsafe => run == [Checked(false)]
        case MoveDone => OnPlan(run, [Command(JointTarget(poses[name]), if v > 0.0 then v else velocity, accTime)], tol)
        case MoveFailed => Stuck(run, [Command(JointTarget(poses[name]), if v > 0.0 then v else velocity, accTime)], tol)
        case _ => false
      ensures reply.MoveFailed? ==> run != [] && (run[|run| - 1] == Halt <==> Checked(false) in run)
    {
      hide OnPlan, Stuck, Within;
      run := [];
      if name !in poses { return UnknownPose, run; }
      var claimed := Claim();
      if !claimed { return Busy, run; }
      var safe, fault := bridge.SafetyOk();
      run := [Checked(safe)];
      if safe {
        FirstSafe(tol);
        ghost var cmd := MoveTarget(poses[name], if v > 0.0 then v else velocity);
        assert [] + [cmd] == [cmd];
        var ok;
        ok, run := MoveTo(poses[name], if v > 0.0 then v else velocity, old(bridge.log), run, []);
        reply := if ok then MoveDone else MoveFailed;
        if !ok { LeftHalted(run, [cmd]); }
      } else {
        reply := Unsafe;
      }
      motionBusy := false;
    }

    lemma LeftHalted(run: seq<Entry>, done: seq<Command>)
      requires Stuck(run, done, tol) && done != []
      ensures run != [] && (run[|run| - 1] == Halt <==> Checked(false) in run)
    {
      HaltedOnlyByFault(run, done, tol);
    }

    /** compare_exchange_strong(false, true) on the motion slot. */
    method Claim() returns (claimed: bool)
      modifies this`motionBusy
      ensures claimed == !old(motionBusy) && motionBusy
    {
      claimed := !motionBusy;
      motionBusy := true;
    }

    /** A jog of one joint by delta from the position just read; halted on failure as a named move is. */
    method HandleJog(joint: nat, delta: real, v: real) returns (reply: Reply, ghost run: seq<Entry>, ghost seen: Joints)
      requires Valid()
      modifies this`motionBusy, bridge
      ensures Valid() && bridge.log == old(bridge.log) + run && motionBusy == old(motionBusy)
      ensures reply.Busy? <==> old(motionBusy)
      ensures reply.BadJoint? <==> !old(motionBusy) && !(1 <= joint <= 6)
      ensures match reply
        case Busy | BadJoint => run == []
        case StateMissing => run == [] && old(bridge.heard) == []
        case Unsafe => run == [Checked(false)]
        case BadState => run == [Checked(true), Read(seen)] && |seen| < 6
        case MoveDone | MoveFailed =>
          && [Checked(true), Read(seen)] <= run && |seen| >= 6
          && var cmds := [Command(JointTarget(seen[joint - 1 := seen[joint - 1] + delta]), if v > 0.0 then v else velocity, accTime)];
             if reply.MoveDone? then OnPlan(run, cmds, tol) else Stuck(run, cmds, tol)
        case _ => false
      ensures reply.MoveFailed? ==> run != [] && (run[|run| - 1] == Halt <==> Checked(false) in run)
    {
      hide OnPlan, Stuck, Within;
      run, seen := [], [];
      var claimed := Claim();
      if !claimed { return Busy, run, seen; }
      if joint < 1 || joint > 6 {
        reply := BadJoint;
      } else {
        var have := bridge.HaveState();
        if !have {
          reply := StateMissing;
        } else {
          reply, run, seen := JogFrom(joint, delta, if v > 0.0 then v else velocity);
        }
      }
      motionBusy := false;
    }

    /** The gated part of a jog, once some state has been heard. */
    method JogFrom(joint: nat, delta: real, v: real) returns (reply: Reply, ghost run: seq<Entry>, ghost seen: Joints)
      requires Valid() && 1 <= joint <= 6
      modifies bridge
      ensures Valid() && bridge.log == old(bridge.log) + run
      ensures match reply
        case Unsafe => run == [Checked(false)]
        case BadState => run == [Checked(true), Read(seen)] && |seen| < 6
        case MoveDone | MoveFailed =>
          && [Checked(true), Read(seen)] <= run && |seen| >= 6
          && var cmds := [Command(JointTarget(seen[joint - 1 := seen[joint - 1] + delta]), v, accTime)];
             if reply.MoveDone? then OnPlan(run, cmds, tol) else Stuck(run, cmds, tol)
        case _ => false
      ensures reply.MoveFailed? ==> run != [] && (run[|run| - 1] == Halt <==> Checked(false) in run)
    {
      hide OnPlan, Stuck, Within;
      run, seen := [], [];
      var safe, fault := bridge.SafetyOk();
      run := [Checked(safe)];
      if !safe { return Unsafe, run, seen; }
      var q := bridge.JointPos();
      seen := q;
      run := [Checked(true), Read(seen)];
      if |q| < 6 { return BadState, run, seen; }
      FirstSafe(tol);
      ReadJoins([Checked(true)], [], q, tol);
      assert run == [Checked(true)] + [Read(q)];
      q := q[joint - 1 := q[joint - 1] + delta];
      assert [] + [MoveTarget(q, v)] == [MoveTarget(q, v)];
      var ok;
      ok, run := MoveTo(q, v, old(bridge.log), run, []);
      reply := if ok then MoveDone else MoveFailed;
      if !ok { LeftHalted(run, [MoveTarget(q, v)]); }
    }

    /** A goal is accepted exactly when it has views, a reference pose exists and nobody moves; its
        run then owns the motion slot. */
    method HandleGoal(goal: Goal) returns (accept: bool)
      modifies this`motionBusy
      ensures accept <==> goal.numViews > 0 && "inspect" in poses && !old(motionBusy)
      ensures motionBusy <==> old(motionBusy) || accept
    {
      if goal.numViews == 0 { return false; }
      if "inspect" !in poses { return false; }
      accept := Claim();
    }

    // ---------- an inspection run ----------

    /** Sample k is numbered k, carries the angle of view k, and was captured while the arm stood at
        view k: after all commands up to that view and before any other. */
    ghost predicate SampleFits(a: Account, goal: Goal, k: nat)
      requires "inspect" in poses && poses["inspect"] != []
      requires k < |a.taken| && |a.at| == |a.taken|
    {
      && a.taken[k].view == k && a.taken[k].angle == View(goal, k).angle
      && a.at[k] <= a.run && OnPlan(a.at[k], Lead() + Views(goal, k + 1), tol)
    }

    /** Holds of every run at every point, and so wherever it ends. */
    ghost predicate Fits(a: Account, goal: Goal)
      requires "inspect" in poses && poses["inspect"] != []
    {
      && Commands(a.run) <= Plan(goal)
      && a.feedback <= FullFeedback(goal.numViews)
      && |a.taken| == |a.at| == InspectCount(|a.feedback|, goal.numViews)
      && (forall k :: 0 <= k < |a.taken| ==> SampleFits(a, goal, k))
      && |a.taken| <= |a.shots| && AllAre(a.shots[..|a.taken|], true)
    }

    /** A run still going: the arm is ready after these commands, nothing failed, no cancel was seen. */
    ghost predicate Going(a: Account, goal: Goal, done: seq<Command>)
      requires "inspect" in poses && poses["inspect"] != []
    {
      Fits(a, goal) && OnPlan(a.run, done, tol) && AllAre(a.asked, false) && |a.shots| == |a.taken|
    }

    /** How a run may end. */
    ghost predicate Ended(a: Account, goal: Goal, t: Terminal)
      requires "inspect" in poses && poses["inspect"] != []
    {
      && Fits(a, goal) && t.images == |a.taken|
      && match t
         case Succeeded(_) =>
           && Going(a, goal, Plan(goal)) && |a.taken| == |a.asked| == goal.numViews
           && a.feedback == FullFeedback(goal.numViews)
         case Canceled(_) =>
           && HaltedRun(a.run, Lead() + Views(goal, |a.taken|), tol) && |a.taken| < goal.numViews
           && |a.shots| == |a.taken| && |a.asked| == |a.taken| + 1
           && AllAre(a.asked[..|a.taken|], false) && a.asked[|a.taken|]
         case Aborted(_) =>
           && HaltedRun(a.run, Commands(a.run), tol) && AllAre(a.asked, false)
           && Cause(a.run[..|a.run| - 1], a, tol)
    }

    /** The state is what a run, begun at these records, has made of it. */
    ghost predicate Linked(gh: GoalHandle, before: seq<Entry>, s0: seq<Sample>, h0: seq<bool>, a: Account)
      reads this, bridge, gh
    {
      && bridge.log == before + a.run && samples == s0 + a.taken && shots == h0 + a.shots
      && gh.feedback == a.feedback && gh.asked == a.asked
    }

    lemma RunGrows(a: Account, goal: Goal, run: seq<Entry>)
      requires "inspect" in poses && poses["inspect"] != []
      requires Fits(a, goal) && a.run <= run && Commands(run) <= Plan(goal)
      ensures Fits(a.(run := run), goal)
    {
      hide OnPlan, Commands, FullFeedback, AngleAt;
      var b := a.(run := run);
      forall k | 0 <= k < |b.taken| ensures SampleFits(b, goal, k) {
        assert SampleFits(a, goal, k);
      }
    }

    lemma FailEnds(a: Account, goal: Goal)
      requires "inspect" in poses && poses["inspect"] != []
      requires Fits(a, goal) && AllAre(a.asked, false) && Cause(a.run, a, tol)
      ensures |a.taken| <= goal.numViews
      ensures Ended(a.(run := a.run + [Halt]), goal, Aborted(|a.taken|))
    {
      hide Fits, HaltedRun, Follow, Commands, Plan;
      var next := a.run + [Halt];
      assert |a.taken| <= goal.numViews by { FitsCounts(a, goal); }
      FitsCounts(a, goal);
      HaltJoins(a.run, Commands(a.run), tol);
      Snoc(Idle, a.run, Halt, tol);
      RunGrows(a, goal, next);
      assert next[..|next| - 1] == a.run;
    }

    lemma FitsCounts(a: Account, goal: Goal)
      requires "inspect" in poses && poses["inspect"] != []
      requires Fits(a, goal)
      ensures |a.taken| <= goal.numViews && Commands(a.run) <= Plan(goal)
    {}

    /** Halts the arm and aborts the goal. */
    method Fail(gh: GoalHandle, images: Count, ghost before: seq<Entry>, ghost s0: seq<Sample>, ghost h0: seq<bool>, ghost a: Account)
      returns (ghost b: Account)
      requires Valid() && Linked(gh, before, s0, h0, a) && gh.terminals == [] && images == |a.taken|
      requires "inspect" in poses && poses["inspect"] != []
      requires Fits(a, gh.goal) && AllAre(a.asked, false) && Cause(a.run, a, tol)
      modifies bridge, gh
      ensures Valid() && Linked(gh, before, s0, h0, b)
      ensures |gh.terminals| == 1 && Ended(b, gh.goal, gh.terminals[0]) && b.unheard == a.unheard
    {
      hide Fits, Cause, Ended;
      var halted := bridge.Halt();
      gh.Finish(Aborted(images));
      FailEnds(a, gh.goal);
      b := a.(run := a.run + [Halt]);
    }

    lemma MoveKeepsGoing(a: Account, goal: Goal, done: seq<Command>, next: seq<Entry>, cmd: Command, ok: bool)
      requires "inspect" in poses && poses["inspect"] != []
      requires Going(a, goal, done) && a.run <= next && done + [cmd] <= Plan(goal)
      requires if ok then OnPlan(next, done + [cmd], tol) else Stuck(next, done + [cmd], tol)
      ensures var b := a.(run := next);
              if ok then Going(b, goal, done + [cmd])
              else Fits(b, goal) && AllAre(b.asked, false) && Cause(b.run, b, tol)
    {
      RunGrows(a, goal, next);
      hide Fits, Follow, Commands, Plan, AllAre;
    }

    /** One move of a run; the rest of the account is unchanged. */
    method Travel(q: Joints, gh: GoalHandle, ghost before: seq<Entry>, ghost s0: seq<Sample>, ghost h0: seq<bool>,
                  ghost a: Account, ghost done: seq<Command>)
      returns (ok: bool, ghost b: Account)
      requires Valid() && Linked(gh, before, s0, h0, a)
      requires "inspect" in poses && poses["inspect"] != []
      requires Going(a, gh.goal, done) && done + [MoveTarget(q, velocity)] <= Plan(gh.goal)
      modifies bridge
      ensures Valid() && Linked(gh, before, s0, h0, b) && b == a.(run := b.run)
      ensures if ok then Going(b, gh.goal, done + [MoveTarget(q, velocity)])
              else Fits(b, gh.goal) && AllAre(b.asked, false) && Cause(b.run, b, tol)
    {
      ghost var next;
      assert OnPlan(a.run, done, tol);
      hide Fits, Cause, Plan, OnPlan, Stuck, Going;
      ok, next := MoveTo(q, velocity, before, a.run, done);
      MoveKeepsGoing(a, gh.goal, done, next, MoveTarget(q, velocity), ok);
      b := a.(run := next);
    }

    /** The move to a named pose, when it is set. */
    method TravelLeg(name: string, gh: GoalHandle, ghost before: seq<Entry>, ghost s0: seq<Sample>, ghost h0: seq<bool>,
                     ghost a: Account, ghost done: seq<Command>)
      returns (ok: bool, ghost b: Account)
      requires Valid() && Linked(gh, before, s0, h0, a)
      requires "inspect" in poses && poses["inspect"] != []
      requires Going(a, gh.goal, done) && done + Leg(name) <= Plan(gh.goal)
      modifies bridge
      ensures Valid() && Linked(gh, before, s0, h0, b) && b == a.(run := b.run)
      ensures if ok then Going(b, gh.goal, done + Leg(name))
              else Fits(b, gh.goal) && AllAre(b.asked, false) && Cause(b.run, b, tol)
    {
      hide Fits, Cause, Plan, OnPlan, Going;
      if name in poses {
        ok, b := Travel(poses[name], gh, before, s0, h0, a, done);
      } else {
        assert done + Leg(name) == done;
        return true, a;
      }
    }

    /** Publishes the next message of the full feedback. */
    method Report(gh: GoalHandle, phase: Phase, progress: real, captured: Count,
                  ghost before: seq<Entry>, ghost s0: seq<Sample>, ghost h0: seq<bool>, ghost a: Account, ghost done: seq<Command>)
      returns (ghost b: Account)
      requires Linked(gh, before, s0, h0, a)
      requires "inspect" in poses && poses["inspect"] != []
      requires Going(a, gh.goal, done) && |a.feedback| < gh.goal.numViews + 5
      requires |FullFeedback(gh.goal.numViews)| == gh.goal.numViews + 5
      requires FullFeedback(gh.goal.numViews)[|a.feedback|] == Progress.Progress(phase, progress, captured)
      requires InspectCount(|a.feedback| + 1, gh.goal.numViews) == |a.taken|
      modifies gh
      ensures Linked(gh, before, s0, h0, b) && gh.terminals == old(gh.terminals)
      ensures b == a.(feedback := a.feedback + [Progress.Progress(phase, progress, captured)]) && Going(b, gh.goal, done)
    {
      gh.PublishFeedback(phase, progress, captured);
      b := a.(feedback := a.feedback + [Progress.Progress(phase, progress, captured)]);
      ReportFits(a, gh.goal, Progress.Progress(phase, progress, captured));
    }

    lemma ReportFits(a: Account, goal: Goal, p: Progress)
      requires "inspect" in poses && poses["inspect"] != []
      requires Fits(a, goal) && |a.feedback| < |FullFeedback(goal.numViews)|
      requires FullFeedback(goal.numViews)[|a.feedback|] == p && InspectCount(|a.feedback| + 1, goal.numViews) == |a.taken|
      ensures Fits(a.(feedback := a.feedback + [p]), goal)
    {
      hide OnPlan, FullFeedback, View, Views, InspectCount;
      PrefixGrows(a.feedback, FullFeedback(goal.numViews), p);
      var b := a.(feedback := a.feedback + [p]);
      forall k | 0 <= k < |b.taken| ensures SampleFits(b, goal, k) {
        assert SampleFits(a, goal, k);
      }
    }

    lemma ViewsGrow(goal: Goal, k: nat, n: nat)
      requires "inspect" in poses && poses["inspect"] != []
      requires k <= n
      ensures Views(goal, k) <= Views(goal, n)
    {
      hide View;
      if k < n {
        ViewsGrow(goal, k, n - 1);
        assert Views(goal, n - 1) <= Views(goal, n);
      }
    }

    lemma NextView(goal: Goal, i: nat)
      requires "inspect" in poses && poses["inspect"] != []
      requires i < goal.numViews
      ensures var done := Lead() + Views(goal, i);
              var next := [MoveTarget(View(goal, i).joints, velocity)];
              done + next == Lead() + Views(goal, i + 1) && done + next <= Plan(goal)
    {
      hide View, Lead, Leg;
      ViewsGrow(goal, i + 1, goal.numViews);
      assert Lead() + Views(goal, i) + [MoveTarget(View(goal, i).joints, velocity)] == Lead() + Views(goal, i + 1);
      assert Plan(goal) == Lead() + Views(goal, goal.numViews) + (Leg("retreat") + Leg("home"));
    }

    lemma CancelEnds(a: Account, goal: Goal, i: Count)
      requires "inspect" in poses && poses["inspect"] != []
      requires Going(a, goal, Lead() + Views(goal, i)) && i == |a.taken| == |a.asked| < goal.numViews
      ensures Ended(a.(asked := a.asked + [true], run := a.run + [Halt]), goal, Canceled(i))
    {
      FitsCounts(a, goal);
      var next := a.run + [Halt];
      HaltJoins(a.run, Lead() + Views(goal, i), tol);
      RunGrows(a, goal, next);
      hide Follow, Commands, Plan, Views, View, Lead, FullFeedback, HaltedRun, OnPlan;
      assert (a.asked + [true])[..i] == a.asked;
      var b := a.(run := next);
      forall k | 0 <= k < |b.taken| ensures SampleFits(b.(asked := a.asked + [true]), goal, k) {
        assert SampleFits(b, goal, k);
      }
    }

    /** The account after view i was captured, its sample published and its feedback sent. */
    function WithSample(a: Account, goal: Goal, s: Sample, q: Joints): Account
      requires |a.taken| < goal.numViews
    {
      a.(run := a.run + [Read(q)], taken := a.taken + [s], at := a.at + [a.run], shots := a.shots + [true],
         feedback := a.feedback + [InspectProgress(goal.numViews, |a.taken|)])
    }

    lemma SamplesGrow(a: Account, goal: Goal, s: Sample, q: Joints, k: nat)
      requires "inspect" in poses && poses["inspect"] != []
      requires |a.taken| == |a.at| < goal.numViews && k <= |a.taken|
      requires k < |a.taken| ==> SampleFits(a, goal, k)
      requires OnPlan(a.run, Lead() + Views(goal, |a.taken| + 1), tol)
      requires s.view == |a.taken| && s.angle == View(goal, |a.taken|).angle
      ensures SampleFits(WithSample(a, goal, s, q), goal, k)
    {
      hide View, Views, Lead, OnPlan, InspectProgress;
    }

    lemma SampleFitsAll(a: Account, goal: Goal, s: Sample, q: Joints)
      requires "inspect" in poses && poses["inspect"] != []
      requires |a.taken| < goal.numViews && Fits(a, goal) && OnPlan(a.run, Lead() + Views(goal, |a.taken| + 1), tol)
      requires s.view == |a.taken| && s.angle == View(goal, |a.taken|).angle
      ensures var b := WithSample(a, goal, s, q);
              |b.at| == |b.taken| && forall k :: 0 <= k < |b.taken| ==> SampleFits(b, goal, k)
    {
      hide FullFeedback, InspectProgress, View, Views, Plan, Lead, OnPlan, Commands, SampleFits, AllAre;
      forall k | 0 <= k < |a.taken| + 1 ensures SampleFits(WithSample(a, goal, s, q), goal, k) {
        SamplesGrow(a, goal, s, q, k);
      }
    }

    lemma SampleReported(a: Account, goal: Goal, s: Sample, q: Joints)
      requires |a.taken| < goal.numViews && |a.feedback| == |a.taken| + 2 && a.feedback <= FullFeedback(goal.numViews)
      requires |a.shots| == |a.taken| && AllAre(a.shots, true)
      ensures var b := WithSample(a, goal, s, q);
              && b.feedback <= FullFeedback(goal.numViews)
              && |b.taken| == InspectCount(|b.feedback|, goal.numViews)
              && Commands(b.run) == Commands(a.run) && |b.shots| == |b.taken| && AllAre(b.shots, true)
    {
      var i, n := |a.taken|, goal.numViews;
      FullFeedbackAt(n);
      hide FullFeedback, InspectProgress, Commands;
      assert FullFeedback(n)[i + 2] == InspectProgress(n, i);
      PrefixGrows(a.feedback, FullFeedback(n), InspectProgress(n, i));
      Snoc(Idle, a.run, Read(q), tol);
    }

    lemma SampleJoins(a: Account, goal: Goal, s: Sample, q: Joints)
      requires "inspect" in poses && poses["inspect"] != []
      requires var i := |a.taken|;
        && i < goal.numViews && |a.feedback| == i + 2 && Going(a, goal, Lead() + Views(goal, i + 1))
        && s.view == i && s.angle == View(goal, i).angle
      ensures Going(WithSample(a, goal, s, q), goal, Lead() + Views(goal, |a.taken| + 1))
    {
      hide FullFeedback, InspectProgress, View, Views, Plan, Lead, OnPlan, Commands, SampleFits, AllAre, InspectCount;
      var b := WithSample(a, goal, s, q);
      assert a.shots[..|a.taken|] == a.shots && b.shots[..|b.taken|] == b.shots;
      SampleReported(a, goal, s, q);
      SampleFitsAll(a, goal, s, q);
      ReadJoins(a.run, Lead() + Views(goal, |a.taken| + 1), q, tol);
    }

    /** Asks the camera for view i and waits for its answer. */
    method Capture() returns (ok: bool, image: string)
      requires Valid()
      modifies this`shots, bridge
      ensures Valid() && bridge.log == old(bridge.log) && shots == old(shots) + [ok]
    {
      bridge.Interleave();
      ok := *;
      image := *;
      shots := shots + [ok];
    }

    method PublishSample(view: nat, angle: real, image: string) returns (ghost q: Joints)
      requires Valid()
      modifies this`samples, bridge
      ensures Valid() && bridge.log == old(bridge.log) + [Read(q)]
      ensures samples == old(samples) + [Sample(view, angle, q, image)]
    {
      var joints := bridge.JointPos();
      q := joints;
      samples := samples + [Sample(view, angle, joints, image)];
    }

    lemma AskedNo(a: Account, goal: Goal, done: seq<Command>)
      requires "inspect" in poses && poses["inspect"] != []
      requires Going(a, goal, done)
      ensures Going(a.(asked := a.asked + [false]), goal, done)
    {
      hide OnPlan, FullFeedback, View, Views, Plan, InspectCount;
      var b := a.(asked := a.asked + [false]);
      forall k | 0 <= k < |b.taken| ensures SampleFits(b, goal, k) {
        assert SampleFits(a, goal, k);
      }
    }

    lemma MissedShot(a: Account, goal: Goal, done: seq<Command>)
      requires "inspect" in poses && poses["inspect"] != []
      requires Going(a, goal, done)
      ensures var b := a.(shots := a.shots + [false]);
              Fits(b, goal) && AllAre(b.asked, false) && Cause(b.run, b, tol)
    {
      hide FullFeedback, View, Views, Plan, InspectCount, Follow;
      var b := a.(shots := a.shots + [false]);
      assert b.shots[..|a.taken|] == a.shots[..|a.taken|];
      forall k | 0 <= k < |b.taken| ensures SampleFits(b, goal, k) {
        assert SampleFits(a, goal, k);
      }
    }

    /** One view of the sweep: check for a cancel, move, settle, capture, publish. */
    method ShootView(gh: GoalHandle, i: Count, wp: Waypoint, total: Count,
                     ghost before: seq<Entry>, ghost s0: seq<Sample>, ghost h0: seq<bool>, ghost a: Account)
      returns (go: bool, images: Count, ghost b: Account)
      requires Valid() && Linked(gh, before, s0, h0, a) && gh.terminals == []
      requires "inspect" in poses && poses["inspect"] != []
      requires total == gh.goal.numViews && i < total && wp == View(gh.goal, i)
      requires Going(a, gh.goal, Lead() + Views(gh.goal, i))
      requires i == |a.taken| == |a.asked| && |a.feedback| == i + 2
      modifies this`samples, this`shots, bridge, gh
      ensures Valid() && Linked(gh, before, s0, h0, b) && b.unheard == a.unheard
      ensures go ==> gh.terminals == [] && Going(b, gh.goal, Lead() + Views(gh.goal, i + 1)) && images == i + 1
      ensures go ==> i + 1 == |b.taken| == |b.asked| && |b.feedback| == i + 3
      ensures !go ==> |gh.terminals| == 1 && Ended(b, gh.goal, gh.terminals[0])
    {
      hide Fits, Cause, Plan, OnPlan, Going, Ended, View, Views, Lead, Mul, AllAre;
      images := i;
      ghost var done := Lead() + Views(gh.goal, i);
      var canceling := gh.IsCanceling();
      if canceling {
        var halted := bridge.Halt();
        gh.Finish(Canceled(i));
        CancelEnds(a, gh.goal, i);
        return false, images, a.(asked := a.asked + [true], run := a.run + [Halt]);
      }
      AskedNo(a, gh.goal, done);
      NextView(gh.goal, i);
      var ok;
      ok, b := Travel(wp.joints, gh, before, s0, h0, a.(asked := a.asked + [false]), done);
      if !ok {
        b := Fail(gh, images, before, s0, h0, b);
        return false, images, b;
      }
      go, images, b := Photograph(gh, i, wp, total, before, s0, h0, b);
    }

    /** At view i: settle, capture, publish the sample and the feedback. */
    method Photograph(gh: GoalHandle, i: Count, wp: Waypoint, total: Count,
                      ghost before: seq<Entry>, ghost s0: seq<Sample>, ghost h0: seq<bool>, ghost a: Account)
      returns (go: bool, images: Count, ghost b: Account)
      requires Valid() && Linked(gh, before, s0, h0, a) && gh.terminals == []
      requires "inspect" in poses && poses["inspect"] != []
      requires total == gh.goal.numViews && i < total && wp == View(gh.goal, i)
      requires Going(a, gh.goal, Lead() + Views(gh.goal, i + 1))
      requires i == |a.taken| && |a.asked| == i + 1 && |a.feedback| == i + 2
      modifies this`samples, this`shots, bridge, gh
      ensures Valid() && Linked(gh, before, s0, h0, b) && b.unheard == a.unheard
      ensures go ==> gh.terminals == [] && Going(b, gh.goal, Lead() + Views(gh.goal, i + 1)) && images == i + 1
      ensures go ==> i + 1 == |b.taken| == |b.asked| && |b.feedback| == i + 3
      ensures !go ==> |gh.terminals| == 1 && Ended(b, gh.goal, gh.terminals[0])
    {
      hide Fits, Cause, Plan, OnPlan, Going, Ended, View, Views, Lead, Mul, AllAre;
      bridge.Sleep(settleMs);
      var captured, image := Capture();
      if !captured {
        MissedShot(a, gh.goal, Lead() + Views(gh.goal, i + 1));
        b := Fail(gh, i, before, s0, h0, a.(shots := a.shots + [false]));
        return false, i, b;
      }
      ghost var q := PublishSample(i, wp.angle, image);
      images := i + 1;
      gh.PublishFeedback(Inspect, 0.2 + Mul(0.7, (i + 1) as real) / total as real, images);
      SampleJoins(a, gh.goal, Sample(i, wp.angle, q, image), q);
      b := WithSample(a, gh.goal, Sample(i, wp.angle, q, image), q);
      go := true;
    }

    lemma FreshFits(goal: Goal, unheard: bool, run: seq<Entry>)
      requires "inspect" in poses && poses["inspect"] != []
      requires run == [] || run == [Checked(true)] || run == [Checked(false)]
      ensures var a := Fresh(unheard).(run := run);
              && Fits(a, goal) && AllAre(a.asked, false)
              && (run == [] && unheard ==> Cause(run, a, tol))
              && (run == [Checked(false)] ==> Cause(run, a, tol))
              && (run == [Checked(true)] ==> Going(a, goal, []))
    {
      FreshRecord(run, tol);
      hide Plan, FullFeedback, SampleFits, Commands, Follow;
    }

    lemma PlanLegs(goal: Goal)
      requires "inspect" in poses && poses["inspect"] != []
      ensures Leg("init") <= Plan(goal) && Leg("init") + Leg("approach") <= Plan(goal) && Lead() <= Plan(goal)
      ensures Lead() + Views(goal, goal.numViews) + Leg("retreat") <= Plan(goal)
      ensures Lead() + Views(goal, 0) == Lead()
    {
      hide Leg;
      var tail := Views(goal, goal.numViews) + Leg("retreat") + Leg("home");
      assert Plan(goal) == Leg("init") + (Leg("approach") + Leg("inspect") + tail);
      assert Plan(goal) == Leg("init") + Leg("approach") + (Leg("inspect") + tail);
      assert Plan(goal) == Lead() + tail;
    }

    /** From the safety check to the arrival at the reference pose. */
    method Begin(gh: GoalHandle, ghost before: seq<Entry>, ghost s0: seq<Sample>, ghost h0: seq<bool>, ghost unheard: bool)
      returns (go: bool, ghost b: Account)
      requires Valid() && Linked(gh, before, s0, h0, Fresh(unheard)) && gh.terminals == []
      requires "inspect" in poses && poses["inspect"] != []
      requires bridge.heard == [] ==> unheard
      modifies bridge, gh
      ensures Valid() && Linked(gh, before, s0, h0, b) && b.unheard == unheard
      ensures go ==> gh.terminals == [] && Going(b, gh.goal, Lead()) && |b.taken| == |b.asked| == 0 && |b.feedback| == 2
      ensures !go ==> |gh.terminals| == 1 && Ended(b, gh.goal, gh.terminals[0])
    {
      hide Fits, Cause, Plan, Going, Ended, FullFeedback, Leg, Honest, Views, AllAre;
      b := Fresh(unheard);
      FreshFits(gh.goal, unheard, []);
      var have := bridge.HaveState();
      if !have {
        b := Fail(gh, 0, before, s0, h0, b);
        return false, b;
      }
      var safe, fault := bridge.SafetyOk();
      b := b.(run := [Checked(safe)]);
      FreshFits(gh.goal, unheard, b.run);
      if !safe {
        b := Fail(gh, 0, before, s0, h0, b);
        return false, b;
      }
      FullFeedbackAt(gh.goal.numViews);
      PlanLegs(gh.goal);
      b := Report(gh, Init, 0.0, 0, before, s0, h0, b, []);
      var ok;
      ok, b := TravelLeg("init", gh, before, s0, h0, b, []);
      if !ok {
        b := Fail(gh, 0, before, s0, h0, b);
        return false, b;
      }
      assert [] + Leg("init") == Leg("init");
      b := Report(gh, Approach, 0.1, 0, before, s0, h0, b, Leg("init"));
      ok, b := TravelLeg("approach", gh, before, s0, h0, b, Leg("init"));
      if !ok {
        b := Fail(gh, 0, before, s0, h0, b);
        return false, b;
      }
      ok, b := TravelLeg("inspect", gh, before, s0, h0, b, Leg("init") + Leg("approach"));
      if !ok {
        b := Fail(gh, 0, before, s0, h0, b);
        return false, b;
      }
      go := true;
    }

    /** From the last view to the end of the run. */
    method Retire(gh: GoalHandle, images: Count, ghost before: seq<Entry>, ghost s0: seq<Sample>, ghost h0: seq<bool>, ghost a: Account)
      returns (ghost b: Account)
      requires Valid() && Linked(gh, before, s0, h0, a) && gh.terminals == []
      requires "inspect" in poses && poses["inspect"] != []
      requires Going(a, gh.goal, Lead() + Views(gh.goal, gh.goal.numViews))
      requires images == |a.taken| == |a.asked| == gh.goal.numViews && |a.feedback| == images + 2
      modifies bridge, gh
      ensures Valid() && Linked(gh, before, s0, h0, b) && b.unheard == a.unheard
      ensures |gh.terminals| == 1 && Ended(b, gh.goal, gh.terminals[0])
    {
      hide Fits, Cause, Plan, Going, Ended, FullFeedback, Leg, Views, Lead;
      ghost var done := Lead() + Views(gh.goal, gh.goal.numViews);
      FullFeedbackAt(gh.goal.numViews);
      PlanLegs(gh.goal);
      b := Report(gh, Retreat, 0.92, images, before, s0, h0, a, done);
      var ok;
      ok, b := TravelLeg("retreat", gh, before, s0, h0, b, done);
      if !ok {
        b := Fail(gh, images, before, s0, h0, b);
        return;
      }
      b := Report(gh, Home, 0.98, images, before, s0, h0, b, done + Leg("retreat"));
      WholePlan(gh.goal);
      ok, b := TravelLeg("home", gh, before, s0, h0, b, done + Leg("retreat"));
      if !ok {
        b := Fail(gh, images, before, s0, h0, b);
        return;
      }
      b := Report(gh, Done, 1.0, images, before, s0, h0, b, Plan(gh.goal));
      gh.Finish(Succeeded(images));
      SuccessEnds(b, gh.goal);
    }

    lemma WholePlan(goal: Goal)
      requires "inspect" in poses && poses["inspect"] != []
      ensures Lead() + Views(goal, goal.numViews) + Leg("retreat") + Leg("home") == Plan(goal)
    {}

    lemma SuccessEnds(a: Account, goal: Goal)
      requires "inspect" in poses && poses["inspect"] != []
      requires Going(a, goal, Plan(goal)) && |a.feedback| == |FullFeedback(goal.numViews)| == goal.numViews + 5
      requires |a.taken| == |a.asked| == goal.numViews
      ensures Ended(a, goal, Succeeded(|a.taken|))
    {
      hide Plan, FullFeedback, OnPlan, SampleFits;
    }

    /** One accepted goal, from the thread that runs it to its single terminal call. On every path
        the motion slot is given back last. */
    method Execute(gh: GoalHandle) returns (ghost b: Account)
      requires Valid() && motionBusy && gh.feedback == [] && gh.asked == [] && gh.terminals == []
      requires gh.goal.numViews > 0 && "inspect" in poses
      modifies this, bridge, gh
      ensures Valid() && !motionBusy && !inspecting
      ensures Linked(gh, old(bridge.log), old(samples), old(shots), b)
      ensures |gh.terminals| == 1 && Ended(b, gh.goal, gh.terminals[0])
      ensures b.unheard ==> old(bridge.heard) == []
    {
      hide Fits, Cause, Plan, Going, Ended, Leg, Lead, Views, View, Abs, Honest;
      inspecting := true;
      ghost var before, s0, h0 := bridge.log, samples, shots;
      var go;
      go, b := Begin(gh, before, s0, h0, bridge.heard == []);
      if go {
        PlanLegs(gh.goal);
        var wps := MakeWaypoints(gh.goal);
        var images: Count, i: Count := 0, 0;
        while i < |wps| && go
          invariant Valid() && 0 <= i <= |wps| && Linked(gh, before, s0, h0, b)
          invariant b.unheard ==> old(bridge.heard) == []
          invariant go ==> gh.terminals == [] && Going(b, gh.goal, Lead() + Views(gh.goal, i))
          invariant go ==> images == i == |b.taken| == |b.asked| && |b.feedback| == i + 2
          invariant !go ==> |gh.terminals| == 1 && Ended(b, gh.goal, gh.terminals[0])
          decreases |wps| - i, go
        {
          go, images, b := ShootView(gh, i, wps[i], |wps|, before, s0, h0, b);
          if go { i := i + 1; }
        }
        if go {
          b := Retire(gh, images, before, s0, h0, b);
        }
      }
      inspecting := false;
      motionBusy := false;
    }

    // ---------- what an ended run guarantees ----------

    /** However a run ended, the commands it gave are a prefix of the plan, all of it on success; each
        was given only after safety was confirmed and the previous target was seen reached, and
        none after a halt; and unless it succeeded the arm was halted last. */
    lemma RunKeepsPace(a: Account, goal: Goal, t: Terminal, k: nat)
      requires "inspect" in poses && poses["inspect"] != []
      requires Ended(a, goal, t) && k < |a.run|
      ensures Commands(a.run) <= Plan(goal) && (t.Succeeded? ==> Commands(a.run) == Plan(goal))
      ensures a.run[k].SetPositions? ==> Halt !in a.run[..k] && Cleared(a.run[..k], tol)
      ensures !t.Succeeded? ==> a.run[|a.run| - 1] == Halt
    {
      hide Plan, Cleared, Commands, Views, SampleFits, FullFeedback, View;
      if a.run[k].SetPositions? { InOrder(a.run, k, tol); }
    }

    /** What the terminal call tells: as many images as samples were published; canceled exactly when
        a cancel check was answered yes; succeeded exactly when the arm was never halted, and then
        with every view taken. */
    lemma TerminalMeans(a: Account, goal: Goal, t: Terminal)
      requires "inspect" in poses && poses["inspect"] != []
      requires Ended(a, goal, t)
      ensures t.images == |a.taken| <= goal.numViews
      ensures t.Canceled? <==> true in a.asked
      ensures t.Succeeded? <==> Halt !in a.run
      ensures t.Succeeded? ==> |a.taken| == goal.numViews && false !in a.shots
    {
      FitsCounts(a, goal);
      AlwaysSettled(a.run, tol);
      hide Fits, Cleared, Commands, Plan, Views, Lead, FullFeedback;
      if t.Succeeded? { ShotsAll(a, goal); }
    }

    lemma ShotsAll(a: Account, goal: Goal)
      requires "inspect" in poses && poses["inspect"] != []
      requires Fits(a, goal) && |a.shots| == |a.taken|
      ensures false !in a.shots
    {
      hide Commands, Plan, FullFeedback, SampleFits, InspectCount;
      assert a.shots[..|a.taken|] == a.shots;
    }

    /** Every published sample was captured with the arm at its view: the last command was for that
        view and its joints had been read within tolerance, safety confirmed just before. */
    lemma SamplesTakenAtTheirViews(a: Account, goal: Goal, t: Terminal, k: nat) returns (r: nat)
      requires "inspect" in poses && poses["inspect"] != []
      requires Ended(a, goal, t) && k < |a.taken|
      ensures t.images == |a.taken| && a.taken[k].view == k && a.taken[k].angle == View(goal, k).angle
      ensures |a.at| == |a.taken| && a.at[k] <= a.run && r < |a.at[k]|
      ensures Commands(a.at[k]) == Lead() + Views(goal, k + 1)
      ensures a.at[k][r].Read? && |a.at[k][r].q| == |View(goal, k).joints|
      ensures forall m :: 0 <= m < |a.at[k][r].q| ==> -tol <= a.at[k][r].q[m] - View(goal, k).joints[m] <= tol
      ensures r > 0 && a.at[k][r - 1] == Checked(true) && Commands(a.at[k][..r]) == Commands(a.at[k])
    {
      hide Commands, Follow, View, Lead, FullFeedback, Plan;
      assert SampleFits(a, goal, k);
      var log := a.at[k];
      AlwaysSettled(log, tol);
      var cmds := Commands(log);
      assert cmds[|cmds| - 1] == MoveTarget(View(goal, k).joints, velocity);
      r :| ReachedAt(log, r, tol);
    }

    /** The feedback of any run strictly increases within [0, 1], with the captured count in step. */
    lemma FeedbackIncreases(a: Account, goal: Goal, t: Terminal, i: nat, j: nat)
      requires "inspect" in poses && poses["inspect"] != []
      requires Ended(a, goal, t) && i < j < |a.feedback|
      ensures 0.0 <= a.feedback[i].progress < a.feedback[j].progress <= 1.0
      ensures a.feedback[i].captured <= a.feedback[j].captured <= t.images
    {
      hide FullFeedback, Plan, Views, View, Lead, OnPlan, HaltedRun, Cause;
      ProgressIncreases(goal.numViews, i, j);
      assert a.feedback[j] == FullFeedback(goal.numViews)[j] && a.feedback[i] == FullFeedback(goal.numViews)[i];
      CapturedCount(goal.numViews, j);
    }

    /** The feedback of any run, message by message. */
    lemma FeedbackSpelled(a: Account, goal: Goal, t: Terminal, i: nat)
      requires "inspect" in poses && poses["inspect"] != []
      requires Ended(a, goal, t) && i < |a.feedback|
      ensures |a.feedback| <= goal.numViews + 5 && (t.Succeeded? ==> |a.feedback| == goal.numViews + 5)
      ensures var n := goal.numViews;
              a.feedback[i] ==
              if i == 0 then Progress(Init, 0.0, 0)
              else if i == 1 then Progress(Approach, 0.1, 0)
              else if i < n + 2 then Progress(Inspect, 0.2 + 0.7 * (i - 1) as real / n as real, i - 1)
              else if i == n + 2 then Progress(Retreat, 0.92, n)
              else if i == n + 3 then Progress(Home, 0.98, n)
              else Progress(Done, 1.0, n)
    {
      hide FullFeedback, Plan, Views, View, Lead, OnPlan, HaltedRun, Cause, Commands, SampleFits;
      FullFeedbackAt(goal.numViews);
      assert a.feedback[i] == FullFeedback(goal.numViews)[i];
      if 2 <= i < goal.numViews + 2 {
        assert FullFeedback(goal.numViews)[i - 2 + 2] == InspectProgress(goal.numViews, i - 2);
        AsProduct(0.7, (i - 1) as real);
      }
    }

    /** In a full-circle sweep of at most 6284 views the sweep joint never repeats an orientation. */
    lemma SweepNeverRepeats(goal: Goal, i: nat, j: nat)
      requires "inspect" in poses && poses["inspect"] != [] && PiBounds(pi)
      requires FullCircle(goal.angleStart, goal.angleEnd, pi) && j < i < goal.numViews <= 6284
      ensures var sj := SweepIndex(poses["inspect"]);
              !SameView(View(goal, i).joints[sj], View(goal, j).joints[sj], pi)
      ensures forall m :: 0 <= m < |poses["inspect"]| && m != SweepIndex(poses["inspect"]) ==>
                View(goal, i).joints[m] == poses["inspect"][m]
    {
      hide AngleAt, FullCircle, Turns;
      NoDuplicateView(goal.angleStart, goal.angleEnd, goal.numViews, pi, i, j);
      var sj := SweepIndex(poses["inspect"]);
      var x, y := View(goal, i).joints[sj], View(goal, j).joints[sj];
      assert x - y == View(goal, i).angle - View(goal, j).angle;
    }
  }
}
