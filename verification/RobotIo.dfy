/** The robot side of the motion nodes: driver feedback, the safety gate, and joint and tool moves
    with their polling loops. Every exchange with the driver and every look at its state is
    recorded, so a run can be judged by its record. */
module RobotIo {
  import opened Geometry
  import opened Reals

  const SECOND := 1_000_000_000
  const POLL := 50_000_000

  type Joints = seq<real>

  datatype Feedback = Feedback(
    sct: bool, svr: bool, eStop: bool, robotError: bool, guard: bool, errorCode: int, joints: Joints)

  /** What the safety gate objects to, first objection first. */
  datatype Fault = NoFault | NoState | EStop | Guard | Error(code: int) | Unconnected

  datatype Target = JointTarget(q: Joints) | ToolTarget(pose: Pose, line: bool)
  datatype Command = Command(target: Target, velocity: real, accTime: real)

  /** The driver's reply to a request: accepted, refused, or none within five seconds. */
  datatype Answer = Accepted | Refused | Silent

  /** One exchange with the driver, one look at its state, whether its services appeared, or the end
      of the process. */
  datatype Entry =
    | Services(ready: bool)
    | SetPositions(cmd: Command)
    | Answered(answer: Answer)
    | Checked(safe: bool)
    | Read(q: Joints)
    | Compared(near: bool)
    | Halt
    | ShutDown

  /** Every joint within tolerance, on vectors of one length. */
  predicate Within(cur: Joints, q: Joints, tol: real) {
    |cur| == |q| && tol >= 0.0 && forall i :: 0 <= i < |q| ==> Abs(cur[i] - q[i]) <= tol
  }

  // ---------- how a record is judged ----------

  /** Where a record leaves the arm: not yet checked, ready for a command, waiting for the reply to
      one, refused it, moving, moving with safety just confirmed, faulted and not yet halted,
      halted, or stopped by the end of the process. Astray is a record out of order. */
  datatype Pace =
    | Idle | Ready | Sent(target: Target) | Denied | Moving(target: Target) | Verified(target: Target)
    | Faulted | Halted | Down | Astray

  function Advance(p: Pace, e: Entry, tol: real): Pace {
    match e
    case Services(_) => if p.Idle? then Idle else Astray
    case SetPositions(cmd) => if p.Ready? then Sent(cmd.target) else Astray
    case Answered(a) => if !p.Sent? then Astray else if a.Accepted? then Moving(p.target) else Denied
    case Checked(safe) =>
      (match p
       case Idle => if safe then Ready else Faulted
       case Ready => if safe then Ready else Faulted
       case Moving(t) => if safe then Verified(t) else Faulted
       case _ => Astray)
    case Read(q) =>
      (match p
       case Verified(t) => if t.JointTarget? && Within(q, t.q, tol) then Ready else Moving(t)
       case Idle => Idle
       case Ready => Ready
       case _ => Astray)
    case Compared(near) =>
      if p.Verified? && p.target.ToolTarget? then (if near then Ready else Moving(p.target)) else Astray
    case Halt => if p.Sent? || p.Verified? || p.Astray? then Astray else Halted
    case ShutDown => if p.Moving? || p.Ready? then Down else Astray
  }

  function Follow(p: Pace, log: seq<Entry>, tol: real): Pace {
    if log == [] then p else Advance(Follow(p, log[..|log| - 1], tol), log[|log| - 1], tol)
  }

  function Commands(log: seq<Entry>): seq<Command> {
    if log == [] then []
    else
      var last := log[|log| - 1];
      Commands(log[..|log| - 1]) + if last.SetPositions? then [last.cmd] else []
  }

  /** How often a record looked at the safety flags. */
  function Checks(log: seq<Entry>): nat {
    if log == [] then 0
    else Checks(log[..|log| - 1]) + if log[|log| - 1].Checked? then 1 else 0
  }

  lemma Snoc(p: Pace, log: seq<Entry>, e: Entry, tol: real)
    ensures Follow(p, log + [e], tol) == Advance(Follow(p, log, tol), e, tol)
    ensures Commands(log + [e]) == Commands(log) + if e.SetPositions? then [e.cmd] else []
    ensures Checks(log + [e]) == Checks(log) + if e.Checked? then 1 else 0
  {
    assert (log + [e])[..|log|] == log;
  }

  lemma {:induction false} Splice(p: Pace, a: seq<Entry>, b: seq<Entry>, tol: real)
    ensures Follow(p, a + b, tol) == Follow(Follow(p, a, tol), b, tol)
    ensures Commands(a + b) == Commands(a) + Commands(b)
    decreases |b|
  {
    hide Advance;
    if b == [] {
      assert a + b == a;
    } else {
      var e, most := b[|b| - 1], b[..|b| - 1];
      assert a + b == (a + most) + [e] && b == most + [e];
      Splice(p, a, most, tol);
      Snoc(p, a + most, e, tol);
      Snoc(Follow(p, a, tol), most, e, tol);
    }
  }

  /** The look that shows a target reached. */
  predicate Reaches(e: Entry, target: Target, tol: real) {
    (e.Read? && target.JointTarget? && Within(e.q, target.q, tol)) || (e == Compared(true) && target.ToolTarget?)
  }

  /** Look r, made since the last command was sent and straight after a safety check that passed,
      shows that command's target reached. */
  predicate ReachedAt(log: seq<Entry>, r: nat, tol: real) {
    && 0 < r < |log| && log[r - 1] == Checked(true)
    && Commands(log) != [] && Commands(log[..r]) == Commands(log)
    && Reaches(log[r], Commands(log)[|Commands(log)| - 1].target, tol)
  }

  /** Safety was confirmed before the first command, and the last command's target was reached. */
  ghost predicate Cleared(log: seq<Entry>, tol: real) {
    if Commands(log) == [] then Checked(true) in log else exists r :: ReachedAt(log, r, tol)
  }

  ghost predicate Settled(log: seq<Entry>, tol: real) {
    var p := Follow(Idle, log, tol);
    && (p.Idle? ==> Commands(log) == [])
    && (p.Ready? ==> Cleared(log, tol))
    && (p.Sent? || p.Moving? || p.Verified? ==> Commands(log) != [] && Commands(log)[|Commands(log)| - 1].target == p.target)
    && (p.Verified? ==> log != [] && log[|log| - 1] == Checked(true))
    && (Halt in log ==> p.Halted? || p.Astray?)
    && (Checked(false) in log ==> p.Faulted? || p.Halted? || p.Astray?)
  }

  lemma ReachedAtGrows(log: seq<Entry>, r: nat, e: Entry, tol: real)
    requires ReachedAt(log, r, tol) && !e.SetPositions?
    ensures ReachedAt(log + [e], r, tol)
  {
    hide Reaches;
    Snoc(Idle, log, e, tol);
    assert (log + [e])[..r] == log[..r];
  }

  lemma ReachedNow(log: seq<Entry>, e: Entry, tol: real)
    requires log != [] && log[|log| - 1] == Checked(true) && Commands(log) != []
    requires Reaches(e, Commands(log)[|Commands(log)| - 1].target, tol)
    ensures Cleared(log + [e], tol)
  {
    hide Within;
    Snoc(Idle, log, e, tol);
    assert (log + [e])[..|log|] == log;
    assert ReachedAt(log + [e], |log|, tol);
  }

  lemma ClearedGrows(log: seq<Entry>, e: Entry, tol: real)
    requires Cleared(log, tol) && !e.SetPositions?
    ensures Cleared(log + [e], tol)
  {
    hide ReachedAt;
    Snoc(Idle, log, e, tol);
    if Commands(log) != [] {
      var r :| ReachedAt(log, r, tol);
      ReachedAtGrows(log, r, e, tol);
    }
  }

  lemma FirstCheck(log: seq<Entry>, tol: real)
    requires Commands(log) == []
    ensures Cleared(log + [Checked(true)], tol)
  {
    Snoc(Idle, log, Checked(true), tol);
  }

  lemma SettledStep(log: seq<Entry>, e: Entry, tol: real)
    requires Settled(log, tol)
    ensures Settled(log + [e], tol)
  {
    hide Within, Cleared;
    Snoc(Idle, log, e, tol);
    var p := Follow(Idle, log, tol);
    if p.Ready? && !e.SetPositions? { ClearedGrows(log, e, tol); }
    if p.Idle? && e == Checked(true) { FirstCheck(log, tol); }
    if p.Verified? && Advance(p, e, tol).Ready? { ReachedNow(log, e, tol); }
  }

  lemma {:induction false} AlwaysSettled(log: seq<Entry>, tol: real)
    ensures Settled(log, tol)
  {
    if log == [] {
    } else {
      hide Settled;
      var most := log[..|log| - 1];
      assert log == most + [log[|log| - 1]];
      AlwaysSettled(most, tol);
      SettledStep(most, log[|log| - 1], tol);
    }
  }

  lemma {:induction false} StaysAstray(log: seq<Entry>, k: nat, tol: real)
    requires k <= |log| && Follow(Idle, log, tol) != Astray
    ensures Follow(Idle, log[..k], tol) != Astray
    decreases |log|
  {
    if k == |log| {
      assert log[..k] == log;
    } else {
      var most := log[..|log| - 1];
      assert log == most + [log[|log| - 1]] && most[..k] == log[..k];
      Snoc(Idle, most, log[|log| - 1], tol);
      StaysAstray(most, k, tol);
    }
  }

  /** What a record in order means: no command after a halt, the first only once a safety check
      passed, and each later one only after its predecessor's target was seen reached, safety
      checked immediately before. */
  lemma InOrder(log: seq<Entry>, k: nat, tol: real)
    requires Follow(Idle, log, tol) != Astray && k < |log| && log[k].SetPositions?
    ensures Halt !in log[..k] && Cleared(log[..k], tol)
  {
    hide Cleared, Within;
    StaysAstray(log, k + 1, tol);
    assert log[..k + 1] == log[..k] + [log[k]];
    Snoc(Idle, log[..k], log[k], tol);
    AlwaysSettled(log[..k], tol);
  }

  lemma WithinSnoc(cur: Joints, q: Joints, i: nat, tol: real)
    requires i < |cur| == |q|
    ensures Within(cur[..i + 1], q[..i + 1], tol) <==> Within(cur[..i], q[..i], tol) && Abs(cur[i] - q[i]) <= tol
  {
    hide Abs;
    assert forall k :: 0 <= k < i ==> cur[..i + 1][k] == cur[..i][k] && q[..i + 1][k] == q[..i][k];
    assert cur[..i + 1][i] == cur[i] && q[..i + 1][i] == q[i];
  }

  /** The record of one move: exactly one command, sent first; success exactly when it ends ready;
      otherwise the driver denied it, a fault halted it, the process ended, or the wait outlasted its
      timeout. One safety check every 50 ms, and a halt if and only if one of them failed. */
  ghost predicate Moved(run: seq<Entry>, cmd: Command, ok: bool, tol: real, timeout: int, elapsed: int) {
    var p := Follow(Ready, run, tol);
    && run != [] && run[0] == SetPositions(cmd) && Commands(run) == [cmd]
    && (ok <==> p.Ready?)
    && (!ok ==> p.Denied? || p.Halted? || p.Down? || (p == Moving(cmd.target) && elapsed > 1_000_000_000 * timeout))
    && (Halt in run <==> p.Halted?) && (Halt in run <==> Checked(false) in run)
    && (Checks(run) <= 1 || 50_000_000 * (Checks(run) - 2) <= 1_000_000_000 * timeout)
  }

  /** A move still waiting after some looks. */
  ghost predicate Waiting(run: seq<Entry>, cmd: Command, checks: nat, tol: real) {
    && run != [] && run[0] == SetPositions(cmd) && Commands(run) == [cmd]
    && Follow(Ready, run, tol) == Moving(cmd.target)
    && Halt !in run && Checked(false) !in run && Checks(run) == checks
  }

  lemma SentRun(cmd: Command, answer: Answer, tol: real, timeout: int, elapsed: int)
    ensures var run := [SetPositions(cmd), Answered(answer)];
            if answer.Accepted? then Waiting(run, cmd, 0, tol) else Moved(run, cmd, false, tol, timeout, elapsed)
  {
    Snoc(Ready, [], SetPositions(cmd), tol);
    Snoc(Ready, [SetPositions(cmd)], Answered(answer), tol);
    assert [SetPositions(cmd)] + [Answered(answer)] == [SetPositions(cmd), Answered(answer)];
  }

  /** Only looks made before the deadline were followed by another. */
  predicate InTime(checks: nat, timeout: int) { checks == 0 || POLL * (checks - 1) <= SECOND * timeout }

  /** One pass of the loop: a check that passed, and a look. */
  lemma LookRun(run: seq<Entry>, cmd: Command, checks: nat, look: Entry, tol: real, timeout: int, elapsed: int)
    requires Waiting(run, cmd, checks, tol) && InTime(checks, timeout)
    requires match look case Read(_) => cmd.target.JointTarget? case Compared(_) => cmd.target.ToolTarget? case _ => false
    ensures var next := run + [Checked(true)] + [look];
            if Reaches(look, cmd.target, tol) then Moved(next, cmd, true, tol, timeout, elapsed)
            else Waiting(next, cmd, checks + 1, tol)
  {
    hide Within;
    Snoc(Ready, run, Checked(true), tol);
    Snoc(Ready, run + [Checked(true)], look, tol);
  }

  lemma LateRun(run: seq<Entry>, cmd: Command, checks: nat, tol: real, timeout: int, elapsed: int)
    requires Waiting(run, cmd, checks + 1, tol) && InTime(checks, timeout) && elapsed > SECOND * timeout
    ensures Moved(run, cmd, false, tol, timeout, elapsed)
  {}

  lemma FaultRun(run: seq<Entry>, cmd: Command, checks: nat, tol: real, timeout: int, elapsed: int)
    requires Waiting(run, cmd, checks, tol) && InTime(checks, timeout)
    ensures Moved(run + [Checked(false)] + [Halt], cmd, false, tol, timeout, elapsed)
  {
    Snoc(Ready, run, Checked(false), tol);
    Snoc(Ready, run + [Checked(false)], Halt, tol);
    assert (run + [Checked(false)] + [Halt])[|run| + 1] == Halt;
  }

  lemma DownRun(run: seq<Entry>, cmd: Command, checks: nat, tol: real, timeout: int, elapsed: int)
    requires Waiting(run, cmd, checks, tol) && InTime(checks, timeout)
    ensures Moved(run + [ShutDown], cmd, false, tol, timeout, elapsed)
  {
    Snoc(Ready, run, ShutDown, tol);
  }

  lemma LookReaches(cur: Joints, q: Joints, tol: real)
    ensures Reaches(Read(cur), JointTarget(q), tol) <==> Within(cur, q, tol)
    ensures Within(cur, q, tol) ==> |cur| == |q|
  {}

  lemma NearReaches(near: bool, pose: Pose, line: bool, tol: real)
    ensures Reaches(Compared(near), ToolTarget(pose, line), tol) <==> near
  {}

  // ---------- records of runs made of moves ----------

  /** The run so far obeyed the pace, the arm is ready, and these commands were given. */
  ghost predicate OnPlan(run: seq<Entry>, done: seq<Command>, tol: real) {
    Follow(Idle, run, tol) == Ready && Commands(run) == done
  }

  /** A move gave up: its command was the last one, the arm did not arrive, and it was halted if
      and only if a safety check failed. */
  ghost predicate Stuck(run: seq<Entry>, done: seq<Command>, tol: real) {
    Commands(run) == done
    && (Halt in run <==> Checked(false) in run)
    && match Follow(Idle, run, tol) case Denied | Halted | Down | Moving(_) => true case _ => false
  }

  lemma MoveJoins(run: seq<Entry>, done: seq<Command>, moved: seq<Entry>, cmd: Command, ok: bool, tol: real, timeout: int, elapsed: int)
    requires OnPlan(run, done, tol) && Moved(moved, cmd, ok, tol, timeout, elapsed)
    ensures if ok then OnPlan(run + moved, done + [cmd], tol) else Stuck(run + moved, done + [cmd], tol)
  {
    AlwaysSettled(run, tol);
    hide Follow, Commands, Checks, Cleared;
    Splice(Idle, run, moved, tol);
  }

  /** A move that gave up leaves the arm halted exactly when a safety check failed during it; one
      that was denied, outlasted its timeout or was cut short by the end of the process does not. */
  lemma HaltedOnlyByFault(run: seq<Entry>, done: seq<Command>, tol: real)
    requires Stuck(run, done, tol)
    ensures Follow(Idle, run, tol) == Halted <==> Checked(false) in run
    ensures Follow(Idle, run, tol) == Halted <==> run != [] && run[|run| - 1] == Halt
    ensures Follow(Idle, run, tol) != Halted ==> Halt !in run
  {
    AlwaysSettled(run, tol);
    HaltedEnds(run, tol);
    hide Cleared, Commands;
  }

  /** A record can leave the arm halted only by a halt as its last entry. */
  lemma HaltedEnds(run: seq<Entry>, tol: real)
    ensures Follow(Idle, run, tol) == Halted ==> run != [] && run[|run| - 1] == Halt
  {
    if run != [] {
      var most := run[..|run| - 1];
      assert run == most + [run[|run| - 1]];
      Snoc(Idle, most, run[|run| - 1], tol);
    }
  }

  /** Such a record: the command is accepted, safety holds, the arm is seen away from its target when
      the time is over, and nothing halts it. */
  lemma TimedOutUnhalted(cmd: Command, far: Joints, tol: real, timeout: int) returns (run: seq<Entry>)
    requires cmd.target.JointTarget? && !Within(far, cmd.target.q, tol)
    ensures Moved(run, cmd, false, tol, timeout, SECOND * timeout + 1) && Halt !in run
    ensures Stuck([Checked(true)] + run, [cmd], tol)
  {
    hide Within;
    SentRun(cmd, Accepted, tol, timeout, 0);
    LookRun([SetPositions(cmd), Answered(Accepted)], cmd, 0, Read(far), tol, timeout, 0);
    run := [SetPositions(cmd), Answered(Accepted)] + [Checked(true)] + [Read(far)];
    LateRun(run, cmd, 0, tol, timeout, SECOND * timeout + 1);
    FirstSafe(tol);
    MoveJoins([Checked(true)], [], run, cmd, false, tol, timeout, SECOND * timeout + 1);
    assert [] + [cmd] == [cmd];
  }

  /** A run that ended in failure: the arm was halted last, after these commands. */
  ghost predicate HaltedRun(run: seq<Entry>, done: seq<Command>, tol: real) {
    run != [] && run[|run| - 1] == Halt && Follow(Idle, run, tol) == Halted && Commands(run) == done
  }

  lemma HaltJoins(run: seq<Entry>, done: seq<Command>, tol: real)
    requires Commands(run) == done && !Follow(Idle, run, tol).Sent? && !Follow(Idle, run, tol).Verified? && Follow(Idle, run, tol) != Astray
    ensures HaltedRun(run + [Halt], done, tol)
  {
    Snoc(Idle, run, Halt, tol);
  }

  lemma FirstSafe(tol: real)
    ensures OnPlan([Checked(true)], [], tol)
  {
    Snoc(Idle, [], Checked(true), tol);
  }

  lemma ServicesRecord(run: seq<Entry>, ready: bool, tol: real)
    requires run == [Services(ready)] || (ready && run == [Services(true)] + [Checked(false)]) || (ready && run == [Services(true)] + [Checked(true)])
    ensures Commands(run) == []
    ensures Follow(Idle, run, tol) ==
            if run == [Services(ready)] then Idle else if run[1] == Checked(true) then Ready else Faulted
  {
    Snoc(Idle, [], Services(ready), tol);
    assert [] + [Services(ready)] == [Services(ready)];
    if |run| > 1 { Snoc(Idle, [Services(true)], run[1], tol); }
  }

  lemma FreshRecord(run: seq<Entry>, tol: real)
    requires run == [] || run == [Checked(true)] || run == [Checked(false)]
    ensures Commands(run) == []
    ensures Follow(Idle, run, tol) == if run == [] then Idle else if run == [Checked(true)] then Ready else Faulted
  {
    if run != [] { Snoc(Idle, [], run[0], tol); }
  }

  lemma ReadJoins(run: seq<Entry>, done: seq<Command>, q: Joints, tol: real)
    requires OnPlan(run, done, tol)
    ensures OnPlan(run + [Read(q)], done, tol)
  {
    Snoc(Idle, run, Read(q), tol);
  }

  // ---------- what a record rests on ----------

  /** The record agrees with the feedback: when entry k was made, known[k] messages had come, and
      the entry says of the last of them what it was. A check that passed had one to look at, with
      the emergency stop, the guard and the error flag down and both links up, unless the flags are
      to be ignored; one that failed had none, or one with some flag wrong. */
  ghost predicate Honest(log: seq<Entry>, known: seq<nat>, heard: seq<Feedback>, ignoreFlags: bool) {
    && |known| == |log|
    && (forall k :: 0 <= k < |log| ==> known[k] <= |heard|)
    && (forall k :: 0 <= k < |log| && log[k] == Checked(true) ==>
          known[k] > 0 && (ignoreFlags ||
                           var last := heard[known[k] - 1];
                           !last.eStop && !last.guard && !last.robotError && last.sct && last.svr))
    && (forall k :: 0 <= k < |log| && log[k] == Checked(false) && known[k] > 0 ==>
          !ignoreFlags && (var last := heard[known[k] - 1];
                           last.eStop || last.guard || last.robotError || !last.sct || !last.svr))
    && (forall k :: 0 <= k < |log| && log[k].Read? ==> log[k].q == if known[k] == 0 then [] else heard[known[k] - 1].joints)
  }

  lemma HonestHears(log: seq<Entry>, known: seq<nat>, heard: seq<Feedback>, more: seq<Feedback>, ignoreFlags: bool)
    requires Honest(log, known, heard, ignoreFlags)
    ensures Honest(log, known, heard + more, ignoreFlags)
  {}

  lemma HonestNotes(log: seq<Entry>, known: seq<nat>, heard: seq<Feedback>, ignoreFlags: bool, e: Entry)
    requires Honest(log, known, heard, ignoreFlags)
    requires e.Read? ==> e.q == if heard == [] then [] else heard[|heard| - 1].joints
    requires e.Checked? ==>
      (e.safe <==> heard != [] && (ignoreFlags ||
                                   var last := heard[|heard| - 1];
                                   !last.eStop && !last.guard && !last.robotError && last.sct && last.svr))
    ensures Honest(log + [e], known + [|heard|], heard, ignoreFlags)
  {}

  lemma {:induction false} NoCommands(log: seq<Entry>, k: nat)
    requires Commands(log) == [] && k < |log|
    ensures !log[k].SetPositions?
    decreases |log|
  {
    var most := log[..|log| - 1];
    assert log == most + [log[|log| - 1]];
    Snoc(Idle, most, log[|log| - 1], 0.0);
    if k < |most| { NoCommands(most, k); }
  }

  /** Nothing was commanded since entry r. */
  lemma NoneSince(log: seq<Entry>, r: nat, m: nat)
    requires r <= m < |log| && Commands(log[..r]) == Commands(log)
    ensures !log[m].SetPositions?
  {
    hide Commands, Follow;
    assert log[..r] + log[r..] == log;
    Splice(Idle, log[..r], log[r..], 0.0);
    assert log[r..][m - r] == log[m];
    NoCommands(log[r..], m - r);
  }

  /** A command in a record in order has a passed check before it, with no command in between. */
  lemma CheckBefore(log: seq<Entry>, k: nat, tol: real) returns (c: nat)
    requires Follow(Idle, log, tol) != Astray && k < |log| && log[k].SetPositions?
    ensures c < k && log[c] == Checked(true) && (forall m :: c < m < k ==> !log[m].SetPositions?)
  {
    InOrder(log, k, tol);
    var most := log[..k];
    var r: nat;
    if Commands(most) == [] {
      c :| 0 <= c < |most| && most[c] == Checked(true);
      r := 0;
      assert Commands(most[..r]) == [];
    } else {
      r :| ReachedAt(most, r, tol);
      c := r - 1;
    }
    hide Follow, Commands, Advance;
    forall m | c < m < k ensures !log[m].SetPositions? {
      NoneSince(most, r, m);
    }
  }

  // ---------- the client of the driver ----------

  class RobotIoBridge {
    const ignoreSafetyFlags: bool
    var haveState: bool
    var sct: bool
    var svr: bool
    var eStop: bool
    var robotError: bool
    var guard: bool
    var errorCode: int
    var jointPos: Joints
    var clock: int
    /** Feedback received and exchanges made, oldest first. */
    ghost var heard: seq<Feedback>
    ghost var log: seq<Entry>
    /** For each entry, how many messages had been received when it was made. */
    ghost var known: seq<nat>

    ghost predicate Valid()
      reads this
    {
      && Honest(log, known, heard, ignoreSafetyFlags)
      && (haveState <==> heard != [])
      && (heard == [] ==> jointPos == [])
      && (heard != [] ==> heard[|heard| - 1] == Feedback(sct, svr, eStop, robotError, guard, errorCode, jointPos))
    }

    /** One exchange was added, and any feedback may have arrived. */
    twostate predicate Adds(e: Entry)
      reads this
    {
      log == old(log) + [e] && old(heard) <= heard && old(clock) <= clock
    }

    /** Adds an exchange to the record. */
    ghost method Note(e: Entry)
      requires Valid()
      requires e.Read? ==> e.q == if heard == [] then [] else heard[|heard| - 1].joints
      requires e.Checked? ==>
        (e.safe <==> heard != [] && (ignoreSafetyFlags ||
                                     var last := heard[|heard| - 1];
                                     !last.eStop && !last.guard && !last.robotError && last.sct && last.svr))
      modifies this`log, this`known
      ensures Valid() && log == old(log) + [e] && known == old(known) + [|heard|]
    {
      hide Honest;
      HonestNotes(log, known, heard, ignoreSafetyFlags, e);
      log, known := log + [e], known + [|heard|];
    }

    constructor (ignore: bool)
      ensures Valid() && log == [] && heard == [] && ignoreSafetyFlags == ignore
    {
      ignoreSafetyFlags := ignore;
      haveState, sct, svr, eStop, robotError, guard := false, false, false, false, false, false;
      errorCode, jointPos, clock := 0, [], 0;
      heard, log, known := [], [], [];
    }

    method OnFeedback(msg: Feedback)
      requires Valid()
      modifies this
      ensures Valid() && heard == old(heard) + [msg] && log == old(log) && clock == old(clock)
    {
      hide Honest;
      haveState, sct, svr := true, msg.sct, msg.svr;
      eStop, robotError, guard := msg.eStop, msg.robotError, msg.guard;
      errorCode, jointPos := msg.errorCode, msg.joints;
      Hear(msg);
    }

    ghost method Hear(msg: Feedback)
      requires Honest(log, known, heard, ignoreSafetyFlags)
      modifies this`heard
      ensures Honest(log, known, heard, ignoreSafetyFlags) && heard == old(heard) + [msg] && heard[|heard| - 1] == msg
    {
      hide Honest;
      HonestHears(log, known, heard, [msg], ignoreSafetyFlags);
      heard := heard + [msg];
    }

    /** The other executor threads deliver any number of feedback messages, and time passes. */
    method Interleave()
      requires Valid()
      modifies this
      ensures Valid() && old(heard) <= heard && log == old(log) && clock >= old(clock)
    {
      var count: nat :| 0 <= count;
      for i := 0 to count
        invariant Valid() && old(heard) <= heard && log == old(log) && clock == old(clock)
      {
        var msg: Feedback := *;
        OnFeedback(msg);
      }
      var tick: nat :| 0 <= tick;
      clock := clock + tick;
    }

    method Sleep(ms: int)
      requires Valid()
      modifies this
      ensures Valid() && old(heard) <= heard && log == old(log)
      ensures clock >= old(clock) + if ms > 0 then 1_000_000 * ms else 0
    {
      Interleave();
      clock := clock + if ms > 0 then 1_000_000 * ms else 0;
    }

    /** Polls until the driver's services are there, the process ends or the deadline has passed, at
        most every 100 ms, and looks once more. `naps` counts the pauses; a wait that is given up at
        its deadline has lasted the whole timeout. */
    method WaitForServices(timeout: int) returns (ready: bool, ghost naps: nat, ghost gaveUp: bool)
      requires Valid()
      modifies this
      ensures Valid() && Adds(Services(ready))
      ensures naps == 0 || 100_000_000 * (naps - 1) <= 1_000_000_000 * timeout
      ensures gaveUp ==> !ready && clock > old(clock) + 1_000_000_000 * timeout
      ensures clock >= old(clock) + 100_000_000 * naps
    {
      naps, gaveUp := 0, false;
      ghost var start := clock;
      var deadline := clock + SECOND * timeout;
      var alive: bool := *;
      ready := *;
      while alive && !ready
        invariant Valid() && old(heard) <= heard && log == old(log) && clock >= start + 2 * POLL * naps
        invariant naps == 0 || 2 * POLL * (naps - 1) <= SECOND * timeout
        decreases if clock > deadline then 0 else deadline - clock + 1
      {
        if clock > deadline {
          Note(Services(false));
          return false, naps, true;
        }
        Sleep(100);
        naps := naps + 1;
        alive, ready := *, *;
      }
      ready := *;
      Note(Services(ready));
    }

    method HaveState() returns (have: bool)
      requires Valid()
      modifies this
      ensures Valid() && old(heard) <= heard && log == old(log) && clock >= old(clock)
      ensures have <==> heard != []
    {
      Interleave();
      have := haveState;
    }

    /** The gate passes exactly when the last feedback is safe, and names the first objection. */
    method SafetyOk() returns (ok: bool, fault: Fault)
      requires Valid()
      modifies this
      ensures Valid() && Adds(Checked(ok))
      ensures ok <==>
        heard != [] && (ignoreSafetyFlags ||
                        var last := heard[|heard| - 1];
                        !last.eStop && !last.guard && !last.robotError && last.sct && last.svr)
      ensures ok <==> fault.NoFault?
      ensures fault.NoState? <==> heard == []
      ensures heard != [] && !ok ==>
        var last := heard[|heard| - 1];
        fault == (if last.eStop then EStop else if last.guard then Guard
                  else if last.robotError then Error(last.errorCode) else Unconnected)
    {
      Interleave();
      if !haveState {
        ok, fault := false, NoState;
      } else if ignoreSafetyFlags {
        ok, fault := true, NoFault;
      } else if eStop {
        ok, fault := false, EStop;
      } else if guard {
        ok, fault := false, Guard;
      } else if robotError {
        ok, fault := false, Error(errorCode);
      } else if !sct || !svr {
        ok, fault := false, Unconnected;
      } else {
        ok, fault := true, NoFault;
      }
      Note(Checked(ok));
    }

    method JointPos() returns (q: Joints)
      requires Valid()
      modifies this
      ensures Valid() && Adds(Read(q))
      ensures q == if heard == [] then [] else heard[|heard| - 1].joints
    {
      Interleave();
      q := jointPos;
      Note(Read(q));
    }

    /** Whether the tool is near the target pose; the comparison itself is not modelled. */
    method ToolNear() returns (near: bool)
      requires Valid()
      modifies this
      ensures Valid() && Adds(Compared(near))
    {
      Interleave();
      near := *;
      Note(Compared(near));
    }

    method Halt() returns (ok: bool)
      requires Valid()
      modifies this
      ensures Valid() && Adds(Entry.Halt)
    {
      Note(Entry.Halt);
      Interleave();
      ok := *;
    }

    /** Sends the command and waits for its reply. */
    method Send(cmd: Command) returns (answer: Answer)
      requires Valid()
      modifies this
      ensures Valid() && log == old(log) + [SetPositions(cmd), Answered(answer)]
      ensures old(heard) <= heard && old(clock) <= clock
    {
      Note(SetPositions(cmd));
      Interleave();
      answer := *;
      Note(Answered(answer));
    }

    /** rclcpp::ok(): false once the process is shutting down. */
    method Alive() returns (alive: bool)
      requires Valid()
      modifies this
      ensures Valid() && heard == old(heard) && clock == old(clock)
      ensures log == if alive then old(log) else old(log) + [ShutDown]
    {
      alive := *;
      if !alive { Note(ShutDown); }
    }

    /** What lets a command go out. In any run in order that the record holds from `start` on, every
        command follows, with no other command in between, a look at a robot feedback then received
        that had the emergency stop, the guard and the error flag down and both links up, unless the
        flags are to be ignored. */
    lemma CommandsGated(start: nat, k: nat, tol: real) returns (c: nat)
      requires Valid() && start <= k < |log| && log[k].SetPositions? && Follow(Idle, log[start..], tol) != Astray
      ensures start <= c < k && log[c] == Checked(true) && (forall m :: c < m < k ==> !log[m].SetPositions?)
      ensures c < |known| && 0 < known[c] <= |heard|
      ensures ignoreSafetyFlags || (var last := heard[known[c] - 1];
                                    !last.eStop && !last.guard && !last.robotError && last.sct && last.svr)
    {
      hide Follow;
      var run := log[start..];
      var d := CheckBefore(run, k - start, tol);
      c := start + d;
      assert log[c] == run[d];
      forall m | c < m < k ensures !log[m].SetPositions? { assert log[m] == run[m - start]; }
    }

    /** The largest joint error is within a tolerance exactly when every joint is. */
    static method MaxError(cur: Joints, q: Joints) returns (maxerr: real)
      requires |cur| == |q|
      ensures forall tol :: maxerr <= tol <==> Within(cur, q, tol)
      ensures maxerr >= 0.0 && forall i :: 0 <= i < |q| ==> -maxerr <= cur[i] - q[i] <= maxerr
      ensures maxerr == 0.0 || exists i :: 0 <= i < |q| && (maxerr == cur[i] - q[i] || maxerr == q[i] - cur[i])
    {
      maxerr := 0.0;
      var i := 0;
      while i < |q|
        invariant 0 <= i <= |q|
        invariant forall tol :: maxerr <= tol <==> Within(cur[..i], q[..i], tol)
        invariant maxerr >= 0.0 && forall k :: 0 <= k < i ==> -maxerr <= cur[k] - q[k] <= maxerr
        invariant maxerr == 0.0 || exists k :: 0 <= k < i && (maxerr == cur[k] - q[k] || maxerr == q[k] - cur[k])
      {
        var err := Abs(cur[i] - q[i]);
        ghost var was := maxerr;
        maxerr := if maxerr < err then err else maxerr;
        ghost var next := i + 1;
        forall tol ensures maxerr <= tol <==> Within(cur[..next], q[..next], tol) {
          assert was <= tol <==> Within(cur[..i], q[..i], tol);
          WithinSnoc(cur, q, i, tol);
        }
        i := i + 1;
      }
      assert cur[..i] == cur && q[..i] == q;
    }

    /** One pass of a wait: halt on a fault, otherwise look at the arm. Nothing when it must go on. */
    method Pass(ghost before: seq<Entry>, ghost run: seq<Entry>, cmd: Command, ghost checks: nat, tol: real,
                ghost timeout: int, ghost t0: int)
      returns (done: bool, ok: bool, ghost next: seq<Entry>)
      requires Valid() && log == before + run && Waiting(run, cmd, checks, tol) && InTime(checks, timeout)
      modifies this
      ensures Valid() && log == before + next && clock >= old(clock)
      ensures done ==> Moved(next, cmd, ok, tol, timeout, clock - t0)
      ensures !done ==> Waiting(next, cmd, checks + 1, tol)
    {
      hide Moved, Waiting, Within, Reaches, Valid, InTime;
      var safe, fault := SafetyOk();
      if !safe {
        var halted := Halt();
        FaultRun(run, cmd, checks, tol, timeout, clock - t0);
        return true, false, run + [Checked(false)] + [Entry.Halt];
      }
      match cmd.target {
        case JointTarget(q) =>
          var cur := JointPos();
          next := run + [Checked(true)] + [Read(cur)];
          LookReaches(cur, q, tol);
          LookRun(run, cmd, checks, Read(cur), tol, timeout, clock - t0);
          if |cur| == |q| {
            var maxerr := MaxError(cur, q);
            if maxerr <= tol { return true, true, next; }
          }
          return false, false, next;
        case ToolTarget(pose, line) =>
          var near := ToolNear();
          next := run + [Checked(true)] + [Compared(near)];
          NearReaches(near, pose, line, tol);
          LookRun(run, cmd, checks, Compared(near), tol, timeout, clock - t0);
          return near, near, next;
      }
    }

    /** Sends a command and waits until its target is reached, looking every 50 ms. */
    method Move(cmd: Command, tol: real, timeout: int) returns (ok: bool)
      requires Valid()
      modifies this
      ensures Valid() && old(log) <= log && old(clock) <= clock
      ensures Moved(log[|old(log)|..], cmd, ok, tol, timeout, clock - old(clock))
    {
      hide Moved, Waiting, Valid, InTime;
      ghost var before, t0 := log, clock;
      var answer := Send(cmd);
      SentRun(cmd, answer, tol, timeout, clock - t0);
      ghost var run := [SetPositions(cmd), Answered(answer)];
      assert log[|before|..] == run;
      if !answer.Accepted? { return false; }
      ok := Wait(before, run, cmd, tol, timeout, t0);
    }

    method Wait(ghost before: seq<Entry>, ghost sent: seq<Entry>, cmd: Command, tol: real, timeout: int, ghost t0: int)
      returns (ok: bool)
      requires Valid() && log == before + sent && Waiting(sent, cmd, 0, tol) && t0 <= clock
      modifies this
      ensures Valid() && before <= log && old(clock) <= clock
      ensures Moved(log[|before|..], cmd, ok, tol, timeout, clock - t0)
    {
      hide Moved, Waiting, Valid;
      ghost var run, start, checks: nat := sent, clock, 0;
      var deadline := clock + SECOND * timeout;
      var alive := Alive();
      while alive
        invariant Valid() && start + POLL * checks <= clock
        invariant log == before + run + (if alive then [] else [ShutDown])
        invariant Waiting(run, cmd, checks, tol) && InTime(checks, timeout)
        decreases if clock > deadline then 0 else deadline - clock + 1
      {
        var done;
        done, ok, run := Pass(before, run, cmd, checks, tol, timeout, t0);
        if done { return; }
        if clock > deadline {
          LateRun(run, cmd, checks, tol, timeout, clock - t0);
          return false;
        }
        checks := checks + 1;
        Sleep(50);
        alive := Alive();
      }
      DownRun(run, cmd, checks, tol, timeout, clock - t0);
      assert log == before + (run + [ShutDown]);
      return false;
    }
  }
}
