/** Edge detection on the robot's feedback, as values: the filter on changed messages and the
    detector behind it. */
module SafetyEvents {
  datatype Feedback = Feedback(
    sct: bool, svr: bool, eStop: bool, robotError: bool, guard: bool, projectRun: bool, errorCode: int)

  datatype Event =
    | SafetyEstop | SafetyGuard | RobotError(errorCode: int)
    | DriverOk | DriverLost | DeadmanStop | StopNotDelivered

  /** The flags last seen (`have` once any message came) and the detector's previous values. */
  datatype Monitor = Monitor(
    have: bool, sct: bool, svr: bool, eStop: bool, robotError: bool, guard: bool, projectRun: bool,
    prevEStop: bool, prevGuard: bool, prevError: bool)

  const INITIAL := Monitor(false, false, false, false, false, false, false, false, false, false)

  predicate Changed(m: Monitor, f: Feedback) {
    || !m.have
    || m.sct != f.sct || m.svr != f.svr || m.eStop != f.eStop || m.robotError != f.robotError
    || m.guard != f.guard || m.projectRun != f.projectRun
  }

  function Store(m: Monitor, f: Feedback): Monitor {
    Monitor(true, f.sct, f.svr, f.eStop, f.robotError, f.guard, f.projectRun, m.prevEStop, m.prevGuard, m.prevError)
  }

  function Emitted(m: Monitor, f: Feedback): seq<Event> {
    (if f.eStop && !m.prevEStop then [SafetyEstop] else [])
    + (if f.guard && !m.prevGuard then [SafetyGuard] else [])
    + (if f.robotError && !m.prevError then [RobotError(f.errorCode)] else [])
  }

  function Remember(m: Monitor, f: Feedback): Monitor {
    m.(prevEStop := f.eStop, prevGuard := f.guard, prevError := f.robotError)
  }

  /** One feedback callback: the detector runs only when some flag changed. */
  function Observe(m: Monitor, f: Feedback): (Monitor, seq<Event>) {
    if Changed(m, f) then (Remember(Store(m, f), f), Emitted(m, f)) else (Store(m, f), [])
  }

  /** Events of a whole feedback sequence, callbacks not overlapping. */
  function Observed(m: Monitor, fs: seq<Feedback>): seq<Event>
    decreases |fs|
  {
    if fs == [] then [] else Observe(m, fs[0]).1 + Observed(Observe(m, fs[0]).0, fs[1..])
  }

  // ---------- plain edge detection ----------

  datatype Flag = EStop | Guard | Error

  predicate Up(f: Feedback, flag: Flag) {
    match flag case EStop => f.eStop case Guard => f.guard case Error => f.robotError
  }

  /** Message i raises the flag, starting from all flags down. */
  predicate Rises(fs: seq<Feedback>, i: nat, flag: Flag)
    requires i < |fs|
  {
    Up(fs[i], flag) && (i == 0 || !Up(fs[i - 1], flag))
  }

  function EdgeEvents(fs: seq<Feedback>, i: nat): seq<Event>
    requires i < |fs|
  {
    (if Rises(fs, i, EStop) then [SafetyEstop] else [])
    + (if Rises(fs, i, Guard) then [SafetyGuard] else [])
    + (if Rises(fs, i, Error) then [RobotError(fs[i].errorCode)] else [])
  }

  /** The reference: every message compared with its predecessor, none filtered out. */
  function Edges(fs: seq<Feedback>, from: nat): seq<Event>
    requires from <= |fs|
    decreases |fs| - from
  {
    if from == |fs| then [] else EdgeEvents(fs, from) + Edges(fs, from + 1)
  }

  /** Behind the filter the detector's previous values are always the current flags. */
  predicate InStep(m: Monitor) {
    m.prevEStop == m.eStop && m.prevGuard == m.guard && m.prevError == m.robotError
  }

  /** The monitor just before message `from` of a sequence. */
  predicate At(fs: seq<Feedback>, from: nat, m: Monitor)
    requires from <= |fs|
  {
    && InStep(m) && (m.have <==> from > 0)
    && (from == 0 ==> m == INITIAL)
    && (from > 0 ==> m.eStop == fs[from - 1].eStop && m.guard == fs[from - 1].guard && m.robotError == fs[from - 1].robotError)
  }

  lemma ObserveOne(fs: seq<Feedback>, from: nat, m: Monitor)
    requires from < |fs| && At(fs, from, m)
    ensures Observe(m, fs[from]).1 == EdgeEvents(fs, from)
    ensures At(fs, from + 1, Observe(m, fs[from]).0)
  {
    EmittedAtEdges(fs, from, m);
    if Changed(m, fs[from]) {
      hide EdgeEvents, Emitted;
    } else {
      assert EdgeEvents(fs, from) == [];
    }
  }

  lemma EmittedAtEdges(fs: seq<Feedback>, from: nat, m: Monitor)
    requires from < |fs| && At(fs, from, m)
    ensures Emitted(m, fs[from]) == EdgeEvents(fs, from)
  {}

  lemma {:induction false} FilterFrom(fs: seq<Feedback>, from: nat, m: Monitor)
    requires from <= |fs| && At(fs, from, m)
    ensures Observed(m, fs[from..]) == Edges(fs, from)
    decreases |fs| - from
  {
    hide Observe, EdgeEvents, At;
    if from < |fs| {
      assert fs[from..][1..] == fs[from + 1..];
      ObserveOne(fs, from, m);
      FilterFrom(fs, from + 1, Observe(m, fs[from]).0);
    }
  }

  /** Running the detector only on changed messages loses and invents nothing. */
  lemma FilteredEqualsPlain(fs: seq<Feedback>)
    ensures Observed(INITIAL, fs) == Edges(fs, 0)
  {
    assert fs[0..] == fs;
    FilterFrom(fs, 0, INITIAL);
  }

  lemma {:induction false} EdgesSnoc(fs: seq<Feedback>, f: Feedback, from: nat)
    requires from <= |fs|
    ensures Edges(fs + [f], from) == Edges(fs, from) + EdgeEvents(fs + [f], |fs|)
    decreases |fs| - from
  {
    if from < |fs| {
      EdgesSnoc(fs, f, from + 1);
      assert EdgeEvents(fs + [f], from) == EdgeEvents(fs, from);
    } else {
      assert Edges(fs + [f], from + 1) == [];
      assert Edges(fs, from) == [];
    }
  }

  /** What one more message adds: an event for each of the emergency stop, the guard and the error
      flag that it has and its predecessor had not, in this order and nothing else. */
  lemma OneMoreMessage(fs: seq<Feedback>, f: Feedback)
    ensures Observed(INITIAL, fs + [f]) == Observed(INITIAL, fs)
            + (if f.eStop && (fs == [] || !fs[|fs| - 1].eStop) then [SafetyEstop] else [])
            + (if f.guard && (fs == [] || !fs[|fs| - 1].guard) then [SafetyGuard] else [])
            + (if f.robotError && (fs == [] || !fs[|fs| - 1].robotError) then [RobotError(f.errorCode)] else [])
  {
    hide Observed, Edges, EdgeEvents;
    FilteredEqualsPlain(fs);
    FilteredEqualsPlain(fs + [f]);
    EdgesSnoc(fs, f, 0);
    LastEdges(fs, f, Edges(fs, 0));
  }

  lemma LastEdges(fs: seq<Feedback>, f: Feedback, before: seq<Event>)
    ensures before + EdgeEvents(fs + [f], |fs|) == before
            + (if f.eStop && (fs == [] || !fs[|fs| - 1].eStop) then [SafetyEstop] else [])
            + (if f.guard && (fs == [] || !fs[|fs| - 1].guard) then [SafetyGuard] else [])
            + (if f.robotError && (fs == [] || !fs[|fs| - 1].robotError) then [RobotError(f.errorCode)] else [])
  {}

  function Raised(e: Event, flag: Flag): nat {
    match flag
    case EStop => if e.SafetyEstop? then 1 else 0
    case Guard => if e.SafetyGuard? then 1 else 0
    case Error => if e.RobotError? then 1 else 0
  }

  function Count(events: seq<Event>, flag: Flag): nat {
    if events == [] then 0 else Raised(events[0], flag) + Count(events[1..], flag)
  }

  lemma {:induction false} CountAppend(a: seq<Event>, b: seq<Event>, flag: Flag)
    ensures Count(a + b, flag) == Count(a, flag) + Count(b, flag)
  {
    if a == [] {
      assert a + b == b;
    } else {
      assert (a + b)[1..] == a[1..] + b;
      CountAppend(a[1..], b, flag);
    }
  }

  function RisingEdges(fs: seq<Feedback>, from: nat, flag: Flag): nat
    requires from <= |fs|
    decreases |fs| - from
  {
    if from == |fs| then 0 else (if Rises(fs, from, flag) then 1 else 0) + RisingEdges(fs, from + 1, flag)
  }

  lemma CountEdgesOfOne(fs: seq<Feedback>, i: nat, flag: Flag)
    requires i < |fs|
    ensures Count(EdgeEvents(fs, i), flag) == if Rises(fs, i, flag) then 1 else 0
  {
    var a := if Rises(fs, i, EStop) then [SafetyEstop] else [];
    var b := if Rises(fs, i, Guard) then [SafetyGuard] else [];
    var c := if Rises(fs, i, Error) then [RobotError(fs[i].errorCode)] else [];
    CountAppend(a + b, c, flag);
    CountAppend(a, b, flag);
    CountShort(a, flag); CountShort(b, flag); CountShort(c, flag);
  }

  lemma CountShort(events: seq<Event>, flag: Flag)
    requires |events| <= 1
    ensures Count(events, flag) == if events == [] then 0 else Raised(events[0], flag)
  {}

  lemma {:induction false} CountEdges(fs: seq<Feedback>, from: nat, flag: Flag)
    requires from <= |fs|
    ensures Count(Edges(fs, from), flag) == RisingEdges(fs, from, flag)
    decreases |fs| - from
  {
    hide Count, EdgeEvents, Rises;
    if from < |fs| {
      CountEdges(fs, from + 1, flag);
      CountAppend(EdgeEvents(fs, from), Edges(fs, from + 1), flag);
      CountEdgesOfOne(fs, from, flag);
    } else {
      CountShort([], flag);
    }
  }

  /** Exactly one event per rising edge of each safety flag. */
  lemma OneEventPerEdge(fs: seq<Feedback>, flag: Flag)
    ensures Count(Observed(INITIAL, fs), flag) == RisingEdges(fs, 0, flag)
  {
    FilteredEqualsPlain(fs);
    CountEdges(fs, 0, flag);
  }

  // ---------- driver link ----------

  /** Watchdog ticks, which never overlap: `alive` is the verdict of each tick. */
  function DriverEvents(prev: bool, alive: seq<bool>): seq<Event>
    decreases |alive|
  {
    if alive == [] then []
    else (if alive[0] == prev then [] else [if alive[0] then DriverOk else DriverLost]) + DriverEvents(alive[0], alive[1..])
  }

  lemma {:induction false} DriverEventsFrom(prev: bool, alive: seq<bool>, k: nat)
    requires k < |DriverEvents(prev, alive)|
    ensures DriverEvents(prev, alive)[k] == if (k % 2 == 0) == prev then DriverLost else DriverOk
    decreases |alive|
  {
    if alive[0] == prev {
      assert DriverEvents(prev, alive) == DriverEvents(prev, alive[1..]);
      DriverEventsFrom(prev, alive[1..], k);
    } else if k > 0 {
      DriverEventsFrom(alive[0], alive[1..], k - 1);
    }
  }

  /** Driver events alternate and the first is DRIVER_OK. */
  lemma DriverEventsAlternate(alive: seq<bool>, k: nat)
    requires k < |DriverEvents(false, alive)|
    ensures DriverEvents(false, alive)[k] == if k % 2 == 0 then DriverOk else DriverLost
  {
    DriverEventsFrom(false, alive, k);
  }
}
