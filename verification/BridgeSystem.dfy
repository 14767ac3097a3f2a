/** The bridge node under all interleavings: the IO thread's handlers, any number of executor
    callbacks, the watchdog, and the action and service answers. One action per critical section
    of state_mtx_, per atomic operation on the latch, and per call that leaves the node. */
module BridgeSystem {
  import opened Wire
  import opened SafetyEvents
  import opened BridgeNode

  type Tid = nat

  /** One accepted motion command; `serial` counts claims and names the command's goal. */
  datatype Job = Job(serial: nat, client: ClientId, id: string, cmd: string)

  predicate IsRun(job: Job) { job.cmd == "run_inspection" }

  /** What one callback invocation has still to do. */
  datatype Pc =
    // IO thread
    | Dispatch(from: ClientId, line: Command)
    | AckClaim(job: Job)                       // claimed, about to send the accepting ack
    | SetPhase(job: Job)                       // goto_pose and jog: about to write the phase
    | Submit(job: Job)                         // about to call async_send_goal or async_send_request
    | AckCancel(from: ClientId, id: string, stored: Option<nat>)
    | Disconnected(client: ClientId)
    // do_stop, on any thread
    | StopEvent | StopSection
    | CancelGoal(goal: nat)                    // about to call async_cancel_goal
    // answers
    | GoalAccepted(job: Job) | GoalRejected(job: Job)
    | Terminal(job: Job)                       // about to send the result
    | Release(job: Job)                        // about to free the slot
    // watchdog and aborts
    | TickDriver(alive: bool)                  // has the verdict on the driver link
    | TickRead | TickProbe(owner: ClientId) | TickClear
    | Latch | DeadmanEvent
    | AbortCheck

  /** What the action server or a service still owes for a submitted job. */
  datatype Await = Response(job: Job) | Outcome(job: Job)

  /** Where the duty to answer the active command lies. */
  datatype Holder = Nobody | Thread(t: Tid) | Remote

  /** A send_to or broadcast; `queued` when the addressee was connected. `about` marks the
      accepting ack and the result of a motion command. */
  datatype Entry = Entry(message: Message, queued: bool, about: Option<Job>)

  /** What the JSON parser makes of a line, and for every client so far the framing state and
      every byte received. */
  datatype Intake = Intake(parse: Bytes -> Command, rx: map<ClientId, Receiver>, stream: map<ClientId, Bytes>)

  /** The watchdog's last verdict on the driver link, and all its verdicts. */
  datatype Driver = Driver(alive: bool, verdicts: seq<bool>)

  datatype State = State(
    slot: Slot,
    latch: bool,
    threads: map<Tid, Pc>,
    nextTid: Tid,
    io: Option<Tid>,                       // the invocation the IO thread is in
    clients: set<ClientId>,
    nextClient: ClientId,
    intake: Intake,
    inbox: seq<(ClientId, Command)>,       // framed lines not yet dispatched
    awaiting: map<nat, Await>,
    outbox: seq<Entry>,
    driver: Driver,
    // history
    serial: nat,                           // claims so far
    holder: Holder,
    heard: seq<(ClientId, Command)>,       // every line framed
    accepted: set<nat>,                    // claims whose goal handle was stored
    responder: map<nat, Tid>,              // the goal_response invocation of a claim
    cancelled: set<nat>,                   // goals async_cancel_goal was called on
    wants: set<(Tid, nat)>,                // cancel or stop sections run while a run_inspection held the slot
    firings: nat, clears: nat,             // latch set from false, latch cleared from true
    firedBy: set<Tid>, stoppedBy: set<Tid>)

  function Init(parse: Bytes -> Command): State {
    State(FREE, false, map[], 0, None, {}, 1, Intake(parse, map[], map[]), [], map[], [], Driver(false, []),
          0, Nobody, [], {}, map[], {}, {}, 0, 0, {}, {})
  }

  datatype Action =
    | Connect
    | Drop(client: ClientId)
    | Hear(client: ClientId, chunk: Bytes)  // one recv() result
    | Begin
    | RespondAccept(serial: nat) | RespondReject(serial: nat) | RespondService(serial: nat) | Finish(serial: nat)
    | Tick(alive: bool) | Abort
    | Do(t: Tid, yes: bool)                // `yes` resolves readiness or freshness

  // ---------- helpers ----------

  function Post(s: State, to: ClientId, m: Message, about: Option<Job>): State {
    s.(outbox := s.outbox + [Entry(m, to in s.clients, about)])
  }

  function Goto(s: State, t: Tid, pc: Pc): State { s.(threads := s.threads[t := pc]) }

  function End(s: State, t: Tid): State {
    s.(threads := s.threads - {t}, io := if s.io == Some(t) then None else s.io)
  }

  function Start(s: State, pc: Pc): State {
    s.(threads := s.threads[s.nextTid := pc], nextTid := s.nextTid + 1)
  }

  function Current(s: State): Job { Job(s.serial, s.slot.client, s.slot.id, s.slot.cmd) }

  predicate RunActive(slot: Slot) { slot.active && slot.cmd == "run_inspection" }

  // ---------- steps of one invocation ----------

  predicate IoPc(pc: Pc) {
    pc.Dispatch? || pc.AckClaim? || pc.SetPhase? || pc.Submit? || pc.AckCancel? || pc.Disconnected?
  }

  function DispatchStep(s: State, t: Tid, c: ClientId, line: Command, yes: bool): State {
    match line
    case NotCommand => End(s, t)
    case Malformed => End(Post(s, c, Ack(c, "", false, "BAD_JSON"), None), t)
    case WrongVersion(id) => End(Post(s, c, Ack(c, id, false, "SCHEMA_MISMATCH"), None), t)
    case Unknown(id) => End(Post(s, c, Ack(c, id, false, "UNKNOWN_CMD"), None), t)
    case Ping(id) => End(Post(s, c, Ack(c, id, true, ""), None), t)
    case Stop(id) => Goto(Post(s, c, Ack(c, id, true, ""), None), t, StopEvent)
    case Cancel(id, target) => CancelStep(s, t, c, id, target)
    case Motion(id, cmd, valid) =>
      if !yes then End(Post(s, c, Ack(c, id, false, "SERVICE_UNAVAILABLE"), None), t)
      else if !valid then End(Post(s, c, Ack(c, id, false, "BAD_ARGS"), None), t)
      else if s.slot.active then End(Post(s, c, Ack(c, id, false, "BUSY"), None), t)
      else ClaimStep(s, t, c, id, cmd)
  }

  function CancelStep(s: State, t: Tid, c: ClientId, id: string, target: string): State {
    if !CancelApplies(s.slot, target) then End(Post(s, c, Ack(c, id, false, "NOT_RUNNING"), None), t)
    else Goto(s.(slot := s.slot.(cancel := true), wants := Wanting(s, t)), t, AckCancel(c, id, s.slot.goal))
  }

  function Wanting(s: State, t: Tid): set<(Tid, nat)> {
    if RunActive(s.slot) then s.wants + {(t, s.serial)} else s.wants
  }

  function ClaimStep(s: State, t: Tid, c: ClientId, id: string, cmd: string): State {
    Goto(s.(slot := Claimed(s.slot, c, id, cmd), serial := s.serial + 1, holder := Thread(t)),
         t, AckClaim(Job(s.serial + 1, c, id, cmd)))
  }

  function IoStep(s: State, t: Tid, pc: Pc, yes: bool): State
    requires IoPc(pc)
  {
    match pc
    case Dispatch(c, line) => DispatchStep(s, t, c, line, yes)
    case AckClaim(job) =>
      Goto(Post(s, job.client, Ack(job.client, job.id, true, ""), Some(job)), t, if IsRun(job) then Submit(job) else SetPhase(job))
    case SetPhase(job) => Goto(s, t, Submit(job))
    case Submit(job) => End(s.(awaiting := s.awaiting[job.serial := Response(job)], holder := Remote), t)
    case AckCancel(c, id, stored) =>
      Goto(Post(s, c, Ack(c, id, true, ""), None), t, if stored.Some? then CancelGoal(stored.value) else StopEvent)
    case Disconnected(c) => if Owns(s.slot, c) then Goto(s, t, Latch) else End(s, t)
  }

  predicate StopPc(pc: Pc) { pc.StopEvent? || pc.StopSection? || pc.CancelGoal? || pc.AbortCheck? }

  function StopStep(s: State, t: Tid, pc: Pc, yes: bool): State
    requires StopPc(pc)
  {
    match pc
    case StopEvent =>
      var s' := s.(stoppedBy := s.stoppedBy + {t});
      Goto(if yes then s' else Post(s', 0, Notice(StopNotDelivered), None), t, StopSection)
    case StopSection =>
      var s' := s.(slot := StopRequested(s.slot), wants := Wanting(s, t));
      if s.slot.goal.Some? then Goto(s', t, CancelGoal(s.slot.goal.value)) else End(s', t)
    case CancelGoal(goal) => End(s.(cancelled := s.cancelled + {goal}), t)
    case AbortCheck => if s.slot.active then Goto(s, t, StopEvent) else End(s, t)
  }

  predicate AnswerPc(pc: Pc) { pc.GoalAccepted? || pc.GoalRejected? || pc.Terminal? || pc.Release? }

  function AnswerStep(s: State, t: Tid, pc: Pc): State
    requires AnswerPc(pc)
  {
    match pc
    case GoalAccepted(job) =>
      var s' := s.(slot := s.slot.(goal := Some(job.serial)), accepted := s.accepted + {job.serial},
                   awaiting := s.awaiting[job.serial := Outcome(job)], holder := Remote);
      if s.slot.cancel then Goto(s', t, CancelGoal(job.serial)) else End(s', t)
    case GoalRejected(job) => Goto(Post(s, job.client, Result(job.client, job.id, "REJECTED"), Some(job)), t, Release(job))
    case Terminal(job) => Goto(Post(s, job.client, Result(job.client, job.id, ""), Some(job)), t, Release(job))
    case Release(job) => End(s.(slot := FREE, holder := Nobody), t)
  }

  predicate DeadmanPc(pc: Pc) {
    pc.TickDriver? || pc.TickRead? || pc.TickProbe? || pc.TickClear? || pc.Latch? || pc.DeadmanEvent?
  }

  /** The driver half of a tick, in one step: ticks do not overlap, so nobody reads the previous
      verdict between its event and its update. The abort after a lost driver is an Abort. */
  function DriverStep(s: State, t: Tid, alive: bool): State {
    var s' := s.(driver := Driver(alive, s.driver.verdicts + [alive]));
    Goto(if alive == s.driver.alive then s' else Post(s', 0, Notice(if alive then DriverOk else DriverLost), None), t, TickRead)
  }

  function DeadmanStep(s: State, t: Tid, pc: Pc, yes: bool): State
    requires DeadmanPc(pc)
  {
    match pc
    case TickDriver(alive) => DriverStep(s, t, alive)
    case TickRead => Goto(s, t, if s.slot.active then TickProbe(s.slot.client) else TickClear)
    case TickProbe(_) => Goto(s, t, if yes then TickClear else Latch)
    case TickClear => End(s.(latch := false, clears := if s.latch then s.clears + 1 else s.clears), t)
    case Latch =>
      if s.latch then End(s, t)
      else Goto(s.(latch := true, firings := s.firings + 1, firedBy := s.firedBy + {t}), t, DeadmanEvent)
    case DeadmanEvent => Goto(Post(s, 0, Notice(DeadmanStop), None), t, StopEvent)
  }

  // ---------- the system ----------

  ghost predicate Enabled(s: State, a: Action) {
    match a
    case Connect => s.io.None? && s.inbox == []
    case Drop(c) => s.io.None? && s.inbox == [] && c in s.clients
    case Hear(c, chunk) =>
      && s.io.None? && s.inbox == [] && c in s.clients && |chunk| <= RECV_BYTES
      && c in s.intake.rx && c in s.intake.stream && s.intake.rx[c].open
    case Begin => s.io.None? && s.inbox != []
    case RespondAccept(k) => k in s.awaiting && s.awaiting[k].Response? && IsRun(s.awaiting[k].job)
    case RespondReject(k) => k in s.awaiting && s.awaiting[k].Response? && IsRun(s.awaiting[k].job)
    case RespondService(k) => k in s.awaiting && s.awaiting[k].Response? && !IsRun(s.awaiting[k].job)
    case Finish(k) => k in s.awaiting && s.awaiting[k].Outcome?
    case Tick(_) => true
    case Abort => true
    case Do(t, yes) => t in s.threads && (s.threads[t].TickProbe? && yes ==> s.threads[t].owner in s.clients)
  }

  function Outgoing(s: State, k: nat, pc: Pc): State
    requires k in s.awaiting
  {
    Start(s.(awaiting := s.awaiting - {k}, holder := Thread(s.nextTid)), pc)
  }

  function DoStep(s: State, t: Tid, yes: bool): State
    requires t in s.threads
  {
    var pc := s.threads[t];
    if IoPc(pc) then IoStep(s, t, pc, yes)
    else if StopPc(pc) then StopStep(s, t, pc, yes)
    else if AnswerPc(pc) then AnswerStep(s, t, pc)
    else DeadmanStep(s, t, pc, yes)
  }

  function StartIo(s: State, pc: Pc): State { Start(s.(io := Some(s.nextTid)), pc) }

  function Tagged(c: ClientId, lines: seq<Command>): seq<(ClientId, Command)> {
    if lines == [] then [] else [(c, lines[0])] + Tagged(c, lines[1..])
  }

  function Parsed(parse: Bytes -> Command, lines: seq<Bytes>): seq<Command> {
    if lines == [] then [] else [parse(lines[0])] + Parsed(parse, lines[1..])
  }

  /** The commands whose lines a chunk completes. */
  function Completed(k: Intake, c: ClientId, chunk: Bytes): seq<Command>
    requires c in k.rx
  {
    var before, after := k.rx[c].delivered, Receive(k.rx[c], chunk).delivered;
    Parsed(k.parse, if |before| <= |after| then after[|before|..] else [])
  }

  function Fed(k: Intake, c: ClientId, chunk: Bytes): Intake
    requires c in k.rx && c in k.stream
  {
    k.(rx := k.rx[c := Receive(k.rx[c], chunk)], stream := k.stream[c := k.stream[c] + chunk])
  }

  function Opened(k: Intake, c: ClientId): Intake { k.(rx := k.rx[c := FRESH], stream := k.stream[c := []]) }

  ghost function Next(s: State, a: Action): State
    requires Enabled(s, a)
  {
    match a
    case Connect =>
      s.(clients := s.clients + {s.nextClient}, nextClient := s.nextClient + 1, intake := Opened(s.intake, s.nextClient))
    case Drop(c) => StartIo(s.(clients := s.clients - {c}), Disconnected(c))
    case Hear(c, chunk) =>
      var lines := Tagged(c, Completed(s.intake, c, chunk));
      s.(inbox := lines, heard := s.heard + lines, intake := Fed(s.intake, c, chunk))
    case Begin => StartIo(s.(inbox := s.inbox[1..]), Dispatch(s.inbox[0].0, s.inbox[0].1))
    case RespondAccept(k) =>
      Outgoing(s.(responder := s.responder[k := s.nextTid]), k, GoalAccepted(s.awaiting[k].job))
    case RespondReject(k) => Outgoing(s, k, GoalRejected(s.awaiting[k].job))
    case RespondService(k) => Outgoing(s, k, Terminal(s.awaiting[k].job))
    case Finish(k) => Outgoing(s, k, Terminal(s.awaiting[k].job))
    case Tick(alive) => Start(s, TickDriver(alive))
    case Abort => Start(s, AbortCheck)
    case Do(t, yes) => DoStep(s, t, yes)
  }

  ghost predicate Run(states: seq<State>, actions: seq<Action>) {
    && |states| == |actions| + 1 && states[0] == Init(states[0].intake.parse)
    && forall i :: 0 <= i < |actions| ==> Enabled(states[i], actions[i]) && states[i + 1] == Next(states[i], actions[i])
  }

  /** Invocation ids are never reused, and the IO thread is in at most one invocation. */
  ghost predicate Threads(s: State) {
    && (forall t :: t in s.threads ==> t < s.nextTid)
    && (forall t :: t in s.threads && IoPc(s.threads[t]) ==> s.io == Some(t))
    && (s.io.Some? ==> s.io.value in s.threads)
    && (forall t :: t in s.firedBy ==> t < s.nextTid)
    && (forall t :: t in s.stoppedBy ==> t < s.nextTid)
    && (forall w :: w in s.wants ==> w.0 < s.nextTid)
  }

  /** s' differs from s only in what Threads does not see. */
  ghost predicate SameThreads(s: State, s': State) {
    && s'.threads == s.threads && s'.nextTid == s.nextTid && s'.io == s.io
    && (forall t :: t in s'.firedBy ==> t in s.firedBy || t in s.threads)
    && (forall t :: t in s'.stoppedBy ==> t in s.stoppedBy || t in s.threads)
    && (forall w :: w in s'.wants ==> w in s.wants || w.0 in s.threads)
  }

  lemma ThreadsMove(s: State, s': State, t: Tid, pc: Pc)
    requires Threads(s) && SameThreads(s, s') && t in s.threads
    ensures Threads(End(s', t))
    ensures (IoPc(pc) ==> s.io == Some(t)) ==> Threads(Goto(s', t, pc))
  {
    ThreadsEnd(s, s', t);
    if IoPc(pc) ==> s.io == Some(t) { ThreadsGoto(s, s', t, pc); }
    hide Threads, SameThreads, End, Goto;
  }

  lemma ThreadsEnd(s: State, s': State, t: Tid)
    requires Threads(s) && SameThreads(s, s') && t in s.threads
    ensures Threads(End(s', t))
  {}

  lemma ThreadsGoto(s: State, s': State, t: Tid, pc: Pc)
    requires Threads(s) && SameThreads(s, s') && t in s.threads && (IoPc(pc) ==> s.io == Some(t))
    ensures Threads(Goto(s', t, pc))
  {}

  lemma ThreadsDispatch(s: State, t: Tid, c: ClientId, line: Command, yes: bool)
    requires Threads(s) && t in s.threads && s.io == Some(t)
    ensures Threads(DispatchStep(s, t, c, line, yes))
  {
    hide Threads, End, Goto;
    match line
    case Cancel(id, target) =>
      ThreadsMove(s, Post(s, c, Ack(c, id, false, "NOT_RUNNING"), None), t, Latch);
      ThreadsMove(s, s.(slot := s.slot.(cancel := true), wants := Wanting(s, t)), t, AckCancel(c, id, s.slot.goal));
    case Motion(id, cmd, valid) =>
      ThreadsMove(s, Post(s, c, Ack(c, id, false, "SERVICE_UNAVAILABLE"), None), t, Latch);
      ThreadsMove(s, Post(s, c, Ack(c, id, false, "BAD_ARGS"), None), t, Latch);
      ThreadsMove(s, Post(s, c, Ack(c, id, false, "BUSY"), None), t, Latch);
      ThreadsMove(s, s.(slot := Claimed(s.slot, c, id, cmd), serial := s.serial + 1, holder := Thread(t)), t,
                  AckClaim(Job(s.serial + 1, c, id, cmd)));
    case Stop(id) => ThreadsMove(s, Post(s, c, Ack(c, id, true, ""), None), t, StopEvent);
    case NotCommand => ThreadsMove(s, s, t, Latch);
    case Malformed => ThreadsMove(s, Post(s, c, Ack(c, "", false, "BAD_JSON"), None), t, Latch);
    case WrongVersion(id) => ThreadsMove(s, Post(s, c, Ack(c, id, false, "SCHEMA_MISMATCH"), None), t, Latch);
    case Unknown(id) => ThreadsMove(s, Post(s, c, Ack(c, id, false, "UNKNOWN_CMD"), None), t, Latch);
    case Ping(id) => ThreadsMove(s, Post(s, c, Ack(c, id, true, ""), None), t, Latch);
  }

  lemma ThreadsIo(s: State, t: Tid, pc: Pc, yes: bool)
    requires Threads(s) && t in s.threads && pc == s.threads[t] && IoPc(pc)
    ensures Threads(IoStep(s, t, pc, yes))
  {
    hide DispatchStep;
    if pc.Dispatch? { ThreadsDispatch(s, t, pc.from, pc.line, yes); }
  }

  lemma ThreadsStop(s: State, t: Tid, pc: Pc, yes: bool)
    requires Threads(s) && t in s.threads && pc == s.threads[t] && StopPc(pc)
    ensures Threads(StopStep(s, t, pc, yes))
  {
    hide Threads, End, Goto, StopRequested;
    match pc
    case StopEvent =>
      var begun := s.(stoppedBy := s.stoppedBy + {t});
      ThreadsMove(s, begun, t, StopSection);
      ThreadsMove(s, Post(begun, 0, Notice(StopNotDelivered), None), t, StopSection);
    case StopSection =>
      var s' := s.(slot := StopRequested(s.slot), wants := Wanting(s, t));
      ThreadsMove(s, s', t, if s.slot.goal.Some? then CancelGoal(s.slot.goal.value) else StopSection);
    case CancelGoal(goal) => ThreadsMove(s, s.(cancelled := s.cancelled + {goal}), t, StopEvent);
    case AbortCheck => ThreadsMove(s, s, t, StopEvent);
  }

  lemma ThreadsAnswer(s: State, t: Tid, pc: Pc)
    requires Threads(s) && t in s.threads && pc == s.threads[t] && AnswerPc(pc)
    ensures Threads(AnswerStep(s, t, pc))
  {
    hide Threads, End, Goto;
    match pc
    case GoalAccepted(job) =>
      var s' := s.(slot := s.slot.(goal := Some(job.serial)), accepted := s.accepted + {job.serial},
                   awaiting := s.awaiting[job.serial := Outcome(job)], holder := Remote);
      ThreadsMove(s, s', t, CancelGoal(job.serial));
    case GoalRejected(job) =>
      ThreadsMove(s, Post(s, job.client, Result(job.client, job.id, "REJECTED"), Some(job)), t, Release(job));
    case Terminal(job) => ThreadsMove(s, Post(s, job.client, Result(job.client, job.id, ""), Some(job)), t, Release(job));
    case Release(job) => ThreadsMove(s, s.(slot := FREE, holder := Nobody), t, StopEvent);
  }

  lemma ThreadsDriver(s: State, t: Tid, alive: bool)
    requires Threads(s) && t in s.threads
    ensures Threads(DriverStep(s, t, alive))
  {
    hide Threads, Goto, End;
    var s' := s.(driver := Driver(alive, s.driver.verdicts + [alive]));
    ThreadsMove(s, s', t, TickRead);
    ThreadsMove(s, Post(s', 0, Notice(if alive then DriverOk else DriverLost), None), t, TickRead);
  }

  lemma ThreadsDeadman(s: State, t: Tid, pc: Pc, yes: bool)
    requires Threads(s) && t in s.threads && pc == s.threads[t] && DeadmanPc(pc)
    ensures Threads(DeadmanStep(s, t, pc, yes))
  {
    hide Threads, Goto, End, DriverStep;
    match pc
    case TickDriver(alive) => ThreadsDriver(s, t, alive);
    case TickRead => ThreadsMove(s, s, t, if s.slot.active then TickProbe(s.slot.client) else TickClear);
    case TickProbe(_) => ThreadsMove(s, s, t, if yes then TickClear else Latch);
    case TickClear => ThreadsMove(s, s.(latch := false, clears := if s.latch then s.clears + 1 else s.clears), t, Latch);
    case Latch =>
      ThreadsMove(s, s, t, Latch);
      ThreadsMove(s, s.(latch := true, firings := s.firings + 1, firedBy := s.firedBy + {t}), t, DeadmanEvent);
    case DeadmanEvent => ThreadsMove(s, Post(s, 0, Notice(DeadmanStop), None), t, StopEvent);
  }

  /** A new invocation, on the IO thread or off it. */
  lemma ThreadsStart(s: State, s': State, pc: Pc)
    requires Threads(s) && s'.threads == s.threads[s.nextTid := pc] && s'.nextTid == s.nextTid + 1
    requires s'.firedBy == s.firedBy && s'.stoppedBy == s.stoppedBy && s'.wants == s.wants
    requires (s'.io == s.io && !IoPc(pc)) || (s.io.None? && s'.io == Some(s.nextTid))
    ensures Threads(s')
  {}

  lemma ThreadsKept(s: State, a: Action)
    requires Threads(s) && Enabled(s, a)
    ensures Threads(Next(s, a))
  {
    hide IoStep, StopStep, AnswerStep, DeadmanStep, Tagged, Completed, Fed, Opened;
    var s' := Next(s, a);
    match a
    case Connect =>
    case Hear(_, _) =>
    case Do(t, yes) =>
      hide Threads;
      assert t in s.threads;
      var pc := s.threads[t];
      if IoPc(pc) { ThreadsIo(s, t, pc, yes); }
      else if StopPc(pc) { ThreadsStop(s, t, pc, yes); }
      else if AnswerPc(pc) { ThreadsAnswer(s, t, pc); }
      else { ThreadsDeadman(s, t, pc, yes); }
    case _ =>
      hide Threads;
      ThreadsStart(s, s', s'.threads[s.nextTid]);
  }
}
