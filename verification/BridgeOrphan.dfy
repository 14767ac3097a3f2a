/** An orphaned command: when the disconnect of its client stops it, exactly, and a run in which
    nothing does. */
module BridgeOrphan {
  import opened Wire
  import opened SafetyEvents
  import opened BridgeNode
  import opened BridgeSystem
  import opened BridgeDeadman
  import BridgeAcks

  /** Step j disconnects the client that owns the active command. */
  ghost predicate OrphanedAt(states: seq<State>, actions: seq<Action>, j: nat) {
    && j < |actions| && j < |states| && actions[j].Drop? && Owns(states[j].slot, actions[j].client)
  }

  /** The command of moment j is still active at m. */
  ghost predicate StillActive(states: seq<State>, j: nat, m: nat) {
    && j < |states| && m < |states|
    && states[m].slot.active && states[m].serial == states[j].serial
  }

  /** A tick past its reading of the slot that may yet clear the latch, client c being gone. */
  predicate MayClear(pc: Pc, c: ClientId) { pc.TickClear? || (pc.TickProbe? && pc.owner != c) }

  // ---------- the slot and the clients from step to step ----------

  /** The slot changes hands only by a claim, which numbers a new command; a client once gone stays
      away. */
  ghost predicate SlotMoves(s: State, s': State) {
    && s.serial <= s'.serial
    && (s'.slot.active && s'.serial == s.serial ==> s.slot.active && s'.slot.client == s.slot.client)
    && s.nextClient <= s'.nextClient
    && (forall c :: c in s'.clients && c < s.nextClient ==> c in s.clients)
  }

  lemma SectionsSlot(s: State, t: Tid, c: ClientId, id: string, arg: string)
    ensures SlotMoves(s, ClaimStep(s, t, c, id, arg)) && SlotMoves(s, CancelStep(s, t, c, id, arg))
  {
    hide CancelApplies;
  }

  lemma DispatchSlot(s: State, t: Tid, c: ClientId, line: Command, yes: bool)
    ensures SlotMoves(s, DispatchStep(s, t, c, line, yes))
  {
    hide ClaimStep, CancelStep;
    if line.Motion? { SectionsSlot(s, t, c, line.id, line.cmd); }
    if line.Cancel? { SectionsSlot(s, t, c, line.id, line.target); }
  }

  lemma IoSlot(s: State, t: Tid, pc: Pc, yes: bool)
    requires IoPc(pc)
    ensures SlotMoves(s, IoStep(s, t, pc, yes))
  {
    hide DispatchStep;
    if pc.Dispatch? { DispatchSlot(s, t, pc.from, pc.line, yes); }
  }

  lemma StopSlot(s: State, t: Tid, pc: Pc, yes: bool)
    requires StopPc(pc)
    ensures SlotMoves(s, StopStep(s, t, pc, yes))
  {}

  lemma AnswerSlot(s: State, t: Tid, pc: Pc)
    requires AnswerPc(pc)
    ensures SlotMoves(s, AnswerStep(s, t, pc))
  {}

  lemma DeadmanSlot(s: State, t: Tid, pc: Pc, yes: bool)
    requires DeadmanPc(pc)
    ensures SlotMoves(s, DeadmanStep(s, t, pc, yes))
  {}

  lemma StepSlot(s: State, a: Action)
    requires Enabled(s, a)
    ensures SlotMoves(s, Next(s, a))
  {
    hide IoStep, StopStep, AnswerStep, DeadmanStep, Tagged, Completed, Fed, Opened;
    if a.Do? {
      hide SlotMoves;
      var pc := s.threads[a.t];
      if IoPc(pc) { IoSlot(s, a.t, pc, a.yes); }
      else if StopPc(pc) { StopSlot(s, a.t, pc, a.yes); }
      else if AnswerPc(pc) { AnswerSlot(s, a.t, pc); }
      else { DeadmanSlot(s, a.t, pc, a.yes); }
    }
  }

  ghost predicate Orphan(s: State, c: ClientId, serial: nat) {
    && c !in s.clients && c < s.nextClient && serial <= s.serial
    && (s.slot.active && s.serial == serial ==> s.slot.client == c)
  }

  lemma {:induction false} OrphanStays(states: seq<State>, actions: seq<Action>, j: nat, m: nat)
    requires Run(states, actions) && OrphanedAt(states, actions, j) && j < m < |states|
    ensures Orphan(states[m], actions[j].client, states[j].serial)
    ensures j + 1 < m && StillActive(states, j, m) ==> StillActive(states, j, m - 1)
    decreases m
  {
    hide Run, Latched, Threads, Enabled, Next, Moves;
    RunLength(states, actions);
    RunMoves(states, actions, m - 1);
    if m == j + 1 {
      BridgeAcks.HearingInvariant(states, actions, j);
      DropOrphans(states[j], actions[j].client);
    } else {
      OrphanStays(states, actions, j, m - 1);
      StepSlot(states[m - 1], actions[m - 1]);
    }
  }

  lemma DropOrphans(s: State, c: ClientId)
    requires BridgeAcks.Hearing(s) && Owns(s.slot, c) && Enabled(s, Drop(c))
    ensures Orphan(Next(s, Drop(c)), c, s.serial)
  {}

  // ---------- the disconnect handler reaches its exchange ----------

  lemma OthersUntouched(s: State, a: Action, h: Tid)
    requires Threads(s) && Enabled(s, a) && h in s.threads && !(a.Do? && a.t == h)
    ensures h in Next(s, a).threads && Next(s, a).threads[h] == s.threads[h]
  {
    assert s.nextTid !in s.threads;
    hide Threads, Tagged, Completed, Fed, Opened;
    if a.Do? {
      var pc := s.threads[a.t];
      hide DoStep;
      DoTouchesOne(s, a.t, a.yes, h);
    }
  }

  lemma DoTouchesOne(s: State, t: Tid, yes: bool, h: Tid)
    requires t in s.threads && h in s.threads && h != t
    ensures h in DoStep(s, t, yes).threads && DoStep(s, t, yes).threads[h] == s.threads[h]
  {
    var pc := s.threads[t];
    if pc.Latch? || pc.TickClear? {
    } else {
      hide DispatchStep, StopStep, AnswerStep, DeadmanStep;
      if pc.Dispatch? { ApartDispatch(s, t, pc.from, pc.line, yes); }
      else if StopPc(pc) { ApartStop(s, t, pc, yes); }
      else if DeadmanPc(pc) { ApartDeadman(s, t, pc, yes); }
      else { ApartElse(s, t, pc, yes); hide IoStep; }
    }
  }

  /** Handler h of client c has still to exchange the latch. */
  ghost predicate Due(s: State, h: Tid, c: ClientId) {
    h in s.threads && (s.threads[h] == Disconnected(c) || s.threads[h].Latch?)
  }

  lemma HandlerMoves(s: State, a: Action, h: Tid, c: ClientId)
    requires Threads(s) && Enabled(s, a) && Due(s, h, c) && Owns(s.slot, c)
    ensures (AtLatch(s, a) && a.t == h) || Due(Next(s, a), h, c)
  {
    if a.Do? && a.t == h {
    } else {
      OthersUntouched(s, a, h);
      hide Next, Threads, Enabled;
    }
  }

  ghost predicate Exchanged(states: seq<State>, actions: seq<Action>, j: nat, m: nat) {
    exists k :: j < k < m && Exchanges(states, actions, k)
  }

  lemma ExchangedEarlier(states: seq<State>, actions: seq<Action>, j: nat, m: nat)
    requires m > 0 && Exchanged(states, actions, j, m - 1)
    ensures Exchanged(states, actions, j, m)
  {}

  /** While the command is active its owner's disconnect handler has exchanged the latch or is about to. */
  lemma {:induction false} HandlerExchanges(states: seq<State>, actions: seq<Action>, j: nat, m: nat)
    requires Run(states, actions) && OrphanedAt(states, actions, j) && j < m < |states| && StillActive(states, j, m)
    ensures Exchanged(states, actions, j, m) || Due(states[m], states[j].nextTid, actions[j].client)
    decreases m
  {
    hide Run, Latched, Threads, Enabled, Moves, Exchanged;
    RunLength(states, actions);
    RunMoves(states, actions, m - 1);
    var h, c := states[j].nextTid, actions[j].client;
    if m > j + 1 {
      hide Next, Due;
      OrphanStays(states, actions, j, m);
      OrphanStays(states, actions, j, m - 1);
      HandlerExchanges(states, actions, j, m - 1);
      if Exchanged(states, actions, j, m - 1) {
        ExchangedEarlier(states, actions, j, m);
      } else {
        HandlerMoves(states[m - 1], actions[m - 1], h, c);
        if AtLatch(states[m - 1], actions[m - 1]) { JustExchanged(states, actions, j, m); }
      }
    }
  }

  lemma JustExchanged(states: seq<State>, actions: seq<Action>, j: nat, m: nat)
    requires j + 1 < m < |states| && |states| == |actions| + 1 && AtLatch(states[m - 1], actions[m - 1])
    ensures Exchanged(states, actions, j, m)
  {
    assert Exchanges(states, actions, m - 1);
  }

  // ---------- which ticks can clear ----------

  lemma NoNewClearer(s: State, a: Action, c: ClientId, t: Tid)
    requires Threads(s) && Enabled(s, a) && Owns(s.slot, c) && c !in s.clients
    requires t in Next(s, a).threads && MayClear(Next(s, a).threads[t], c)
    ensures t in s.threads && MayClear(s.threads[t], c)
  {
    hide Threads, Tagged, Completed, Fed, Opened;
    if a.Do? {
      hide DoStep;
      DoClears(s, a.t, a.yes, c, t);
    }
  }

  lemma DeadmanClears(s: State, t: Tid, yes: bool, c: ClientId, u: Tid)
    requires t in s.threads && DeadmanPc(s.threads[t]) && Owns(s.slot, c) && c !in s.clients && Enabled(s, Do(t, yes))
    requires var s' := DeadmanStep(s, t, s.threads[t], yes); u in s'.threads && MayClear(s'.threads[u], c)
    ensures u in s.threads && MayClear(s.threads[u], c)
  {}

  lemma ApartClears(s: State, s': State, t: Tid, c: ClientId, u: Tid)
    requires t in s.threads && Apart(s, s', t) && !Unfired(s.threads[t])
    requires u in s'.threads && MayClear(s'.threads[u], c)
    ensures u in s.threads && MayClear(s.threads[u], c)
  {}

  lemma DisconnectedClears(s: State, t: Tid, yes: bool, c: ClientId, u: Tid)
    requires t in s.threads && s.threads[t].Disconnected?
    requires var s' := IoStep(s, t, s.threads[t], yes); u in s'.threads && MayClear(s'.threads[u], c)
    ensures u in s.threads && MayClear(s.threads[u], c)
  {}

  lemma DoClears(s: State, t: Tid, yes: bool, c: ClientId, u: Tid)
    requires t in s.threads && Owns(s.slot, c) && c !in s.clients && Enabled(s, Do(t, yes))
    requires u in DoStep(s, t, yes).threads && MayClear(DoStep(s, t, yes).threads[u], c)
    ensures u in s.threads && MayClear(s.threads[u], c)
  {
    hide IoStep, StopStep, AnswerStep, DeadmanStep, Apart, MayClear, Enabled;
    var pc := s.threads[t];
    if DeadmanPc(pc) {
      DeadmanClears(s, t, yes, c, u);
    } else if pc.Disconnected? {
      DisconnectedClears(s, t, yes, c, u);
    } else {
      if pc.Dispatch? { ApartDispatch(s, t, pc.from, pc.line, yes); DispatchIsIo(s, t, pc, yes); }
      else if StopPc(pc) { ApartStop(s, t, pc, yes); }
      else { ApartElse(s, t, pc, yes); }
      ApartClears(s, DoStep(s, t, yes), t, c, u);
    }
  }

  lemma DispatchIsIo(s: State, t: Tid, pc: Pc, yes: bool)
    requires pc.Dispatch?
    ensures IoStep(s, t, pc, yes) == DispatchStep(s, t, pc.from, pc.line, yes)
  {
    hide DispatchStep;
  }

  lemma {:induction false} ActiveSince(states: seq<State>, actions: seq<Action>, j: nat, m: nat, i: nat)
    requires Run(states, actions) && OrphanedAt(states, actions, j) && j < m <= i < |states| && StillActive(states, j, i)
    ensures StillActive(states, j, m) && Orphan(states[m], actions[j].client, states[j].serial)
    decreases i
  {
    hide Run, Orphan;
    OrphanStays(states, actions, j, i);
    if m < i { ActiveSince(states, actions, j, m, i - 1); }
  }

  /** While the command is active, a tick that may clear the latch was in flight at the disconnect. */
  lemma {:induction false} ClearersInFlight(states: seq<State>, actions: seq<Action>, j: nat, m: nat, t: Tid)
    requires Run(states, actions) && OrphanedAt(states, actions, j) && j < m < |states| && StillActive(states, j, m)
    requires t in states[m].threads && MayClear(states[m].threads[t], actions[j].client)
    ensures t in states[j].threads && MayClear(states[j].threads[t], actions[j].client)
    decreases m
  {
    hide Run, Latched, Threads, Enabled, Moves, MayClear;
    RunLength(states, actions);
    RunMoves(states, actions, m - 1);
    if m == j + 1 {
      NotAHandler(actions[j].client);
    } else {
      hide Next;
      ActiveSince(states, actions, j, m - 1, m);
      NoNewClearer(states[m - 1], actions[m - 1], actions[j].client, t);
      ClearersInFlight(states, actions, j, m - 1, t);
    }
  }

  lemma NotAHandler(c: ClientId)
    ensures !MayClear(Disconnected(c), c)
  {}

  ghost predicate ClearerInFlight(s: State, c: ClientId) {
    exists t :: t in s.threads && MayClear(s.threads[t], c)
  }

  // ---------- main result ----------

  /** When the disconnect of its owner stops an active command. At j the owner leaves; at i its
      disconnect handler is over and the command still active, its owner gone. If the latch was
      clear at j, some invocation has fired since and begun STOP after j by the time it is over. If
      the latch was set, nobody stops, unless a watchdog tick was already past its reading of the
      slot at j and cleared it. With no such tick, a stop follows if and only if the latch was
      clear when the client left. */
  lemma DisconnectStops(states: seq<State>, actions: seq<Action>, j: nat, i: nat)
    requires Run(states, actions) && OrphanedAt(states, actions, j) && j < i < |states| && StillActive(states, j, i)
    requires states[j].nextTid !in states[i].threads
    ensures Owns(states[i].slot, actions[j].client) && actions[j].client !in states[i].clients
    ensures !states[j].latch ==> SomeoneStops(states, j, i)
    ensures states[j].latch && SomeoneStops(states, j, i) ==> ClearerInFlight(states[j], actions[j].client)
    ensures !ClearerInFlight(states[j], actions[j].client) ==> (SomeoneStops(states, j, i) <==> !states[j].latch)
  {
    hide Run, Latched, Threads, Enabled, Moves, Next, MayClear;
    RunLength(states, actions);
    ActiveSince(states, actions, j, i, i);
    var c := actions[j].client;
    if !states[j].latch {
      HandlerExchanges(states, actions, j, i);
      var k :| j < k < i && Exchanges(states, actions, k);
      StaleTickStops(states, actions, j, k);
      var f :| StopsSince(states, j, k + 1, f);
      NothingForgotten(states, actions, k + 1, i);
      FiredStops(states, actions, j, i, f);
    } else if !ClearerInFlight(states[j], c) {
      forall m | j <= m < i ensures !Clears(states, actions, m) {
        if j < m && Clears(states, actions, m) {
          ActiveSince(states, actions, j, m, i);
          ClearingMayClear(states[m].threads[actions[m].t], c);
          ClearersInFlight(states, actions, j, m, actions[m].t);
        }
      }
      StaysSet(states, actions, j, i);
    }
  }

  lemma ClearingMayClear(pc: Pc, c: ClientId)
    requires pc.TickClear?
    ensures MayClear(pc, c)
  {}

  // ---------- where the protocol text promises more ----------

  /** s' can be reached from s. */
  ghost predicate Leads(s: State, s': State) { exists path :: Follows(s, path, s') }

  ghost predicate Follows(s: State, path: seq<Action>, s': State)
    decreases |path|
  {
    if path == [] then s == s' else Enabled(s, path[0]) && Follows(Next(s, path[0]), path[1..], s')
  }

  lemma Stays(s: State)
    ensures Leads(s, s)
  {
    assert Follows(s, [], s);
  }

  lemma {:induction false} FollowsThen(s: State, path: seq<Action>, s': State, a: Action)
    requires Follows(s, path, s') && Enabled(s', a)
    ensures Follows(s, path + [a], Next(s', a))
    decreases |path|
  {
    if path == [] {
      assert [a][1..] == [];
      assert Follows(Next(s, a), [], Next(s, a));
    } else {
      assert (path + [a])[1..] == path[1..] + [a];
      FollowsThen(Next(s, path[0]), path[1..], s', a);
    }
  }

  lemma Then(s: State, s': State, a: Action)
    requires Leads(s, s') && Enabled(s', a)
    ensures Leads(s, Next(s', a))
  {
    var path :| Follows(s, path, s');
    FollowsThen(s, path, s', a);
  }

  /** The states a path visits. */
  ghost function Visited(s: State, path: seq<Action>, s': State): seq<State>
    requires Follows(s, path, s')
    decreases |path|
  {
    [s] + if path == [] then [] else Visited(Next(s, path[0]), path[1..], s')
  }

  lemma {:induction false} VisitedSteps(s: State, path: seq<Action>, s': State)
    requires Follows(s, path, s')
    ensures var v := Visited(s, path, s');
            && |v| == |path| + 1 && v[0] == s && v[|path|] == s'
            && forall i :: 0 <= i < |path| ==> Enabled(v[i], path[i]) && v[i + 1] == Next(v[i], path[i])
    decreases |path|
  {
    if path != [] {
      var rest := Visited(Next(s, path[0]), path[1..], s');
      VisitedSteps(Next(s, path[0]), path[1..], s');
      var v := Visited(s, path, s');
      assert v == [s] + rest;
      forall i | 0 <= i < |path| ensures Enabled(v[i], path[i]) && v[i + 1] == Next(v[i], path[i]) {
        if i > 0 { assert v[i] == rest[i - 1] && path[i] == path[1..][i - 1]; }
      }
    }
  }

  /** What INIT leads to is the end of a run. */
  lemma LeadsIsRun(s: State) returns (states: seq<State>, actions: seq<Action>)
    requires Leads(INIT, s)
    ensures Run(states, actions) && states[|actions|] == s
  {
    actions :| Follows(INIT, actions, s);
    states := Visited(INIT, actions, s);
    VisitedSteps(INIT, actions, s);
  }

  const JOB_A := Job(1, 1, "a", "goto_pose")
  const JOB_B := Job(2, 1, "b", "goto_pose")
  const LINE_A: Command := Motion("a", "goto_pose", true)
  const LINE_B: Command := Motion("b", "goto_pose", true)
  const BYTES_A: Bytes := [97]
  const BYTES_B: Bytes := [98]
  const ACK_A := Entry(Ack(1, "a", true, ""), true, Some(JOB_A))
  const STOPPED := Entry(Notice(DeadmanStop), false, None)
  const DONE_A := Entry(Result(1, "a", ""), true, Some(JOB_A))
  const ACK_B := Entry(Ack(1, "b", true, ""), true, Some(JOB_B))

  function Parser(line: Bytes): Command { if line == BYTES_A then LINE_A else LINE_B }

  const INIT := Init(Parser)

  /** Client 1 has connected and sent these lines. */
  function Heard1(lines: seq<Bytes>, bytes: Bytes): Intake {
    Intake(Parser, map[1 := Receiver([], lines, true)], map[1 := bytes])
  }

  /** Job a accepted and submitted. */
  const A_RUNNING := INIT.(
    slot := Slot(true, "a", "goto_pose", 1, false, None), nextTid := 1, clients := {1}, nextClient := 2,
    intake := Heard1([BYTES_A], [97, LF]), awaiting := map[1 := Response(JOB_A)], outbox := [ACK_A], serial := 1,
    holder := Remote, heard := [(1, LINE_A)])

  /** Its GUI fell silent: a tick has fired the latch and stopped the robot. */
  const A_STOPPED := A_RUNNING.(
    latch := true, nextTid := 2, outbox := [ACK_A, STOPPED], driver := Driver(false, [false]),
    firings := 1, firedBy := {1}, stoppedBy := {1})

  /** Its answer has come, the slot is free, and no tick has run since. */
  const A_DONE := A_STOPPED.(
    slot := FREE, nextTid := 3, awaiting := map[], outbox := [ACK_A, STOPPED, DONE_A], holder := Nobody)

  /** The GUI is back with job b, accepted and submitted; the latch is still set. */
  const B_RUNNING := A_DONE.(
    slot := Slot(true, "b", "goto_pose", 1, false, None), nextTid := 4, awaiting := map[2 := Response(JOB_B)],
    intake := Heard1([BYTES_A, BYTES_B], [97, LF, 98, LF]),
    outbox := [ACK_A, STOPPED, DONE_A, ACK_B], serial := 2, holder := Remote, heard := [(1, LINE_A), (1, LINE_B)])

  /** The GUI is gone for good and its disconnect handler is over. */
  const B_ORPHANED := B_RUNNING.(clients := {}, nextTid := 5)

  /** A tick has found the owner gone and is about to exchange the latch. */
  const B_STALE := B_ORPHANED.(nextTid := 6, driver := Driver(false, [false, false]), threads := map[5 := Latch])

  // Single steps of a lone invocation t.

  /** A read that brings exactly one line. */
  lemma OneLine(lines: seq<Bytes>, line: Bytes)
    requires LF !in line && line != [] && StripCr(line) == line
    ensures Receive(Receiver([], lines, true), line + [LF]) == Receiver([], lines + [line], true)
  {
    var chunk := line + [LF];
    UnlinesCons(line, []);
    assert Unlines([line] + []) + [] == chunk && [] + chunk == chunk && [line] + [] == [line];
    SplitIsUnique([line], []);
    assert Deliver([line]) == [line] by { assert [line][1..] == []; }
  }

  lemma ParsedOne(parse: Bytes -> Command, line: Bytes)
    ensures Parsed(parse, [line]) == [parse(line)]
  {
    assert [line][1..] == [];
  }

  lemma Heard(s: State, lines: seq<Bytes>, bytes: Bytes, line: Bytes)
    requires s.io.None? && s.inbox == [] && 1 in s.clients && s.intake == Heard1(lines, bytes)
    requires LF !in line && |line| == 1 && StripCr(line) == line
    ensures Enabled(s, Hear(1, line + [LF]))
    ensures Next(s, Hear(1, line + [LF])) ==
            s.(inbox := [(1, Parser(line))], heard := s.heard + [(1, Parser(line))],
               intake := Heard1(lines + [line], bytes + (line + [LF])))
  {
    OneLine(lines, line);
    var chunk := line + [LF];
    var k := s.intake;
    hide Receive, Parser, StripCr;
    assert Completed(k, 1, chunk) == [Parser(line)] by {
      assert k.rx[1] == Receiver([], lines, true) && (lines + [line])[|lines|..] == [line];
      ParsedOne(k.parse, line);
    }
    assert Fed(k, 1, chunk) == Heard1(lines + [line], bytes + chunk);
    assert Tagged(1, [Parser(line)]) == [(1, Parser(line))] by { assert [Parser(line)][1..] == []; }
  }

  lemma Begun(s: State, c: ClientId, line: Command)
    requires s.io.None? && s.inbox == [(c, line)] && s.threads == map[]
    ensures Enabled(s, Begin)
    ensures Next(s, Begin) == s.(inbox := [], io := Some(s.nextTid), nextTid := s.nextTid + 1,
                                 threads := map[s.nextTid := Dispatch(c, line)])
  {
    assert s.inbox[1..] == [];
  }

  lemma Claims(s: State, t: Tid, c: ClientId, id: string)
    requires s.threads == map[t := Dispatch(c, Motion(id, "goto_pose", true))] && s.slot == FREE
    ensures Enabled(s, Do(t, true))
    ensures Next(s, Do(t, true)) ==
            s.(threads := map[t := AckClaim(Job(s.serial + 1, c, id, "goto_pose"))], serial := s.serial + 1,
               slot := Slot(true, id, "goto_pose", c, false, None), holder := Thread(t))
  {}

  lemma Accepts(s: State, t: Tid, job: Job)
    requires s.threads == map[t := AckClaim(job)] && !IsRun(job) && job.client in s.clients
    ensures Enabled(s, Do(t, true))
    ensures Next(s, Do(t, true)) ==
            s.(threads := map[t := SetPhase(job)],
               outbox := s.outbox + [Entry(Ack(job.client, job.id, true, ""), true, Some(job))])
  {}

  lemma Phases(s: State, t: Tid, job: Job)
    requires s.threads == map[t := SetPhase(job)]
    ensures Enabled(s, Do(t, true)) && Next(s, Do(t, true)) == s.(threads := map[t := Submit(job)])
  {}

  lemma Submits(s: State, t: Tid, job: Job)
    requires s.threads == map[t := Submit(job)] && s.io == Some(t) && s.awaiting == map[]
    ensures Enabled(s, Do(t, true))
    ensures Next(s, Do(t, true)) == s.(threads := map[], io := None, awaiting := map[job.serial := Response(job)], holder := Remote)
  {}

  /** A goto_pose command, from its line to its submission, with nobody interfering. */
  lemma CommandRuns(s0: State, s: State, lines: seq<Bytes>, bytes: Bytes, line: Bytes, id: string)
    requires Leads(s0, s) && s.io.None? && s.inbox == [] && 1 in s.clients && s.threads == map[] && s.slot == FREE && s.awaiting == map[]
    requires s.intake == Heard1(lines, bytes) && Parser(line) == Motion(id, "goto_pose", true)
    requires LF !in line && |line| == 1 && StripCr(line) == line
    ensures var job := Job(s.serial + 1, 1, id, "goto_pose");
            Leads(s0, s.(slot := Slot(true, id, "goto_pose", 1, false, None), nextTid := s.nextTid + 1, serial := s.serial + 1,
                         holder := Remote, heard := s.heard + [(1, Motion(id, "goto_pose", true))],
                         intake := Heard1(lines + [line], bytes + (line + [LF])),
                         awaiting := map[s.serial + 1 := Response(job)],
                         outbox := s.outbox + [Entry(Ack(1, id, true, ""), true, Some(job))]))
  {
    hide Next, Enabled, Leads, Heard1, StripCr;
    var cmd, chunk := Motion(id, "goto_pose", true), line + [LF];
    var t, job := s.nextTid, Job(s.serial + 1, 1, id, "goto_pose");
    Heard(s, lines, bytes, line);
    Then(s0, s, Hear(1, chunk));
    var s1 := Next(s, Hear(1, chunk));
    Begun(s1, 1, cmd);
    Then(s0, s1, Begin);
    var s2 := Next(s1, Begin);
    Claims(s2, t, 1, id);
    Then(s0, s2, Do(t, true));
    var s3 := Next(s2, Do(t, true));
    Accepts(s3, t, job);
    Then(s0, s3, Do(t, true));
    var s4 := Next(s3, Do(t, true));
    Phases(s4, t, job);
    Then(s0, s4, Do(t, true));
    var s5 := Next(s4, Do(t, true));
    Submits(s5, t, job);
    Then(s0, s5, Do(t, true));
  }

  lemma Ticks(s: State)
    requires s.threads == map[] && !s.driver.alive
    ensures Enabled(s, Tick(false))
    ensures Next(s, Tick(false)) == s.(threads := map[s.nextTid := TickDriver(false)], nextTid := s.nextTid + 1)
  {}

  lemma Judges(s: State, t: Tid)
    requires s.threads == map[t := TickDriver(false)] && !s.driver.alive
    ensures Enabled(s, Do(t, true))
    ensures Next(s, Do(t, true)) == s.(threads := map[t := TickRead], driver := Driver(false, s.driver.verdicts + [false]))
  {}

  lemma Reads(s: State, t: Tid)
    requires s.threads == map[t := TickRead] && s.slot.active
    ensures Enabled(s, Do(t, false)) && Next(s, Do(t, false)) == s.(threads := map[t := TickProbe(s.slot.client)])
  {}

  lemma FindsStale(s: State, t: Tid, owner: ClientId)
    requires s.threads == map[t := TickProbe(owner)]
    ensures Enabled(s, Do(t, false)) && Next(s, Do(t, false)) == s.(threads := map[t := Latch])
  {}

  /** A tick that finds the owner silent or gone, up to its exchange. */
  lemma TickReachesLatch(s0: State, s: State)
    requires Leads(s0, s) && s.threads == map[] && s.slot.active && !s.driver.alive
    ensures Leads(s0, s.(threads := map[s.nextTid := Latch], nextTid := s.nextTid + 1,
                         driver := Driver(false, s.driver.verdicts + [false])))
  {
    hide Next, Enabled, Leads;
    var t := s.nextTid;
    Ticks(s);
    Then(s0, s, Tick(false));
    var s1 := Next(s, Tick(false));
    Judges(s1, t);
    Then(s0, s1, Do(t, true));
    var s2 := Next(s1, Do(t, true));
    Reads(s2, t);
    Then(s0, s2, Do(t, false));
    var s3 := Next(s2, Do(t, false));
    FindsStale(s3, t, s.slot.client);
    Then(s0, s3, Do(t, false));
  }

  lemma Fires(s: State, t: Tid)
    requires s.threads == map[t := Latch] && !s.latch
    ensures Enabled(s, Do(t, true))
    ensures Next(s, Do(t, true)) == s.(threads := map[t := DeadmanEvent], latch := true, firings := s.firings + 1, firedBy := s.firedBy + {t})
  {}

  lemma Announces(s: State, t: Tid)
    requires s.threads == map[t := DeadmanEvent] && 0 !in s.clients
    ensures Enabled(s, Do(t, true))
    ensures Next(s, Do(t, true)) == s.(threads := map[t := StopEvent], outbox := s.outbox + [Entry(Notice(DeadmanStop), false, None)])
  {}

  lemma SendsStop(s: State, t: Tid)
    requires s.threads == map[t := StopEvent]
    ensures Enabled(s, Do(t, true))
    ensures Next(s, Do(t, true)) == s.(threads := map[t := StopSection], stoppedBy := s.stoppedBy + {t})
  {}

  lemma EndsStop(s: State, t: Tid)
    requires s.threads == map[t := StopSection] && s.slot.cmd == "goto_pose" && s.slot.goal.None? && s.io.None?
    ensures Enabled(s, Do(t, true)) && Next(s, Do(t, true)) == s.(threads := map[])
  {}

  lemma Answered(s: State, job: Job)
    requires s.threads == map[] && s.awaiting == map[job.serial := Response(job)] && !IsRun(job)
    ensures Enabled(s, RespondService(job.serial))
    ensures Next(s, RespondService(job.serial)) ==
            s.(threads := map[s.nextTid := Terminal(job)], nextTid := s.nextTid + 1, awaiting := map[], holder := Thread(s.nextTid))
  {
    assert s.awaiting - {job.serial} == map[];
  }

  lemma Reports(s: State, t: Tid, job: Job)
    requires s.threads == map[t := Terminal(job)] && job.client in s.clients
    ensures Enabled(s, Do(t, true))
    ensures Next(s, Do(t, true)) == s.(threads := map[t := Release(job)],
                                       outbox := s.outbox + [Entry(Result(job.client, job.id, ""), true, Some(job))])
  {}

  lemma Frees(s: State, t: Tid, job: Job)
    requires s.threads == map[t := Release(job)] && s.io.None?
    ensures Enabled(s, Do(t, true)) && Next(s, Do(t, true)) == s.(threads := map[], slot := FREE, holder := Nobody)
  {}

  lemma Leaves(s: State, c: ClientId)
    requires s.io.None? && s.inbox == [] && s.clients == {c} && s.threads == map[]
    ensures Enabled(s, Drop(c))
    ensures Next(s, Drop(c)) == s.(clients := {}, threads := map[s.nextTid := Disconnected(c)], io := Some(s.nextTid), nextTid := s.nextTid + 1)
  {
    assert s.clients - {c} == {};
  }

  lemma FindsOwned(s: State, t: Tid, c: ClientId)
    requires s.threads == map[t := Disconnected(c)] && Owns(s.slot, c)
    ensures Enabled(s, Do(t, true)) && Next(s, Do(t, true)) == s.(threads := map[t := Latch])
  {}

  /** An exchange that finds the latch set ends the invocation with nothing stopped. */
  lemma Declines(s: State, t: Tid)
    requires s.threads == map[t := Latch] && s.latch && (s.io.None? || s.io == Some(t))
    ensures Enabled(s, Do(t, true)) && Next(s, Do(t, true)) == s.(threads := map[], io := None)
  {}

  lemma Lines1()
    ensures LF !in BYTES_A && LF !in BYTES_B && StripCr(BYTES_A) == BYTES_A && StripCr(BYTES_B) == BYTES_B
    ensures Parser(BYTES_A) == LINE_A && Parser(BYTES_B) == LINE_B
  {}

  lemma ReachAStopped()
    ensures Leads(INIT, A_STOPPED)
  {
    hide Next, Leads, Heard1, Parser, StripCr;
    Stays(INIT);
    Then(INIT, INIT, Connect);
    var s1 := INIT.(clients := {1}, nextClient := 2, intake := Heard1([], []));
    assert Next(INIT, Connect) == s1 by { FirstClient(); }
    Lines1();
    CommandRuns(INIT, s1, [], [], BYTES_A, "a");
    assert s1.outbox + [ACK_A] == [ACK_A] && s1.heard + [(1, LINE_A)] == [(1, LINE_A)];
    assert [] + [BYTES_A] == [BYTES_A] && [] + (BYTES_A + [LF]) == [97, LF];
    TickReachesLatch(INIT, A_RUNNING);
    hide Enabled;
    assert [] + [false] == [false];
    var s2 := A_RUNNING.(threads := map[1 := Latch], nextTid := 2, driver := Driver(false, [false]));
    Fires(s2, 1);
    Then(INIT, s2, Do(1, true));
    var s3 := Next(s2, Do(1, true));
    Announces(s3, 1);
    Then(INIT, s3, Do(1, true));
    var s4 := Next(s3, Do(1, true));
    SendsStop(s4, 1);
    Then(INIT, s4, Do(1, true));
    var s5 := Next(s4, Do(1, true));
    EndsStop(s5, 1);
    Then(INIT, s5, Do(1, true));
    assert {} + {1} == {1} && [ACK_A] + [STOPPED] == [ACK_A, STOPPED];
    assert Next(s5, Do(1, true)) == A_STOPPED;
  }

  lemma FirstClient()
    ensures Enabled(INIT, Connect) && Next(INIT, Connect) == INIT.(clients := {1}, nextClient := 2, intake := Heard1([], []))
  {
    assert {} + {1} == {1};
    assert map[][1 := FRESH] == map[1 := FRESH];
    assert Opened(INIT.intake, 1) == Heard1([], []);
  }

  lemma ReachADone()
    ensures Leads(INIT, A_DONE)
  {
    ReachAStopped();
    hide Next, Enabled, Leads;
    Answered(A_STOPPED, JOB_A);
    Then(INIT, A_STOPPED, RespondService(1));
    var s1 := Next(A_STOPPED, RespondService(1));
    Reports(s1, 2, JOB_A);
    Then(INIT, s1, Do(2, true));
    var s2 := Next(s1, Do(2, true));
    Frees(s2, 2, JOB_A);
    Then(INIT, s2, Do(2, true));
    assert [ACK_A, STOPPED] + [DONE_A] == [ACK_A, STOPPED, DONE_A];
    assert Next(s2, Do(2, true)) == A_DONE;
  }

  lemma ReachBStale()
    ensures Leads(A_DONE, B_STALE)
  {
    Stays(A_DONE);
    hide Next, Enabled, Leads, Heard1, Parser, StripCr;
    Lines1();
    CommandRuns(A_DONE, A_DONE, [BYTES_A], [97, LF], BYTES_B, "b");
    assert [BYTES_A] + [BYTES_B] == [BYTES_A, BYTES_B] && [97, LF] + (BYTES_B + [LF]) == [97, LF, 98, LF];
    assert [ACK_A, STOPPED, DONE_A] + [ACK_B] == [ACK_A, STOPPED, DONE_A, ACK_B];
    assert [(1, LINE_A)] + [(1, LINE_B)] == [(1, LINE_A), (1, LINE_B)];
    Leaves(B_RUNNING, 1);
    Then(A_DONE, B_RUNNING, Drop(1));
    var s1 := Next(B_RUNNING, Drop(1));
    FindsOwned(s1, 4, 1);
    Then(A_DONE, s1, Do(4, true));
    var s2 := Next(s1, Do(4, true));
    Declines(s2, 4);
    Then(A_DONE, s2, Do(4, true));
    TickReachesLatch(A_DONE, B_ORPHANED);
    assert [false] + [false] == [false, false];
  }

  /** The latch may still be set by the previous command. A run in which command b is claimed
      with no tick since command a ended; b's GUI then disappears, its disconnect handler and a
      later tick both find it gone, and neither begins a stop: section 5.3 of the protocol text is
      not met there. The tick ends with b still active, and no STOP begun since before b. */
  lemma StaleLatchMissesOrphan()
    ensures Leads(INIT, A_DONE) && !A_DONE.slot.active && Leads(A_DONE, B_STALE)
    ensures B_STALE.slot.active && B_STALE.serial == A_DONE.serial + 1 && B_STALE.slot.client !in B_STALE.clients
    ensures B_STALE.threads == map[5 := Latch]
    ensures var after := Next(B_STALE, Do(5, true));
            after.slot.active && after.threads == map[] && after.firings == A_DONE.firings && after.stoppedBy == A_DONE.stoppedBy
  {
    ReachADone();
    ReachBStale();
    Declines(B_STALE, 5);
  }
}
