/** The two accounts of the bridge's handlers agree: an invocation of the step system that nobody
    interrupts does to the shared state what the method of the class does. */
module BridgeAgreement {
  import opened SafetyEvents
  import opened BridgeNode
  import opened BridgeSystem

  /** Messages other than the periodic state, which the step system leaves out. */
  function Spoken(outbox: seq<Message>): seq<Message> {
    if outbox == [] then []
    else
      var last := outbox[|outbox| - 1];
      Spoken(outbox[..|outbox| - 1]) + if last.StateUpdate? then [] else [last]
  }

  function Messages(outbox: seq<Entry>): seq<Message> {
    if outbox == [] then [] else Messages(outbox[..|outbox| - 1]) + [outbox[|outbox| - 1].message]
  }

  lemma SpokenSnoc(outbox: seq<Message>, m: Message)
    ensures Spoken(outbox + [m]) == Spoken(outbox) + if m.StateUpdate? then [] else [m]
  {
    assert (outbox + [m])[..|outbox|] == outbox;
  }

  lemma MessagesSnoc(outbox: seq<Entry>, e: Entry)
    ensures Messages(outbox + [e]) == Messages(outbox) + [e.message]
  {
    assert (outbox + [e])[..|outbox|] == outbox;
  }

  function Ids(ks: seq<nat>): set<nat> { set k | k in ks }

  /** The object and the state show the same slot, latch, claims, cancelled goals and messages. */
  ghost predicate Matches(b: TendingBridge, s: State)
    reads b
  {
    && b.SlotNow() == s.slot && b.deadmanFired == s.latch && b.claims == s.serial
    && Ids(b.cancelled) == s.cancelled
    && Spoken(b.outbox) == Messages(s.outbox)
  }

  /** One step of invocation t: `heard` is what last_rx_elapsed tells a tick, `ready` whether the
      server or service it needs is there. */
  function Step(s: State, t: Tid, heard: bool, ready: bool): State
    requires t in s.threads
  {
    DoStep(s, t, if s.threads[t].TickProbe? then heard else ready)
  }

  /** Invocation t runs by itself, for n steps or until it is over. */
  function Alone(s: State, t: Tid, n: nat, heard: bool, ready: bool): State
    decreases n
  {
    if n == 0 || t !in s.threads then s else Alone(Step(s, t, heard, ready), t, n - 1, heard, ready)
  }

  // ---------- do_stop ----------

  /** What do_stop comes to. */
  function Stopped(s: State, t: Tid, ready: bool): State {
    var begun := s.(stoppedBy := s.stoppedBy + {t});
    var told := if ready then begun else Post(begun, 0, Notice(StopNotDelivered), None);
    var asked := told.(slot := StopRequested(s.slot), wants := Wanting(s, t));
    End(if s.slot.goal.Some? then asked.(cancelled := s.cancelled + {s.slot.goal.value}) else asked, t)
  }

  lemma GoesOn(s: State, t: Tid, n: nat, heard: bool, ready: bool)
    requires t in s.threads && n > 0
    ensures Alone(s, t, n, heard, ready) == Alone(Step(s, t, heard, ready), t, n - 1, heard, ready)
  {}

  lemma IsOver(s: State, t: Tid, n: nat, heard: bool, ready: bool)
    requires t !in s.threads
    ensures Alone(s, t, n, heard, ready) == s
  {}

  /** The state in which do_stop has sent its request. */
  function Begun(s: State, t: Tid, ready: bool): State {
    var begun := s.(stoppedBy := s.stoppedBy + {t});
    Goto(if ready then begun else Post(begun, 0, Notice(StopNotDelivered), None), t, StopSection)
  }

  lemma FirstStop(s: State, t: Tid, heard: bool, ready: bool)
    requires t in s.threads && s.threads[t] == StopEvent
    ensures Step(s, t, heard, ready) == Begun(s, t, ready)
  {}

  /** The rest of do_stop: the section, and the call on the goal it found. */
  lemma RestOfStop(s: State, t: Tid, n: nat, heard: bool, ready: bool)
    requires t in s.threads && s.threads[t] == StopSection && n >= 2
    ensures var asked := s.(slot := StopRequested(s.slot), wants := Wanting(s, t));
            Alone(s, t, n, heard, ready) ==
            End(if s.slot.goal.Some? then asked.(cancelled := s.cancelled + {s.slot.goal.value}) else asked, t)
  {
    hide Alone, StopRequested, Wanting;
    GoesOn(s, t, n, heard, ready);
    var s1 := Step(s, t, heard, ready);
    if s.slot.goal.Some? {
      assert s1.threads[t] == CancelGoal(s.slot.goal.value);
      GoesOn(s1, t, n - 1, heard, ready);
      var s2 := Step(s1, t, heard, ready);
      assert s1.threads - {t} == s.threads - {t};
      IsOver(s2, t, n - 2, heard, ready);
    } else {
      IsOver(s1, t, n - 1, heard, ready);
    }
  }

  lemma StopsAlone(s: State, t: Tid, n: nat, heard: bool, ready: bool)
    requires t in s.threads && s.threads[t] == StopEvent && n >= 3
    ensures Alone(s, t, n, heard, ready) == Stopped(s, t, ready) && t !in Stopped(s, t, ready).threads
  {
    hide Alone, Step, StopRequested;
    GoesOn(s, t, n, heard, ready);
    FirstStop(s, t, heard, ready);
    RestOfStop(Begun(s, t, ready), t, n - 1, heard, ready);
    assert s.threads[t := StopSection] - {t} == s.threads - {t};
  }

  /** Sets of calls and lists of messages grow together. */
  lemma Grows(b: TendingBridge, s: State, m: Message, queued: bool, about: Option<Job>, k: nat)
    ensures Spoken(b.outbox + [m]) == Spoken(b.outbox) + if m.StateUpdate? then [] else [m]
    ensures Messages(s.outbox + [Entry(m, queued, about)]) == Messages(s.outbox) + [m]
    ensures Ids(b.cancelled + [k]) == Ids(b.cancelled) + {k}
    ensures b.outbox + [] == b.outbox && b.cancelled + [] == b.cancelled
  {
    SpokenSnoc(b.outbox, m);
    MessagesSnoc(s.outbox, Entry(m, queued, about));
  }

  method AgreeOnStop(b: TendingBridge, ghost s: State, ghost t: Tid, ghost n: nat, ghost heard: bool, ready: bool)
    requires Matches(b, s) && t in s.threads && s.threads[t] == StopEvent && n >= 3
    modifies b
    ensures Matches(b, Alone(s, t, n, heard, ready)) && t !in Alone(s, t, n, heard, ready).threads
  {
    hide Spoken, Messages, Alone, StopRequested;
    StopsAlone(s, t, n, heard, ready);
    Grows(b, s, Notice(StopNotDelivered), 0 in s.clients, None, if s.slot.goal.Some? then s.slot.goal.value else 0);
    b.DoStop(ready);
  }

  // ---------- lines ----------

  lemma StopLineStep(s: State, t: Tid, c: ClientId, id: string, heard: bool, ready: bool)
    requires t in s.threads && s.threads[t] == Dispatch(c, Stop(id))
    ensures Step(s, t, heard, ready) == Goto(Post(s, c, Ack(c, id, true, ""), None), t, StopEvent)
  {}

  /** do_stop after an ack: the messages, the slot and the goals. */
  lemma AckedStop(b: TendingBridge, s: State, t: Tid, c: ClientId, id: string, ready: bool)
    requires Matches(b, s)
    ensures var done := Stopped(Goto(Post(s, c, Ack(c, id, true, ""), None), t, StopEvent), t, ready);
            && done.slot == StopRequested(s.slot) && done.latch == s.latch && done.serial == s.serial && t !in done.threads
            && Spoken(b.outbox + [Ack(c, id, true, "")] + (if ready then [] else [Notice(StopNotDelivered)])) == Messages(done.outbox)
            && Ids(b.cancelled + (if s.slot.goal.Some? then [s.slot.goal.value] else [])) == done.cancelled
  {
    hide Spoken, Messages, StopRequested, Ids;
    Grows(b, s, Ack(c, id, true, ""), c in s.clients, None, if s.slot.goal.Some? then s.slot.goal.value else 0);
    var said := b.outbox + [Ack(c, id, true, "")];
    var entries := s.outbox + [Entry(Ack(c, id, true, ""), c in s.clients, None)];
    SpokenSnoc(said, Notice(StopNotDelivered));
    MessagesSnoc(entries, Entry(Notice(StopNotDelivered), 0 in s.clients, None));
    assert said + [] == said;
  }

  method AgreeOnStopLine(b: TendingBridge, ghost s: State, ghost t: Tid, c: ClientId, id: string, ghost heard: bool, ready: bool)
    requires Matches(b, s) && t in s.threads && s.threads[t] == Dispatch(c, Stop(id))
    modifies b
    ensures Matches(b, Alone(s, t, 4, heard, ready)) && t !in Alone(s, t, 4, heard, ready).threads
  {
    hide Spoken, Messages, Alone, StopRequested, Step, Stopped, Ids;
    StopLineStep(s, t, c, id, heard, ready);
    GoesOn(s, t, 4, heard, ready);
    StopsAlone(Step(s, t, heard, ready), t, 3, heard, ready);
    AckedStop(b, s, t, c, id, ready);
    b.HandleStop(c, id, ready);
  }

  /** A line that claims, stops and cancels nothing: at most an ack. */
  lemma PlainStep(s: State, t: Tid, c: ClientId, line: Command, heard: bool, ready: bool)
    requires t in s.threads && s.threads[t] == Dispatch(c, line) && !line.Stop? && !line.Cancel? && !line.Motion?
    ensures Step(s, t, heard, ready) ==
            match line
            case NotCommand => End(s, t)
            case Malformed => End(Post(s, c, Ack(c, "", false, "BAD_JSON"), None), t)
            case WrongVersion(id) => End(Post(s, c, Ack(c, id, false, "SCHEMA_MISMATCH"), None), t)
            case Ping(id) => End(Post(s, c, Ack(c, id, true, ""), None), t)
            case Unknown(id) => End(Post(s, c, Ack(c, id, false, "UNKNOWN_CMD"), None), t)
            case _ => s
  {}

  method AgreeOnPlainLine(b: TendingBridge, ghost s: State, ghost t: Tid, c: ClientId, line: Command, ghost heard: bool, ready: bool)
    requires Matches(b, s) && t in s.threads && s.threads[t] == Dispatch(c, line) && !line.Stop? && !line.Cancel? && !line.Motion?
    modifies b
    ensures Matches(b, Alone(s, t, 1, heard, ready)) && t !in Alone(s, t, 1, heard, ready).threads
  {
    hide Spoken, Messages, Alone, Step, Owed, AcksOf, Ids;
    PlainStep(s, t, c, line, heard, ready);
    GoesOn(s, t, 1, heard, ready);
    IsOver(Step(s, t, heard, ready), t, 0, heard, ready);
    ghost var said := b.outbox;
    b.OnLine(c, line, ready, ready);
    if !line.NotCommand? {
      ghost var m := b.outbox[|said|];
      SpokenSnoc(said, m);
      MessagesSnoc(s.outbox, Entry(m, c in s.clients, None));
    }
  }

  /** An applicable cancel, once its section has run. */
  function Flagged(s: State, t: Tid, c: ClientId, id: string): State {
    Goto(s.(slot := s.slot.(cancel := true), wants := Wanting(s, t)), t, AckCancel(c, id, s.slot.goal))
  }

  lemma CancelSteps(s: State, t: Tid, c: ClientId, id: string, target: string, heard: bool, ready: bool)
    requires t in s.threads && s.threads[t] == Dispatch(c, Cancel(id, target))
    ensures CancelApplies(s.slot, target) ==> Step(s, t, heard, ready) == Flagged(s, t, c, id)
    ensures !CancelApplies(s.slot, target) ==> Step(s, t, heard, ready) == End(Post(s, c, Ack(c, id, false, "NOT_RUNNING"), None), t)
  {
    hide CancelApplies;
  }

  lemma AckStep(s: State, t: Tid, c: ClientId, id: string, stored: Option<nat>, heard: bool, ready: bool)
    requires t in s.threads && s.threads[t] == AckCancel(c, id, stored)
    ensures Step(s, t, heard, ready) ==
            Goto(Post(s, c, Ack(c, id, true, ""), None), t, if stored.Some? then CancelGoal(stored.value) else StopEvent)
  {}

  lemma CallStep(s: State, t: Tid, goal: nat, heard: bool, ready: bool)
    requires t in s.threads && s.threads[t] == CancelGoal(goal)
    ensures Step(s, t, heard, ready) == End(s.(cancelled := s.cancelled + {goal}), t)
  {}

  /** An applicable cancel that runs by itself. */
  lemma FlaggedAlone(s: State, t: Tid, c: ClientId, id: string, heard: bool, ready: bool)
    requires t in s.threads
    ensures var s1 := Flagged(s, t, c, id);
            var acked := Post(s1, c, Ack(c, id, true, ""), None);
            Alone(s1, t, 4, heard, ready) ==
            if s.slot.goal.Some? then
              var s2 := Goto(acked, t, CancelGoal(s.slot.goal.value));
              End(s2.(cancelled := s2.cancelled + {s.slot.goal.value}), t)
            else Stopped(Goto(acked, t, StopEvent), t, ready)
  {
    hide Alone, Step, Stopped, Wanting;
    var s1 := Flagged(s, t, c, id);
    GoesOn(s1, t, 4, heard, ready);
    AckStep(s1, t, c, id, s.slot.goal, heard, ready);
    var s2 := Step(s1, t, heard, ready);
    if s.slot.goal.Some? {
      GoesOn(s2, t, 3, heard, ready);
      CallStep(s2, t, s.slot.goal.value, heard, ready);
      IsOver(Step(s2, t, heard, ready), t, 2, heard, ready);
    } else {
      StopsAlone(s2, t, 3, heard, ready);
    }
  }

  /** The flag of the section shows in the slot and nowhere else the object looks. */
  lemma FlaggedShows(b: TendingBridge, s: State, t: Tid, c: ClientId, id: string, ready: bool)
    requires Matches(b, s) && s.slot.goal.None?
    ensures var done := Stopped(Goto(Post(Flagged(s, t, c, id), c, Ack(c, id, true, ""), None), t, StopEvent), t, ready);
            && done.slot == s.slot.(cancel := true) && done.latch == s.latch && done.serial == s.serial
            && t !in done.threads && done.cancelled == s.cancelled
            && Spoken(b.outbox + [Ack(c, id, true, "")] + (if ready then [] else [Notice(StopNotDelivered)])) == Messages(done.outbox)
  {
    hide Spoken, Messages, Ids, Wanting;
    FlagStays(s.slot);
    var said := b.outbox + [Ack(c, id, true, "")];
    var entries := s.outbox + [Entry(Ack(c, id, true, ""), c in s.clients, None)];
    SpokenSnoc(b.outbox, Ack(c, id, true, ""));
    MessagesSnoc(s.outbox, Entry(Ack(c, id, true, ""), c in s.clients, None));
    SpokenSnoc(said, Notice(StopNotDelivered));
    MessagesSnoc(entries, Entry(Notice(StopNotDelivered), 0 in s.clients, None));
    hide StopRequested;
    assert said + [] == said;
  }

  /** The call on the stored goal. */
  lemma FlaggedCalls(b: TendingBridge, s: State, t: Tid, c: ClientId, id: string)
    requires Matches(b, s) && s.slot.goal.Some?
    ensures var s2 := Goto(Post(Flagged(s, t, c, id), c, Ack(c, id, true, ""), None), t, CancelGoal(s.slot.goal.value));
            var done := End(s2.(cancelled := s2.cancelled + {s.slot.goal.value}), t);
            && done.slot == s.slot.(cancel := true) && done.latch == s.latch && done.serial == s.serial
            && t !in done.threads && done.cancelled == Ids(b.cancelled + [s.slot.goal.value])
            && Spoken(b.outbox + [Ack(c, id, true, "")]) == Messages(done.outbox)
  {
    hide Spoken, Messages, Ids, Wanting;
    Grows(b, s, Ack(c, id, true, ""), c in s.clients, None, s.slot.goal.value);
  }

  lemma RefusedCancel(b: TendingBridge, s: State, t: Tid, c: ClientId, id: string)
    requires Matches(b, s)
    ensures var done := End(Post(s, c, Ack(c, id, false, "NOT_RUNNING"), None), t);
            && done.slot == s.slot && done.latch == s.latch && done.serial == s.serial && t !in done.threads
            && done.cancelled == s.cancelled && Spoken(b.outbox + [Ack(c, id, false, "NOT_RUNNING")]) == Messages(done.outbox)
  {
    hide Spoken, Messages, Ids;
    Grows(b, s, Ack(c, id, false, "NOT_RUNNING"), c in s.clients, None, 0);
  }

  method AgreeOnCancelLine(b: TendingBridge, ghost s: State, ghost t: Tid, c: ClientId, id: string, target: string,
                           ghost heard: bool, ready: bool)
    requires Matches(b, s) && t in s.threads && s.threads[t] == Dispatch(c, Cancel(id, target))
    modifies b
    ensures Matches(b, Alone(s, t, 5, heard, ready)) && t !in Alone(s, t, 5, heard, ready).threads
  {
    hide Spoken, Messages, Alone, StopRequested, Step, Stopped, Ids, Flagged, End, Post, Goto;
    CancelSteps(s, t, c, id, target, heard, ready);
    GoesOn(s, t, 5, heard, ready);
    if CancelApplies(s.slot, target) {
      FlaggedAlone(s, t, c, id, heard, ready);
      if s.slot.goal.None? { FlaggedShows(b, s, t, c, id, ready); } else { FlaggedCalls(b, s, t, c, id); }
    } else {
      RefusedCancel(b, s, t, c, id);
      IsOver(Step(s, t, heard, ready), t, 4, heard, ready);
    }
    ghost var said := b.outbox + [Ack(c, id, true, "")];
    assert said + [] == said;
    b.HandleCancel(c, id, target, ready);
  }

  lemma FlagStays(slot: Slot)
    ensures StopRequested(slot.(cancel := true)) == slot.(cancel := true)
  {}

  // ---------- a motion command ----------

  function Refused(s: State, t: Tid, c: ClientId, id: string, text: string): State {
    End(Post(s, c, Ack(c, id, false, text), None), t)
  }

  lemma MotionSteps(s: State, t: Tid, c: ClientId, id: string, cmd: string, valid: bool, heard: bool, ready: bool)
    requires t in s.threads && s.threads[t] == Dispatch(c, Motion(id, cmd, valid))
    ensures Step(s, t, heard, ready) ==
            if !ready then Refused(s, t, c, id, "SERVICE_UNAVAILABLE")
            else if !valid then Refused(s, t, c, id, "BAD_ARGS")
            else if s.slot.active then Refused(s, t, c, id, "BUSY")
            else ClaimStep(s, t, c, id, cmd)
  {
    hide ClaimStep;
  }

  lemma ClaimSteps(s: State, t: Tid, job: Job, heard: bool, ready: bool)
    requires t in s.threads
    ensures s.threads[t] == AckClaim(job) ==>
              Step(s, t, heard, ready) ==
              Goto(Post(s, job.client, Ack(job.client, job.id, true, ""), Some(job)), t, if IsRun(job) then Submit(job) else SetPhase(job))
    ensures s.threads[t] == SetPhase(job) ==> Step(s, t, heard, ready) == Goto(s, t, Submit(job))
    ensures s.threads[t] == Submit(job) ==>
              Step(s, t, heard, ready) == End(s.(awaiting := s.awaiting[job.serial := Response(job)], holder := Remote), t)
  {}

  /** A claimed command, from its section to its submission. */
  lemma ClaimAlone(s: State, t: Tid, c: ClientId, id: string, cmd: string, heard: bool, ready: bool)
    requires t in s.threads
    ensures var job := Job(s.serial + 1, c, id, cmd);
            var done := Alone(ClaimStep(s, t, c, id, cmd), t, 3, heard, ready);
            && done.slot == Claimed(s.slot, c, id, cmd) && done.serial == s.serial + 1
            && done.latch == s.latch && done.cancelled == s.cancelled
            && done.outbox == s.outbox + [Entry(Ack(c, id, true, ""), c in s.clients, Some(job))]
            && t !in done.threads && done.awaiting == s.awaiting[job.serial := Response(job)]
  {
    hide Alone, Claimed, Step;
    var job, s1 := Job(s.serial + 1, c, id, cmd), ClaimStep(s, t, c, id, cmd);
    GoesOn(s1, t, 3, heard, ready);
    ClaimSteps(s1, t, job, heard, ready);
    var s2 := Step(s1, t, heard, ready);
    GoesOn(s2, t, 2, heard, ready);
    ClaimSteps(s2, t, job, heard, ready);
    var s3 := Step(s2, t, heard, ready);
    if IsRun(job) {
      IsOver(s3, t, 1, heard, ready);
    } else {
      GoesOn(s3, t, 1, heard, ready);
      ClaimSteps(s3, t, job, heard, ready);
      IsOver(Step(s3, t, heard, ready), t, 0, heard, ready);
    }
  }

  method AgreeOnMotionLine(b: TendingBridge, ghost s: State, ghost t: Tid, c: ClientId, id: string, cmd: string, valid: bool,
                           ghost heard: bool, ready: bool)
    requires Matches(b, s) && t in s.threads && s.threads[t] == Dispatch(c, Motion(id, cmd, valid))
    modifies b
    ensures Matches(b, Alone(s, t, 4, heard, ready)) && t !in Alone(s, t, 4, heard, ready).threads
  {
    hide Spoken, Messages, Alone, Claimed, Step;
    MotionSteps(s, t, c, id, cmd, valid, heard, ready);
    GoesOn(s, t, 4, heard, ready);
    if ready && valid && !s.slot.active {
      ClaimAlone(s, t, c, id, cmd, heard, ready);
      Grows(b, s, Ack(c, id, true, ""), c in s.clients, Some(Job(s.serial + 1, c, id, cmd)), 0);
    } else {
      ghost var text := if !ready then "SERVICE_UNAVAILABLE" else if !valid then "BAD_ARGS" else "BUSY";
      IsOver(Step(s, t, heard, ready), t, 3, heard, ready);
      Grows(b, s, Ack(c, id, false, text), c in s.clients, None, 0);
    }
    b.HandleMotion(c, id, cmd, valid, ready);
  }

  // ---------- answers ----------

  method AgreeOnAcceptance(b: TendingBridge, ghost s: State, ghost t: Tid, job: Job, ghost heard: bool, ghost ready: bool)
    requires Matches(b, s) && t in s.threads && s.threads[t] == GoalAccepted(job)
    modifies b
    ensures Matches(b, Alone(s, t, 2, heard, ready)) && t !in Alone(s, t, 2, heard, ready).threads
  {
    hide Spoken, Messages, Alone;
    GoesOn(s, t, 2, heard, ready);
    ghost var s1 := Step(s, t, heard, ready);
    Grows(b, s, StateUpdate, false, None, job.serial);
    if s.slot.cancel {
      GoesOn(s1, t, 1, heard, ready);
      CallStep(s1, t, job.serial, heard, ready);
      IsOver(Step(s1, t, heard, ready), t, 0, heard, ready);
    } else {
      IsOver(s1, t, 1, heard, ready);
    }
    b.OnGoalResponse(job.client, job.id, Some(job.serial));
  }

  lemma ReportSteps(s: State, t: Tid, job: Job, status: string, heard: bool, ready: bool)
    requires t in s.threads
    requires (s.threads[t] == GoalRejected(job) && status == "REJECTED") || (s.threads[t] == Terminal(job) && status == "")
    ensures var done := Alone(s, t, 2, heard, ready);
            && done.slot == FREE && done.serial == s.serial && done.latch == s.latch && done.cancelled == s.cancelled
            && done.outbox == s.outbox + [Entry(Result(job.client, job.id, status), job.client in s.clients, Some(job))]
            && t !in done.threads
  {
    hide Alone;
    GoesOn(s, t, 2, heard, ready);
    var s1 := Step(s, t, heard, ready);
    GoesOn(s1, t, 1, heard, ready);
    IsOver(Step(s1, t, heard, ready), t, 0, heard, ready);
  }

  method AgreeOnRejection(b: TendingBridge, ghost s: State, ghost t: Tid, job: Job, ghost heard: bool, ghost ready: bool)
    requires Matches(b, s) && t in s.threads && s.threads[t] == GoalRejected(job)
    modifies b
    ensures Matches(b, Alone(s, t, 2, heard, ready)) && t !in Alone(s, t, 2, heard, ready).threads
  {
    hide Spoken, Messages, Alone;
    ReportSteps(s, t, job, "REJECTED", heard, ready);
    Grows(b, s, Result(job.client, job.id, "REJECTED"), job.client in s.clients, Some(job), 0);
    b.OnGoalResponse(job.client, job.id, None);
  }

  method AgreeOnTerminal(b: TendingBridge, ghost s: State, ghost t: Tid, job: Job, ghost heard: bool, ghost ready: bool)
    requires Matches(b, s) && t in s.threads && s.threads[t] == Terminal(job)
    modifies b
    ensures Matches(b, Alone(s, t, 2, heard, ready)) && t !in Alone(s, t, 2, heard, ready).threads
  {
    hide Spoken, Messages, Alone;
    ReportSteps(s, t, job, "", heard, ready);
    var result := Result(job.client, job.id, "");
    Grows(b, s, result, job.client in s.clients, Some(job), 0);
    SpokenSnoc(b.outbox + [result], StateUpdate);
    assert b.outbox + [result] + [StateUpdate] == b.outbox + [result, StateUpdate];
    b.OnTerminal(job.client, job.id, "");
  }

  // ---------- the deadman ----------

  function Fired(s: State, t: Tid): State {
    Goto(Post(s.(latch := true, firings := s.firings + 1, firedBy := s.firedBy + {t}), 0, Notice(DeadmanStop), None), t, StopEvent)
  }

  lemma LatchStep(s: State, t: Tid, heard: bool, ready: bool)
    requires t in s.threads && s.threads[t].Latch?
    ensures Step(s, t, heard, ready) ==
            if s.latch then End(s, t)
            else Goto(s.(latch := true, firings := s.firings + 1, firedBy := s.firedBy + {t}), t, DeadmanEvent)
  {}

  lemma EventStep(s: State, t: Tid, heard: bool, ready: bool)
    requires t in s.threads && s.threads[t].DeadmanEvent?
    ensures Step(s, t, heard, ready) == Goto(Post(s, 0, Notice(DeadmanStop), None), t, StopEvent)
  {}

  /** From the exchange of the latch to the end of the invocation. */
  lemma LatchAlone(s: State, t: Tid, n: nat, heard: bool, ready: bool)
    requires t in s.threads && s.threads[t].Latch? && n >= 5
    ensures Alone(s, t, n, heard, ready) ==
            if s.latch then End(s, t) else Stopped(Fired(s, t), t, ready)
  {
    hide Alone, Stopped, Step;
    GoesOn(s, t, n, heard, ready);
    LatchStep(s, t, heard, ready);
    var s1 := Step(s, t, heard, ready);
    if s.latch {
      IsOver(s1, t, n - 1, heard, ready);
    } else {
      GoesOn(s1, t, n - 1, heard, ready);
      EventStep(s1, t, heard, ready);
      assert Step(s1, t, heard, ready) == Fired(s, t);
      StopsAlone(Fired(s, t), t, n - 2, heard, ready);
    }
  }

  /** What a firing does to the object and to the state. */
  lemma FiringMatches(b: TendingBridge, s: State, t: Tid, ready: bool)
    requires Matches(b, s)
    ensures var done := Stopped(Fired(s, t), t, ready);
            var said := b.outbox + [Notice(DeadmanStop)] + (if ready then [] else [Notice(StopNotDelivered)]);
            && done.slot == StopRequested(s.slot) && done.latch && done.serial == s.serial && t !in done.threads
            && Spoken(said) == Messages(done.outbox)
            && Ids(b.cancelled + (if s.slot.goal.Some? then [s.slot.goal.value] else [])) == done.cancelled
  {
    hide Spoken, Messages, StopRequested;
    Grows(b, s, Notice(DeadmanStop), 0 in s.clients, None, if s.slot.goal.Some? then s.slot.goal.value else 0);
    var said := b.outbox + [Notice(DeadmanStop)];
    SpokenSnoc(said, Notice(StopNotDelivered));
    MessagesSnoc(s.outbox + [Entry(Notice(DeadmanStop), 0 in s.clients, None)], Entry(Notice(StopNotDelivered), 0 in s.clients, None));
    assert said + [] == said;
  }

  method AgreeOnDisconnect(b: TendingBridge, ghost s: State, ghost t: Tid, c: ClientId, ghost heard: bool, ready: bool)
    requires Matches(b, s) && t in s.threads && s.threads[t] == Disconnected(c)
    modifies b
    ensures Matches(b, Alone(s, t, 6, heard, ready)) && t !in Alone(s, t, 6, heard, ready).threads
  {
    hide Spoken, Messages, Alone, Stopped, StopRequested;
    GoesOn(s, t, 6, heard, ready);
    ghost var s1 := Step(s, t, heard, ready);
    if Owns(s.slot, c) {
      LatchAlone(s1, t, 5, heard, ready);
      FiringMatches(b, s1, t, ready);
    } else {
      IsOver(s1, t, 5, heard, ready);
    }
    b.OnClientDisconnect(c, ready);
  }

  /** A tick that clears the latch. */
  lemma ClearAlone(s: State, t: Tid, n: nat, heard: bool, ready: bool)
    requires t in s.threads && s.threads[t] == TickClear && n > 0
    ensures var done := Alone(s, t, n, heard, ready);
            t !in done.threads && !done.latch && done.slot == s.slot && done.outbox == s.outbox
            && done.cancelled == s.cancelled && done.serial == s.serial
  {
    hide Alone;
    GoesOn(s, t, n, heard, ready);
    IsOver(Step(s, t, heard, ready), t, n - 1, heard, ready);
  }

  lemma ReadStep(s: State, t: Tid, heard: bool, ready: bool)
    requires t in s.threads && s.threads[t] == TickRead
    ensures Step(s, t, heard, ready) == Goto(s, t, if s.slot.active then TickProbe(s.slot.client) else TickClear)
  {}

  lemma ProbeStep(s: State, t: Tid, owner: ClientId, heard: bool, ready: bool)
    requires t in s.threads && s.threads[t] == TickProbe(owner)
    ensures Step(s, t, heard, ready) == Goto(s, t, if heard then TickClear else Latch)
  {}

  /** The deadman half of a tick that runs by itself. */
  lemma TickAlone(s: State, t: Tid, heard: bool, ready: bool)
    requires t in s.threads && s.threads[t] == TickRead
    ensures var done := Alone(s, t, 7, heard, ready);
            if s.slot.active && !heard then
              var s2 := Goto(Goto(s, t, TickProbe(s.slot.client)), t, Latch);
              done == (if s.latch then End(s2, t) else Stopped(Fired(s2, t), t, ready))
            else
              t !in done.threads && !done.latch && done.slot == s.slot && done.outbox == s.outbox
              && done.cancelled == s.cancelled && done.serial == s.serial
  {
    hide Alone, Stopped, Step;
    GoesOn(s, t, 7, heard, ready);
    ReadStep(s, t, heard, ready);
    var s1 := Step(s, t, heard, ready);
    if !s.slot.active {
      ClearAlone(s1, t, 6, heard, ready);
    } else {
      GoesOn(s1, t, 6, heard, ready);
      ProbeStep(s1, t, s.slot.client, heard, ready);
      var s2 := Step(s1, t, heard, ready);
      if heard { ClearAlone(s2, t, 5, heard, ready); } else { LatchAlone(s2, t, 5, heard, ready); }
    }
  }

  /** The deadman half of a tick, from its reading of the slot. */
  method AgreeOnDeadmanTick(b: TendingBridge, ghost s: State, ghost t: Tid, silence: Option<int>, timeout: int, ready: bool)
    requires Matches(b, s) && t in s.threads && s.threads[t] == TickRead
    modifies b
    ensures var heard := silence.Some? && silence.value <= timeout;
            Matches(b, Alone(s, t, 7, heard, ready)) && t !in Alone(s, t, 7, heard, ready).threads
  {
    hide Spoken, Messages, Alone, Stopped, StopRequested, Ids, Cancels, Notices;
    TickAlone(s, t, silence.Some? && silence.value <= timeout, ready);
    FiringMatches(b, Goto(Goto(s, t, TickProbe(s.slot.client)), t, Latch), t, ready);
    NothingSaid(b, if ready then [] else [Notice(StopNotDelivered)]);
    b.WatchDeadman(silence, timeout, ready);
  }

  lemma NothingSaid(b: TendingBridge, rest: seq<Message>)
    ensures b.outbox + [] == b.outbox && b.cancelled + Cancels(0, b.inspectGoal) == b.cancelled
    ensures Cancels(1, b.inspectGoal) == if b.inspectGoal.Some? then [b.inspectGoal.value] else []
    ensures b.outbox + ([Notice(DeadmanStop)] + rest) == b.outbox + [Notice(DeadmanStop)] + rest
  {}
}
