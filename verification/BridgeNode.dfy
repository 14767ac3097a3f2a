/** The bridge node's shared state and its handlers, run without interference. The critical
    sections act on the job slot through the functions below, which module BridgeSystem
    interleaves. */
module BridgeNode {
  import opened SafetyEvents

  datatype Option<+T> = None | Some(value: T)

  type ClientId = nat

  /** The motion-command slot guarded by state_mtx_. `goal` is the stored action goal handle,
      named by the claim it belongs to. */
  datatype Slot = Slot(active: bool, id: string, cmd: string, client: ClientId, cancel: bool, goal: Option<nat>)

  const FREE := Slot(false, "", "", 0, false, None)

  function Claimed(slot: Slot, client: ClientId, id: string, cmd: string): Slot {
    slot.(active := true, id := id, cmd := cmd, client := client, cancel := false)
  }

  predicate CancelApplies(slot: Slot, target: string) {
    slot.active && (target == "" || target == slot.id)
  }

  function StopRequested(slot: Slot): Slot {
    if slot.active && slot.cmd == "run_inspection" then slot.(cancel := true) else slot
  }

  predicate Owns(slot: Slot, client: ClientId) { slot.active && slot.client == client }

  datatype Message =
    | Ack(to: ClientId, id: string, ok: bool, text: string)
    | Result(to: ClientId, id: string, status: string)
    | Notice(event: Event)
    | StateUpdate

  /** A received line after parsing: args are reduced to what decides the branch taken. */
  datatype Command =
    | Malformed
    | WrongVersion(id: string)
    | NotCommand
    | Ping(id: string)
    | Stop(id: string)
    | Cancel(id: string, target: string)
    | Motion(id: string, cmd: string, valid: bool)
    | Unknown(id: string)

  class TendingBridge {
    var jobActive: bool, jobId: string, jobCmd: string, jobClient: ClientId
    var jobPhase: string, jobProgress: real, jobCaptured: int
    var cancelRequested: bool, inspectGoal: Option<nat>
    var deadmanFired: bool, prevDriverAlive: bool
    var monitor: Monitor
    var claims: nat                // how many claims succeeded; names goals
    var outbox: seq<Message>       // send_to and broadcast calls
    var submitted: seq<nat>        // goals and requests sent, by claim
    var cancelled: seq<nat>        // async_cancel_goal calls
    var stops: nat                 // SetEvent(STOP) requests

    function SlotNow(): Slot
      reads this
    {
      Slot(jobActive, jobId, jobCmd, jobClient, cancelRequested, inspectGoal)
    }

    constructor ()
      ensures SlotNow() == FREE && !deadmanFired && !prevDriverAlive && monitor == INITIAL
      ensures outbox == [] && submitted == [] && cancelled == [] && stops == 0 && claims == 0
    {
      jobActive, jobId, jobCmd, jobClient := false, "", "", 0;
      jobPhase, jobProgress, jobCaptured := "", 0.0, 0;
      cancelRequested, inspectGoal := false, None;
      deadmanFired, prevDriverAlive, monitor := false, false, INITIAL;
      claims, outbox, submitted, cancelled, stops := 0, [], [], [], 0;
    }

    method Post(m: Message)
      modifies this`outbox
      ensures outbox == old(outbox) + [m]
    {
      outbox := outbox + [m];
    }

    // ---------- slot sections ----------

    method ClaimJob(cid: ClientId, id: string, cmd: string) returns (ok: bool)
      modifies this`jobActive, this`jobId, this`jobCmd, this`jobClient, this`jobPhase, this`jobProgress, this`jobCaptured,
               this`cancelRequested, this`claims, this`outbox
      ensures ok == !old(jobActive)
      ensures ok ==> SlotNow() == Claimed(old(SlotNow()), cid, id, cmd) && claims == old(claims) + 1
      ensures ok ==> jobActive && jobId == id && jobCmd == cmd && jobClient == cid && !cancelRequested && unchanged(`inspectGoal)
      ensures ok ==> jobPhase == "PENDING" && jobProgress == 0.0 && jobCaptured == 0 && outbox == old(outbox)
      ensures !ok ==> SlotNow() == old(SlotNow()) && claims == old(claims)
      ensures !ok ==> outbox == old(outbox) + [Ack(cid, id, false, "BUSY")] && unchanged(`jobPhase, `jobProgress, `jobCaptured)
    {
      if jobActive {
        Post(Ack(cid, id, false, "BUSY"));
        return false;
      }
      jobActive, jobId, jobCmd, jobClient := true, id, cmd, cid;
      jobPhase, jobProgress, jobCaptured := "PENDING", 0.0, 0;
      cancelRequested := false;
      claims := claims + 1;
      return true;
    }

    method ReleaseJob()
      modifies this`jobActive, this`jobId, this`jobCmd, this`jobClient, this`jobPhase, this`jobProgress, this`jobCaptured,
               this`cancelRequested, this`inspectGoal
      ensures SlotNow() == FREE && jobPhase == "" && jobProgress == 0.0 && jobCaptured == 0
      ensures !jobActive && jobId == "" && jobCmd == "" && jobClient == 0 && !cancelRequested && inspectGoal.None?
    {
      jobActive := false;
      jobPhase, jobProgress, jobCaptured := "", 0.0, 0;
      jobId, jobCmd, jobClient := "", "", 0;
      cancelRequested, inspectGoal := false, None;
    }

    // ---------- stopping ----------

    method DoStop(eventReady: bool)
      modifies this`cancelRequested, this`stops, this`cancelled, this`outbox
      ensures SlotNow() == StopRequested(old(SlotNow()))
      ensures cancelRequested == (old(cancelRequested) || (jobActive && jobCmd == "run_inspection"))
      ensures stops == old(stops) + if eventReady then 1 else 0
      ensures outbox == old(outbox) + if eventReady then [] else [Notice(StopNotDelivered)]
      ensures cancelled == old(cancelled) + if inspectGoal.Some? then [inspectGoal.value] else []
    {
      if eventReady { stops := stops + 1; } else { Post(Notice(StopNotDelivered)); }
      if jobActive && jobCmd == "run_inspection" { cancelRequested := true; }
      var gh := inspectGoal;
      if gh.Some? { cancelled := cancelled + [gh.value]; }
    }

    method AbortActiveJob(eventReady: bool)
      modifies this`cancelRequested, this`stops, this`cancelled, this`outbox
      ensures SlotNow() == StopRequested(old(SlotNow()))
      ensures old(jobActive) ==>
                && stops == old(stops) + (if eventReady then 1 else 0)
                && cancelled == old(cancelled) + (if inspectGoal.Some? then [inspectGoal.value] else [])
                && outbox == old(outbox) + (if eventReady then [] else [Notice(StopNotDelivered)])
      ensures !old(jobActive) ==> stops == old(stops) && cancelled == old(cancelled) && outbox == old(outbox)
    {
      if jobActive { DoStop(eventReady); }
    }

    // ---------- commands ----------

    method HandleCancel(cid: ClientId, id: string, target: string, eventReady: bool)
      modifies this`cancelRequested, this`stops, this`cancelled, this`outbox
      ensures CancelApplies(old(SlotNow()), target) <==> old(jobActive) && (target == "" || target == old(jobId))
      ensures !(old(jobActive) && (target == "" || target == old(jobId))) ==>
                && outbox == old(outbox) + [Ack(cid, id, false, "NOT_RUNNING")]
                && SlotNow() == old(SlotNow()) && stops == old(stops) && cancelled == old(cancelled)
      ensures old(jobActive) && (target == "" || target == old(jobId)) ==>
                && cancelRequested && SlotNow() == old(SlotNow()).(cancel := true)
                && outbox == old(outbox) + [Ack(cid, id, true, "")]
                             + (if inspectGoal.None? && !eventReady then [Notice(StopNotDelivered)] else [])
                && (inspectGoal.Some? ==> cancelled == old(cancelled) + [inspectGoal.value] && stops == old(stops))
                && (inspectGoal.None? ==> cancelled == old(cancelled) && stops == old(stops) + (if eventReady then 1 else 0))
      ensures AcksOf(outbox) == AcksOf(old(outbox)) + [(cid, id)]
    {
      hide AcksOf;
      if !jobActive || (target != "" && target != jobId) {
        Post(Ack(cid, id, false, "NOT_RUNNING"));
        AcksSnoc(old(outbox), Ack(cid, id, false, "NOT_RUNNING"));
        return;
      }
      var gh := inspectGoal;
      cancelRequested := true;
      Post(Ack(cid, id, true, ""));
      AcksSnoc(old(outbox), Ack(cid, id, true, ""));
      if gh.Some? {
        cancelled := cancelled + [gh.value];
      } else {
        ghost var acked := outbox;
        DoStop(eventReady);
        AcksSnoc(acked, Notice(StopNotDelivered));
        assert acked + [] == acked;
      }
    }

    /** run_inspection, goto_pose and jog alike: `ready` is the server or service being there. */
    method HandleMotion(cid: ClientId, id: string, cmd: string, valid: bool, ready: bool)
      modifies this
      ensures !ready ==> outbox == old(outbox) + [Ack(cid, id, false, "SERVICE_UNAVAILABLE")]
      ensures ready && !valid ==> outbox == old(outbox) + [Ack(cid, id, false, "BAD_ARGS")]
      ensures ready && valid && old(jobActive) ==> outbox == old(outbox) + [Ack(cid, id, false, "BUSY")]
      ensures if ready && valid && !old(jobActive) then
                && outbox == old(outbox) + [Ack(cid, id, true, "")]
                && SlotNow() == Claimed(old(SlotNow()), cid, id, cmd)
                && claims == old(claims) + 1 && submitted == old(submitted) + [claims]
                && jobPhase == (if cmd == "goto_pose" then "MOVING" else if cmd == "jog" then "JOG" else "PENDING")
              else SlotNow() == old(SlotNow()) && claims == old(claims) && submitted == old(submitted)
      ensures unchanged(`deadmanFired, `prevDriverAlive, `monitor, `cancelled, `stops)
    {
      if !ready {
        Post(Ack(cid, id, false, "SERVICE_UNAVAILABLE"));
        return;
      }
      if !valid {
        Post(Ack(cid, id, false, "BAD_ARGS"));
        return;
      }
      var ok := ClaimJob(cid, id, cmd);
      if !ok { return; }
      Post(Ack(cid, id, true, ""));
      if cmd == "goto_pose" { jobPhase := "MOVING"; } else if cmd == "jog" { jobPhase := "JOG"; }
      submitted := submitted + [claims];
    }

    // ---------- answers ----------

    /** The action server's answer to the goal of claim `k`; None is a rejection. */
    method OnGoalResponse(cid: ClientId, id: string, k: Option<nat>)
      modifies this
      ensures k.None? ==> SlotNow() == FREE && outbox == old(outbox) + [Result(cid, id, "REJECTED")] && cancelled == old(cancelled)
      ensures k.Some? ==>
                && SlotNow() == old(SlotNow()).(goal := k) && outbox == old(outbox)
                && unchanged(`jobPhase, `jobProgress, `jobCaptured)
                && cancelled == old(cancelled) + (if old(cancelRequested) then [k.value] else [])
      ensures unchanged(`deadmanFired, `prevDriverAlive, `monitor, `submitted, `stops, `claims)
    {
      if k.None? {
        Post(Result(cid, id, "REJECTED"));
        ReleaseJob();
        return;
      }
      inspectGoal := k;
      var cancelNow := cancelRequested;
      if cancelNow { cancelled := cancelled + [k.value]; }
    }

    /** Feedback of some goal; nothing ties it to the job now in the slot. */
    method OnGoalFeedback(phase: string, progress: real, captured: int)
      modifies this`jobPhase, this`jobProgress, this`jobCaptured, this`outbox
      ensures jobPhase == phase && jobProgress == progress && jobCaptured == captured
      ensures outbox == old(outbox) + [StateUpdate]
    {
      jobPhase, jobProgress, jobCaptured := phase, progress, captured;
      Post(StateUpdate);
    }

    method OnTerminal(cid: ClientId, id: string, status: string)
      modifies this
      ensures SlotNow() == FREE && outbox == old(outbox) + [Result(cid, id, status), StateUpdate]
      ensures jobPhase == "" && jobProgress == 0.0 && jobCaptured == 0
      ensures unchanged(`deadmanFired, `prevDriverAlive, `monitor, `submitted, `cancelled, `stops, `claims)
    {
      Post(Result(cid, id, status));
      ReleaseJob();
      Post(StateUpdate);
    }

    // ---------- supervision ----------

    /** One feedback callback: state update, then the serialised edge detector if anything changed. */
    method OnFeedback(f: Feedback, eventReady: bool)
      modifies this`monitor, this`outbox, this`cancelRequested, this`stops, this`cancelled
      ensures monitor == Observe(old(monitor), f).0
      ensures Notices(outbox) == Notices(old(outbox)) + Observe(old(monitor), f).1
      ensures var was := old(monitor);
              var changed := !was.have || was.sct != f.sct || was.svr != f.svr || was.eStop != f.eStop
                             || was.robotError != f.robotError || was.guard != f.guard || was.projectRun != f.projectRun;
              var up := (if f.eStop && !was.prevEStop then 1 else 0) + (if f.guard && !was.prevGuard then 1 else 0);
              && (if changed then old(outbox) + [StateUpdate] <= outbox else outbox == old(outbox))
              && stops == old(stops) + (if changed && old(jobActive) && eventReady then up else 0)
              && cancelled == old(cancelled) + Cancels(if changed && old(jobActive) then up else 0, old(inspectGoal))
              && cancelRequested == (old(cancelRequested) || (changed && up > 0 && old(jobActive) && old(jobCmd) == "run_inspection"))
    {
      StoreKeepsEdges(monitor, f);
      hide Notices, Aborting, Emitted, Cancels, StopRequested, Store, Remember;
      var changed := Changed(monitor, f);
      monitor := Store(monitor, f);
      CancelsAppend(0, 0, inspectGoal, cancelled);
      if !changed { return; }
      Post(StateUpdate);
      NoticesSnoc(old(outbox), StateUpdate);
      EmitSafetyEvents(f, eventReady);
    }

    /** The edge detector: one event for each flag that has just come up. */
    method EmitSafetyEvents(f: Feedback, eventReady: bool)
      modifies this`monitor, this`outbox, this`cancelRequested, this`stops, this`cancelled
      ensures monitor == Remember(old(monitor), f)
      ensures Notices(outbox) == Notices(old(outbox)) + Emitted(old(monitor), f)
      ensures old(outbox) <= outbox
      ensures stops == old(stops) + if jobActive && eventReady then Aborting(Emitted(old(monitor), f)) else 0
      ensures cancelled == old(cancelled) + Cancels(if jobActive then Aborting(Emitted(old(monitor), f)) else 0, inspectGoal)
      ensures SlotNow() == if Aborting(Emitted(old(monitor), f)) > 0 then StopRequested(old(SlotNow())) else old(SlotNow())
      ensures var up := (if f.eStop && !old(monitor).prevEStop then 1 else 0) + (if f.guard && !old(monitor).prevGuard then 1 else 0);
              && Aborting(Emitted(old(monitor), f)) == up
              && cancelRequested == (old(cancelRequested) || (up > 0 && jobActive && jobCmd == "run_inspection"))
    {
      FlagRequested(SlotNow());
      hide Notices, Aborting, StopRequested, Cancels, Emitted;
      var a, b, c := f.eStop && !monitor.prevEStop, f.guard && !monitor.prevGuard, f.robotError && !monitor.prevError;
      EdgesOf(monitor, f, Notices(outbox));
      RaiseAborting(a, b, eventReady);
      CancelsAppend(0, 0, inspectGoal, cancelled);
      RaiseIf(c, RobotError(f.errorCode), false, eventReady);
      monitor := Remember(monitor, f);
    }

    /** The two edges that abort the active job. */
    method RaiseAborting(eStop: bool, guard: bool, eventReady: bool)
      modifies this`outbox, this`cancelRequested, this`stops, this`cancelled
      ensures Notices(outbox) == Notices(old(outbox)) + (if eStop then [SafetyEstop] else []) + (if guard then [SafetyGuard] else [])
      ensures old(outbox) <= outbox
      ensures var aborts := (if eStop then 1 else 0) + (if guard then 1 else 0);
              && stops == old(stops) + (if jobActive && eventReady then aborts else 0)
              && cancelled == old(cancelled) + Cancels(if jobActive then aborts else 0, inspectGoal)
              && SlotNow() == if aborts > 0 then StopRequested(old(SlotNow())) else old(SlotNow())
    {
      hide Notices, StopRequested, Cancels;
      CancelsAppend(if eStop && jobActive then 1 else 0, if guard && jobActive then 1 else 0, inspectGoal, cancelled);
      StopTwice(SlotNow());
      RaiseIf(eStop, SafetyEstop, true, eventReady);
      RaiseIf(guard, SafetyGuard, true, eventReady);
    }

    /** One edge of the detector: the event and its abort, when the flag has just come up. */
    method RaiseIf(edge: bool, e: Event, abort: bool, eventReady: bool)
      requires !e.StopNotDelivered?
      modifies this`outbox, this`cancelRequested, this`stops, this`cancelled
      ensures Notices(outbox) == Notices(old(outbox)) + if edge then [e] else []
      ensures old(outbox) <= outbox
      ensures stops == old(stops) + if edge && abort && jobActive && eventReady then 1 else 0
      ensures cancelled == old(cancelled) + Cancels(if edge && abort && jobActive then 1 else 0, inspectGoal)
      ensures SlotNow() == if edge && abort then StopRequested(old(SlotNow())) else old(SlotNow())
    {
      hide Notices, StopRequested, Cancels;
      CancelsAppend(0, 0, inspectGoal, cancelled);
      if edge { RaiseEvent(e, abort, eventReady); }
    }

    method RaiseEvent(e: Event, abort: bool, eventReady: bool)
      requires !e.StopNotDelivered?
      modifies this`outbox, this`cancelRequested, this`stops, this`cancelled
      ensures Notices(outbox) == Notices(old(outbox)) + [e]
      ensures old(outbox) <= outbox
      ensures stops == old(stops) + if abort && jobActive && eventReady then 1 else 0
      ensures cancelled == old(cancelled) + Cancels(if abort && jobActive then 1 else 0, inspectGoal)
      ensures SlotNow() == if abort then StopRequested(old(SlotNow())) else old(SlotNow())
    {
      hide Notices;
      Post(Notice(e));
      NoticesSnoc(old(outbox), Notice(e));
      if abort {
        ghost var posted := outbox;
        AbortActiveJob(eventReady);
        NoticesSnoc(posted, Notice(StopNotDelivered));
        assert posted + [] == posted;
      }
    }

    method OnClientDisconnect(id: ClientId, eventReady: bool)
      modifies this`deadmanFired, this`outbox, this`cancelRequested, this`stops, this`cancelled
      ensures old(jobActive) && old(jobClient) == id && !old(deadmanFired) ==>
                && deadmanFired && stops == old(stops) + (if eventReady then 1 else 0)
                && outbox == old(outbox) + [Notice(DeadmanStop)] + (if eventReady then [] else [Notice(StopNotDelivered)])
                && SlotNow() == StopRequested(old(SlotNow()))
                && cancelled == old(cancelled) + (if inspectGoal.Some? then [inspectGoal.value] else [])
      ensures !(old(jobActive) && old(jobClient) == id) || old(deadmanFired) ==>
                && deadmanFired == old(deadmanFired) && stops == old(stops) && outbox == old(outbox)
                && SlotNow() == old(SlotNow()) && cancelled == old(cancelled)
    {
      var ownsActiveJob := jobActive && jobClient == id;
      if ownsActiveJob {
        var fired := deadmanFired;
        deadmanFired := true;
        if !fired {
          Post(Notice(DeadmanStop));
          DoStop(eventReady);
        }
      }
    }

    /** One watchdog tick: driver link edge, then the deadman latch. `silence` is what
        last_rx_elapsed reports, None for an owner that is gone. */
    method OnWatchdog(alive: bool, silence: Option<int>, timeout: int, eventReady: bool)
      modifies this`deadmanFired, this`prevDriverAlive, this`outbox, this`cancelRequested, this`stops, this`cancelled
      ensures prevDriverAlive == alive
      ensures var stale := silence.None? || silence.value > timeout;
              var driverStop := if old(jobActive) && old(prevDriverAlive) && !alive && eventReady then 1 else 0;
              && deadmanFired == (old(jobActive) && stale)
              && stops == old(stops) + driverStop + (if old(jobActive) && stale && !old(deadmanFired) && eventReady then 1 else 0)
      ensures var lost := old(prevDriverAlive) && !alive;
              var stale := (silence.None? || silence.value > timeout) && !old(deadmanFired);
              cancelled == old(cancelled) +
                Cancels(if !jobActive then 0 else (if lost then 1 else 0) + (if stale then 1 else 0), inspectGoal)
      ensures Notices(outbox) == Notices(old(outbox))
              + DriverEvents(old(prevDriverAlive), [alive])
              + (if old(jobActive) && (silence.None? || silence.value > timeout) && !old(deadmanFired) then [DeadmanStop] else [])
      ensures var stale := silence.None? || silence.value > timeout;
              SlotNow() == (if (old(prevDriverAlive) && !alive) || (old(jobActive) && stale && !old(deadmanFired))
                            then StopRequested(old(SlotNow())) else old(SlotNow()))
    {
      StopTwice(SlotNow());
      hide Notices, DriverEvents, StopRequested, Cancels;
      CancelsAppend(0, 1, inspectGoal, cancelled);
      CancelsAppend(1, 0, inspectGoal, cancelled);
      CancelsAppend(1, 1, inspectGoal, cancelled);
      CancelsAppend(0, 0, inspectGoal, cancelled);
      WatchDriver(alive, eventReady);
      WatchDeadman(silence, timeout, eventReady);
    }

    /** The driver link: one event for each change, and a stop when it is lost. */
    method WatchDriver(alive: bool, eventReady: bool)
      modifies this`prevDriverAlive, this`outbox, this`cancelRequested, this`stops, this`cancelled
      ensures prevDriverAlive == alive
      ensures stops == old(stops) + if old(jobActive) && old(prevDriverAlive) && !alive && eventReady then 1 else 0
      ensures cancelled == old(cancelled) + Cancels(if jobActive && old(prevDriverAlive) && !alive then 1 else 0, inspectGoal)
      ensures Notices(outbox) == Notices(old(outbox)) + DriverEvents(old(prevDriverAlive), [alive])
      ensures SlotNow() == if old(prevDriverAlive) && !alive then StopRequested(old(SlotNow())) else old(SlotNow())
    {
      hide Notices, StopRequested;
      OneTick(prevDriverAlive, alive);
      if alive != prevDriverAlive {
        RaiseEvent(if alive then DriverOk else DriverLost, !alive, eventReady);
        prevDriverAlive := alive;
      }
    }

    /** The deadman latch: a silent or missing owner of the active job sets it, anything else
        clears it, and only setting it from clear stops. */
    method WatchDeadman(silence: Option<int>, timeout: int, eventReady: bool)
      modifies this`deadmanFired, this`outbox, this`cancelRequested, this`stops, this`cancelled
      ensures var stale := jobActive && (silence.None? || silence.value > timeout);
              && deadmanFired == stale
              && stops == old(stops) + (if stale && !old(deadmanFired) && eventReady then 1 else 0)
              && cancelled == old(cancelled) + Cancels(if stale && !old(deadmanFired) then 1 else 0, inspectGoal)
              && outbox == old(outbox) + (if !stale || old(deadmanFired) then []
                                          else [Notice(DeadmanStop)] + (if eventReady then [] else [Notice(StopNotDelivered)]))
              && Notices(outbox) == Notices(old(outbox)) + (if stale && !old(deadmanFired) then [DeadmanStop] else [])
              && SlotNow() == if stale && !old(deadmanFired) then StopRequested(old(SlotNow())) else old(SlotNow())
    {
      hide Notices;
      var active := jobActive;
      if !active {
        deadmanFired := false;
        return;
      }
      var heard := silence.Some? && silence.value <= timeout;
      if !heard {
        var fired := deadmanFired;
        deadmanFired := true;
        if !fired {
          ghost var before := outbox;
          Post(Notice(DeadmanStop));
          NoticesSnoc(before, Notice(DeadmanStop));
          DoStop(eventReady);
          NoticesSnoc(before + [Notice(DeadmanStop)], Notice(StopNotDelivered));
          assert before + [Notice(DeadmanStop)] + [] == before + [Notice(DeadmanStop)];
        }
      } else {
        deadmanFired := false;
      }
    }

    /** Dispatch of one line: every path but a non-command posts exactly one ack, carrying the
        line's id; only a motion command claims, only a stop or an applicable cancel touches the
        cancel flag, and nothing else has an effect. */
    method OnLine(cid: ClientId, line: Command, ready: bool, eventReady: bool)
      modifies this
      ensures AcksOf(outbox) == AcksOf(old(outbox)) + Owed(cid, line)
      ensures match line
        case NotCommand => outbox == old(outbox)
        case Malformed => outbox == old(outbox) + [Ack(cid, "", false, "BAD_JSON")]
        case WrongVersion(id) => outbox == old(outbox) + [Ack(cid, id, false, "SCHEMA_MISMATCH")]
        case Unknown(id) => outbox == old(outbox) + [Ack(cid, id, false, "UNKNOWN_CMD")]
        case Ping(id) => outbox == old(outbox) + [Ack(cid, id, true, "")]
        case Stop(id) => old(outbox) + [Ack(cid, id, true, "")] <= outbox
        case Cancel(id, target) =>
          var ok := old(jobActive) && (target == "" || target == old(jobId));
          old(outbox) + [Ack(cid, id, ok, if ok then "" else "NOT_RUNNING")] <= outbox
        case Motion(id, _, valid) =>
          outbox == old(outbox) + [
            if !ready then Ack(cid, id, false, "SERVICE_UNAVAILABLE")
            else if !valid then Ack(cid, id, false, "BAD_ARGS")
            else if old(jobActive) then Ack(cid, id, false, "BUSY") else Ack(cid, id, true, "")]
      ensures match line
        case Stop(_) =>
          && SlotNow() == StopRequested(old(SlotNow())) && stops == old(stops) + (if eventReady then 1 else 0)
          && cancelRequested == (old(cancelRequested) || (old(jobActive) && old(jobCmd) == "run_inspection"))
          && cancelled == old(cancelled) + Cancels(1, old(inspectGoal))
        case Cancel(_, target) =>
          var ok := old(jobActive) && (target == "" || target == old(jobId));
          && SlotNow() == (if ok then old(SlotNow()).(cancel := true) else old(SlotNow()))
          && cancelled == old(cancelled) + Cancels(if ok then 1 else 0, old(inspectGoal))
          && stops == old(stops) + (if ok && old(inspectGoal).None? && eventReady then 1 else 0)
        case Motion(id, cmd, valid) =>
          && stops == old(stops) && cancelled == old(cancelled)
          && SlotNow() == if ready && valid && !old(jobActive) then Claimed(old(SlotNow()), cid, id, cmd) else old(SlotNow())
        case _ => SlotNow() == old(SlotNow()) && stops == old(stops) && cancelled == old(cancelled)
      ensures submitted == if line.Motion? && ready && line.valid && !old(jobActive) then old(submitted) + [claims] else old(submitted)
      ensures claims == old(claims) + (if line.Motion? && ready && line.valid && !old(jobActive) then 1 else 0)
      ensures unchanged(`deadmanFired, `prevDriverAlive, `monitor)
    {
      hide AcksOf, Claimed, CancelApplies, StopRequested;
      ghost var before := outbox;
      match line
      case Malformed => Post(Ack(cid, "", false, "BAD_JSON")); AcksSnoc(before, outbox[|before|]);
      case WrongVersion(id) => Post(Ack(cid, id, false, "SCHEMA_MISMATCH")); AcksSnoc(before, outbox[|before|]);
      case NotCommand =>
      case Ping(id) => Post(Ack(cid, id, true, "")); AcksSnoc(before, outbox[|before|]);
      case Stop(id) => HandleStop(cid, id, eventReady);
      case Cancel(id, target) => HandleCancel(cid, id, target, eventReady);
      case Motion(id, cmd, valid) => HandleMotion(cid, id, cmd, valid, ready); AcksSnoc(before, outbox[|before|]);
      case Unknown(id) => Post(Ack(cid, id, false, "UNKNOWN_CMD")); AcksSnoc(before, outbox[|before|]);
    }

    /** A stop is acknowledged first and always carried out. */
    method HandleStop(cid: ClientId, id: string, eventReady: bool)
      modifies this`cancelRequested, this`stops, this`cancelled, this`outbox
      ensures SlotNow() == StopRequested(old(SlotNow())) && stops == old(stops) + (if eventReady then 1 else 0)
      ensures cancelRequested == (old(cancelRequested) || (jobActive && jobCmd == "run_inspection"))
      ensures outbox == old(outbox) + [Ack(cid, id, true, "")] + (if eventReady then [] else [Notice(StopNotDelivered)])
      ensures cancelled == old(cancelled) + (if inspectGoal.Some? then [inspectGoal.value] else [])
      ensures AcksOf(outbox) == AcksOf(old(outbox)) + [(cid, id)]
    {
      hide AcksOf;
      Post(Ack(cid, id, true, ""));
      AcksSnoc(old(outbox), Ack(cid, id, true, ""));
      ghost var acked := outbox;
      DoStop(eventReady);
      AcksSnoc(acked, Notice(StopNotDelivered));
      assert acked + [] == acked;
    }
  }

  /** n calls of async_cancel_goal on the stored goal, none when no goal is stored. */
  function Cancels(n: nat, goal: Option<nat>): seq<nat> {
    if goal.None? then [] else seq(n, _ => goal.value)
  }

  lemma CancelsAppend(a: nat, b: nat, goal: Option<nat>, before: seq<nat>)
    ensures before + Cancels(a, goal) + Cancels(b, goal) == before + Cancels(a + b, goal)
    ensures Cancels(0, goal) == [] && Cancels(1, goal) == if goal.Some? then [goal.value] else []
    ensures before + Cancels(0, goal) == before
  {}

  /** The acks a line is owed: one for every malformed, wrong-version or command line. */
  function Owed(cid: ClientId, line: Command): seq<(ClientId, string)> {
    match line
    case NotCommand => []
    case Malformed => [(cid, "")]
    case _ => [(cid, line.id)]
  }

  function AcksOf(outbox: seq<Message>): seq<(ClientId, string)> {
    if outbox == [] then []
    else
      var last := outbox[|outbox| - 1];
      AcksOf(outbox[..|outbox| - 1]) + if last.Ack? then [(last.to, last.id)] else []
  }

  lemma AcksSnoc(outbox: seq<Message>, m: Message)
    ensures AcksOf(outbox + [m]) == AcksOf(outbox) + if m.Ack? then [(m.to, m.id)] else []
  {
    assert (outbox + [m])[..|outbox|] == outbox;
  }

  /** Events broadcast, leaving out the report that STOP could not be delivered. */
  function Notices(outbox: seq<Message>): seq<Event> {
    if outbox == [] then []
    else
      var last := outbox[|outbox| - 1];
      Notices(outbox[..|outbox| - 1]) + if last.Notice? && !last.event.StopNotDelivered? then [last.event] else []
  }

  lemma NoticesSnoc(outbox: seq<Message>, m: Message)
    ensures Notices(outbox + [m]) == Notices(outbox) + if m.Notice? && !m.event.StopNotDelivered? then [m.event] else []
  {
    assert (outbox + [m])[..|outbox|] == outbox;
  }

  /** How many of one callback's events abort the active job. */
  function Aborting(events: seq<Event>): nat {
    if events == [] then 0
    else (if events[0].SafetyEstop? || events[0].SafetyGuard? then 1 else 0) + Aborting(events[1..])
  }

  lemma AbortsCounted(a: bool, b: bool, c: bool, code: int)
    ensures Aborting((if a then [SafetyEstop] else []) + (if b then [SafetyGuard] else []) + (if c then [RobotError(code)] else []))
            == (if a then 1 else 0) + (if b then 1 else 0)
  {
    var first := if a then [SafetyEstop] else [];
    var second := if b then [SafetyGuard] else [];
    var third := if c then [RobotError(code)] else [];
    AbortingAppend(first + second, third);
    AbortingAppend(first, second);
    AbortingOne(first); AbortingOne(second); AbortingOne(third);
  }

  lemma AbortingOne(events: seq<Event>)
    requires |events| <= 1
    ensures Aborting(events) == if events != [] && (events[0].SafetyEstop? || events[0].SafetyGuard?) then 1 else 0
  {}

  lemma {:induction false} AbortingAppend(a: seq<Event>, b: seq<Event>)
    ensures Aborting(a + b) == Aborting(a) + Aborting(b)
  {
    if a == [] {
      assert a + b == b;
    } else {
      assert (a + b)[1..] == a[1..] + b;
      AbortingAppend(a[1..], b);
    }
  }

  lemma FlagRequested(slot: Slot)
    ensures StopRequested(slot).cancel == (slot.cancel || (slot.active && slot.cmd == "run_inspection"))
  {}

  lemma StoreKeepsEdges(m: Monitor, f: Feedback)
    ensures Emitted(Store(m, f), f) == Emitted(m, f)
    ensures Store(m, f).prevEStop == m.prevEStop && Store(m, f).prevGuard == m.prevGuard
  {}

  lemma EdgesOf(m: Monitor, f: Feedback, before: seq<Event>)
    ensures var a, b, c := f.eStop && !m.prevEStop, f.guard && !m.prevGuard, f.robotError && !m.prevError;
            && before + (if a then [SafetyEstop] else []) + (if b then [SafetyGuard] else [])
               + (if c then [RobotError(f.errorCode)] else []) == before + Emitted(m, f)
            && Aborting(Emitted(m, f)) == (if a then 1 else 0) + (if b then 1 else 0)
  {
    AbortsCounted(f.eStop && !m.prevEStop, f.guard && !m.prevGuard, f.robotError && !m.prevError, f.errorCode);
    hide Aborting;
  }

  lemma StopTwice(slot: Slot)
    ensures StopRequested(StopRequested(slot)) == StopRequested(slot) && StopRequested(slot).active == slot.active
  {}

  lemma OneTick(prev: bool, alive: bool)
    ensures DriverEvents(prev, [alive]) == if alive == prev then [] else [if alive then DriverOk else DriverLost]
  {
    assert DriverEvents(alive, [alive][1..]) == [];
  }
}
