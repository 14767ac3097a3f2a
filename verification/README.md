# Verified model of the robot-tending control stack

A Dafny 4.11 model of three parts of the repository, with proofs of what they keep under every
input, run and interleaving:

1. **The TCP bridge** (`tending_bridge`): line framing and send queues, the IO thread against the
   threads that enqueue and stop, lock order, the job slot, cancel and stop, the deadman latch,
   acknowledgements, safety events.
2. **The motion owner** (`tending_control`): joint and tool moves with their safety gate and polling
   loop, named moves, jogs, inspection runs, and the motion slot they compete for.
3. **Orbit geometry**: view poses, equal-angle sweeps, and the scenario-1 run inside its safe region.

Objects whose methods update fields are classes proved against functions of their old state. What
several threads do to the same state is a step system with one action per critical section, atomic
operation or outgoing call, any number of threads, and invariants over all interleavings. The
classes describe each handler run without interference; the step systems add the interference.

| file | subject |
|---|---|
| `Wire.dfy` | what a byte stream means as lines, and the receive rule with its length limit |
| `JsonLineServer.dfy`, `PeerClient.dfy` | the server's buffers and handlers; the client's decoder |
| `ServerSystem.dfy` | IO thread, appenders and stopper interleaved |
| `LockOrder.dfy` | every lock path of bridge and server, and deadlock freedom |
| `SafetyEvents.dfy`, `BridgeNode.dfy` | edge detection; the bridge's handlers |
| `BridgeSystem.dfy` | the bridge's step system, with invariants in `BridgeSlot`, `BridgeCancel`, `BridgeDeadman`, `BridgeOrphan`, `BridgeAcks`, `BridgeDriver` |
| `BridgeAgreement.dfy` | an uninterrupted invocation of the step system does what the handler's method does |
| `RobotIo.dfy`, `InspectionManager.dfy` | moves and their record; named moves, jogs, inspection runs |
| `MotionSystem.dfy` | the motion slot under concurrent requests |
| `Reals.dfy`, `Geometry.dfy`, `Orbit.dfy`, `Scenario1.dfy` | exact-real geometry and the orbit run |

`dafny verify dfyconfig.toml` checks everything.

## Findings

- **Deadman latch.** Only watchdog ticks clear `deadman_fired_`, so it can still be set by the
  previous command. `BridgeOrphan.StaleLatchMissesOrphan` is a complete run in which a command's
  client disappears and neither the disconnect handler nor a later tick begins a stop, which
  section 5.3 of `tending_bridge/doc/PROTOCOL.md` promises. `BridgeOrphan.DisconnectStops` says when
  the promise is kept: once the disconnect handler is over with the command still active, a stop has
  been or will be begun after the disconnect if and only if the latch was clear when the client left.
  The one way round this is a tick that was at that moment already past its reading of the slot. For
  any earlier moment and any exchange of the latch, `BridgeDeadman.StaleTickStops` gives the same
  equivalence with such clearing steps included.
- **Failed moves.** A goto or jog that fails leaves the arm halted if and only if a safety check
  failed while it waited (`RobotIo.HaltedOnlyByFault`); one that is refused, unanswered or out of time
  is not halted, and `RobotIo.TimedOutUnhalted` gives a record of one.
- **Repeated views.** The full-circle test accepts ranges within 0.001 of a turn. Sweeps never repeat
  a view, for every accepted range, if and only if they have at most 6284 views
  (`Orbit.NoDuplicatesExactly`).
- **Code against documentation.** A line of the wrong schema version is acknowledged with
  `SCHEMA_MISMATCH`, where section 2 of the protocol text says it is ignored. The deadman stops any
  active motion command, where the comment in the watchdog speaks of inspections only, and its event
  is broadcast before the stop, not after. The feedback phase `DONE` is missing from the list in
  `RunInspection.action`. The model follows the code.
- A cancel is honoured by a run only between views (line 282 of `inspection_manager.cpp`), as the
  contract of `Execute` states.

## Assumptions about the environment

- The action client calls the goal-response callback once. A null handle is followed by no result
  callback; a non-null one by at most one, after the response callback stored the goal. A service
  answers at most once.
- `claim_job`, `handle_cancel`, `drop_client` and `on_client_disconnect` run on the IO thread only
  (`tending_bridge/src/tending_bridge_node.cpp:112-114`). One thread stops the server.
- Watchdog ticks do not overlap (their callback group is mutually exclusive, lines 80-82 and 121-122
  of `tending_bridge_node.cpp`); only the driver events rest on this.
- Every line that parses is a JSON object with well-typed fields. The field accesses from line 336 of
  `tending_bridge_node.cpp` on are outside the try block, so any other line that parses would throw
  there instead of being acknowledged.
- Serialised JSON holds no raw line feed (section 7 of RFC 8259). `recv` returns at most the 4096
  bytes it was given. A file descriptor returned by `accept` is not open already.
- After an accepted goal the action server calls `handle_accepted` once.
- Feedback contents and times, replies, capture results, cancel checks, readiness and the shutdown of
  the process are arbitrary. Real numbers are exact: cosine and sine of an angle are a point of the
  unit circle, the square root is known by its square, and 6.283 < 2 pi < 6.284.

## Model

| member | source | states |
|---|---|---|
| Wire.SplitRebuilds | tending_bridge/src/json_line_server.cpp:349-361 | segments and residual put together again are the stream; none holds a line feed |
| Wire.SplitIsUnique | tending_bridge/src/json_line_server.cpp:349-361 | there is no other way to cut a stream at its line feeds |
| Wire.DeliveredLine | tending_bridge/src/json_line_server.cpp:351-361 | a line is delivered iff it is a segment less one trailing CR, and not empty |
| Wire.DeliverSpelled | tending_bridge/src/json_line_server.cpp:351-361 | one more segment adds one line, without its trailing CR (13), or none when that leaves it empty |
| Wire.CutDiscardsNoLine | tending_bridge/src/json_line_server.cpp:362-366 | a chunk that trips the length limit completed no line, so disconnecting loses none |
| Wire.FramingRefinesStream | tending_bridge/src/json_line_server.cpp:333-387 | for every chunking, what is delivered is the line function of the bytes read: a prefix of the stream's lines, all of them while the connection stays open; the residual holds no line feed |
| Wire.ShortSegmentsStayOpen | tending_bridge/src/json_line_server.cpp:20-22 | a stream whose segments all fit the limit is never cut off, however chunked |
| Wire.LineLengthBound | tending_bridge/src/json_line_server.cpp:20-22 | no delivered line exceeds the limit plus one chunk less a byte |
| Wire.ServerDecodesCommands | tending_bridge/scripts/mock_ui_client.py:62-78 | commands sent line by line decode to themselves at the server: a prefix at any moment, all once every byte arrived |
| JsonLineServer.Server.Broadcast | tending_bridge/src/json_line_server.cpp:138-151 | every connected client's queue gains the line and its LF, and nothing else of any client changes; one wake unless there is no client; bytes sent plus queue stay the enqueued lines |
| JsonLineServer.Server.SendTo | tending_bridge/src/json_line_server.cpp:153-165 | only the addressee's queue changes, and only if connected |
| JsonLineServer.Server.FlushTx | tending_bridge/src/json_line_server.cpp:389-406 | the bytes moved from queue to wire are the smaller of the queue and what was taken before the first outcome that is neither EINTR nor a send that took something; the client is lost iff that outcome is an error or a send of nothing and leaves part of the queue, so never for a full socket buffer |
| JsonLineServer.FlushLaw | tending_bridge/src/json_line_server.cpp:389-406 | the same law of the functions the step system flushes by, for every queue and script |
| JsonLineServer.FlushOutcomes | tending_bridge/src/json_line_server.cpp:397-403 | a client is lost to a flush iff some outcome is an error or a send of nothing, only EINTR and sends that took something come before it, and these leave part of the queue |
| JsonLineServer.Server.ExtractLines | tending_bridge/src/json_line_server.cpp:349-361 | the cutting loop returns the lines of the buffer and leaves its residual |
| JsonLineServer.Server.ReadChunk | tending_bridge/src/json_line_server.cpp:338-375 | one chunk acts on one client as the functional receive rule and on no other |
| JsonLineServer.Server.HandleReadable | tending_bridge/src/json_line_server.cpp:333-387 | a read loop over any script of recv results is the receive rule over its chunks; alive iff the line limit was kept and the first outcome other than data and EINTR, if any, is EAGAIN |
| JsonLineServer.ChunksAreChunked | tending_bridge/src/json_line_server.cpp:333-338 | what a read loop sees meets the chunk bound of the framing results |
| JsonLineServer.ChunksLaws | tending_bridge/src/json_line_server.cpp:333-387 | the chunks of a read loop are all its data in order; an interrupted call adds nothing, and nothing after the first other outcome counts |
| JsonLineServer.EndingMeans | tending_bridge/src/json_line_server.cpp:376-387 | the loop ends well iff the first outcome other than data and EINTR is EAGAIN, or there is none |
| JsonLineServer.Server.AcceptNew | tending_bridge/src/json_line_server.cpp:275-331 | fresh consecutive ids, one connect callback each, existing clients untouched; the new clients hold, in order, the descriptors of arrivals that passed both filters; the count is the smaller of the limit and the old count plus the number of those |
| JsonLineServer.Server.DropClient | tending_bridge/src/json_line_server.cpp:408-426 | a client is removed once, with one disconnect callback |
| JsonLineServer.Server.Stop | tending_bridge/src/json_line_server.cpp:97-127 | stopping twice wakes once and leaves no client |
| PeerClient.Client.SendCmd | tending_bridge/scripts/mock_ui_client.py:62-78 | the command becomes pending and exactly its line is sent |
| PeerClient.Client.Transmit | tending_bridge/scripts/mock_ui_client.py:73-75 | a line is sent only once its command is pending: the precondition of sending |
| PeerClient.Client.OnChunk | tending_bridge/scripts/mock_ui_client.py:100-110 | the decoder's state stays the decoding of all bytes received |
| PeerClient.KeptExactly | tending_bridge/scripts/mock_ui_client.py:100-105 | a raw line is kept iff it holds a byte other than the six ASCII whitespace bytes |
| PeerClient.Client.RxLoop | tending_bridge/scripts/mock_ui_client.py:89-110 | the loop consumes exactly the received chunks and stops running only at end of stream |
| PeerClient.PeerDecodesQueue | tending_bridge/src/json_line_server.cpp:138-165 | whatever part of the wire arrived decodes to a prefix of the enqueued messages, all of them once the queue is drained and read |
| ServerSystem.Invariants | tending_bridge/src/json_line_server.cpp:192-273 | the invariants of wakeup, callbacks and descriptors hold in every reachable state |
| ServerSystem.NoLostWakeup | tending_bridge/src/json_line_server.cpp:129-165 | with the IO thread in poll and a client with unsent bytes: its POLLOUT is armed, or the pipe holds a byte, or an appender has yet to wake; likewise for stop |
| ServerSystem.ClientLifecycle | tending_bridge/src/json_line_server.cpp:275-331 | callbacks per id read connect, line*, at most one disconnect; ids are not reused; the client limit holds although check and insert are separate sections |
| ServerSystem.CallbacksInOrder | tending_bridge/src/json_line_server.cpp:275-331 | in every run: of the callbacks for one client the first, and only the first, is on_connect, and none follows on_disconnect |
| ServerSystem.FlushHangsUp | tending_bridge/src/json_line_server.cpp:389-406 | a flush step hangs up on a client iff a send fails or takes nothing while part of the queue is left |
| ServerSystem.DescriptorConservation | tending_bridge/src/json_line_server.cpp:408-426 | every accepted descriptor is open and held once, or was closed once; none is open after stop |
| LockOrder.EntriesOrdered | tending_bridge/src/tending_bridge_node.cpp:172-194 | every entry path locks in the order event, state, server and calls handlers with nothing held |
| LockOrder.RunInv | tending_bridge/src/tending_bridge_node.cpp:370-386 | in every reachable state each mutex has one owner, whose stack releases it |
| LockOrder.DeadlockFree | tending_bridge/src/tending_bridge_node.cpp:550-619 | no reachable state with unfinished threads is stuck on locks |
| LockOrder.NoRelock | tending_bridge/src/json_line_server.cpp:252-264 | no thread locks a mutex it owns, and a thread about to call a handler owns none |
| SafetyEvents.FilteredEqualsPlain | tending_bridge/src/tending_bridge_node.cpp:143-194 | running the detector only on changed messages gives the events of plain edge detection |
| SafetyEvents.OneEventPerEdge | tending_bridge/src/tending_bridge_node.cpp:172-194 | exactly one event per rising edge of e_stop, guard and robot_error |
| SafetyEvents.OneMoreMessage | tending_bridge/src/tending_bridge_node.cpp:172-194 | after any history one more message adds exactly an event for each of e_stop, guard and robot_error that it has and its predecessor had not, in this order |
| SafetyEvents.DriverEventsAlternate | tending_bridge/src/tending_bridge_node.cpp:623-641 | of any sequence of verdicts: events alternate, starting with DRIVER_OK |
| BridgeDriver.DriverEventsBroadcast | tending_bridge/src/tending_bridge_node.cpp:623-641 | in every interleaving the driver events broadcast are those of the watchdog's verdicts, and so alternate, starting with DRIVER_OK |
| BridgeNode.TendingBridge.ClaimJob | tending_bridge/src/tending_bridge_node.cpp:370-386 | claims iff free, storing the id, command and client with the cancel flag down; a refusal acks BUSY and changes nothing else |
| BridgeNode.TendingBridge.ReleaseJob | tending_bridge/src/tending_bridge_node.cpp:388-400 | the whole slot is free again |
| BridgeNode.TendingBridge.DoStop | tending_bridge/src/tending_bridge_node.cpp:580-607 | one STOP or one report that it could not be sent; a running inspection is flagged; a stored goal is cancelled |
| BridgeNode.TendingBridge.HandleCancel | tending_bridge/src/tending_bridge_node.cpp:550-571 | acked ok, with the flag set and the stored goal cancelled or a stop begun, iff a job is active and the target is empty or that job's id; otherwise NOT_RUNNING and nothing changes |
| BridgeNode.TendingBridge.HandleStop | tending_bridge/src/tending_bridge_node.cpp:573-577 | acknowledged first, always carried out |
| BridgeNode.TendingBridge.HandleMotion | tending_bridge/src/tending_bridge_node.cpp:402-425 | readiness, then arguments, then slot decide the one ack; a claim is submitted once |
| BridgeNode.TendingBridge.OnGoalResponse | tending_bridge/src/tending_bridge_node.cpp:428-445 | rejection reports and frees; acceptance stores the goal and cancels it iff a cancel was requested |
| BridgeNode.TendingBridge.OnTerminal | tending_bridge/src/tending_bridge_node.cpp:458-475 | one result, and the slot is free |
| BridgeNode.TendingBridge.OnFeedback | tending_bridge/src/tending_bridge_node.cpp:143-170 | the monitor and the events are one step of the edge detector; a state update iff any flag differs from the last message; with a job active, a stop and a call on its stored goal for each of e_stop and guard that has come up |
| BridgeNode.TendingBridge.OnClientDisconnect | tending_bridge/src/tending_bridge_node.cpp:312-323 | stops iff a job is active, its client is the one that left, and the latch was clear |
| BridgeNode.TendingBridge.OnWatchdog | tending_bridge/src/tending_bridge_node.cpp:623-669 | the latch becomes exactly the staleness of the active job's owner; a stop, and a call on the stored goal, exactly when it rises and when the driver link is lost |
| BridgeNode.TendingBridge.OnLine | tending_bridge/src/tending_bridge_node.cpp:325-365 | each line has exactly its ack, with its id and text, and only the effect of its command: on the slot, the stops, the goals cancelled and the submissions; a cancel takes effect iff it names the active job or no job |
| BridgeSystem.ThreadsKept | tending_bridge/src/tending_bridge_node.cpp:112-114 | the IO thread is in at most one handler and invocations are never confused, in every step |
| BridgeSlot.SlotInvariants | tending_bridge/src/tending_bridge_node.cpp:370-400 | slot, duty to answer and conversation agree in every reachable state |
| BridgeSlot.LinearObligation | tending_bridge/src/tending_bridge_node.cpp:413-416 | the slot is taken iff exactly one claimed command awaits its terminal callback; only that command's callback can free it; a stored goal belongs to the active inspection |
| BridgeSlot.AcksAndResultsAlternate | tending_bridge/src/tending_bridge_node.cpp:429-475 | accepting acks and results alternate as ack(x), result(x), ack(y), ... with matching client and id |
| BridgeSlot.AckThenResult | tending_bridge/src/tending_bridge_node.cpp:429-475 | of any two neighbouring messages about motion commands in a run: after an accepting ack comes the result of the same command, after a result the accepting ack of a newer one, each to its client with its id |
| BridgeCancel.SectionsRecordWishes | tending_bridge/src/tending_bridge_node.cpp:595-602 | every cancel or stop section run during an inspection, and nothing else, counts as a wish to cancel it |
| BridgeCancel.NoLostCancel | tending_bridge/src/tending_bridge_node.cpp:428-445 | such a wish has led to async_cancel_goal on that job's goal once its handler and the goal-response callback are over, whether the goal was accepted before or after |
| BridgeCancel.CancelByTarget | tending_bridge/src/tending_bridge_node.cpp:550-571 | a dispatched cancel naming the active command's id, or none, sets the flag and on an inspection is recorded as a wish; any other leaves slot, wishes, goals and stops as they were |
| BridgeCancel.CancelReachesGoal | tending_bridge/src/tending_bridge_node.cpp:428-571 | from line to call, in every run: a dispatched cancel naming the running inspection, or none, has led to async_cancel_goal on its goal once the goal is accepted and the handler and the goal-response callback are over |
| BridgeDeadman.LatchLedger | tending_bridge/src/tending_bridge_node.cpp:643-669 | firings minus clears is the latch in every interleaving; every firing has begun its stop when its invocation is over |
| BridgeDeadman.StepMoves | tending_bridge/src/tending_bridge_node.cpp:652-668 | of all steps only an exchange fires, and only on a clear latch; only a tick's clearing step lowers it |
| BridgeDeadman.StaleTickStops | tending_bridge/src/tending_bridge_node.cpp:656-669 | at an exchange, seen from any earlier moment: some invocation has fired since and begins its stop after that moment, iff the latch was clear then or a clearing step ran in between |
| BridgeDeadman.FreshTickArms | tending_bridge/src/tending_bridge_node.cpp:656-669 | after a tick that cleared the latch, a stale exchange always leaves a stop that was not begun before that tick; it may be another invocation's, and begin later |
| BridgeOrphan.DisconnectStops | tending_bridge/src/tending_bridge_node.cpp:312-323 | an active command whose client leaves is stopped after the disconnect iff the latch was clear at the disconnect, unless a tick past its reading of the slot was in flight |
| BridgeOrphan.StaleLatchMissesOrphan | tending_bridge/src/tending_bridge_node.cpp:312-323 | a run in which an orphaned command is not stopped because the latch was left set |
| BridgeOrphan.LeadsIsRun | tending_bridge/src/tending_bridge_node.cpp:643-669 | what that counterexample reaches is the end of a run of the system |
| BridgeAgreement.AgreeOnStopLine | tending_bridge/src/tending_bridge_node.cpp:573-607 | a stop line dispatched without interruption changes slot, latch, goals and messages in the step system as the method does |
| BridgeAgreement.AgreeOnCancelLine | tending_bridge/src/tending_bridge_node.cpp:550-571 | the same for a cancel line |
| BridgeAgreement.AgreeOnMotionLine | tending_bridge/src/tending_bridge_node.cpp:402-425 | the same for a motion command, from its line to its submission |
| BridgeAgreement.AgreeOnPlainLine | tending_bridge/src/tending_bridge_node.cpp:325-365 | the same for every line that claims, stops and cancels nothing |
| BridgeAgreement.AgreeOnAcceptance | tending_bridge/src/tending_bridge_node.cpp:436-445 | the same for an accepted goal |
| BridgeAgreement.AgreeOnRejection | tending_bridge/src/tending_bridge_node.cpp:429-434 | the same for a rejected goal |
| BridgeAgreement.AgreeOnTerminal | tending_bridge/src/tending_bridge_node.cpp:458-475 | the same for a final answer |
| BridgeAgreement.AgreeOnDisconnect | tending_bridge/src/tending_bridge_node.cpp:312-323 | the same for a disconnect |
| BridgeAgreement.AgreeOnDeadmanTick | tending_bridge/src/tending_bridge_node.cpp:643-669 | the same for the deadman half of a tick |
| BridgeAcks.AckPerLine | tending_bridge/src/tending_bridge_node.cpp:325-365 | per client, acks queued are a prefix of those its lines are owed, in order, and exactly those between two reads, in every interleaving |
| BridgeAcks.ParsedEach | tending_bridge/src/tending_bridge_node.cpp:276-286 | parsing is line by line, in order |
| BridgeAcks.EndToEnd | tending_bridge/src/tending_bridge_node.cpp:276-286 | from bytes to acks, of every run: the acks queued for a client are those owed to the parsed lines of the bytes received from it, over any chunking and interleaving: a prefix always, all of them between two reads |
| RobotIo.RobotIoBridge.OnFeedback | tending_control/src/robot_io_bridge.cpp:50-65 | the state is the last message received |
| RobotIo.RobotIoBridge.SafetyOk | tending_control/src/robot_io_bridge.cpp:102-113 | passes iff some feedback was heard and either the flags are to be ignored or the last one has e_stop, guard and robot_error down and both links up; names the first objection |
| RobotIo.RobotIoBridge.CommandsGated | tending_control/src/robot_io_bridge.cpp:102-178 | in every run in order that the record holds, each command follows, with no other in between, a check made on a feedback then received with e_stop, guard and robot_error down and both links up, unless the flags are ignored |
| RobotIo.RobotIoBridge.WaitForServices | tending_control/src/robot_io_bridge.cpp:73-88 | pauses at least 100 ms between looks and starts no pause after the deadline; giving up there means the timeout has passed |
| RobotIo.RobotIoBridge.MaxError | tending_control/src/robot_io_bridge.cpp:166-170 | the result is the largest absolute joint error; it is within a tolerance iff every joint is |
| RobotIo.RobotIoBridge.Pass | tending_control/src/robot_io_bridge.cpp:157-178 | one pass of the wait: a halt iff the safety check failed, success iff the target is seen reached, otherwise go on |
| RobotIo.RobotIoBridge.Wait | tending_control/src/robot_io_bridge.cpp:155-181 | the polling loop gives up only for a fault, the end of the process or its deadline, halting iff it was a fault, after at most timeout / 50 ms + 2 checks |
| RobotIo.RobotIoBridge.Move | tending_control/src/robot_io_bridge.cpp:133-181 | one command; success iff reply, safety check and arrival are on record; a halt on record iff a failed safety check is |
| RobotIo.HaltedOnlyByFault | tending_control/src/robot_io_bridge.cpp:145-180 | a move that gave up ends halted iff a safety check failed; refused, unanswered, timed-out and interrupted moves hold no halt |
| RobotIo.TimedOutUnhalted | tending_control/src/robot_io_bridge.cpp:174-177 | for every joint target and every position away from it, a record of a move that timed out and was not halted |
| RobotIo.InOrder | tending_control/src/robot_io_bridge.cpp:157-173 | in a record that keeps the pace no command follows a halt, the first follows a passed safety check, each later one its predecessor's arrival with safety checked just before |
| InspectionManager.InspectionManager.constructor | tending_control/src/inspection_manager.cpp:54-63 | exactly the named poses with a value are kept |
| InspectionManager.InspectionManager.HandleGoto | tending_control/src/inspection_manager.cpp:104-135 | each refusal for its own reason and without a command; otherwise one move to the named pose, on failure halted iff a safety check failed; the slot is given back on every path |
| InspectionManager.InspectionManager.HandleJog | tending_control/src/inspection_manager.cpp:139-185 | as above; the target is the position just read with one joint changed by delta |
| InspectionManager.InspectionManager.HandleGoal | tending_control/src/inspection_manager.cpp:188-205 | accepted iff it has views, the reference pose exists and the slot was free; the slot is then taken |
| InspectionManager.InspectionManager.MakeWaypoints | tending_control/src/inspection_manager.cpp:319-345 | every waypoint has as many joints as the reference pose; the sweep joint, or the last when its index is out of range, is turned by the angle less the start angle, no other moves; the first is the reference pose; the angles are i equal steps, n to a full circle and n - 1 otherwise |
| InspectionManager.InspectionManager.ViewTurnsSweepJoint | tending_control/src/inspection_manager.cpp:332-341 | the same of the views by which plans and samples are stated |
| InspectionManager.InspectionManager.PlanInOrder | tending_control/src/inspection_manager.cpp:269-307 | a run visits init and approach when set, the reference pose, the views in order, then retreat and home when set, all at the configured velocity and acceleration time |
| InspectionManager.InspectionManager.ShootView | tending_control/src/inspection_manager.cpp:281-301 | one view extends every part of the run's account by one, or ends the run |
| InspectionManager.InspectionManager.Execute | tending_control/src/inspection_manager.cpp:237-315 | exactly one terminal call; the run ends in one of three ways with record, feedback, samples, captures, cancel checks and image count agreeing; it aborts only for a cause; the slot and the inspecting flag are cleared on every path |
| InspectionManager.InspectionManager.TerminalMeans | tending_control/src/inspection_manager.cpp:249-315 | images equal samples; canceled iff a cancel check was answered yes; succeeded iff never halted, and then every view was captured |
| InspectionManager.InspectionManager.RunKeepsPace | tending_control/src/inspection_manager.cpp:264-313 | commands are a prefix of the plan, all of it on success, each only after safety and the previous arrival were confirmed; every other run ends in a halt |
| InspectionManager.InspectionManager.SamplesTakenAtTheirViews | tending_control/src/inspection_manager.cpp:290-297 | sample k is numbered k, carries view k's angle, and was captured after every joint was read within tolerance of view k and before any other command; the image count is the number of samples |
| InspectionManager.InspectionManager.FeedbackIncreases | tending_control/src/inspection_manager.cpp:225-235 | in every run progress strictly increases within [0, 1] and the captured count with it, up to the image count |
| InspectionManager.InspectionManager.FeedbackSpelled | tending_control/src/inspection_manager.cpp:225-312 | the phase, fraction and count of every feedback message of a run: 0, 0.1, 0.2 + 0.7 k / n for view k, 0.92, 0.98, 1 |
| InspectionManager.ProgressIncreases | tending_control/src/inspection_manager.cpp:299-312 | the same for the full sequence INIT, APPROACH, INSPECT^n, RETREAT, HOME, DONE |
| InspectionManager.InspectionManager.SweepNeverRepeats | tending_control/src/inspection_manager.cpp:327-341 | a full-circle sweep of at most 6284 views never repeats an orientation and moves no other joint |
| MotionSystem.MotionExclusion | tending_control/src/inspection_manager.cpp:114-124 | under any interleaving: busy iff there is an owner, the owner is unique, at most one thread is inside a move, inspecting implies busy, every claim is released exactly once |
| MotionSystem.EachClaimReleasedOnce | tending_control/src/inspection_manager.cpp:188-217 | a history without misuse claims and releases 0, 1, 2, ... in order |
| MotionSystem.MarksInOrder | tending_control/src/inspection_manager.cpp:104-135 | such a history, mark by mark: claim 0 first, a claim followed by its own move or release, a move by its own end, the release of k by claim k + 1 |
| Geometry.SeedIsFar | tending_control/src/pose_utils.cpp:18-21 | the squared norm normalised to form the reference direction exceeds 0.19 |
| Geometry.ViewPoseLooksAtTool | tending_control/src/pose_utils.cpp:13-44 | for every non-zero axis direction the columns are orthonormal with determinant 1, position plus distance times z is the axis point, the offset is perpendicular to the axis, and the orthogonalisation changed nothing |
| Geometry.ViewSpelled | tending_control/src/pose_utils.cpp:13-44 | the pose over the orthonormal triple a, u, a x u: position the axis point plus distance times cos u + sin a x u, z its opposite, y the axis or its opposite, x = y x z; u is the perpendicular part of z, or of x when the axis is within 0.9 of z |
| Geometry.CircleDistance | tending_control/src/pose_utils.cpp:24-26 | two points of such a circle are 2 d^2 (1 - cos cos - sin sin) apart, squared |
| Geometry.CameraFrame | tending_control/src/pose_utils.cpp:28-38 | an orthogonal unit pair completes to a proper rotation |
| Geometry.ViewWithinDistance | tending_control/src/pose_utils.cpp:16-26 | no coordinate of a view is further from the axis point than the distance, zero axis direction included |
| Orbit.OrbitAngles | tending_control/src/pose_utils.cpp:46-60 | one angle per view, none for a non-positive count; the first is the start; n steps make up a range within 0.001 of a turn, n - 1 any other |
| Orbit.NoDuplicateView | tending_control/src/pose_utils.cpp:50-58 | full-circle sweeps of at most 6284 views have pairwise distinct angles modulo a turn |
| Orbit.NoDuplicatesExactly | tending_control/src/pose_utils.cpp:50-58 | that bound is exact |
| Orbit.GapsEven | tending_control/src/pose_utils.cpp:50-58 | neighbours are range / n apart, and the wrap within 0.001 of it |
| Orbit.EndpointsExact | tending_control/src/pose_utils.cpp:52-58 | off the full circle the first and last angles are the requested ones |
| Scenario1.ScenarioOrbit | tending_control/src/pose_utils.cpp:62-71 | one pose per angle of the sweep; about an axis with a direction pose i stands at its angle on one circle spanned by u and a x u, a the axis unit, and is a proper rotation that looks at the axis point from the distance |
| Scenario1.ViewsApart | tending_control/src/pose_utils.cpp:24-26 | the squared distance of two views of one orbit is 2 d^2 (1 - cos cos - sin sin) of their angles |
| Scenario1.AxisMovesRigidly | tending_control/src/scenario1_inspect.cpp:145-164 | the CNC-frame transform keeps the direction's length, distances, and angles with the direction |
| Scenario1.AxisInFrame | tending_control/src/scenario1_inspect.cpp:145-164 | outside hybrid mode the axis is the one given; in it, the given coordinates are those of the resolved point and direction along the frame |
| Scenario1.MarginCoversViews | tending_control/src/scenario1_inspect.cpp:166-171 | a box around the axis point with the distance as margin contains every view |
| Scenario1.Scenario1Inspect.Run | tending_control/src/scenario1_inspect.cpp:65-142 | the outcome and the record agree: nothing in a dry run; a halt of its own exactly when a view leaves the region in hybrid mode |
| Scenario1.Scenario1Inspect.CommandsStayInside | tending_control/src/scenario1_inspect.cpp:112-140 | commanded views are a consecutive prefix of the orbit, each with its configured velocity and acceleration time; in hybrid mode no coordinate is outside the region; each was commanded after the previous was reached |
| Scenario1.Scenario1Inspect.OutcomeMeans | tending_control/src/scenario1_inspect.cpp:110-137 | how many views each outcome commanded; a run stopped for the region met a view with a coordinate outside it, was halted there, and gave that view no command |
| Scenario1.Scenario1Inspect.ViewAtSpelled | tending_control/src/pose_utils.cpp:46-71 | view i of the run stands at i steps of its configured range on the circle about its axis |
| Scenario1.Scenario1Inspect.ToolAxisSpelled | tending_control/src/scenario1_inspect.cpp:145-164 | the axis of the run is the configured one, in the CNC frame in hybrid mode |
| Scenario1.Scenario1Inspect.MarginNeverRejects | tending_control/src/scenario1_inspect.cpp:116-123 | with that margin around the transformed axis point no run is stopped for leaving the region, for any range, count and orientation |

## Left out

- RobotIo.RobotIoBridge.ToolNear: whether a tool move has arrived is an arbitrary answer, because the Cartesian test (`wait_until_pose`, `toTmCartesian`, `fromTmCartesian`) rests on Eigen and tf2 quaternion code that is not part of this model; its polling loop is modelled.
- BridgeNode.TendingBridge.OnGoalFeedback: says what is written and no more; the source checks no job there, so late feedback can overwrite the phase of the next job.
- BridgeAcks.EndToEnd: the parser is an arbitrary function from lines to commands; JSON parsing and serialisation are not modelled.
- BridgeAgreement.AgreeOnDeadmanTick: covers the deadman half of a tick; the driver half posts the same events, but its abort is an invocation of its own in the step system.
- InspectionManager.InspectionManager.Execute: the STOP sent by the action server's cancel callback (lines 207-212 of `inspection_manager.cpp`) comes from another thread and is not in the run's own record.
- JsonLineServer.Server.Stop: joining the IO thread and closing descriptors are in module ServerSystem.
- Interference inside the sequential class methods: covered by the step systems, for the state those describe.
- Sockets, `poll` readiness, `fcntl`, ROS discovery, logging: nondeterministic outcomes of the steps that see them.
- Floating-point rounding and not-a-number values: arithmetic is over reals.
- 64-bit wrap-around of client ids, and internal locks of rclcpp.
- Termination of remote calls: results about answers are conditional on the callback arriving.
- State messages and their unit scaling, dataset recorder, camera stub, MoveIt node, pose query, launch and configuration files: plumbing with only easy facts.
- Texts of replies and results, dataset paths, tool poses in samples.
