/** The deadman latch: what a stale tick guarantees, and exactly when. */
module BridgeDeadman {
  import opened SafetyEvents
  import opened BridgeNode
  import opened BridgeSystem

  /** About to begin do_stop for a deadman firing. */
  predicate Stopping(pc: Pc) { pc.DeadmanEvent? || pc.StopEvent? }

  /** Not yet past its exchange of the latch. */
  predicate Unfired(pc: Pc) {
    pc.Disconnected? || pc.Latch? || pc.TickDriver? || pc.TickRead? || pc.TickProbe? || pc.TickClear?
  }

  /** Not yet past the beginning of a deadman's do_stop. */
  predicate Early(pc: Pc) { Unfired(pc) || pc.DeadmanEvent? }

  ghost predicate Latched(s: State) {
    && s.firings == s.clears + (if s.latch then 1 else 0)
    && |s.firedBy| == s.firings
    && (forall t :: t in s.firedBy ==> t < s.nextTid && (t in s.stoppedBy || (t in s.threads && Stopping(s.threads[t]))))
    && (forall t :: t in s.threads && Unfired(s.threads[t]) ==> t !in s.firedBy)
    && (forall t :: t in s.threads && Early(s.threads[t]) ==> t !in s.stoppedBy)
  }

  lemma LatchedStart(s: State, s': State, pc: Pc)
    requires Latched(s) && Threads(s)
    requires s'.latch == s.latch && s'.firings == s.firings && s'.clears == s.clears
    requires s'.firedBy == s.firedBy && s'.stoppedBy == s.stoppedBy
    requires (s'.threads == s.threads && s'.nextTid == s.nextTid)
          || (s'.threads == s.threads[s.nextTid := pc] && s'.nextTid == s.nextTid + 1)
    ensures Latched(s')
  {}

  /** What the steps away from the latch leave alone. */
  ghost predicate Apart(s: State, s': State, t: Tid) {
    && s'.latch == s.latch && s'.firings == s.firings && s'.clears == s.clears && s'.firedBy == s.firedBy
    && s'.nextTid == s.nextTid
    && (s'.stoppedBy == s.stoppedBy || s'.stoppedBy == s.stoppedBy + {t})
    && (t in s'.threads && Unfired(s'.threads[t]) ==> t in s.threads && Unfired(s.threads[t]))
    && (t in s'.threads && Early(s'.threads[t]) ==> t in s.threads && Early(s.threads[t]) && s'.stoppedBy == s.stoppedBy)
    && (forall u :: u != t ==> (u in s'.threads <==> u in s.threads) && (u in s.threads ==> s'.threads[u] == s.threads[u]))
  }

  lemma ApartSections(s: State, t: Tid, c: ClientId, id: string, arg: string)
    ensures Apart(s, ClaimStep(s, t, c, id, arg), t) && Apart(s, CancelStep(s, t, c, id, arg), t)
  {
    hide Claimed, CancelApplies;
  }

  lemma ApartDispatch(s: State, t: Tid, c: ClientId, line: Command, yes: bool)
    ensures Apart(s, DispatchStep(s, t, c, line, yes), t)
  {
    hide ClaimStep, CancelStep;
    if line.Motion? { ApartSections(s, t, c, line.id, line.cmd); }
    if line.Cancel? { ApartSections(s, t, c, line.id, line.target); }
  }

  /** A step apart from the latch keeps the ledger, if an invocation about to stop goes on to. */
  lemma ApartLatched(s: State, s': State, t: Tid)
    requires Latched(s) && Threads(s) && t in s.threads && Apart(s, s', t)
    requires Stopping(s.threads[t]) ==> t in s'.stoppedBy || (t in s'.threads && Stopping(s'.threads[t]))
    ensures Latched(s')
  {}

  lemma LatchedDispatch(s: State, t: Tid, c: ClientId, line: Command, yes: bool)
    requires Latched(s) && Threads(s) && t in s.threads && s.threads[t] == Dispatch(c, line)
    ensures Latched(DispatchStep(s, t, c, line, yes))
  {
    hide Latched, Threads, Apart, DispatchStep;
    ApartDispatch(s, t, c, line, yes);
    ApartLatched(s, DispatchStep(s, t, c, line, yes), t);
  }

  lemma ApartDeadman(s: State, t: Tid, pc: Pc, yes: bool)
    requires t in s.threads && pc == s.threads[t] && DeadmanPc(pc) && !pc.Latch? && !pc.TickClear?
    ensures var s' := DeadmanStep(s, t, pc, yes);
            Apart(s, s', t) && (Stopping(pc) ==> t in s'.threads && Stopping(s'.threads[t]))
  {}

  lemma LatchedExchange(s: State, t: Tid, yes: bool)
    requires Latched(s) && Threads(s) && t in s.threads && s.threads[t].Latch?
    ensures Latched(DeadmanStep(s, t, Pc.Latch, yes))
  {}

  lemma LatchedClear(s: State, t: Tid, yes: bool)
    requires Latched(s) && Threads(s) && t in s.threads && s.threads[t].TickClear?
    ensures Latched(DeadmanStep(s, t, TickClear, yes))
  {}

  lemma LatchedDeadman(s: State, t: Tid, pc: Pc, yes: bool)
    requires Latched(s) && Threads(s) && t in s.threads && pc == s.threads[t] && DeadmanPc(pc)
    ensures Latched(DeadmanStep(s, t, pc, yes))
  {
    hide Latched, Threads, DeadmanStep, Apart;
    if pc.Latch? {
      LatchedExchange(s, t, yes);
    } else if pc.TickClear? {
      LatchedClear(s, t, yes);
    } else {
      ApartDeadman(s, t, pc, yes);
      ApartLatched(s, DeadmanStep(s, t, pc, yes), t);
    }
  }

  lemma ApartElse(s: State, t: Tid, pc: Pc, yes: bool)
    requires t in s.threads && pc == s.threads[t] && !pc.Dispatch?
    ensures IoPc(pc) ==> Apart(s, IoStep(s, t, pc, yes), t)
    ensures AnswerPc(pc) ==> Apart(s, AnswerStep(s, t, pc), t)
  {
    hide DispatchStep;
  }

  lemma LatchedElse(s: State, t: Tid, pc: Pc, yes: bool)
    requires Latched(s) && Threads(s) && t in s.threads && pc == s.threads[t] && !pc.Dispatch?
    ensures IoPc(pc) ==> Latched(IoStep(s, t, pc, yes))
    ensures AnswerPc(pc) ==> Latched(AnswerStep(s, t, pc))
  {
    hide Latched, Threads, IoStep, AnswerStep, Apart;
    ApartElse(s, t, pc, yes);
    if IoPc(pc) { ApartLatched(s, IoStep(s, t, pc, yes), t); }
    else if AnswerPc(pc) { ApartLatched(s, AnswerStep(s, t, pc), t); }
  }

  lemma ApartStop(s: State, t: Tid, pc: Pc, yes: bool)
    requires t in s.threads && pc == s.threads[t] && StopPc(pc)
    ensures Apart(s, StopStep(s, t, pc, yes), t) && (Stopping(pc) ==> t in StopStep(s, t, pc, yes).stoppedBy)
  {
    hide StopRequested;
  }

  lemma LatchedStop(s: State, t: Tid, pc: Pc, yes: bool)
    requires Latched(s) && Threads(s) && t in s.threads && pc == s.threads[t] && StopPc(pc)
    ensures Latched(StopStep(s, t, pc, yes))
  {
    hide Latched, Threads, StopStep, Apart;
    ApartStop(s, t, pc, yes);
    ApartLatched(s, StopStep(s, t, pc, yes), t);
  }

  lemma LatchedDo(s: State, t: Tid, yes: bool)
    requires Threads(s) && Latched(s) && t in s.threads
    ensures Latched(DoStep(s, t, yes))
  {
    hide Latched, Threads, DispatchStep, DeadmanStep, StopStep, AnswerStep;
    var pc := s.threads[t];
    if pc.Dispatch? { LatchedDispatch(s, t, pc.from, pc.line, yes); }
    else if DeadmanPc(pc) { LatchedDeadman(s, t, pc, yes); }
    else if StopPc(pc) { LatchedStop(s, t, pc, yes); }
    else { LatchedElse(s, t, pc, yes); }
  }

  lemma LatchedKept(s: State, a: Action)
    requires Threads(s) && Latched(s) && Enabled(s, a)
    ensures Latched(Next(s, a))
  {
    hide Threads, Latched, DoStep, Tagged, Completed, Fed, Opened;
    match a
    case Do(t, yes) => LatchedDo(s, t, yes);
    case Connect => LatchedStart(s, Next(s, a), TickRead);
    case Drop(c) => LatchedStart(s, Next(s, a), Disconnected(c));
    case Hear(_, _) => LatchedStart(s, Next(s, a), TickRead);
    case Begin => LatchedStart(s, Next(s, a), Dispatch(s.inbox[0].0, s.inbox[0].1));
    case RespondAccept(k) => LatchedStart(s, Next(s, a), GoalAccepted(s.awaiting[k].job));
    case RespondReject(k) => LatchedStart(s, Next(s, a), GoalRejected(s.awaiting[k].job));
    case RespondService(k) => LatchedStart(s, Next(s, a), Terminal(s.awaiting[k].job));
    case Finish(k) => LatchedStart(s, Next(s, a), Terminal(s.awaiting[k].job));
    case Tick(alive) => LatchedStart(s, Next(s, a), TickDriver(alive));
    case Abort => LatchedStart(s, Next(s, a), AbortCheck);
  }

  lemma {:induction false} LatchInvariant(states: seq<State>, actions: seq<Action>, i: nat)
    requires Run(states, actions) && i < |states|
    ensures Threads(states[i]) && Latched(states[i])
  {
    if i > 0 {
      LatchInvariant(states, actions, i - 1);
      var s, a := states[i - 1], actions[i - 1];
      assert Enabled(s, a) && states[(i - 1) + 1] == Next(s, a);
      ThreadsKept(s, a);
      LatchedKept(s, a);
    }
  }

  /** Firings minus true-to-false clears is the latch, in every interleaving; every firing belongs
      to a different invocation, and that invocation has begun its STOP once it is over. */
  lemma LatchLedger(states: seq<State>, actions: seq<Action>, i: nat)
    requires Run(states, actions) && i < |states|
    ensures states[i].firings - states[i].clears == if states[i].latch then 1 else 0
    ensures |states[i].firedBy| == states[i].firings
    ensures forall t :: t in states[i].firedBy && t !in states[i].threads ==> t in states[i].stoppedBy
  {
    LatchInvariant(states, actions, i);
  }

  // ---------- what moves the latch ----------

  ghost predicate AtLatch(s: State, a: Action) { a.Do? && a.t in s.threads && s.threads[a.t].Latch? }

  ghost predicate AtClear(s: State, a: Action) { a.Do? && a.t in s.threads && s.threads[a.t].TickClear? }

  /** Only an exchange fires, and only when the latch is clear; only a tick's clearing step lowers
      the latch; stops begun are never forgotten. */
  ghost predicate Moves(s: State, a: Action, s': State) {
    && s.stoppedBy <= s'.stoppedBy
    && (AtLatch(s, a) ==> s'.latch && s'.firedBy == if s.latch then s.firedBy else s.firedBy + {a.t})
    && (AtClear(s, a) ==> !s'.latch && s'.firedBy == s.firedBy)
    && (!AtLatch(s, a) && !AtClear(s, a) ==> s'.latch == s.latch && s'.firedBy == s.firedBy)
  }

  lemma ApartMoves(s: State, a: Action, s': State)
    requires a.Do? && a.t in s.threads && !s.threads[a.t].Latch? && !s.threads[a.t].TickClear? && Apart(s, s', a.t)
    ensures Moves(s, a, s')
  {}

  lemma DoMoves(s: State, t: Tid, yes: bool)
    requires t in s.threads
    ensures Moves(s, Do(t, yes), DoStep(s, t, yes))
  {
    var pc := s.threads[t];
    var a, s' := Do(t, yes), DoStep(s, t, yes);
    if pc.Latch? || pc.TickClear? {
    } else {
      hide Apart, Moves, DispatchStep, StopStep, AnswerStep, DeadmanStep;
      if pc.Dispatch? { ApartDispatch(s, t, pc.from, pc.line, yes); }
      else if StopPc(pc) { ApartStop(s, t, pc, yes); }
      else if DeadmanPc(pc) { ApartDeadman(s, t, pc, yes); }
      else { ApartElse(s, t, pc, yes); hide IoStep; }
      ApartMoves(s, a, s');
    }
  }

  lemma StepMoves(s: State, a: Action)
    requires Enabled(s, a)
    ensures Moves(s, a, Next(s, a))
  {
    hide Tagged, Completed, Fed, Opened, DoStep;
    if a.Do? {
      hide Moves;
      DoMoves(s, a.t, a.yes);
    }
  }

  /** Step m of a run. */
  lemma RunMoves(states: seq<State>, actions: seq<Action>, m: nat)
    requires Run(states, actions) && m < |actions|
    ensures Moves(states[m], actions[m], states[m + 1]) && Latched(states[m]) && Threads(states[m])
    ensures Enabled(states[m], actions[m]) && states[m + 1] == Next(states[m], actions[m])
  {
    hide Moves, Latched, Threads, Enabled, Next;
    LatchInvariant(states, actions, m);
    assert Enabled(states[m], actions[m]) && states[m + 1] == Next(states[m], actions[m]);
    StepMoves(states[m], actions[m]);
  }

  lemma {:induction false} NothingForgotten(states: seq<State>, actions: seq<Action>, j: nat, k: nat)
    requires Run(states, actions) && j <= k < |states|
    ensures states[j].firedBy <= states[k].firedBy && states[j].stoppedBy <= states[k].stoppedBy
    decreases k
  {
    hide Run, Latched, Threads, Enabled, Next;
    RunLength(states, actions);
    if j < k {
      NothingForgotten(states, actions, j, k - 1);
      RunMoves(states, actions, k - 1);
    }
  }

  ghost predicate Clears(states: seq<State>, actions: seq<Action>, m: nat) {
    m < |actions| && m < |states| && AtClear(states[m], actions[m])
  }

  /** With no clearing step the latch stays set and nobody fires. */
  lemma {:induction false} StaysSet(states: seq<State>, actions: seq<Action>, j: nat, k: nat)
    requires Run(states, actions) && j <= k < |states| && states[j].latch
    requires forall m :: j <= m < k ==> !Clears(states, actions, m)
    ensures states[k].latch && states[k].firedBy == states[j].firedBy
    decreases k
  {
    hide Run, Latched, Threads, Enabled, Next;
    if j < k {
      RunLength(states, actions);
      StaysSet(states, actions, j, k - 1);
      RunMoves(states, actions, k - 1);
      assert !Clears(states, actions, k - 1);
    }
  }

  lemma RunLength(states: seq<State>, actions: seq<Action>)
    requires Run(states, actions)
    ensures |states| == |actions| + 1
  {}

  /** A latch that was clear and is set was set by somebody who had not fired before. */
  lemma {:induction false} SetByFiring(states: seq<State>, actions: seq<Action>, m: nat, k: nat) returns (f: Tid)
    requires Run(states, actions) && m <= k < |states| && !states[m].latch && states[k].latch
    ensures f in states[k].firedBy && f !in states[m].firedBy
    decreases k
  {
    hide Run, Enabled, Next, Threads;
    RunLength(states, actions);
    RunMoves(states, actions, k - 1);
    if states[k - 1].latch {
      f := SetByFiring(states, actions, m, k - 1);
    } else {
      f := actions[k - 1].t;
      NothingForgotten(states, actions, m, k - 1);
    }
  }

  /** Who fired since j had not begun to stop at j. */
  lemma {:induction false} NotBegunBefore(states: seq<State>, actions: seq<Action>, j: nat, k: nat, f: Tid)
    requires Run(states, actions) && j <= k < |states| && f in states[k].firedBy && f !in states[j].firedBy
    ensures f !in states[j].stoppedBy
    decreases k
  {
    hide Run, Enabled, Next, Threads;
    RunLength(states, actions);
    RunMoves(states, actions, k - 1);
    if f in states[k - 1].firedBy {
      NotBegunBefore(states, actions, j, k - 1, f);
    } else {
      NothingForgotten(states, actions, j, k - 1);
    }
  }

  // ---------- what a stale tick guarantees ----------

  /** Invocation f fired the deadman after moment j and no later than k; its STOP was not begun at
      j, and has been begun by any later moment at which f is over. */
  ghost predicate StopsSince(states: seq<State>, j: nat, k: nat, f: Tid) {
    && j < |states| && k < |states|
    && f in states[k].firedBy && f !in states[j].firedBy && f !in states[j].stoppedBy
    && forall i :: k <= i < |states| && f !in states[i].threads ==> f in states[i].stoppedBy
  }

  ghost predicate SomeoneStops(states: seq<State>, j: nat, k: nat) { exists f :: StopsSince(states, j, k, f) }

  lemma FiredStops(states: seq<State>, actions: seq<Action>, j: nat, k: nat, f: Tid)
    requires Run(states, actions) && j <= k < |states| && f in states[k].firedBy && f !in states[j].firedBy
    ensures StopsSince(states, j, k, f) && SomeoneStops(states, j, k)
  {
    hide Run, Latched, Threads;
    NotBegunBefore(states, actions, j, k, f);
    forall i | k <= i < |states| && f !in states[i].threads ensures f in states[i].stoppedBy {
      NothingForgotten(states, actions, k, i);
      LatchLedger(states, actions, i);
    }
  }

  /** Step k exchanges the latch. An invocation gets there only from a tick's probe that found the
      owner it had read silent or gone, or from a disconnect handler that found its client to own
      the active job. */
  ghost predicate Exchanges(states: seq<State>, actions: seq<Action>, k: nat) {
    k < |actions| && k < |states| && AtLatch(states[k], actions[k])
  }

  /** What an exchange achieves, seen from any earlier moment j, the owner's last sign of life say:
      some invocation fires after j and begins its STOP after j, if and only if the latch was clear
      at j or a tick's clearing step ran between j and the exchange. */
  lemma StaleTickStops(states: seq<State>, actions: seq<Action>, j: nat, k: nat)
    requires Run(states, actions) && j <= k && Exchanges(states, actions, k)
    ensures k + 1 < |states|
    ensures SomeoneStops(states, j, k + 1)
       <==> (!states[j].latch || exists m :: j <= m < k && Clears(states, actions, m))
  {
    hide Run, Latched, Threads, Enabled, Next;
    RunLength(states, actions);
    RunMoves(states, actions, k);
    if !states[j].latch {
      var f := SetByFiring(states, actions, j, k + 1);
      FiredStops(states, actions, j, k + 1, f);
    } else if m :| j <= m < k && Clears(states, actions, m) {
      RunMoves(states, actions, m);
      var f := SetByFiring(states, actions, m + 1, k + 1);
      NothingForgotten(states, actions, j, m + 1);
      FiredStops(states, actions, j, k + 1, f);
    } else {
      StaysSet(states, actions, j, k + 1);
    }
  }

  /** Once a tick has found the owner fresh, every later stale exchange leaves a stop begun since
      that fresh tick. The stale tick itself may be over before that stop begins: another
      invocation may have fired in between. */
  lemma FreshTickArms(states: seq<State>, actions: seq<Action>, j: nat, k: nat) returns (f: Tid)
    requires Run(states, actions) && j < k && Clears(states, actions, j) && Exchanges(states, actions, k)
    ensures k + 1 < |states| && StopsSince(states, j + 1, k + 1, f)
  {
    hide Run, StopsSince, Latched, Threads, Enabled, Next;
    RunLength(states, actions);
    RunMoves(states, actions, j);
    StaleTickStops(states, actions, j + 1, k);
    f :| StopsSince(states, j + 1, k + 1, f);
  }
}
