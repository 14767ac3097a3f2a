/** Deadlock freedom of the bridge: every code path as a structured program over its three
    mutexes, any number of threads running them, one lock operation at a time. */
module LockOrder {
  datatype Lock = EventMtx | StateMtx | ServerMtx

  function Rank(l: Lock): nat {
    match l case EventMtx => 1 case StateMtx => 2 case ServerMtx => 3
  }

  /** What a code path does as far as locks are concerned. `Guard` is a std::lock_guard scope,
      `Either` a branch on data, `Callback` a call out of the line server into its owner. */
  datatype Prog =
    | Pass
    | Then(first: Prog, second: Prog)
    | Guard(lock: Lock, body: Prog)
    | Either(left: Prog, right: Prog)
    | Repeat(body: Prog)
    | Callback(handler: Prog)

  // ---------- the paths of the line server and of the bridge node ----------

  function Locked(l: Lock): Prog { Guard(l, Pass) }
  function Maybe(p: Prog): Prog { Either(Pass, p) }

  const SendTo := Locked(ServerMtx)         // also broadcast, client_count and last_rx_elapsed
  const BuildState := Locked(StateMtx)
  const PublishState := Then(SendTo, Maybe(Then(BuildState, SendTo)))
  const DoStop := Then(Maybe(SendTo), Locked(StateMtx))
  const AbortActiveJob := Then(Locked(StateMtx), Maybe(DoStop))
  const EmitSafetyEvents :=
    Guard(EventMtx, Then(Maybe(Then(SendTo, AbortActiveJob)), Then(Maybe(Then(SendTo, AbortActiveJob)), Maybe(SendTo))))
  const OnFeedback := Then(Locked(StateMtx), Maybe(Then(PublishState, EmitSafetyEvents)))
  const ClaimJob := Guard(StateMtx, Maybe(SendTo))       // the BUSY ack is sent under the lock
  const HandleMotion := Either(SendTo, Then(ClaimJob, Maybe(Then(SendTo, Maybe(Locked(StateMtx))))))
  const HandleCancel := Then(Guard(StateMtx, Maybe(SendTo)), Maybe(Then(SendTo, Maybe(DoStop))))
  const HandleStop := Then(SendTo, DoStop)
  const OnLine := Either(Maybe(SendTo), Either(HandleMotion, Either(HandleCancel, HandleStop)))
  const OnConnect := Then(BuildState, SendTo)
  const OnDisconnect := Then(Locked(StateMtx), Maybe(Then(SendTo, DoStop)))
  const GoalResponse := Either(Then(SendTo, Locked(StateMtx)), Locked(StateMtx))
  const GoalFeedback := Then(Locked(StateMtx), PublishState)
  const JobDone := Then(SendTo, Then(Locked(StateMtx), PublishState))
  const OnWatchdog :=
    Then(Locked(StateMtx), Then(Maybe(Then(SendTo, Maybe(AbortActiveJob))),
         Then(Locked(StateMtx), Maybe(Then(SendTo, Maybe(Then(SendTo, DoStop)))))))
  const DropClient := Then(Locked(ServerMtx), Maybe(Callback(OnDisconnect)))
  const AcceptNew := Repeat(Maybe(Then(Locked(ServerMtx), Maybe(Then(Locked(ServerMtx), Callback(OnConnect))))))
  const HandleReadable := Repeat(Then(Locked(ServerMtx), Repeat(Callback(OnLine))))
  const ServeClient := Then(Maybe(Locked(ServerMtx)), Then(Maybe(Then(Locked(ServerMtx), HandleReadable)), Maybe(DropClient)))
  const IoThread := Repeat(Then(Locked(ServerMtx), Then(Maybe(AcceptNew), Repeat(ServeClient))))
  const StopServer := Locked(ServerMtx)
  const OnToolPose := Locked(StateMtx)

  /** Every entry point some thread runs. */
  const ENTRIES: set<Prog> :=
    {OnFeedback, OnToolPose, PublishState, GoalResponse, GoalFeedback, JobDone, OnWatchdog, IoThread, StopServer}

  // ---------- the discipline ----------

  /** p takes locks only above rank `held`, and calls out only with no lock held. */
  predicate Ordered(p: Prog, held: nat) {
    match p
    case Pass => true
    case Then(a, b) => Ordered(a, held) && Ordered(b, held)
    case Guard(l, body) => held < Rank(l) && Ordered(body, Rank(l))
    case Either(a, b) => Ordered(a, held) && Ordered(b, held)
    case Repeat(body) => Ordered(body, held)
    case Callback(handler) => held == 0 && Ordered(handler, 0)
  }

  lemma OrderedHandlers()
    ensures Ordered(OnLine, 0) && Ordered(OnConnect, 0) && Ordered(OnDisconnect, 0) && Ordered(PublishState, 0)
    ensures Ordered(AbortActiveJob, 1) && Ordered(DoStop, 0) && Ordered(AbortActiveJob, 0)
  {
    assert Ordered(SendTo, 0) && Ordered(SendTo, 1) && Ordered(SendTo, 2);
    assert Ordered(Locked(StateMtx), 0) && Ordered(Locked(StateMtx), 1);
    assert Ordered(DoStop, 0) && Ordered(DoStop, 1);
    assert Ordered(AbortActiveJob, 1) && Ordered(AbortActiveJob, 0);
    assert Ordered(ClaimJob, 0);
    assert Ordered(HandleMotion, 0);
    assert Ordered(HandleCancel, 0) && Ordered(HandleStop, 0);
  }

  lemma OrderedServer()
    ensures Ordered(IoThread, 0)
  {
    OrderedHandlers();
    assert Ordered(Locked(ServerMtx), 0);
    assert Ordered(DropClient, 0);
    assert Ordered(HandleReadable, 0);
    assert Ordered(AcceptNew, 0);
    assert Ordered(Maybe(Then(Locked(ServerMtx), HandleReadable)), 0);
    assert Ordered(ServeClient, 0);
    assert Ordered(Then(Maybe(AcceptNew), Repeat(ServeClient)), 0);
  }

  lemma OrderedCallbacks()
    ensures Ordered(OnFeedback, 0) && Ordered(OnWatchdog, 0)
    ensures Ordered(GoalResponse, 0) && Ordered(GoalFeedback, 0) && Ordered(JobDone, 0)
    ensures Ordered(OnToolPose, 0) && Ordered(StopServer, 0)
  {
    OrderedHandlers();
    assert Ordered(Locked(StateMtx), 0) && Ordered(SendTo, 0) && Ordered(SendTo, 1);
    assert Ordered(Then(SendTo, AbortActiveJob), 1);
    assert Ordered(EmitSafetyEvents, 0);
    assert Ordered(Then(SendTo, DoStop), 0);
    assert Ordered(Maybe(Then(SendTo, Maybe(Then(SendTo, DoStop)))), 0);
  }

  /** Every path acquires in the order event_mtx_, state_mtx_, mtx_ and never re-locks. */
  lemma EntriesOrdered(p: Prog)
    requires p in ENTRIES
    ensures Ordered(p, 0)
  {
    OrderedHandlers();
    OrderedServer();
    OrderedCallbacks();
    hide Ordered;
  }

  // ---------- threads ----------

  datatype Item = Do(prog: Prog) | Unlock(lock: Lock)

  /** The rest of a thread's work, next item first. */
  datatype Work = Finished | More(item: Item, rest: Work)

  type Tid = nat

  datatype State = State(threads: map<Tid, Work>, owner: map<Lock, Tid>)

  /** Which way a branch or loop goes is decided by data the model does not see. */
  datatype Action = Spawn(t: Tid, entry: Prog) | Advanced(t: Tid, takeLeft: bool)

  ghost predicate CanStep(s: State, t: Tid) {
    && t in s.threads && s.threads[t].More?
    && (var i := s.threads[t].item; i.Do? && i.prog.Guard? ==> i.prog.lock !in s.owner)
  }

  function Advance(item: Item, rest: Work, takeLeft: bool): Work {
    match item
    case Unlock(_) => rest
    case Do(p) =>
      match p
      case Pass => rest
      case Then(a, b) => More(Do(a), More(Do(b), rest))
      case Guard(l, body) => More(Do(body), More(Unlock(l), rest))
      case Either(a, b) => More(Do(if takeLeft then a else b), rest)
      case Repeat(body) => if takeLeft then More(Do(body), More(Do(p), rest)) else rest
      case Callback(handler) => More(Do(handler), rest)
  }

  ghost function Step(s: State, t: Tid, takeLeft: bool): State
    requires CanStep(s, t)
  {
    var w := s.threads[t];
    State(
      s.threads[t := Advance(w.item, w.rest, takeLeft)],
      if w.item.Unlock? then s.owner - {w.item.lock}
      else if w.item.prog.Guard? then s.owner[w.item.prog.lock := t]
      else s.owner)
  }

  ghost predicate Enabled(s: State, a: Action) {
    match a
    case Spawn(t, entry) => t !in s.threads && entry in ENTRIES
    case Advanced(t, _) => CanStep(s, t)
  }

  ghost function Next(s: State, a: Action): State
    requires Enabled(s, a)
  {
    match a
    case Spawn(t, entry) => s.(threads := s.threads[t := More(Do(entry), Finished)])
    case Advanced(t, takeLeft) => Step(s, t, takeLeft)
  }

  ghost predicate Run(states: seq<State>, actions: seq<Action>) {
    && |states| == |actions| + 1 && states[0] == State(map[], map[])
    && forall i :: 0 <= i < |actions| ==> Enabled(states[i], actions[i]) && states[i + 1] == Next(states[i], actions[i])
  }

  // ---------- the invariant ----------

  /** Rank of the innermost lock held below this point of the stack, 0 for none. */
  function Level(w: Work): nat {
    match w
    case Finished => 0
    case More(Unlock(l), _) => Rank(l)
    case More(Do(_), rest) => Level(rest)
  }

  predicate Fits(w: Work) {
    match w
    case Finished => true
    case More(Unlock(l), rest) => Level(rest) < Rank(l) && Fits(rest)
    case More(Do(p), rest) => Ordered(p, Level(rest)) && Fits(rest)
  }

  function Held(w: Work): set<Lock> {
    match w
    case Finished => {}
    case More(Unlock(l), rest) => {l} + Held(rest)
    case More(Do(_), rest) => Held(rest)
  }

  lemma {:induction false} HeldBelowLevel(w: Work)
    requires Fits(w)
    ensures forall l :: l in Held(w) ==> Rank(l) <= Level(w)
  {
    if w.More? { HeldBelowLevel(w.rest); }
  }

  ghost predicate Inv(s: State) {
    && (forall t :: t in s.threads ==> Fits(s.threads[t]))
    && (forall l :: l in s.owner ==> s.owner[l] in s.threads && l in Held(s.threads[s.owner[l]]))
    && (forall t, l :: t in s.threads && l in Held(s.threads[t]) ==> l in s.owner && s.owner[l] == t)
  }

  lemma FitsAdvance(item: Item, rest: Work, takeLeft: bool)
    requires Fits(More(item, rest))
    ensures Fits(Advance(item, rest, takeLeft))
    ensures Held(Advance(item, rest, takeLeft)) ==
            if item.Unlock? then Held(More(item, rest)) - {item.lock}
            else if item.prog.Guard? then Held(More(item, rest)) + {item.prog.lock}
            else Held(More(item, rest))
  {
    HeldBelowLevel(rest);
    var next := Advance(item, rest, takeLeft);
    match item
    case Unlock(_) =>
    case Do(p) =>
      match p
      case Guard(l, body) => assert Fits(More(Unlock(l), rest)) && Held(More(Unlock(l), rest)) == {l} + Held(rest);
      case Then(a, b) => assert Fits(More(Do(b), rest));
      case Repeat(body) => assert Fits(More(Do(p), rest));
      case _ =>
  }

  /** Thread t goes on with the same locks. */
  lemma HoldsOn(s: State, t: Tid, next: Work)
    requires Inv(s) && t in s.threads && Fits(next) && Held(next) == Held(s.threads[t])
    ensures Inv(State(s.threads[t := next], s.owner))
  {
    hide Fits, Held;
    var s' := State(s.threads[t := next], s.owner);
    assert s'.threads[t] == next;
    forall u | u in s'.threads ensures Fits(s'.threads[u]) && Held(s'.threads[u]) == Held(s.threads[u]) {
      if u != t { assert s'.threads[u] == s.threads[u]; }
    }
  }

  /** Thread t takes a free lock. */
  lemma Takes(s: State, t: Tid, next: Work, l: Lock)
    requires Inv(s) && t in s.threads && Fits(next) && Held(next) == Held(s.threads[t]) + {l} && l !in s.owner
    ensures Inv(State(s.threads[t := next], s.owner[l := t]))
  {
    hide Fits, Held;
    var s' := State(s.threads[t := next], s.owner[l := t]);
    assert s'.threads[t] == next && s'.owner[l] == t;
    forall u | u in s'.threads && u != t ensures s'.threads[u] == s.threads[u] {}
    forall m | m in s'.owner && m != l ensures m in s.owner && s'.owner[m] == s.owner[m] && m in Held(s.threads[s.owner[m]]) {}
  }

  /** Thread t gives a lock back. */
  lemma Gives(s: State, t: Tid, next: Work, l: Lock)
    requires Inv(s) && t in s.threads && Fits(next) && Held(next) == Held(s.threads[t]) - {l} && l in Held(s.threads[t])
    ensures Inv(State(s.threads[t := next], s.owner - {l}))
  {
    hide Fits, Held;
    var s' := State(s.threads[t := next], s.owner - {l});
    assert s'.threads[t] == next && s.owner[l] == t;
    forall u | u in s'.threads && u != t ensures s'.threads[u] == s.threads[u] && l !in Held(s.threads[u]) {}
    forall m | m in s'.owner ensures m in s.owner && s'.owner[m] == s.owner[m] && m in Held(s.threads[s.owner[m]]) {}
  }

  lemma StepKeeps(s: State, t: Tid, takeLeft: bool)
    requires Inv(s) && CanStep(s, t)
    ensures Inv(Step(s, t, takeLeft))
  {
    var w := s.threads[t];
    assert Fits(w) && w == More(w.item, w.rest);
    hide Fits, Held, Advance, Inv;
    var next := Advance(w.item, w.rest, takeLeft);
    FitsAdvance(w.item, w.rest, takeLeft);
    if w.item.Unlock? {
      TopHeld(w);
      Gives(s, t, next, w.item.lock);
    } else if w.item.prog.Guard? {
      Takes(s, t, next, w.item.prog.lock);
    } else {
      HoldsOn(s, t, next);
    }
  }

  lemma TopHeld(w: Work)
    requires w.More? && w.item.Unlock?
    ensures w.item.lock in Held(w)
  {}

  lemma SpawnKeeps(s: State, t: Tid, p: Prog)
    requires Inv(s) && t !in s.threads && p in ENTRIES
    ensures Inv(s.(threads := s.threads[t := More(Do(p), Finished)]))
  {
    hide ENTRIES;
    EntriesOrdered(p);
    Fresh(p);
    Joins(s, t, More(Do(p), Finished));
  }

  lemma Joins(s: State, t: Tid, w: Work)
    requires Inv(s) && t !in s.threads && Fits(w) && Held(w) == {}
    ensures Inv(s.(threads := s.threads[t := w]))
  {
    hide Fits, Held;
    var s' := s.(threads := s.threads[t := w]);
    assert s'.threads[t] == w;
    forall u | u in s.threads ensures u in s'.threads && s'.threads[u] == s.threads[u] {}
  }

  lemma Fresh(p: Prog)
    requires Ordered(p, 0)
    ensures Fits(More(Do(p), Finished)) && Held(More(Do(p), Finished)) == {}
  {}

  lemma {:induction false} RunInv(states: seq<State>, actions: seq<Action>, i: nat)
    requires Run(states, actions) && i < |states|
    ensures Inv(states[i])
  {
    if i > 0 {
      RunInv(states, actions, i - 1);
      var s, a := states[i - 1], actions[i - 1];
      assert Enabled(s, a) && states[(i - 1) + 1] == Next(s, a);
      match a
      case Spawn(t, entry) => SpawnKeeps(s, t, entry);
      case Advanced(t, takeLeft) => StepKeeps(s, t, takeLeft);
    }
  }

  // ---------- deadlock freedom ----------

  /** Following a blocked thread to the owner of its lock climbs the lock order. */
  lemma {:induction false} SomeoneMoves(s: State, t: Tid) returns (u: Tid)
    requires Inv(s) && t in s.threads && s.threads[t].More?
    ensures CanStep(s, u)
    decreases 3 - Level(s.threads[t])
  {
    if CanStep(s, t) { return t; }
    var lock := s.threads[t].item.prog.lock;
    var holder := s.owner[lock];
    HeldBelowLevel(s.threads[holder]);
    assert Ordered(s.threads[t].item.prog, Level(s.threads[t].rest));
    LevelBound(s.threads[holder]);
    u := SomeoneMoves(s, holder);
  }

  lemma {:induction false} LevelBound(w: Work)
    ensures Level(w) <= 3
  {
    if w.More? { LevelBound(w.rest); }
  }

  /** No reachable state with unfinished threads is stuck: some thread can take its next step. */
  lemma DeadlockFree(states: seq<State>, actions: seq<Action>, i: nat, t: Tid)
    requires Run(states, actions) && i < |states|
    requires t in states[i].threads && states[i].threads[t].More?
    ensures exists u :: CanStep(states[i], u)
  {
    RunInv(states, actions, i);
    var u := SomeoneMoves(states[i], t);
  }

  /** A thread about to lock never owns that mutex already, and owns nothing of equal or higher
      rank; a thread about to call a handler owns no mutex at all, so the handler may lock any. */
  lemma NoRelock(states: seq<State>, actions: seq<Action>, i: nat, t: Tid)
    requires Run(states, actions) && i < |states|
    requires t in states[i].threads && states[i].threads[t].More? && states[i].threads[t].item.Do?
    ensures var s := states[i];
            var p := s.threads[t].item.prog;
            && (p.Guard? ==> forall l :: l in s.owner && s.owner[l] == t ==> Rank(l) < Rank(p.lock))
            && (p.Callback? ==> forall l :: l in s.owner ==> s.owner[l] != t)
  {
    RunInv(states, actions, i);
    var w := states[i].threads[t];
    HeldBelowLevel(w.rest);
    assert Held(w) == Held(w.rest);
    assert Ordered(w.item.prog, Level(w.rest));
    assert forall l: Lock :: Rank(l) > 0;
  }
}
