/** The IO thread of the line server interleaved with any number of threads that enqueue lines
    and with the thread that stops the server. One action per critical section, atomic load or
    store, pipe operation or callback. */
module ServerSystem {
  import opened Wire
  import opened JsonLineServer

  /** Where the IO thread is. `ids` are the clients of the current poll set still to be served. */
  datatype Io =
    | Top                                             // about to load running_
    | Ready                                           // about to take the poll snapshot
    | Polling(ids: seq<ClientId>, armed: set<ClientId>)   // blocked in poll()
    | Awake(ids: seq<ClientId>)                       // poll returned, about to load running_
    | Accepting(ids: seq<ClientId>)                   // about to accept()
    | Arrived(fd: int, ids: seq<ClientId>)            // holds an accepted descriptor
    | Counted(fd: int, count: nat, ids: seq<ClientId>)    // has read the client count
    | Greeting(id: ClientId, ids: seq<ClientId>)      // inserted, about to call on_connect_
    | Draining(ids: seq<ClientId>)                    // emptying the wake pipe
    | Serving(ids: seq<ClientId>)                     // next client of the poll set
    | Readable(id: ClientId, ids: seq<ClientId>)      // flush done, about to look the fd up
    | Reading(id: ClientId, ids: seq<ClientId>)       // about to recv()
    | Delivering(id: ClientId, lines: seq<Bytes>, ids: seq<ClientId>)  // calling on_line_
    | Dropping(id: ClientId, ids: seq<ClientId>)      // about to remove the client
    | Farewell(id: ClientId, ids: seq<ClientId>)      // removed, about to call on_disconnect_
    | Exited

  datatype Stopper = Idle | Flagged | Joining | Cleared

  datatype State = State(
    running: bool,
    clients: map<ClientId, Client>,
    nextId: ClientId,
    maxClients: nat,
    pipe: nat, pipeCapacity: nat,      // bytes in the self-pipe
    appenders: nat,                    // threads past their append, before their wake()
    io: Io,
    stopper: Stopper,
    calls: seq<Callback>,
    open: set<int>,                    // descriptors accepted and not closed
    accepted: multiset<int>, closed: multiset<int>,
    badClose: bool                     // a descriptor was closed that was not open
  )

  datatype Action =
    | Broadcast(line: Bytes) | SendTo(to: ClientId, line: Bytes) | Wake
    | StopFlag | StopWake | StopClear
    | LoadRunning | Snapshot(order: seq<ClientId>) | PollWakes | PollInterrupted | PollFails | LoadAwake
    | AcceptOne(fd: int) | AcceptNone(pipeReady: bool) | Refuse | CountClients | Turn | Insert | CallConnect
    | DrainSome | DrainDone
    | Skip | HangUp | Flush(script: seq<Send>) | NoFlush | NoRead | Lookup
    | RecvData(rx: Bytes, lines: seq<Bytes>) | RecvTooLong | RecvDrained | RecvEnds
    | CallLine | LinesDone | Remove | CallDisconnect

  ghost predicate Init(s: State) {
    s == State(true, map[], 1, s.maxClients, 0, s.pipeCapacity, 0, Top, Idle, [], {}, multiset{}, multiset{}, false)
    && s.maxClients > 0 && s.pipeCapacity > 0
  }

  function Put(pipe: nat, capacity: nat): nat { if pipe < capacity then pipe + 1 else pipe }

  function Close(s: State, fd: int): State {
    s.(open := s.open - {fd}, closed := s.closed + multiset{fd}, badClose := s.badClose || fd !in s.open)
  }

  ghost function Fds(clients: map<ClientId, Client>): set<int> {
    set id | id in clients :: clients[id].fd
  }

  ghost predicate Distinct(clients: map<ClientId, Client>) {
    forall a, b :: a in clients && b in clients && clients[a].fd == clients[b].fd ==> a == b
  }

  ghost predicate Enabled(s: State, a: Action) {
    match a
    case Broadcast(_) => true
    case SendTo(_, _) => true
    case Wake => s.appenders > 0
    case StopFlag => s.stopper == Idle
    case StopWake => s.stopper == Flagged
    case StopClear => s.stopper == Joining && s.io == Exited
    case LoadRunning => s.io == Top
    case Snapshot(order) => s.io == Ready && (set id | id in order) == s.clients.Keys && |order| == |s.clients|
    case PollWakes => s.io.Polling?
    case PollInterrupted => s.io.Polling?
    case PollFails => s.io.Polling?
    case LoadAwake => s.io.Awake?
    case AcceptOne(fd) => s.io.Accepting? && fd !in s.open
    case AcceptNone(_) => s.io.Accepting?
    case Refuse => s.io.Arrived? || s.io.Counted?
    case CountClients => s.io.Arrived?
    case Turn => s.io.Counted? && s.io.count >= s.maxClients
    case Insert => s.io.Counted? && s.io.count < s.maxClients
    case CallConnect => s.io.Greeting?
    case DrainSome => s.io.Draining? && s.pipe > 0
    case DrainDone => s.io.Draining? && s.pipe == 0
    case Skip => s.io.Serving?
    case HangUp => s.io.Serving? && s.io.ids != []
    case Flush(_) => s.io.Serving? && s.io.ids != []
    case NoFlush => s.io.Serving? && s.io.ids != []
    case NoRead => s.io.Readable?
    case Lookup => s.io.Readable?
    case RecvData(_, _) => s.io.Reading?
    case RecvTooLong => s.io.Reading?
    case RecvDrained => s.io.Reading?
    case RecvEnds => s.io.Reading?
    case CallLine => s.io.Delivering? && s.io.lines != []
    case LinesDone => s.io.Delivering? && s.io.lines == []
    case Remove => s.io.Dropping?
    case CallDisconnect => s.io.Farewell?
  }

  ghost function Next(s: State, a: Action): State
    requires Enabled(s, a)
  {
    match a
    case Broadcast(line) =>
      if s.clients == map[] then s
      else s.(clients := EnqueueAll(s.clients, line), appenders := s.appenders + 1)
    case SendTo(to, line) =>
      if to !in s.clients then s
      else s.(clients := EnqueueTo(s.clients, to, line), appenders := s.appenders + 1)
    case Wake => s.(pipe := Put(s.pipe, s.pipeCapacity), appenders := s.appenders - 1)
    case StopFlag => s.(running := false, stopper := Flagged)
    case StopWake => s.(pipe := Put(s.pipe, s.pipeCapacity), stopper := Joining)
    case StopClear =>
      s.(clients := map[], open := s.open - Fds(s.clients), closed := s.closed + multiset(Fds(s.clients)),
         badClose := s.badClose || !(Fds(s.clients) <= s.open) || !Distinct(s.clients), stopper := Cleared)
    case LoadRunning => s.(io := if s.running then Ready else Exited)
    case Snapshot(order) =>
      s.(io := Polling(order, set id | id in s.clients && s.clients[id].tx != []))
    case PollWakes => s.(io := Awake(s.io.ids))
    case PollInterrupted => s.(io := Top)
    case PollFails => s.(io := Exited)
    case LoadAwake => s.(io := if s.running then Accepting(s.io.ids) else Exited)
    case AcceptOne(fd) =>
      s.(io := Arrived(fd, s.io.ids), open := s.open + {fd}, accepted := s.accepted + multiset{fd})
    case AcceptNone(pipeReady) => s.(io := if pipeReady then Draining(s.io.ids) else Serving(s.io.ids))
    case Refuse => Close(s.(io := Accepting(s.io.ids)), s.io.fd)
    case CountClients => s.(io := Counted(s.io.fd, |s.clients|, s.io.ids))
    case Turn => Close(s.(io := Accepting(s.io.ids)), s.io.fd)
    case Insert =>
      s.(clients := s.clients[s.nextId := Client(s.io.fd, [], [])], nextId := s.nextId + 1,
         io := Greeting(s.nextId, s.io.ids))
    case CallConnect => s.(calls := s.calls + [Connected(s.io.id)], io := Accepting(s.io.ids))
    case DrainSome => s.(pipe := if s.pipe <= 256 then 0 else s.pipe - 256)
    case DrainDone => s.(io := Serving(s.io.ids))
    case Skip => s.(io := if s.io.ids == [] then Top else Serving(s.io.ids[1..]))
    case HangUp => s.(io := Dropping(s.io.ids[0], s.io.ids[1..]))
    case Flush(script) =>
      var id := s.io.ids[0];
      if id !in s.clients then s.(io := Dropping(id, s.io.ids[1..]))
      else
        var size := |s.clients[id].tx|;
        s.(clients := Shift(s.clients, id, Flushed(size, script)),
           io := if Survives(size, script) then Readable(id, s.io.ids[1..]) else Dropping(id, s.io.ids[1..]))
    case NoFlush => s.(io := Readable(s.io.ids[0], s.io.ids[1..]))
    case NoRead => s.(io := Serving(s.io.ids))
    case Lookup =>
      s.(io := if s.io.id in s.clients then Reading(s.io.id, s.io.ids) else Dropping(s.io.id, s.io.ids))
    case RecvData(rx, lines) =>
      if s.io.id !in s.clients then s.(io := Dropping(s.io.id, s.io.ids))
      else s.(clients := s.clients[s.io.id := s.clients[s.io.id].(rx := rx)], io := Delivering(s.io.id, lines, s.io.ids))
    case RecvTooLong => s.(io := Dropping(s.io.id, s.io.ids))
    case RecvDrained => s.(io := Serving(s.io.ids))
    case RecvEnds => s.(io := Dropping(s.io.id, s.io.ids))
    case CallLine =>
      s.(calls := s.calls + [Line(s.io.id, s.io.lines[0])], io := Delivering(s.io.id, s.io.lines[1..], s.io.ids))
    case LinesDone => s.(io := Reading(s.io.id, s.io.ids))
    case Remove =>
      if s.io.id !in s.clients then s.(io := Serving(s.io.ids))
      else Close(s.(clients := s.clients - {s.io.id}, io := Farewell(s.io.id, s.io.ids)), s.clients[s.io.id].fd)
    case CallDisconnect => s.(calls := s.calls + [Disconnected(s.io.id)], io := Serving(s.io.ids))
  }

  /** A run: any interleaving of enabled actions from an initial state. */
  ghost predicate Run(states: seq<State>, actions: seq<Action>) {
    && |states| == |actions| + 1 && Init(states[0])
    && forall i :: 0 <= i < |actions| ==> Enabled(states[i], actions[i]) && states[i + 1] == Next(states[i], actions[i])
  }

  // Families of actions, by who takes them and on which path.
  predicate ByOthers(a: Action) {
    a.Broadcast? || a.SendTo? || a.Wake? || a.StopFlag? || a.StopWake? || a.StopClear?
  }

  predicate OnPollPath(a: Action) {
    a.LoadRunning? || a.Snapshot? || a.PollWakes? || a.PollInterrupted? || a.PollFails? || a.LoadAwake? || a.DrainSome? || a.DrainDone? || a.Skip?
  }

  predicate OnAcceptPath(a: Action) {
    a.AcceptOne? || a.AcceptNone? || a.Refuse? || a.CountClients? || a.Turn? || a.Insert? || a.CallConnect?
  }

  predicate OnServePath(a: Action) {
    !ByOthers(a) && !OnPollPath(a) && !OnAcceptPath(a)
  }

  // ---------- no lost wakeup ----------

  ghost predicate Flow(s: State) {
    && 0 < s.pipeCapacity && s.pipe <= s.pipeCapacity
    && (s.io.Polling? ==>
          && (forall id :: id in s.clients && s.clients[id].tx != [] && id !in s.io.armed ==> s.pipe > 0 || s.appenders > 0)
          && (set id | id in s.io.ids) == s.clients.Keys
          && (!s.running ==> s.pipe > 0 || s.stopper == Flagged))
    && (s.io == Ready && !s.running ==> s.pipe > 0 || s.stopper == Flagged)
    && (!s.running <==> s.stopper != Idle)
    && (s.stopper == Cleared ==> s.io == Exited)
  }

  lemma FlowKept(s: State, a: Action)
    requires Flow(s) && Enabled(s, a)
    ensures Flow(Next(s, a))
  {
    var t := Next(s, a);
    match a
    case Broadcast(line) => assert t.clients.Keys == s.clients.Keys;
    case SendTo(to, line) => assert t.clients.Keys == s.clients.Keys;
    case _ =>
  }

  // ---------- clients, callbacks, descriptors ----------

  datatype Stage = Unborn | Live | Gone | Misordered

  function Advance(stage: Stage, call: Callback): Stage {
    match (stage, call)
    case (Unborn, Connected(_)) => Live
    case (Live, Line(_, _)) => Live
    case (Live, Disconnected(_)) => Gone
    case _ => Misordered
  }

  /** The callbacks of one client, read by the automaton connect, line*, disconnect?. */
  function StageOf(calls: seq<Callback>, id: ClientId): Stage {
    if calls == [] then Unborn
    else
      var before := StageOf(calls[..|calls| - 1], id);
      var last := calls[|calls| - 1];
      if last.id == id then Advance(before, last) else before
  }

  lemma StageSnoc(calls: seq<Callback>, call: Callback, id: ClientId)
    ensures StageOf(calls + [call], id) == if call.id == id then Advance(StageOf(calls, id), call) else StageOf(calls, id)
  {
    assert (calls + [call])[..|calls|] == calls;
  }

  lemma {:induction false} StageBefore(calls: seq<Callback>, id: ClientId, k: nat)
    requires k <= |calls| && StageOf(calls, id) != Misordered
    ensures StageOf(calls[..k], id) != Misordered
  {
    if k == |calls| {
      assert calls[..k] == calls;
    } else {
      var most := calls[..|calls| - 1];
      assert most[..k] == calls[..k];
      StageBefore(most, id, k);
    }
  }

  /** What an ordered sequence of callbacks has told of one client. */
  lemma {:induction false} StageTells(calls: seq<Callback>, id: ClientId)
    requires StageOf(calls, id) != Misordered
    ensures StageOf(calls, id) == Unborn <==> Connected(id) !in calls
    ensures StageOf(calls, id) == Gone <==> Disconnected(id) in calls
    ensures StageOf(calls, id) == Unborn ==> forall k :: 0 <= k < |calls| ==> calls[k].id != id
  {
    if calls != [] {
      var most, last := calls[..|calls| - 1], calls[|calls| - 1];
      assert calls == most + [last];
      StageTells(most, id);
    }
  }

  /** The callbacks of one client in order: the first is its connect, no other is, and none follows
      its disconnect. */
  lemma CallsInOrder(calls: seq<Callback>, k: nat)
    requires k < |calls| && StageOf(calls, calls[k].id) != Misordered
    ensures calls[k].Connected? <==> forall j :: 0 <= j < k ==> calls[j].id != calls[k].id
    ensures forall j :: 0 <= j < k && calls[j].id == calls[k].id ==> !calls[j].Disconnected?
  {
    var id := calls[k].id;
    var most := calls[..k];
    StageBefore(calls, id, k);
    StageBefore(calls, id, k + 1);
    assert calls[..k + 1] == most + [calls[k]];
    StageSnoc(most, calls[k], id);
    StageTells(most, id);
    hide StageOf;
    if Connected(id) in most {
      var j :| 0 <= j < k && most[j] == Connected(id);
      assert calls[j].id == id;
    }
    assert Disconnected(id) !in most;
    forall j | 0 <= j < k && calls[j].id == id ensures !calls[j].Disconnected? {
      assert most[j] == calls[j];
    }
  }

  ghost predicate StageRight(s: State, id: ClientId) {
    var stage := StageOf(s.calls, id);
    if id == 0 || id >= s.nextId then stage == Unborn
    else if s.io.Greeting? && s.io.id == id then stage == Unborn
    else if id in s.clients || (s.io.Farewell? && s.io.id == id) then stage == Live
    else stage == Gone || (stage == Live && s.stopper == Cleared)
  }

  ghost predicate Lifecycle(s: State) {
    && 0 < s.nextId && (forall id :: id in s.clients ==> 0 < id < s.nextId)
    && (s.io.Greeting? || s.io.Reading? || s.io.Delivering? ==> s.io.id in s.clients)
    && (s.io.Farewell? ==> s.io.id !in s.clients && 0 < s.io.id < s.nextId)
    && (s.stopper == Cleared ==> s.io == Exited)
    && (forall id :: StageRight(s, id))
  }

  lemma SameKeys(clients: map<ClientId, Client>, line: Bytes)
    ensures EnqueueAll(clients, line).Keys == clients.Keys
  {}

  lemma LifecycleByOthers(s: State, a: Action)
    requires Lifecycle(s) && Enabled(s, a) && ByOthers(a)
    ensures Lifecycle(Next(s, a))
  {
    hide StageOf, EnqueueAll;
    if a.Broadcast? { SameKeys(s.clients, a.line); }
    forall id ensures StageRight(Next(s, a), id) { assert StageRight(s, id); }
  }

  lemma LifecycleOnPollPath(s: State, a: Action)
    requires Lifecycle(s) && Enabled(s, a) && OnPollPath(a)
    ensures Lifecycle(Next(s, a))
  {
    hide StageOf;
    forall id ensures StageRight(Next(s, a), id) { assert StageRight(s, id); }
  }

  lemma LifecycleOnAcceptPath(s: State, a: Action)
    requires Lifecycle(s) && Enabled(s, a) && OnAcceptPath(a)
    ensures Lifecycle(Next(s, a))
  {
    hide StageOf;
    forall id ensures StageRight(Next(s, a), id) {
      assert StageRight(s, id);
      if a.CallConnect? { StageSnoc(s.calls, Connected(s.io.id), id); }
    }
  }

  lemma LifecycleCalls(s: State, a: Action)
    requires Lifecycle(s) && Enabled(s, a) && (a.CallLine? || a.CallDisconnect?)
    ensures Lifecycle(Next(s, a))
  {
    hide StageOf;
    forall id ensures StageRight(Next(s, a), id) {
      assert StageRight(s, id);
      if a.CallLine? { StageSnoc(s.calls, Line(s.io.id, s.io.lines[0]), id); }
      if a.CallDisconnect? { StageSnoc(s.calls, Disconnected(s.io.id), id); }
    }
  }

  lemma LifecycleTransfers(s: State, a: Action)
    requires Lifecycle(s) && Enabled(s, a) && (a.Flush? || a.RecvData?)
    ensures Lifecycle(Next(s, a))
  {
    hide StageOf, Flushed, Survives;
    assert Next(s, a).clients.Keys == s.clients.Keys;
    forall id ensures StageRight(Next(s, a), id) { assert StageRight(s, id); }
  }

  lemma LifecycleRemove(s: State, a: Action)
    requires Lifecycle(s) && Enabled(s, a) && a.Remove?
    ensures Lifecycle(Next(s, a))
  {
    hide StageOf;
    forall id ensures StageRight(Next(s, a), id) { assert StageRight(s, id); }
  }

  lemma LifecycleOnServePath(s: State, a: Action)
    requires Lifecycle(s) && Enabled(s, a) && OnServePath(a)
    ensures Lifecycle(Next(s, a))
  {
    if a.CallLine? || a.CallDisconnect? {
      hide *;
      LifecycleCalls(s, a);
    } else if a.Flush? || a.RecvData? {
      hide *;
      LifecycleTransfers(s, a);
    } else if a.Remove? {
      hide *;
      LifecycleRemove(s, a);
    } else {
      hide StageOf;
      forall id ensures StageRight(Next(s, a), id) { assert StageRight(s, id); }
    }
  }

  lemma LifecycleKept(s: State, a: Action)
    requires Lifecycle(s) && Enabled(s, a)
    ensures Lifecycle(Next(s, a))
  {
    hide *;
    if ByOthers(a) { LifecycleByOthers(s, a); }
    else if OnPollPath(a) { LifecycleOnPollPath(s, a); }
    else if OnAcceptPath(a) { LifecycleOnAcceptPath(s, a); }
    else { assert OnServePath(a) by { ServeOtherwise(a); } LifecycleOnServePath(s, a); }
  }

  lemma ServeOtherwise(a: Action)
    ensures ByOthers(a) || OnPollPath(a) || OnAcceptPath(a) || OnServePath(a)
  {}

  ghost function InHand(io: Io): set<int> {
    if io.Arrived? || io.Counted? then {io.fd} else {}
  }

  /** Accepted descriptors are the closed ones and the open ones, counted with multiplicity. */
  ghost predicate Ledger(accepted: multiset<int>, closed: multiset<int>, open: set<int>) {
    accepted == closed + multiset(open)
  }

  lemma LedgerAccepts(accepted: multiset<int>, closed: multiset<int>, open: set<int>, fd: int)
    requires Ledger(accepted, closed, open) && fd !in open
    ensures Ledger(accepted + multiset{fd}, closed, open + {fd})
  {}

  lemma LedgerCloses(accepted: multiset<int>, closed: multiset<int>, open: set<int>, fd: int)
    requires Ledger(accepted, closed, open) && fd in open
    ensures Ledger(accepted, closed + multiset{fd}, open - {fd})
  {
    assert multiset(open) == multiset(open - {fd}) + multiset{fd};
  }

  lemma LedgerClosesAll(accepted: multiset<int>, closed: multiset<int>, open: set<int>)
    requires Ledger(accepted, closed, open)
    ensures Ledger(accepted, closed + multiset(open), open - open)
  {}

  /** Every open descriptor is held exactly once, by the client table or by the IO thread's accept
      path, and every accepted one was closed exactly once or is still open. */
  ghost predicate Descriptors(s: State) {
    && !s.badClose
    && s.open == Fds(s.clients) + InHand(s.io)
    && Fds(s.clients) !! InHand(s.io)
    && Distinct(s.clients)
    && Ledger(s.accepted, s.closed, s.open)
    && |s.clients| <= s.maxClients
    && (s.io.Counted? ==> s.io.count == |s.clients|)
    && (forall id :: id in s.clients ==> id < s.nextId)
    && (s.stopper == Cleared ==> s.io == Exited && s.clients == map[])
  }

  lemma SameFds(a: map<ClientId, Client>, b: map<ClientId, Client>)
    requires a.Keys == b.Keys && forall id :: id in a ==> a[id].fd == b[id].fd
    ensures Fds(a) == Fds(b) && (Distinct(a) ==> Distinct(b)) && |a| == |b|
  {
    forall fd ensures fd in Fds(a) <==> fd in Fds(b) {
      if fd in Fds(a) { var id :| id in a && a[id].fd == fd; assert id in b; }
      if fd in Fds(b) { var id :| id in b && b[id].fd == fd; assert id in a; }
    }
    assert |a| == |a.Keys| && |b| == |b.Keys|;
  }

  lemma InsertedFd(clients: map<ClientId, Client>, id: ClientId, c: Client)
    requires id !in clients && c.fd !in Fds(clients) && Distinct(clients)
    ensures Fds(clients[id := c]) == Fds(clients) + {c.fd} && Distinct(clients[id := c])
  {
    var after := clients[id := c];
    forall fd ensures fd in Fds(after) <==> fd in Fds(clients) + {c.fd} {
      if fd in Fds(clients) { var k :| k in clients && clients[k].fd == fd; assert k in after; }
      if fd == c.fd { assert after[id].fd == fd; }
    }
    forall k | k in clients ensures clients[k].fd != c.fd { assert clients[k].fd in Fds(clients); }
  }

  lemma RemovedFd(clients: map<ClientId, Client>, id: ClientId)
    requires id in clients && Distinct(clients)
    ensures Fds(clients - {id}) == Fds(clients) - {clients[id].fd} && Distinct(clients - {id})
    ensures clients[id].fd in Fds(clients)
  {
    var after := clients - {id};
    forall fd ensures fd in Fds(after) <==> fd in Fds(clients) && fd != clients[id].fd {
      if fd in Fds(clients) && fd != clients[id].fd {
        var k :| k in clients && clients[k].fd == fd;
        assert k in after;
      }
    }
  }

  lemma AcceptKeeps(s: State, a: Action)
    requires Descriptors(s) && a.AcceptOne? && Enabled(s, a)
    ensures Descriptors(Next(s, a))
  {
    hide Fds, Distinct, Ledger;
    LedgerAccepts(s.accepted, s.closed, s.open, a.fd);
  }

  /** The descriptor in hand is closed. */
  lemma HandEmptied(s: State, t: State)
    requires Descriptors(s) && (s.io.Arrived? || s.io.Counted?) && t.io.Accepting?
    requires t.clients == s.clients && t.nextId == s.nextId && t.maxClients == s.maxClients && t.stopper == s.stopper
    requires t.open == s.open - {s.io.fd} && t.accepted == s.accepted && t.closed == s.closed + multiset{s.io.fd}
    requires t.badClose == (s.badClose || s.io.fd !in s.open)
    ensures Descriptors(t)
  {
    hide Fds, Distinct, Ledger;
    assert s.open == Fds(s.clients) + {s.io.fd};
    assert t.open == Fds(t.clients);
    LedgerCloses(s.accepted, s.closed, s.open, s.io.fd);
  }

  lemma CloseKeeps(s: State, a: Action)
    requires Descriptors(s) && (a.Refuse? || a.Turn?) && Enabled(s, a)
    ensures Descriptors(Next(s, a))
  {
    hide Descriptors;
    HandEmptied(s, Next(s, a));
  }

  /** A held descriptor becomes a client's. */
  lemma HoldingsMoved(s: State, t: State, id: ClientId, c: Client)
    requires Descriptors(s) && s.io.Counted? && s.io.count < s.maxClients && id == s.nextId && c.fd == s.io.fd
    requires t.clients == s.clients[id := c] && t.nextId == id + 1 && t.io.Greeting?
    requires t.open == s.open && t.accepted == s.accepted && t.closed == s.closed && t.badClose == s.badClose
    requires t.maxClients == s.maxClients && t.stopper == s.stopper
    ensures Descriptors(t)
  {
    hide Fds, Distinct, Ledger;
    InsertedFd(s.clients, id, c);
    assert s.open == Fds(s.clients) + {c.fd};
  }

  lemma InsertKeeps(s: State, a: Action)
    requires Descriptors(s) && a.Insert? && Enabled(s, a)
    ensures Descriptors(Next(s, a))
  {
    hide Descriptors;
    HoldingsMoved(s, Next(s, a), s.nextId, Client(s.io.fd, [], []));
  }

  lemma HoldingsLessOne(s: State, t: State, id: ClientId)
    requires Descriptors(s) && id in s.clients && s.io.Dropping? && t.io.Farewell?
    requires t.clients == s.clients - {id} && t.nextId == s.nextId && t.maxClients == s.maxClients
    requires t.open == s.open - {s.clients[id].fd} && t.accepted == s.accepted
    requires t.closed == s.closed + multiset{s.clients[id].fd} && t.stopper == s.stopper
    requires t.badClose == (s.badClose || s.clients[id].fd !in s.open)
    ensures Descriptors(t)
  {
    hide Fds, Distinct, Ledger;
    RemovedFd(s.clients, id);
    LedgerCloses(s.accepted, s.closed, s.open, s.clients[id].fd);
    Smaller(s.clients, id);
  }

  lemma RemoveKeeps(s: State, a: Action)
    requires Descriptors(s) && a.Remove? && Enabled(s, a)
    ensures Descriptors(Next(s, a))
  {
    hide Descriptors;
    if s.io.id in s.clients {
      HoldingsLessOne(s, Next(s, a), s.io.id);
    } else {
      var t := Next(s, a);
      assert SameHoldings(s, t) by { assert t == s.(io := Serving(s.io.ids)); NotCleared(s); }
      HoldingsKept(s, t);
    }
  }

  lemma NotCleared(s: State)
    requires Descriptors(s) && s.io != Exited
    ensures s.stopper != Cleared
  {}

  lemma Smaller(clients: map<ClientId, Client>, id: ClientId)
    requires id in clients
    ensures |clients - {id}| <= |clients|
  {
    assert (clients - {id}).Keys + {id} == clients.Keys;
  }

  lemma StopKeeps(s: State, a: Action)
    requires Descriptors(s) && a.StopClear? && Enabled(s, a)
    ensures Descriptors(Next(s, a))
  {
    hide Fds, Distinct, Ledger;
    NoFds();
    assert s.open == Fds(s.clients);
    LedgerClosesAll(s.accepted, s.closed, s.open);
  }

  lemma DescriptorsKept(s: State, a: Action)
    requires Descriptors(s) && Enabled(s, a)
    ensures Descriptors(Next(s, a))
  {
    match a
    case AcceptOne(_) => AcceptKeeps(s, a);
    case Refuse => CloseKeeps(s, a);
    case Turn => CloseKeeps(s, a);
    case Insert => InsertKeeps(s, a);
    case Remove => RemoveKeeps(s, a);
    case StopClear => StopKeeps(s, a);
    case _ =>
      if ByOthers(a) { EnqueueKeeps(s, a); }
      else if OnServePath(a) { ServeKeeps(s, a); }
      else if OnPollPath(a) { PollKeeps(s, a); }
      else { GreetKeeps(s, a); }
  }

  ghost predicate SameHoldings(s: State, t: State) {
    && t.clients.Keys == s.clients.Keys && (forall id :: id in s.clients ==> t.clients[id].fd == s.clients[id].fd)
    && t.open == s.open && t.accepted == s.accepted && t.closed == s.closed && t.badClose == s.badClose
    && t.nextId == s.nextId && t.maxClients == s.maxClients
    && InHand(t.io) == InHand(s.io)
    && (t.io.Counted? ==> t.io.count == |s.clients|)
    && (t.stopper == Cleared ==> s.stopper == Cleared && t.io == Exited)
  }

  lemma HoldingsKept(s: State, t: State)
    requires Descriptors(s) && SameHoldings(s, t)
    ensures Descriptors(t)
  {
    SameFds(s.clients, t.clients);
    hide Fds, Distinct;
  }

  /** What an action that touches no descriptor needs of the invariant. */
  ghost predicate Steady(s: State) {
    && (s.io.Counted? ==> s.io.count == |s.clients|)
    && (s.stopper == Cleared ==> s.io == Exited)
  }

  lemma SteadyWhen(s: State)
    requires Descriptors(s)
    ensures Steady(s)
  {}

  lemma EnqueueKeepsFds(clients: map<ClientId, Client>, to: ClientId, line: Bytes)
    ensures EnqueueAll(clients, line).Keys == clients.Keys && EnqueueTo(clients, to, line).Keys == clients.Keys
    ensures forall id :: id in clients ==> EnqueueAll(clients, line)[id].fd == clients[id].fd
    ensures forall id :: id in clients ==> EnqueueTo(clients, to, line)[id].fd == clients[id].fd
  {}

  /** Only the client table changed, and in it no descriptor. */
  lemma TableHolds(s: State, clients: map<ClientId, Client>, appenders: nat)
    requires Steady(s) && clients.Keys == s.clients.Keys
    requires forall id :: id in s.clients ==> clients[id].fd == s.clients[id].fd
    ensures SameHoldings(s, s.(clients := clients, appenders := appenders))
  {}

  lemma EnqueueHolds(s: State, a: Action)
    requires Steady(s) && Enabled(s, a) && ByOthers(a) && !a.StopClear?
    ensures SameHoldings(s, Next(s, a))
  {
    hide EnqueueAll, EnqueueTo;
    if a.Broadcast? || a.SendTo? {
      var to := if a.SendTo? then a.to else 0;
      EnqueueKeepsFds(s.clients, to, a.line);
      TableHolds(s, EnqueueAll(s.clients, a.line), s.appenders + 1);
      TableHolds(s, EnqueueTo(s.clients, to, a.line), s.appenders + 1);
      TableHolds(s, s.clients, s.appenders);
      hide SameHoldings;
    }
  }

  lemma EnqueueKeeps(s: State, a: Action)
    requires Descriptors(s) && Enabled(s, a) && ByOthers(a) && !a.StopClear?
    ensures Descriptors(Next(s, a))
  {
    hide *;
    SteadyWhen(s);
    EnqueueHolds(s, a);
    HoldingsKept(s, Next(s, a));
  }

  lemma PollHolds(s: State, a: Action)
    requires Steady(s) && Enabled(s, a) && OnPollPath(a)
    ensures SameHoldings(s, Next(s, a))
  {}

  lemma PollKeeps(s: State, a: Action)
    requires Descriptors(s) && Enabled(s, a) && OnPollPath(a)
    ensures Descriptors(Next(s, a))
  {
    hide *;
    SteadyWhen(s);
    PollHolds(s, a);
    HoldingsKept(s, Next(s, a));
  }

  lemma GreetHolds(s: State, a: Action)
    requires Steady(s) && Enabled(s, a) && (a.AcceptNone? || a.CountClients? || a.CallConnect?)
    ensures SameHoldings(s, Next(s, a))
  {}

  lemma GreetKeeps(s: State, a: Action)
    requires Descriptors(s) && Enabled(s, a) && (a.AcceptNone? || a.CountClients? || a.CallConnect?)
    ensures Descriptors(Next(s, a))
  {
    hide *;
    SteadyWhen(s);
    GreetHolds(s, a);
    HoldingsKept(s, Next(s, a));
  }

  /** One client's buffers changed, and the IO thread went on, holding nothing. */
  lemma BufferHolds(s: State, id: ClientId, c: Client, io: Io)
    requires Steady(s) && id in s.clients && c.fd == s.clients[id].fd
    requires InHand(io) == InHand(s.io) && !io.Counted? && s.stopper != Cleared
    ensures SameHoldings(s, s.(clients := s.clients[id := c], io := io))
  {
    var clients := s.clients[id := c];
    assert clients.Keys == s.clients.Keys;
    forall k | k in s.clients ensures clients[k].fd == s.clients[k].fd {}
  }

  lemma TransferHolds(s: State, a: Action)
    requires Steady(s) && Enabled(s, a) && (a.Flush? || a.RecvData?)
    ensures SameHoldings(s, Next(s, a))
  {
    hide Flushed, Survives;
    var s' := Next(s, a);
    var id := if a.Flush? then s.io.ids[0] else s.io.id;
    if id in s.clients {
      BufferHolds(s, id, s'.clients[id], s'.io);
      hide SameHoldings;
    }
  }

  lemma ServeHolds(s: State, a: Action)
    requires Steady(s) && Enabled(s, a) && OnServePath(a) && !a.Remove?
    ensures SameHoldings(s, Next(s, a))
  {
    if a.Flush? || a.RecvData? {
      hide *;
      TransferHolds(s, a);
    } else {
      hide Flushed, Survives;
      assert Next(s, a).clients == s.clients;
    }
  }

  lemma ServeKeeps(s: State, a: Action)
    requires Descriptors(s) && Enabled(s, a) && OnServePath(a) && !a.Remove?
    ensures Descriptors(Next(s, a))
  {
    hide *;
    SteadyWhen(s);
    ServeHolds(s, a);
    HoldingsKept(s, Next(s, a));
  }

  lemma NoFds()
    ensures Fds(map[]) == {} && Distinct(map[])
  {}

  // ---------- over whole runs ----------

  lemma {:induction false} Invariants(states: seq<State>, actions: seq<Action>, i: nat)
    requires Run(states, actions) && i < |states|
    ensures Flow(states[i]) && Lifecycle(states[i]) && Descriptors(states[i])
  {
    if i == 0 {
      NoFds();
    } else {
      Invariants(states, actions, i - 1);
      assert Enabled(states[i - 1], actions[i - 1]) && states[(i - 1) + 1] == Next(states[i - 1], actions[i - 1]);
      FlowKept(states[i - 1], actions[i - 1]);
      LifecycleKept(states[i - 1], actions[i - 1]);
      DescriptorsKept(states[i - 1], actions[i - 1]);
    }
  }

  /** No lost wakeup: whenever the IO thread sits in poll() and a client has unsent bytes, that
      client's POLLOUT is armed, or the pipe holds a byte, or an appender has still to write one;
      likewise a stop request is always about to wake the thread. */
  lemma NoLostWakeup(states: seq<State>, actions: seq<Action>, i: nat, id: ClientId)
    requires Run(states, actions) && i < |states| && states[i].io.Polling?
    ensures var s := states[i];
            && (id in s.clients && s.clients[id].tx != [] ==> id in s.io.ids && (id in s.io.armed || s.pipe > 0 || s.appenders > 0))
            && (!s.running ==> s.pipe > 0 || s.stopper == Flagged)
  {
    Invariants(states, actions, i);
    assert id in states[i].clients ==> id in (set k | k in states[i].io.ids);
  }

  /** Per client the callbacks read connect, line*, at most one disconnect; ids are never reused
      (a second connect would break the automaton) and the client limit always holds. */
  lemma ClientLifecycle(states: seq<State>, actions: seq<Action>, i: nat, id: ClientId)
    requires Run(states, actions) && i < |states|
    ensures StageOf(states[i].calls, id) != Misordered
    ensures |states[i].clients| <= states[i].maxClients
    ensures StageOf(states[i].calls, id) == Gone ==> id !in states[i].clients
  {
    Invariants(states, actions, i);
    assert StageRight(states[i], id);
  }

  /** The same over the callbacks themselves: of all callbacks for one client the first, and only
      the first, is on_connect, and nothing follows on_disconnect. */
  lemma CallbacksInOrder(states: seq<State>, actions: seq<Action>, i: nat, k: nat)
    requires Run(states, actions) && i < |states| && k < |states[i].calls|
    ensures var calls := states[i].calls;
            && (calls[k].Connected? <==> forall j :: 0 <= j < k ==> calls[j].id != calls[k].id)
            && (forall j :: 0 <= j < k && calls[j].id == calls[k].id ==> !calls[j].Disconnected?)
  {
    hide StageOf;
    ClientLifecycle(states, actions, i, states[i].calls[k].id);
    CallsInOrder(states[i].calls, k);
  }

  /** A flush hangs up on a client exactly when some send fails or takes nothing while part of the
      queue is left and all before it were EINTR or took something; a full socket buffer does not. */
  lemma FlushHangsUp(s: State, script: seq<Send>)
    requires Enabled(s, Flush(script)) && s.io.ids[0] in s.clients
    ensures var id, s' := s.io.ids[0], Next(s, Flush(script));
            && (s'.io == Dropping(id, s.io.ids[1..]) <==>
                  exists k :: 0 <= k < |script| && (script[k] == Broke || script[k] == Took(0))
                              && (forall j :: 0 <= j < k ==> script[j].Interrupt? || (script[j].Took? && script[j].n > 0))
                              && Offered(script[..k]) < |s.clients[id].tx|)
            && (s'.io != Dropping(id, s.io.ids[1..]) ==> s'.io == Readable(id, s.io.ids[1..]))
            && id in s'.clients
  {
    FlushOutcomes(|s.clients[s.io.ids[0]].tx|, script);
    hide Survives, Flushed, Offered;
  }

  /** Every accepted descriptor is either open and held once, or was closed exactly once; after
      stop() none is open. */
  lemma DescriptorConservation(states: seq<State>, actions: seq<Action>, i: nat)
    requires Run(states, actions) && i < |states|
    ensures var s := states[i];
            && !s.badClose
            && s.accepted == s.closed + multiset(s.open)
            && s.open == Fds(s.clients) + InHand(s.io) && Fds(s.clients) !! InHand(s.io) && Distinct(s.clients)
            && (s.stopper == Cleared ==> s.open == {} && s.accepted == s.closed)
  {
    Invariants(states, actions, i);
    NoFds();
  }
}
