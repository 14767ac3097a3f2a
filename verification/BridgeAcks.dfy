/** End-to-end acknowledgement: exactly one ack per line that is owed one, in arrival order. */
module BridgeAcks {
  import opened Wire
  import opened BridgeNode
  import opened BridgeSystem

  type Note = (ClientId, string)

  /** The acks put into a connected client's send queue, in order. */
  function Acked(outbox: seq<Entry>): seq<Note> {
    if outbox == [] then []
    else
      var e := outbox[|outbox| - 1];
      Acked(outbox[..|outbox| - 1]) + if e.message.Ack? && e.queued then [(e.message.to, e.message.id)] else []
  }

  /** The acks a sequence of framed lines is owed. */
  function Expected(lines: seq<(ClientId, Command)>): seq<Note> {
    if lines == [] then [] else Owed(lines[0].0, lines[0].1) + Expected(lines[1..])
  }

  /** The ack the invocation has still to send. */
  function Pending(pc: Pc): seq<Note> {
    match pc
    case Dispatch(c, line) => Owed(c, line)
    case AckClaim(job) => [(job.client, job.id)]
    case AckCancel(c, id, _) => [(c, id)]
    case _ => []
  }

  ghost function InFlight(s: State): seq<Note> {
    if s.io.Some? && s.io.value in s.threads then Pending(s.threads[s.io.value]) else []
  }

  ghost predicate Connected(notes: seq<Note>, clients: set<ClientId>) {
    forall i :: 0 <= i < |notes| ==> notes[i].0 in clients
  }

  ghost predicate Acking(s: State) {
    && Acked(s.outbox) + InFlight(s) + Expected(s.inbox) == Expected(s.heard)
    && Connected(InFlight(s), s.clients)
    && (forall i :: 0 <= i < |s.inbox| ==> s.inbox[i].0 in s.clients)
    && (s.io.None? || s.inbox == [] || s.io.value in s.threads)
  }

  lemma AckedSnoc(outbox: seq<Entry>, e: Entry)
    ensures Acked(outbox + [e]) ==
            Acked(outbox) + if e.message.Ack? && e.queued then [(e.message.to, e.message.id)] else []
  {
    assert (outbox + [e])[..|outbox|] == outbox;
  }

  lemma {:induction false} ExpectedAppend(a: seq<(ClientId, Command)>, b: seq<(ClientId, Command)>)
    ensures Expected(a + b) == Expected(a) + Expected(b)
  {
    if a == [] {
      assert a + b == b;
    } else {
      assert (a + b)[1..] == a[1..] + b;
      ExpectedAppend(a[1..], b);
    }
  }

  /** A step that owes and pays nothing. */
  ghost predicate Unpaying(s: State, s': State) {
    && s'.inbox == s.inbox && s'.heard == s.heard && s'.clients == s.clients
    && (s'.outbox == s.outbox
        || (s'.outbox != [] && s'.outbox == s.outbox + [s'.outbox[|s'.outbox| - 1]] && !s'.outbox[|s'.outbox| - 1].message.Ack?))
    && InFlight(s') == InFlight(s) && (s'.io.None? || s'.io.value in s'.threads)
  }

  lemma AckingBystander(s: State, s': State)
    requires Acking(s) && Unpaying(s, s')
    ensures Acking(s')
  {
    hide InFlight, Acked, Expected;
    if s'.outbox != s.outbox { AckedSnoc(s.outbox, s'.outbox[|s'.outbox| - 1]); }
    assert Acked(s.outbox) + [] == Acked(s.outbox);
  }

  /** A step of the IO thread that pays the ack in flight. */
  lemma AckingPays(s: State, s': State, e: Entry)
    requires Acking(s) && e.message.Ack? && e.queued && InFlight(s) == [(e.message.to, e.message.id)]
    requires s'.inbox == s.inbox && s'.heard == s.heard && s'.clients == s.clients
    requires s'.outbox == s.outbox + [e]
    requires InFlight(s') == [] && (s'.io.None? || s'.io.value in s'.threads)
    ensures Acking(s')
  {
    AckedSnoc(s.outbox, e);
  }

  lemma Pays(s: State, t: Tid, c: ClientId, id: string, ok: bool, text: string)
    requires Acking(s) && s.io == Some(t) && t in s.threads && Pending(s.threads[t]) == [(c, id)] && c in s.clients
    ensures Acking(End(Post(s, c, Ack(c, id, ok, text), None), t))
    ensures Acking(Goto(Post(s, c, Ack(c, id, ok, text), None), t, StopEvent))
  {
    hide Acked, Expected, Acking;
    var e := Entry(Ack(c, id, ok, text), true, None);
    AckingPays(s, End(Post(s, c, Ack(c, id, ok, text), None), t), e);
    AckingPays(s, Goto(Post(s, c, Ack(c, id, ok, text), None), t, StopEvent), e);
  }

  lemma Defers(s: State, t: Tid, c: ClientId, line: Command)
    requires Acking(s) && s.io == Some(t) && t in s.threads && s.threads[t] == Dispatch(c, line)
    ensures line.NotCommand? ==> Acking(End(s, t))
    ensures line.Cancel? && CancelApplies(s.slot, line.target) ==> Acking(CancelStep(s, t, c, line.id, line.target))
    ensures line.Motion? ==> Acking(ClaimStep(s, t, c, line.id, line.cmd))
  {
    hide Acked, Expected, Acking, Claimed;
    if line.NotCommand? { AckingBystander(s, End(s, t)); }
    if line.Cancel? && CancelApplies(s.slot, line.target) { AckingBystander(s, CancelStep(s, t, c, line.id, line.target)); }
    if line.Motion? { AckingBystander(s, ClaimStep(s, t, c, line.id, line.cmd)); }
  }

  lemma AckingCancel(s: State, t: Tid, c: ClientId, id: string, target: string)
    requires Acking(s) && s.io == Some(t) && t in s.threads && s.threads[t] == Dispatch(c, Cancel(id, target))
    ensures Acking(CancelStep(s, t, c, id, target))
  {
    Defers(s, t, c, Cancel(id, target));
    FirstConnected(s, t, c, Cancel(id, target));
    hide Acking, Acked, Expected, CancelApplies, End, Goto, Post;
    Pays(s, t, c, id, false, "NOT_RUNNING");
  }

  lemma AckingDispatch(s: State, t: Tid, c: ClientId, line: Command, yes: bool)
    requires Acking(s) && s.io == Some(t) && t in s.threads && s.threads[t] == Dispatch(c, line)
    ensures Acking(DispatchStep(s, t, c, line, yes))
  {
    hide Acking, Acked, Expected, End, Goto, Post, ClaimStep, CancelStep, CancelApplies;
    Defers(s, t, c, line);
    if !line.NotCommand? { FirstConnected(s, t, c, line); }
    match line
    case NotCommand =>
    case Malformed => Pays(s, t, c, "", false, "BAD_JSON");
    case WrongVersion(id) => Pays(s, t, c, id, false, "SCHEMA_MISMATCH");
    case Unknown(id) => Pays(s, t, c, id, false, "UNKNOWN_CMD");
    case Ping(id) => Pays(s, t, c, id, true, "");
    case Stop(id) => Pays(s, t, c, id, true, "");
    case Cancel(id, target) => AckingCancel(s, t, c, id, target);
    case Motion(id, cmd, valid) =>
      Pays(s, t, c, id, false, "SERVICE_UNAVAILABLE");
      Pays(s, t, c, id, false, "BAD_ARGS");
      Pays(s, t, c, id, false, "BUSY");
  }

  lemma FirstConnected(s: State, t: Tid, c: ClientId, line: Command)
    requires Acking(s) && s.io == Some(t) && t in s.threads && s.threads[t] == Dispatch(c, line) && !line.NotCommand?
    ensures c in s.clients
  {
    assert InFlight(s)[0].0 == c;
  }

  lemma AckingIo(s: State, t: Tid, pc: Pc, yes: bool)
    requires Acking(s) && s.io == Some(t) && t in s.threads && s.threads[t] == pc && IoPc(pc)
    ensures Acking(IoStep(s, t, pc, yes))
  {
    hide Acked, Expected, DispatchStep;
    var s' := IoStep(s, t, pc, yes);
    match pc
    case Dispatch(c, line) => AckingDispatch(s, t, c, line, yes);
    case AckClaim(job) => assert InFlight(s)[0].0 in s.clients; AckingPays(s, s', s'.outbox[|s.outbox|]);
    case AckCancel(c, id, _) => assert InFlight(s)[0].0 in s.clients; AckingPays(s, s', s'.outbox[|s.outbox|]);
    case _ => AckingBystander(s, s');
  }

  lemma StopUnpaying(s: State, t: Tid, pc: Pc, yes: bool)
    requires t in s.threads && s.threads[t] == pc && StopPc(pc) && (s.io.Some? ==> s.io.value in s.threads)
    ensures Unpaying(s, StopStep(s, t, pc, yes))
  {
    hide StopRequested;
  }

  lemma AnswerUnpaying(s: State, t: Tid, pc: Pc)
    requires t in s.threads && s.threads[t] == pc && AnswerPc(pc) && (s.io.Some? ==> s.io.value in s.threads)
    ensures Unpaying(s, AnswerStep(s, t, pc))
  {}

  lemma DriverUnpaying(s: State, t: Tid, alive: bool)
    requires t in s.threads && s.threads[t] == TickDriver(alive) && (s.io.Some? ==> s.io.value in s.threads)
    ensures Unpaying(s, DriverStep(s, t, alive))
  {}

  lemma DeadmanUnpaying(s: State, t: Tid, pc: Pc, yes: bool)
    requires t in s.threads && s.threads[t] == pc && DeadmanPc(pc) && (s.io.Some? ==> s.io.value in s.threads)
    ensures Unpaying(s, DeadmanStep(s, t, pc, yes))
  {
    hide DriverStep;
    if pc.TickDriver? { DriverUnpaying(s, t, pc.alive); }
  }

  lemma AckingDo(s: State, t: Tid, yes: bool)
    requires Acking(s) && Threads(s) && t in s.threads
    ensures Acking(DoStep(s, t, yes))
  {
    assert s.io.Some? ==> s.io.value in s.threads;
    var pc := s.threads[t];
    assert IoPc(pc) ==> s.io == Some(t);
    hide Acking, Threads, IoStep, StopStep, AnswerStep, DeadmanStep, Unpaying;
    if IoPc(pc) {
      AckingIo(s, t, pc, yes);
    } else {
      if StopPc(pc) { StopUnpaying(s, t, pc, yes); }
      else if AnswerPc(pc) { AnswerUnpaying(s, t, pc); }
      else { DeadmanUnpaying(s, t, pc, yes); }
      AckingBystander(s, DoStep(s, t, yes));
    }
  }

  lemma {:induction false} TaggedConnected(c: ClientId, lines: seq<Command>)
    ensures forall i :: 0 <= i < |Tagged(c, lines)| ==> Tagged(c, lines)[i].0 == c
  {
    if lines != [] { TaggedConnected(c, lines[1..]); }
  }

  lemma AckingHear(s: State, c: ClientId, chunk: Bytes)
    requires Acking(s) && Enabled(s, Hear(c, chunk))
    ensures Acking(Next(s, Hear(c, chunk)))
  {
    hide Completed, Fed;
    var lines := Completed(s.intake, c, chunk);
    ExpectedAppend(s.heard, Tagged(c, lines));
    TaggedConnected(c, lines);
    hide Acked, Tagged;
    assert Expected([]) == [];
  }

  lemma AckingBegin(s: State)
    requires Acking(s) && Threads(s) && Enabled(s, Begin)
    ensures Acking(Next(s, Begin))
  {
    hide Acked;
    var s' := Next(s, Begin);
    var (c, line) := s.inbox[0];
    assert Expected(s.inbox) == Owed(c, line) + Expected(s.inbox[1..]);
    assert InFlight(s') == Owed(c, line) && InFlight(s) == [];
    assert Acked(s.outbox) + [] + (Owed(c, line) + Expected(s.inbox[1..])) == Acked(s.outbox) + Owed(c, line) + Expected(s.inbox[1..]);
  }

  lemma AckingKept(s: State, a: Action)
    requires Threads(s) && Acking(s) && Enabled(s, a)
    ensures Acking(Next(s, a))
  {
    hide Acked, Expected, DoStep, Tagged, Completed, Fed, Opened;
    match a
    case Do(t, yes) => AckingDo(s, t, yes);
    case Hear(c, chunk) => AckingHear(s, c, chunk);
    case Begin => AckingBegin(s);
    case Connect =>
    case Drop(c) =>
    case _ => assert s.io.Some? ==> s.io.value != s.nextTid; AckingBystander(s, Next(s, a));
  }

  lemma {:induction false} AckInvariant(states: seq<State>, actions: seq<Action>, i: nat)
    requires Run(states, actions) && i < |states|
    ensures Threads(states[i]) && Acking(states[i])
  {
    if i > 0 {
      AckInvariant(states, actions, i - 1);
      var s, a := states[i - 1], actions[i - 1];
      assert Enabled(s, a) && states[(i - 1) + 1] == Next(s, a);
      ThreadsKept(s, a);
      AckingKept(s, a);
    }
  }

  // ---------- per client ----------

  function Mine(notes: seq<Note>, c: ClientId): seq<string> {
    if notes == [] then [] else (if notes[0].0 == c then [notes[0].1] else []) + Mine(notes[1..], c)
  }

  function LinesFrom(lines: seq<(ClientId, Command)>, c: ClientId): seq<Command> {
    if lines == [] then [] else (if lines[0].0 == c then [lines[0].1] else []) + LinesFrom(lines[1..], c)
  }

  /** Ids of the acks one client's lines are owed: empty for a malformed line, else the line's. */
  function OwedIds(lines: seq<Command>): seq<string> {
    if lines == [] then []
    else
      (match lines[0]
       case NotCommand => []
       case Malformed => [""]
       case _ => [lines[0].id]) + OwedIds(lines[1..])
  }

  lemma MineCons(n: Note, more: seq<Note>, c: ClientId)
    ensures Mine([n] + more, c) == (if n.0 == c then [n.1] else []) + Mine(more, c)
  {
    assert ([n] + more)[1..] == more;
  }

  lemma {:induction false} MineAppend(a: seq<Note>, b: seq<Note>, c: ClientId)
    ensures Mine(a + b, c) == Mine(a, c) + Mine(b, c)
  {
    if a == [] {
      assert a + b == b;
    } else {
      hide Mine;
      assert a == [a[0]] + a[1..] && a + b == [a[0]] + (a[1..] + b);
      MineAppend(a[1..], b, c);
      MineCons(a[0], a[1..], c);
      MineCons(a[0], a[1..] + b, c);
    }
  }

  lemma {:induction false} MineExpected(lines: seq<(ClientId, Command)>, c: ClientId)
    ensures Mine(Expected(lines), c) == OwedIds(LinesFrom(lines, c))
  {
    if lines != [] {
      var (from, line) := lines[0];
      MineExpected(lines[1..], c);
      MineAppend(Owed(from, line), Expected(lines[1..]), c);
      MineOwed(from, line, c);
      OwedCons(line, LinesFrom(lines[1..], c));
      assert LinesFrom(lines, c) == (if from == c then [line] else []) + LinesFrom(lines[1..], c);
      assert [] + LinesFrom(lines[1..], c) == LinesFrom(lines[1..], c);
      hide OwedIds, Mine, Owed;
    }
  }

  lemma MineOwed(from: ClientId, line: Command, c: ClientId)
    ensures Mine(Owed(from, line), c) == if from == c then OwedIds([line]) else []
  {
    assert OwedIds([line][1..]) == [];
    assert forall n: Note :: Mine([n][1..], c) == [];
  }

  lemma OwedCons(line: Command, rest: seq<Command>)
    ensures OwedIds([line] + rest) == OwedIds([line]) + OwedIds(rest)
  {
    assert ([line] + rest)[1..] == rest && [line][1..] == [];
  }

  /** In every interleaving with executor threads, the acks queued for a client are a prefix of
      those its lines are owed, each exactly once and in arrival order, and all of them whenever
      the IO thread is between two reads. */
  lemma AckPerLine(states: seq<State>, actions: seq<Action>, i: nat, c: ClientId)
    requires Run(states, actions) && i < |states|
    ensures var s := states[i];
            && Mine(Acked(s.outbox), c) <= OwedIds(LinesFrom(s.heard, c))
            && (s.io.None? && s.inbox == [] ==> Mine(Acked(s.outbox), c) == OwedIds(LinesFrom(s.heard, c)))
  {
    AckInvariant(states, actions, i);
    var s := states[i];
    MineExpected(s.heard, c);
    MineAppend(Acked(s.outbox) + InFlight(s), Expected(s.inbox), c);
    MineAppend(Acked(s.outbox), InFlight(s), c);
  }

  // ---------- from bytes to commands ----------

  /** Parsing is line by line, in order. */
  lemma {:induction false} ParsedEach(parse: Bytes -> Command, lines: seq<Bytes>, i: nat)
    ensures |Parsed(parse, lines)| == |lines|
    ensures i < |lines| ==> Parsed(parse, lines)[i] == parse(lines[i])
  {
    if lines != [] { ParsedEach(parse, lines[1..], if i > 0 then i - 1 else 0); }
  }

  lemma {:induction false} ParsedAppend(parse: Bytes -> Command, a: seq<Bytes>, b: seq<Bytes>)
    ensures Parsed(parse, a + b) == Parsed(parse, a) + Parsed(parse, b)
  {
    if a == [] {
      assert a + b == b;
    } else {
      assert (a + b)[1..] == a[1..] + b;
      ParsedAppend(parse, a[1..], b);
    }
  }

  lemma LinesFromCons(first: (ClientId, Command), more: seq<(ClientId, Command)>, c: ClientId)
    ensures LinesFrom([first] + more, c) == (if first.0 == c then [first.1] else []) + LinesFrom(more, c)
  {
    assert ([first] + more)[1..] == more;
  }

  lemma {:induction false} LinesFromAppend(a: seq<(ClientId, Command)>, b: seq<(ClientId, Command)>, c: ClientId)
    ensures LinesFrom(a + b, c) == LinesFrom(a, c) + LinesFrom(b, c)
  {
    if a == [] {
      assert a + b == b;
    } else {
      hide LinesFrom;
      assert a == [a[0]] + a[1..] && a + b == [a[0]] + (a[1..] + b);
      LinesFromAppend(a[1..], b, c);
      LinesFromCons(a[0], a[1..], c);
      LinesFromCons(a[0], a[1..] + b, c);
    }
  }

  lemma {:induction false} LinesFromTagged(from: ClientId, lines: seq<Command>, c: ClientId)
    ensures LinesFrom(Tagged(from, lines), c) == if c == from then lines else []
  {
    if lines != [] { LinesFromTagged(from, lines[1..], c); }
  }

  /** What was heard from one client is the parse of the lines of its bytes. */
  ghost predicate HeardFrom(k: Intake, heard: seq<(ClientId, Command)>, c: ClientId) {
    && (c in k.rx <==> c in k.stream)
    && (c in k.rx ==> Framed(k.rx[c], k.stream[c]) && LinesFrom(heard, c) == Parsed(k.parse, k.rx[c].delivered))
    && (c !in k.rx ==> LinesFrom(heard, c) == [])
  }

  ghost predicate Hearing(s: State) {
    && (forall c :: HeardFrom(s.intake, s.heard, c))
    && (forall c :: c in s.intake.rx ==> c < s.nextClient)
    && (forall c :: c in s.clients ==> c in s.intake.rx)
  }

  lemma OpenedHears(k: Intake, heard: seq<(ClientId, Command)>, id: ClientId, c: ClientId)
    requires HeardFrom(k, heard, c) && id !in k.rx
    ensures HeardFrom(Opened(k, id), heard, c)
  {
    if c == id { NothingFramed(); }
    hide Framed, LinesFrom;
  }

  lemma NothingFramed()
    ensures Framed(FRESH, []) && forall parse :: Parsed(parse, FRESH.delivered) == []
  {
    FreshFramed();
  }

  /** The framing state and the heard lines of the client that sent the chunk. */
  lemma FedFrames(k: Intake, c: ClientId, chunk: Bytes)
    requires c in k.rx && c in k.stream && Framed(k.rx[c], k.stream[c]) && k.rx[c].open && |chunk| <= RECV_BYTES
    ensures var r, r' := k.rx[c], Receive(k.rx[c], chunk);
            && Framed(r', k.stream[c] + chunk)
            && Parsed(k.parse, r'.delivered) == Parsed(k.parse, r.delivered) + Completed(k, c, chunk)
  {
    var r, r' := k.rx[c], Receive(k.rx[c], chunk);
    ReceiveFrames(r, k.stream[c], chunk);
    DeliveredGrows(r, chunk);
    hide Framed, Receive, Parsed;
    var more := r'.delivered[|r.delivered|..];
    ParsedAppend(k.parse, r.delivered, more);
    assert r'.delivered == r.delivered + more;
  }

  lemma FedHears(k: Intake, heard: seq<(ClientId, Command)>, from: ClientId, chunk: Bytes, c: ClientId)
    requires HeardFrom(k, heard, c) && from in k.rx && from in k.stream && k.rx[from].open && |chunk| <= RECV_BYTES
    ensures HeardFrom(Fed(k, from, chunk), heard + Tagged(from, Completed(k, from, chunk)), c)
  {
    hide Framed, Receive, LinesFrom, Parsed, Completed, Tagged;
    var added := Completed(k, from, chunk);
    LinesFromAppend(heard, Tagged(from, added), c);
    LinesFromTagged(from, added, c);
    if c == from {
      FedFrames(k, c, chunk);
    } else {
      assert LinesFrom(heard, c) + [] == LinesFrom(heard, c);
    }
  }

  lemma DeliveredGrows(r: Receiver, chunk: Bytes)
    ensures r.delivered <= Receive(r, chunk).delivered
  {
    hide Lines, Residual;
  }

  /** s' heard nothing that s had not. */
  ghost predicate SameHearing(s: State, s': State) {
    s'.intake == s.intake && s'.heard == s.heard && s'.nextClient == s.nextClient && s'.clients == s.clients
  }

  lemma SectionsHearNothing(s: State, t: Tid, c: ClientId, id: string, arg: string)
    ensures SameHearing(s, ClaimStep(s, t, c, id, arg)) && SameHearing(s, CancelStep(s, t, c, id, arg))
  {
    hide Claimed, CancelApplies;
  }

  lemma DispatchHearsNothing(s: State, t: Tid, c: ClientId, line: Command, yes: bool)
    ensures SameHearing(s, DispatchStep(s, t, c, line, yes))
  {
    hide ClaimStep, CancelStep;
    if line.Motion? { SectionsHearNothing(s, t, c, line.id, line.cmd); }
    if line.Cancel? { SectionsHearNothing(s, t, c, line.id, line.target); }
  }

  lemma IoHearsNothing(s: State, t: Tid, pc: Pc, yes: bool)
    requires IoPc(pc)
    ensures SameHearing(s, IoStep(s, t, pc, yes))
  {
    hide DispatchStep;
    if pc.Dispatch? { DispatchHearsNothing(s, t, pc.from, pc.line, yes); }
  }

  lemma StopHearsNothing(s: State, t: Tid, pc: Pc, yes: bool)
    requires StopPc(pc)
    ensures SameHearing(s, StopStep(s, t, pc, yes))
  {
    hide StopRequested;
  }

  lemma AnswerHearsNothing(s: State, t: Tid, pc: Pc)
    requires AnswerPc(pc)
    ensures SameHearing(s, AnswerStep(s, t, pc))
  {}

  lemma DeadmanHearsNothing(s: State, t: Tid, pc: Pc, yes: bool)
    requires DeadmanPc(pc)
    ensures SameHearing(s, DeadmanStep(s, t, pc, yes))
  {}

  /** Only reads and connects touch what Hearing sees. */
  lemma DoHearsNothing(s: State, t: Tid, yes: bool)
    requires t in s.threads
    ensures SameHearing(s, DoStep(s, t, yes))
  {
    hide IoStep, StopStep, AnswerStep, DeadmanStep, SameHearing;
    var pc := s.threads[t];
    if IoPc(pc) { IoHearsNothing(s, t, pc, yes); }
    else if StopPc(pc) { StopHearsNothing(s, t, pc, yes); }
    else if AnswerPc(pc) { AnswerHearsNothing(s, t, pc); }
    else { DeadmanHearsNothing(s, t, pc, yes); }
  }

  lemma HearingKept(s: State, a: Action)
    requires Hearing(s) && Enabled(s, a)
    ensures Hearing(Next(s, a))
  {
    hide HeardFrom, Completed, Fed, Tagged, DoStep;
    var s' := Next(s, a);
    match a
    case Do(t, yes) => DoHearsNothing(s, t, yes);
    case Connect =>
      forall c ensures HeardFrom(s'.intake, s'.heard, c) { OpenedHears(s.intake, s.heard, s.nextClient, c); }
    case Hear(from, chunk) =>
      forall c ensures HeardFrom(s'.intake, s'.heard, c) { FedHears(s.intake, s.heard, from, chunk, c); }
      assert s'.intake.rx.Keys == s.intake.rx.Keys by { FedKeys(s.intake, from, chunk); }
    case _ =>
  }

  lemma FedKeys(k: Intake, c: ClientId, chunk: Bytes)
    requires c in k.rx && c in k.stream
    ensures Fed(k, c, chunk).rx.Keys == k.rx.Keys
  {}

  lemma {:induction false} HearingInvariant(states: seq<State>, actions: seq<Action>, i: nat)
    requires Run(states, actions) && i < |states|
    ensures Hearing(states[i])
  {
    if i > 0 {
      HearingInvariant(states, actions, i - 1);
      var s, a := states[i - 1], actions[i - 1];
      assert Enabled(s, a) && states[(i - 1) + 1] == Next(s, a);
      hide Hearing, Enabled, Next;
      HearingKept(s, a);
    }
  }

  /** What a client has sent in a run so far, in its chunks. */
  function ChunksFrom(actions: seq<Action>, c: ClientId): seq<Bytes> {
    if actions == [] then []
    else
      var last := actions[|actions| - 1];
      ChunksFrom(actions[..|actions| - 1], c) + if last.Hear? && last.client == c then [last.chunk] else []
  }

  lemma ChunksSnoc(actions: seq<Action>, a: Action, c: ClientId)
    ensures ChunksFrom(actions + [a], c) == ChunksFrom(actions, c) + if a.Hear? && a.client == c then [a.chunk] else []
  {
    assert (actions + [a])[..|actions|] == actions;
  }

  lemma ConcatSnoc(chunks: seq<Bytes>, chunk: Bytes)
    ensures Concat(chunks + [chunk]) == Concat(chunks) + chunk
  {
    ConcatAppend(chunks, [chunk]);
    assert [chunk][1..] == [] && Concat([chunk]) == chunk + Concat([]);
  }

  ghost predicate Sent(k: Intake, actions: seq<Action>, c: ClientId) {
    && (c in k.stream ==> k.stream[c] == Concat(ChunksFrom(actions, c)))
    && (c !in k.stream ==> ChunksFrom(actions, c) == [])
  }

  lemma FedSent(k: Intake, actions: seq<Action>, from: ClientId, chunk: Bytes, c: ClientId)
    requires Sent(k, actions, c) && from in k.rx && from in k.stream
    ensures Sent(Fed(k, from, chunk), actions + [Hear(from, chunk)], c)
  {
    hide ChunksFrom, Concat, Receive;
    ChunksSnoc(actions, Hear(from, chunk), c);
    assert ChunksFrom(actions, c) + [] == ChunksFrom(actions, c);
    if from == c { ConcatSnoc(ChunksFrom(actions, c), chunk); }
  }

  lemma OpenedSent(k: Intake, actions: seq<Action>, id: ClientId, c: ClientId)
    requires Sent(k, actions, c) && id !in k.stream
    ensures Sent(Opened(k, id), actions + [Connect], c)
  {
    hide ChunksFrom, Concat;
    ChunksSnoc(actions, Connect, c);
    assert ChunksFrom(actions, c) + [] == ChunksFrom(actions, c);
    NoChunks();
  }

  lemma QuietSent(k: Intake, actions: seq<Action>, a: Action, c: ClientId)
    requires Sent(k, actions, c) && !a.Hear?
    ensures Sent(k, actions + [a], c)
  {
    hide ChunksFrom, Concat;
    ChunksSnoc(actions, a, c);
    assert ChunksFrom(actions, c) + [] == ChunksFrom(actions, c);
  }

  lemma SentKept(s: State, actions: seq<Action>, a: Action, c: ClientId)
    requires Hearing(s) && Enabled(s, a) && Sent(s.intake, actions, c)
    ensures Sent(Next(s, a).intake, actions + [a], c)
  {
    assert HeardFrom(s.intake, s.heard, s.nextClient);
    assert s.nextClient !in s.intake.stream;
    hide Sent, DoStep, HeardFrom, Completed, Fed, Opened, Tagged;
    match a
    case Hear(from, chunk) => FedSent(s.intake, actions, from, chunk, c);
    case Connect => OpenedSent(s.intake, actions, s.nextClient, c);
    case Do(t, yes) => DoHearsNothing(s, t, yes); QuietSent(s.intake, actions, a, c);
    case _ => QuietSent(s.intake, actions, a, c);
  }

  lemma NoChunks()
    ensures Concat([]) == [] && Lines([]) == []
  {
    FreshFramed();
  }

  lemma {:induction false} SentInvariant(states: seq<State>, actions: seq<Action>, i: nat, c: ClientId)
    requires Run(states, actions) && i < |states|
    ensures Sent(states[i].intake, actions[..i], c)
  {
    if i > 0 {
      SentInvariant(states, actions, i - 1, c);
      HearingInvariant(states, actions, i - 1);
      var s, a := states[i - 1], actions[i - 1];
      assert Enabled(s, a) && states[(i - 1) + 1] == Next(s, a);
      assert actions[..i] == actions[..i - 1] + [a];
      hide Hearing, Enabled, Next, Sent;
      SentKept(s, actions[..i - 1], a, c);
    }
  }

  /** From bytes to acks, in every run: the acks queued for a client are those owed to the parsed
      lines of the very bytes received from it, however they were chunked and whatever the other
      threads did: a prefix at any moment, all of them between two reads. */
  lemma EndToEnd(states: seq<State>, actions: seq<Action>, i: nat, c: ClientId)
    requires Run(states, actions) && i < |states|
    ensures var s := states[i];
            var owed := OwedIds(Parsed(s.intake.parse, Lines(Concat(ChunksFrom(actions[..i], c)))));
            && Mine(Acked(s.outbox), c) <= owed
            && (s.io.None? && s.inbox == [] ==> Mine(Acked(s.outbox), c) == owed)
  {
    hide Lines, Acked, Mine, OwedIds, LinesFrom, Run, Concat, ChunksFrom;
    AckPerLine(states, actions, i, c);
    HearingInvariant(states, actions, i);
    SentInvariant(states, actions, i, c);
    NoChunks();
    assert HeardFrom(states[i].intake, states[i].heard, c);
  }
}
