/** The TCP line server: per-client receive and send buffers, and the callbacks it makes. */
module JsonLineServer {
  import opened Wire

  type ClientId = nat

  datatype Client = Client(fd: int, rx: Bytes, tx: Bytes)

  datatype Callback = Connected(id: ClientId) | Line(id: ClientId, line: Bytes) | Disconnected(id: ClientId)

  /** One recv() outcome: some bytes, end of stream, EAGAIN, EINTR, or another error. */
  datatype Recv = Data(bytes: Bytes) | Fin | Drained | Interrupted | Broken

  /** One send() outcome: the kernel took n bytes, EAGAIN, EINTR, or another error. */
  datatype Send = Took(n: nat) | Full | Interrupt | Broke

  /** One accept() outcome: the descriptor, whether its address is allowed, and whether it
      could be made non-blocking. */
  datatype Arrival = Arrival(fd: int, allowed: bool, nonBlocking: bool)

  // ---------- effect of each critical section on the client table ----------

  function Enqueue(c: Client, line: Bytes): Client { c.(tx := c.tx + (line + [LF])) }

  function EnqueueAll(clients: map<ClientId, Client>, line: Bytes): map<ClientId, Client> {
    map id | id in clients :: Enqueue(clients[id], line)
  }

  /** Every client's queue grows by the line, and nothing else changes. */
  lemma QueuedEach(clients: map<ClientId, Client>, queued: map<ClientId, seq<Bytes>>, line: Bytes)
    ensures var after := EnqueueAll(clients, line);
            && after.Keys == clients.Keys
            && (forall id :: id in clients ==>
                  && after[id].tx == clients[id].tx + line + [LF] && after[id].rx == clients[id].rx && after[id].fd == clients[id].fd
                  && after[id] == Enqueue(clients[id], line))
    ensures var after := QueueAll(queued, clients.Keys, line);
            && after.Keys == queued.Keys
            && (forall id :: id in queued ==> after[id] == queued[id] + (if id in clients then [line] else []))
            && (clients == map[] ==> after == queued && EnqueueAll(clients, line) == clients)
  {
    forall id | id in clients ensures EnqueueAll(clients, line)[id].tx == clients[id].tx + line + [LF] {
      assert clients[id].tx + (line + [LF]) == clients[id].tx + line + [LF];
    }
  }

  function EnqueueTo(clients: map<ClientId, Client>, id: ClientId, line: Bytes): map<ClientId, Client> {
    if id in clients then clients[id := Enqueue(clients[id], line)] else clients
  }

  function QueueAll(queued: map<ClientId, seq<Bytes>>, ids: set<ClientId>, line: Bytes): map<ClientId, seq<Bytes>> {
    map id | id in queued :: if id in ids then queued[id] + [line] else queued[id]
  }

  /** n bytes of the client's queue have been taken by the kernel. */
  function Shift(clients: map<ClientId, Client>, id: ClientId, n: nat): map<ClientId, Client>
    requires id in clients && n <= |clients[id].tx|
  {
    clients[id := clients[id].(tx := clients[id].tx[n..])]
  }

  // ---------- scripts of socket outcomes ----------

  /** The data a read loop sees before its terminating outcome. */
  function Chunks(script: seq<Recv>): seq<Bytes> {
    if script == [] then []
    else match script[0]
      case Data(bytes) => [bytes] + Chunks(script[1..])
      case Interrupted => Chunks(script[1..])
      case _ => []
  }

  /** The outcome that ends the loop; an exhausted script means nothing more to read. */
  function Ending(script: seq<Recv>): Recv {
    if script == [] then Drained
    else if script[0].Data? || script[0].Interrupted? then Ending(script[1..])
    else script[0]
  }

  /** recv() never returns more than the buffer it was given, and 0 bytes means FIN. */
  ghost predicate RecvContract(script: seq<Recv>) {
    forall i :: 0 <= i < |script| && script[i].Data? ==> 0 < |script[i].bytes| <= RECV_BYTES
  }

  lemma {:induction false} ChunksAreChunked(script: seq<Recv>)
    requires RecvContract(script)
    ensures Chunked(Chunks(script))
  {
    if script != [] {
      assert RecvContract(script[1..]);
      ChunksAreChunked(script[1..]);
      if script[0].Data? {
        var rest := Chunks(script[1..]);
        forall i | 0 <= i < |Chunks(script)| ensures |Chunks(script)[i]| <= RECV_BYTES {
          if i > 0 { assert Chunks(script)[i] == rest[i - 1]; }
        }
      }
    }
  }

  /** What a read loop hands on: every piece of data, in order, nothing for an interrupted call, and
      nothing from the first other outcome on. */
  lemma {:induction false} ChunksLaws(before: seq<Recv>, o: Recv, after: seq<Recv>)
    ensures (forall k :: 0 <= k < |before| ==> before[k].Data?) ==>
              |Chunks(before)| == |before| && forall k :: 0 <= k < |before| ==> Chunks(before)[k] == before[k].bytes
    ensures o.Interrupted? ==> Chunks(before + [o] + after) == Chunks(before + after)
    ensures o.Fin? || o.Drained? || o.Broken? ==> Chunks(before + [o] + after) == Chunks(before)
  {
    if before == [] {
      assert [] + [o] + after == [o] + after && [] + after == after && ([o] + after)[1..] == after;
    } else {
      assert (before + [o] + after)[1..] == before[1..] + [o] + after;
      assert (before + after)[1..] == before[1..] + after;
      ChunksLaws(before[1..], o, after);
    }
  }

  /** The first outcome other than data and EINTR is the one that ends the loop. */
  lemma {:induction false} EndingIs(script: seq<Recv>, k: nat)
    requires k < |script| && !script[k].Data? && !script[k].Interrupted?
    requires forall j :: 0 <= j < k ==> script[j].Data? || script[j].Interrupted?
    ensures Ending(script) == script[k]
  {
    if k > 0 { EndingIs(script[1..], k - 1); }
  }

  /** The loop ends well exactly when no outcome other than data and EINTR comes, or the first that
      does is EAGAIN. */
  lemma {:induction false} EndingMeans(script: seq<Recv>)
    ensures Ending(script) == Drained <==>
      forall k :: (0 <= k < |script| && !script[k].Data? && !script[k].Interrupted?
                   && forall j :: 0 <= j < k ==> script[j].Data? || script[j].Interrupted?) ==> script[k].Drained?
  {
    if script != [] && (script[0].Data? || script[0].Interrupted?) {
      var rest := script[1..];
      EndingMeans(rest);
      if Ending(rest) == Drained {
        forall k | 0 <= k < |script| && !script[k].Data? && !script[k].Interrupted?
                   && (forall j :: 0 <= j < k ==> script[j].Data? || script[j].Interrupted?)
          ensures script[k].Drained?
        {
          assert rest[k - 1] == script[k];
          forall j | 0 <= j < k - 1 ensures rest[j].Data? || rest[j].Interrupted? { assert rest[j] == script[j + 1]; }
        }
      } else {
        var k :| 0 <= k < |rest| && !rest[k].Data? && !rest[k].Interrupted? && !rest[k].Drained?
                 && (forall j :: 0 <= j < k ==> rest[j].Data? || rest[j].Interrupted?);
        assert script[k + 1] == rest[k];
        forall j | 0 <= j < k + 1 ensures script[j].Data? || script[j].Interrupted? {
          if j > 0 { assert script[j] == rest[j - 1]; }
        }
      }
    }
  }

  /** The descriptors that neither the address filter nor the socket setup turns away, in order. */
  function Eligible(arrivals: seq<Arrival>): seq<int> {
    if arrivals == [] then []
    else
      var last := arrivals[|arrivals| - 1];
      Eligible(arrivals[..|arrivals| - 1]) + if last.allowed && last.nonBlocking then [last.fd] else []
  }

  lemma EligibleSnoc(arrivals: seq<Arrival>, a: Arrival)
    ensures Eligible(arrivals + [a]) == Eligible(arrivals) + if a.allowed && a.nonBlocking then [a.fd] else []
  {
    assert (arrivals + [a])[..|arrivals|] == arrivals;
  }

  lemma NoneEligible()
    ensures Eligible([]) == []
  {}

  lemma {:induction false} EligibleCounts(arrivals: seq<Arrival>)
    ensures |Eligible(arrivals)| == |set k | 0 <= k < |arrivals| && arrivals[k].allowed && arrivals[k].nonBlocking|
  {
    if arrivals == [] {
    } else {
      var n := |arrivals| - 1;
      var most := arrivals[..n];
      EligibleCounts(most);
      var before := set k | 0 <= k < |most| && most[k].allowed && most[k].nonBlocking;
      var all := set k | 0 <= k < |arrivals| && arrivals[k].allowed && arrivals[k].nonBlocking;
      assert all == before + (if arrivals[n].allowed && arrivals[n].nonBlocking then {n} else {});
    }
  }

  function Min(a: nat, b: nat): nat { if a < b then a else b }

  /** How many of `size` queued bytes leave under the given send() outcomes. */
  function Flushed(size: nat, script: seq<Send>): (n: nat)
    ensures n <= size
    decreases |script|
  {
    if size == 0 || script == [] then 0
    else match script[0]
      case Took(n) => if n == 0 then 0 else Min(n, size) + Flushed(size - Min(n, size), script[1..])
      case Interrupt => Flushed(size, script[1..])
      case _ => 0
  }

  /** Whether the connection survives the flush. */
  function Survives(size: nat, script: seq<Send>): bool
    decreases |script|
  {
    if size == 0 || script == [] then true
    else match script[0]
      case Took(n) => n != 0 && Survives(size - Min(n, size), script[1..])
      case Interrupt => Survives(size, script[1..])
      case Full => true
      case Broke => false
  }

  /** All the bytes some sends took. */
  function Offered(script: seq<Send>): nat {
    if script == [] then 0 else (if script[0].Took? then script[0].n else 0) + Offered(script[1..])
  }

  /** Where a flush ends: at the first outcome that is neither EINTR nor a send that took something.
      Until then the sends empty the queue as far as they reach; the connection is lost exactly
      when they leave something queued and that outcome is an error or a send of nothing. */
  lemma {:induction false} FlushLaw(size: nat, script: seq<Send>) returns (stop: nat)
    ensures stop <= |script| && (forall j :: 0 <= j < stop ==> script[j].Interrupt? || (script[j].Took? && script[j].n > 0))
    ensures stop < |script| ==> !script[stop].Interrupt? && !(script[stop].Took? && script[stop].n > 0)
    ensures Flushed(size, script) == if Offered(script[..stop]) < size then Offered(script[..stop]) else size
    ensures !Survives(size, script) <==>
              stop < |script| && Offered(script[..stop]) < size && (script[stop] == Broke || script[stop] == Took(0))
    decreases |script|
  {
    if script == [] {
      return 0;
    }
    if !script[0].Interrupt? && !(script[0].Took? && script[0].n > 0) {
      assert script[..0] == [];
      return 0;
    }
    var left := if script[0].Took? then size - Min(script[0].n, size) else size;
    var rest := FlushLaw(left, script[1..]);
    stop := rest + 1;
    assert script[..stop][1..] == script[1..][..rest];
  }

  /** A client is lost to a flush exactly when some outcome is an error or a send of nothing, only
      EINTR and sends that took something come before it, and those leave part of the queue. */
  lemma FlushOutcomes(size: nat, script: seq<Send>)
    ensures !Survives(size, script) <==>
      exists k :: 0 <= k < |script| && (script[k] == Broke || script[k] == Took(0))
                  && (forall j :: 0 <= j < k ==> script[j].Interrupt? || (script[j].Took? && script[j].n > 0))
                  && Offered(script[..k]) < size
  {
    hide Survives, Flushed, Offered;
    var stop := FlushLaw(size, script);
    assert Offered(script[..stop]) >= 0;
    forall k | 0 <= k < |script| && (script[k] == Broke || script[k] == Took(0))
               && (forall j :: 0 <= j < k ==> script[j].Interrupt? || (script[j].Took? && script[j].n > 0))
      ensures k == stop
    {}
  }

  // ---------- what one client's handlers were given ----------

  function LinesOf(calls: seq<Callback>, id: ClientId): seq<Bytes> {
    if calls == [] then []
    else
      var last := calls[|calls| - 1];
      LinesOf(calls[..|calls| - 1], id) + if last.Line? && last.id == id then [last.line] else []
  }

  lemma LinesOfSnoc(calls: seq<Callback>, call: Callback, id: ClientId)
    ensures LinesOf(calls + [call], id) ==
            LinesOf(calls, id) + if call.Line? && call.id == id then [call.line] else []
  {
    assert (calls + [call])[..|calls|] == calls;
  }

  ghost predicate HandedOver(calls: seq<Callback>, id: ClientId, stream: Bytes) {
    LinesOf(calls, id) == Lines(stream)
  }

  ghost predicate Buffers(c: Client, stream: Bytes, wire: Bytes, queued: seq<Bytes>) {
    c.rx == Residual(stream) && wire + c.tx == Unlines(queued)
  }

  ghost predicate Consistent(clients: map<ClientId, Client>, nextId: ClientId, calls: seq<Callback>,
                             stream: map<ClientId, Bytes>, queued: map<ClientId, seq<Bytes>>, wire: map<ClientId, Bytes>)
  {
    && stream.Keys == queued.Keys == wire.Keys
    && clients.Keys <= stream.Keys
    && (forall id :: id in stream ==> id < nextId && HandedOver(calls, id, stream[id]))
    && (forall id :: id in clients ==> Buffers(clients[id], stream[id], wire[id], queued[id]))
    && (forall call :: call in calls ==> call.id < nextId)
  }

  class Server {
    var clients: map<ClientId, Client>
    var nextId: ClientId
    var running: bool
    var maxClients: int
    var wakeups: nat                          // bytes written to the self-pipe
    var calls: seq<Callback>                  // callbacks made, in order
    ghost var stream: map<ClientId, Bytes>        // every byte received from a client
    ghost var queued: map<ClientId, seq<Bytes>>   // every line enqueued for a client
    ghost var wire: map<ClientId, Bytes>          // every byte the kernel took for a client

    /** Framing: the buffer is the residual of the stream and its lines were handed over.
        Conservation: bytes on the wire followed by `tx` are the enqueued lines. */
    ghost predicate Valid()
      reads this
    {
      Consistent(clients, nextId, calls, stream, queued, wire)
    }

    ghost function ReceiverOf(id: ClientId): Receiver
      reads this
      requires id in clients
    {
      Receiver(clients[id].rx, LinesOf(calls, id), |clients[id].rx| <= MAX_LINE_BYTES)
    }

    constructor (maxClients: int)
      ensures Valid() && clients == map[] && nextId == 1 && running && calls == []
      ensures this.maxClients == if maxClients > 0 then maxClients else 1
    {
      this.clients, this.nextId, this.running := map[], 1, true;
      this.maxClients := if maxClients > 0 then maxClients else 1;
      this.wakeups, this.calls := 0, [];
      this.stream, this.queued, this.wire := map[], map[], map[];
    }

    method Wake()
      modifies this`wakeups
      ensures wakeups == old(wakeups) + 1
    {
      wakeups := wakeups + 1;
    }

    /** The loop over the client table, under the lock. */
    method AppendToAll(line: Bytes)
      modifies this`clients
      ensures clients == EnqueueAll(old(clients), line)
    {
      ghost var before := clients;
      var todo := clients.Keys;
      while todo != {}
        invariant todo <= clients.Keys == before.Keys
        invariant forall id :: id in todo ==> clients[id] == before[id]
        invariant forall id :: id in before.Keys - todo ==> clients[id] == Enqueue(before[id], line)
        decreases |todo|
      {
        var id :| id in todo;
        clients := clients[id := Enqueue(clients[id], line)];
        todo := todo - {id};
      }
    }

    method Broadcast(line: Bytes)
      requires Valid()
      modifies this`clients, this`wakeups, this`queued
      ensures Valid()
      ensures clients == EnqueueAll(old(clients), line)
      ensures queued == QueueAll(old(queued), clients.Keys, line)
      ensures clients.Keys == old(clients).Keys && queued.Keys == old(queued).Keys
      ensures forall id :: id in clients ==>
                && clients[id].tx == old(clients)[id].tx + line + [LF]
                && clients[id].rx == old(clients)[id].rx && clients[id].fd == old(clients)[id].fd
      ensures forall id :: id in queued ==> queued[id] == old(queued)[id] + (if id in clients then [line] else [])
      ensures wakeups == if old(clients) == map[] then old(wakeups) else old(wakeups) + 1
    {
      hide Buffers, HandedOver, EnqueueAll, QueueAll;
      QueuedEach(clients, queued, line);
      if clients == map[] { return; }
      AppendToAll(line);
      queued := QueueAll(queued, clients.Keys, line);
      forall id | id in clients
        ensures Buffers(clients[id], stream[id], wire[id], queued[id])
      {
        assert id in old(clients).Keys && id in old(queued).Keys;
        QueueOne(old(clients)[id], stream[id], wire[id], old(queued)[id], line);
      }
      Wake();
    }

    method SendTo(id: ClientId, line: Bytes)
      requires Valid()
      modifies this`clients, this`wakeups, this`queued
      ensures Valid()
      ensures clients == EnqueueTo(old(clients), id, line)
      ensures clients.Keys == old(clients).Keys
      ensures forall other :: other in clients ==>
                && clients[other].tx == old(clients)[other].tx + (if other == id then line + [LF] else [])
                && clients[other].rx == old(clients)[other].rx && clients[other].fd == old(clients)[other].fd
      ensures wakeups == if id in old(clients) then old(wakeups) + 1 else old(wakeups)
      ensures queued == if id in old(clients) then old(queued)[id := old(queued)[id] + [line]] else old(queued)
    {
      hide Buffers, HandedOver;
      if id !in clients { return; }
      assert id in queued.Keys;
      QueueOne(clients[id], stream[id], wire[id], queued[id], line);
      clients := clients[id := Enqueue(clients[id], line)];
      queued := queued[id := queued[id] + [line]];
      Wake();
    }

    /** n bytes of the queue were accepted by send(). */
    method Sent(id: ClientId, n: nat)
      requires Valid() && id in clients && n <= |clients[id].tx|
      modifies this`clients, this`wire
      ensures Valid()
      ensures clients == Shift(old(clients), id, n)
      ensures wire == old(wire)[id := old(wire)[id] + old(clients)[id].tx[..n]]
    {
      hide HandedOver, Unlines;
      var tx := clients[id].tx;
      assert id in wire.Keys;
      assert wire[id] + tx[..n] + tx[n..] == wire[id] + tx by { assert tx[..n] + tx[n..] == tx; }
      wire := wire[id := wire[id] + tx[..n]];
      clients := clients[id := clients[id].(tx := tx[n..])];
    }

    /** Called with the lock held: sends until the queue is empty or the socket refuses. */
    method FlushTx(id: ClientId, script: seq<Send>) returns (alive: bool, ghost stop: nat)
      requires Valid() && id in clients
      modifies this`clients, this`wire
      ensures Valid()
      ensures clients == Shift(old(clients), id, Flushed(|old(clients)[id].tx|, script))
      ensures wire == old(wire)[id := old(wire)[id] + old(clients)[id].tx[..Flushed(|old(clients)[id].tx|, script)]]
      ensures alive == Survives(|old(clients)[id].tx|, script)
      ensures !alive <==>
        exists k :: 0 <= k < |script| && (script[k] == Broke || script[k] == Took(0))
                    && (forall j :: 0 <= j < k ==> script[j].Interrupt? || (script[j].Took? && script[j].n > 0))
                    && Offered(script[..k]) < |old(clients)[id].tx|
      ensures stop <= |script| && (forall j :: 0 <= j < stop ==> script[j].Interrupt? || (script[j].Took? && script[j].n > 0))
      ensures stop < |script| ==> !script[stop].Interrupt? && !(script[stop].Took? && script[stop].n > 0)
      ensures var tx, all := old(clients)[id].tx, Offered(script[..stop]);
              var moved := if all < |tx| then all else |tx|;
              && clients == old(clients)[id := old(clients)[id].(tx := tx[moved..])]
              && wire == old(wire)[id := old(wire)[id] + tx[..moved]]
    {
      hide Valid, Flushed, Survives, Offered, Shift;
      ShiftMeans(clients, id, 0);
      var i := 0;
      ghost var tx := clients[id].tx;
      ghost var sent := wire[id] by { assert id in wire by { Present(id); } }
      ghost var gone: nat := 0;
      assert tx[0..] == tx && sent + tx[..0] == sent && script[0..] == script;
      alive := true;
      while clients[id].tx != []
        invariant 0 <= i <= |script| && gone <= |tx| && Valid()
        invariant id in clients && clients == Shift(old(clients), id, gone) && clients[id].tx == tx[gone..]
        invariant id in wire && wire == old(wire)[id := sent + tx[..gone]]
        invariant alive && Flushed(|tx|, script) == gone + Flushed(|tx| - gone, script[i..])
        invariant Survives(|tx|, script) == Survives(|tx| - gone, script[i..])
        decreases |script| - i
      {
        OneSend(|tx| - gone, script[i..]);
        if i == |script| { break; }
        var outcome := script[i];
        assert script[i..][1..] == script[i + 1..];
        i := i + 1;
        match outcome
        case Took(n) =>
          if n == 0 { alive := false; break; }
          var taken := Min(n, |clients[id].tx|);
          Sent(id, taken);
          Split(tx, sent, gone, taken);
          ShiftTwice(old(clients), id, gone, taken);
          gone := gone + taken;
          ShiftMeans(old(clients), id, gone);
        case Interrupt =>
        case Full => break;
        case Broke => alive := false; break;
      }
      OneSend(|tx| - gone, script[i..]);
      ShiftMeans(old(clients), id, gone);
      stop := FlushLaw(|tx|, script);
      FlushOutcomes(|tx|, script);
    }

    static lemma ShiftMeans(clients: map<ClientId, Client>, id: ClientId, n: nat)
      requires id in clients && n <= |clients[id].tx|
      ensures id in Shift(clients, id, n) && Shift(clients, id, n)[id].tx == clients[id].tx[n..]
      ensures Shift(clients, id, n) == clients[id := clients[id].(tx := clients[id].tx[n..])]
      ensures n == 0 ==> Shift(clients, id, n) == clients
    {
      assert clients[id].tx[0..] == clients[id].tx;
    }

    static lemma ShiftTwice(clients: map<ClientId, Client>, id: ClientId, n: nat, m: nat)
      requires id in clients && n + m <= |clients[id].tx| && id in Shift(clients, id, n) && m <= |Shift(clients, id, n)[id].tx|
      ensures Shift(Shift(clients, id, n), id, m) == Shift(clients, id, n + m)
    {
      Split(clients[id].tx, [], n, m);
    }

    static lemma OneSend(size: nat, script: seq<Send>)
      ensures size == 0 || script == [] ==> Flushed(size, script) == 0 && Survives(size, script)
      ensures size > 0 && script != [] ==>
                match script[0]
                case Took(n) =>
                  var taken := Min(n, size);
                  && Flushed(size, script) == (if n == 0 then 0 else taken + Flushed(size - taken, script[1..]))
                  && Survives(size, script) == (n != 0 && Survives(size - taken, script[1..]))
                case Interrupt =>
                  Flushed(size, script) == Flushed(size, script[1..]) && Survives(size, script) == Survives(size, script[1..])
                case Full => Flushed(size, script) == 0 && Survives(size, script)
                case Broke => Flushed(size, script) == 0 && !Survives(size, script)
    {}

    lemma Present(id: ClientId)
      requires Valid() && id in clients
      ensures id in wire && id in stream && id in queued
    {
      hide Buffers, HandedOver;
      assert id in stream.Keys;
    }

    /** The inner loop of the read path: cuts every complete line off the buffer. */
    method ExtractLines(id: ClientId) returns (lines: seq<Bytes>)
      requires id in clients
      modifies this`clients
      ensures clients == old(clients)[id := old(clients)[id].(rx := Residual(old(clients)[id].rx))]
      ensures lines == Lines(old(clients)[id].rx)
    {
      hide Lines, Unlines, Residual, Segments, Deliver, StripCr;
      ghost var whole := clients[id].rx;
      ghost var cut: seq<Bytes> := [];
      lines := [];
      var pos := FirstLf(clients[id].rx);
      assert cut + Segments(whole) == Segments(whole);
      NothingCut();
      while pos < |clients[id].rx|
        invariant id in clients && clients == old(clients)[id := old(clients)[id].(rx := clients[id].rx)]
        invariant pos == FirstLf(clients[id].rx)
        invariant Segments(whole) == cut + Segments(clients[id].rx)
        invariant Residual(whole) == Residual(clients[id].rx)
        invariant lines == Deliver(cut)
        decreases |clients[id].rx|
      {
        var rx := clients[id].rx;
        CutLine(cut, rx);
        var line := rx[..pos];
        cut := cut + [line];
        clients := clients[id := clients[id].(rx := rx[pos + 1..])];
        if line != [] && line[|line| - 1] == CR { line := line[..|line| - 1]; }
        if line != [] { lines := lines + [line]; }
        pos := FirstLf(clients[id].rx);
      }
      NoLineLeft(clients[id].rx);
      assert cut + [] == cut;
      assert Lines(whole) == lines by { LinesDef(whole); }
    }

    /** Runs the line handler for each extracted line, outside the lock. */
    method DeliverLines(id: ClientId, lines: seq<Bytes>)
      modifies this`calls
      ensures LinesOf(calls, id) == LinesOf(old(calls), id) + lines
      ensures forall other :: other != id ==> LinesOf(calls, other) == LinesOf(old(calls), other)
      ensures forall call :: call in calls ==> call in old(calls) || call.id == id
    {
      var i := 0;
      assert lines[..0] == [];
      while i < |lines|
        invariant 0 <= i <= |lines|
        invariant LinesOf(calls, id) == LinesOf(old(calls), id) + lines[..i]
        invariant forall other :: other != id ==> LinesOf(calls, other) == LinesOf(old(calls), other)
        invariant forall call :: call in calls ==> call in old(calls) || call.id == id
      {
        var call := Line(id, lines[i]);
        forall other ensures LinesOf(calls + [call], other) ==
                             LinesOf(calls, other) + if other == id then [lines[i]] else []
        {
          LinesOfSnoc(calls, call, other);
        }
        assert lines[..i] + [lines[i]] == lines[..i + 1];
        calls := calls + [call];
        i := i + 1;
      }
      assert lines[..|lines|] == lines;
    }

    /** One recv() result with data: the locked section, then the callbacks outside it. */
    method ReadChunk(id: ClientId, bytes: Bytes) returns (ok: bool)
      requires Valid() && id in clients && |clients[id].rx| <= MAX_LINE_BYTES
      requires |bytes| <= RECV_BYTES
      modifies this`clients, this`calls, this`stream
      ensures Valid() && clients.Keys == old(clients).Keys
      ensures OthersUnchanged(id, old(clients), old(calls))
      ensures ReceiverOf(id) == Receive(old(ReceiverOf(id)), bytes)
      ensures clients[id].tx == old(clients)[id].tx
      ensures ok <==> |clients[id].rx| <= 65536
    {
      hide Lines, Unlines, LinesOf, Residual, Consistent;
      Present(id);
      assert Consistent(clients, nextId, calls, stream, queued, wire);
      var c := clients[id];
      clients := clients[id := c.(rx := c.rx + bytes)];
      var lines := ExtractLines(id);
      ok := |clients[id].rx| <= MAX_LINE_BYTES;
      if ok { DeliverLines(id, lines); }
      ghost var s := stream[id];
      stream := stream[id := s + bytes];
      assert clients == old(clients)[id := c.(rx := Residual(c.rx + bytes))];
      ReadConsistent(old(clients), nextId, old(calls), calls, old(stream), queued, wire, id, bytes);
    }

    ghost predicate OthersUnchanged(id: ClientId, before: map<ClientId, Client>, madeBefore: seq<Callback>)
      reads this
    {
      && (forall other :: other in clients && other in before && other != id ==> clients[other] == before[other])
      && (forall other :: other != id ==> LinesOf(calls, other) == LinesOf(madeBefore, other))
    }

    /** Reads until the socket has nothing more, handing over every completed line; false means
        the connection is to be dropped. */
    method HandleReadable(id: ClientId, script: seq<Recv>) returns (alive: bool)
      requires Valid() && RecvContract(script)
      requires id in clients ==> |clients[id].rx| <= MAX_LINE_BYTES
      modifies this`clients, this`calls, this`stream
      ensures Valid() && clients.Keys == old(clients).Keys
      ensures OthersUnchanged(id, old(clients), old(calls))
      ensures id in clients ==>
                && ReceiverOf(id) == ReceiveAll(old(ReceiverOf(id)), Chunks(script))
                && clients[id].tx == old(clients)[id].tx
                && (alive <==>
                      && ReceiverOf(id).open
                      && forall k :: (0 <= k < |script| && !script[k].Data? && !script[k].Interrupted?
                                      && forall j :: 0 <= j < k ==> script[j].Data? || script[j].Interrupted?) ==> script[k].Drained?)
    {
      hide Valid, LinesOf, ReceiveAll, Receive;
      if id !in clients { return false; }
      EndingMeans(script);
      var i := 0;
      ghost var r0 := ReceiverOf(id);
      assert script[0..] == script;
      while i < |script|
        invariant 0 <= i <= |script| && Valid() && id in clients
        invariant clients.Keys == old(clients).Keys && |clients[id].rx| <= MAX_LINE_BYTES
        invariant OthersUnchanged(id, old(clients), old(calls))
        invariant ReceiveAll(r0, Chunks(script)) == ReceiveAll(ReceiverOf(id), Chunks(script[i..]))
        invariant Ending(script) == Ending(script[i..])
        invariant clients[id].tx == old(clients)[id].tx
      {
        var outcome := script[i];
        assert script[i..][1..] == script[i + 1..];
        i := i + 1;
        match outcome
        case Data(bytes) =>
          ReceiveNext(ReceiverOf(id), bytes, Chunks(script[i..]));
          var ok := ReadChunk(id, bytes);
          if !ok {
            ClosedStaysClosed(ReceiverOf(id), Chunks(script[i..]));
            return false;
          }
        case Interrupted =>
        case Drained => ReceiveNothing(ReceiverOf(id)); return true;
        case _ => ReceiveNothing(ReceiverOf(id)); return false;
      }
      ReceiveNothing(ReceiverOf(id));
      return true;
    }

    /** The insertion section of the accept path and the connect callback after it. */
    method Admit(fd: int)
      requires Valid()
      modifies this`clients, this`nextId, this`calls, this`stream, this`queued, this`wire
      ensures Valid()
      ensures nextId == old(nextId) + 1 && old(nextId) !in old(clients)
      ensures clients == old(clients)[old(nextId) := Client(fd, [], [])]
      ensures calls == old(calls) + [Connected(old(nextId))]
    {
      hide Consistent;
      AdmitKeeps(clients, nextId, calls, stream, queued, wire, fd);
      var id := nextId;
      nextId := nextId + 1;
      clients := clients[id := Client(fd, [], [])];
      stream, queued, wire := stream[id := []], queued[id := []], wire[id := []];
      calls := calls + [Connected(id)];
    }

    /** One pass of the accept loop over the waiting connections. */
    method AcceptNew(arrivals: seq<Arrival>)
      requires Valid() && |clients| <= maxClients
      modifies this`clients, this`nextId, this`calls, this`stream, this`queued, this`wire
      ensures Valid() && |clients| <= maxClients
      ensures forall id :: id in old(clients) ==> id in clients && clients[id] == old(clients)[id]
      ensures forall id :: id in clients && id !in old(clients) ==> old(nextId) <= id < nextId
      ensures nextId - old(nextId) == |clients| - |old(clients)| == |calls| - |old(calls)|
      ensures old(calls) <= calls
      ensures forall k :: |old(calls)| <= k < |calls| ==> calls[k] == Connected(old(nextId) + k - |old(calls)|)
      ensures |clients| - |old(clients)| <= |Eligible(arrivals)|
      ensures forall id :: old(nextId) <= id < nextId ==>
                id in clients && clients[id] == Client(Eligible(arrivals)[id - old(nextId)], [], [])
      ensures var offered := |old(clients)| + |set k | 0 <= k < |arrivals| && arrivals[k].allowed && arrivals[k].nonBlocking|;
              |clients| == if offered < maxClients then offered else maxClients
    {
      hide Valid, Eligible;
      var i := 0;
      NoneEligible();
      assert arrivals[..0] == [];
      while i < |arrivals|
        invariant 0 <= i <= |arrivals| && Valid() && |clients| <= maxClients
        invariant forall id :: id in old(clients) ==> id in clients && clients[id] == old(clients)[id]
        invariant forall id :: id in clients && id !in old(clients) ==> old(nextId) <= id < nextId
        invariant nextId - old(nextId) == |clients| - |old(clients)| == |calls| - |old(calls)| >= 0
        invariant old(calls) <= calls
        invariant forall k :: |old(calls)| <= k < |calls| ==> calls[k] == Connected(old(nextId) + k - |old(calls)|)
        invariant |clients| == Min(maxClients, |old(clients)| + |Eligible(arrivals[..i])|)
        invariant |clients| - |old(clients)| <= |Eligible(arrivals[..i])|
        invariant forall id :: old(nextId) <= id < nextId ==>
                    id in clients && clients[id] == Client(Eligible(arrivals[..i])[id - old(nextId)], [], [])
      {
        var a := arrivals[i];
        assert arrivals[..i + 1] == arrivals[..i] + [a];
        EligibleSnoc(arrivals[..i], a);
        i := i + 1;
        if !a.allowed || |clients| >= maxClients || !a.nonBlocking { continue; }
        Admit(a.fd);
      }
      assert arrivals[..i] == arrivals;
      EligibleCounts(arrivals);
    }

    /** Stopping twice is harmless: the second call finds nothing to wake or close. The join with
        the IO thread between the two parts is the subject of module ServerSystem. */
    method Stop()
      requires Valid()
      modifies this`running, this`wakeups, this`clients
      ensures Valid() && !running && clients == map[]
      ensures wakeups == if old(running) then old(wakeups) + 1 else old(wakeups)
    {
      hide HandedOver, Buffers;
      var wasRunning := running;
      running := false;
      if wasRunning { Wake(); }
      clients := map[];
    }

    method DropClient(id: ClientId)
      requires Valid()
      modifies this`clients, this`calls
      ensures Valid()
      ensures clients == old(clients) - {id}
      ensures calls == if id in old(clients) then old(calls) + [Disconnected(id)] else old(calls)
    {
      hide Buffers, Lines, LinesOf;
      if id !in clients { return; }
      clients := clients - {id};
      forall other ensures LinesOf(calls + [Disconnected(id)], other) == LinesOf(calls, other) {
        LinesOfSnoc(calls, Disconnected(id), other);
      }
      calls := calls + [Disconnected(id)];
    }
  }

  lemma Split(tx: Bytes, sent: Bytes, gone: nat, n: nat)
    requires gone + n <= |tx|
    ensures sent + tx[..gone] + tx[gone..][..n] == sent + tx[..gone + n]
    ensures tx[gone..][n..] == tx[gone + n..]
  {
    assert tx[..gone + n] == tx[..gone] + tx[gone..][..n];
  }

  lemma CutLine(cut: seq<Bytes>, rx: Bytes)
    requires FirstLf(rx) < |rx|
    ensures var line := rx[..FirstLf(rx)];
            && cut + Segments(rx) == cut + [line] + Segments(rx[FirstLf(rx) + 1..])
            && Residual(rx) == Residual(rx[FirstLf(rx) + 1..])
            && Deliver(cut + [line]) == Deliver(cut) + (if StripCr(line) == [] then [] else [StripCr(line)])
            && StripCr(line) == (if line != [] && line[|line| - 1] == CR then line[..|line| - 1] else line)
  {
    hide Unlines;
    var line := rx[..FirstLf(rx)];
    var rest := Segments(rx[FirstLf(rx) + 1..]);
    assert cut + [line] + rest == cut + ([line] + rest);
    DeliverAppend(cut, [line]);
    DeliverOne(line);
  }

  lemma DeliverOne(line: Bytes)
    ensures Deliver([line]) == if StripCr(line) == [] then [] else [StripCr(line)]
  {
    assert [line][1..] == [];
  }

  lemma NothingCut()
    ensures Deliver([]) == []
  {}

  lemma NoLineLeft(rx: Bytes)
    requires FirstLf(rx) == |rx|
    ensures Segments(rx) == [] && Residual(rx) == rx
  {}

  lemma LinesDef(s: Bytes)
    ensures Lines(s) == Deliver(Segments(s))
  {}

  lemma ReceiveNothing(r: Receiver)
    ensures ReceiveAll(r, []) == r
  {}

  lemma ReceiveNext(r: Receiver, chunk: Bytes, rest: seq<Bytes>)
    ensures ReceiveAll(r, [chunk] + rest) == ReceiveAll(Receive(r, chunk), rest)
  {}

  lemma EmptyStream()
    ensures Residual([]) == [] && Lines([]) == [] && Unlines([]) == []
  {
    assert FirstLf([]) == 0;
  }

  lemma StreamGrows(rx: Bytes, stream: Bytes, delivered: seq<Bytes>, bytes: Bytes)
    requires rx == Residual(stream) && delivered == Lines(stream)
    requires |bytes| <= RECV_BYTES
    ensures Residual(stream + bytes) == Residual(rx + bytes)
    ensures Lines(stream + bytes) == delivered + Lines(rx + bytes)
    ensures |Residual(rx + bytes)| > MAX_LINE_BYTES ==> Lines(stream + bytes) == delivered
  {
    SegmentsAppend(stream, bytes);
    LinesAppend(stream, bytes);
    if |Residual(rx + bytes)| > MAX_LINE_BYTES { CutDiscardsNoLine(rx, bytes); }
  }

  lemma ReadKeeps(c: Client, stream: Bytes, wire: Bytes, queued: seq<Bytes>, bytes: Bytes,
                  before: seq<Callback>, after: seq<Callback>, id: ClientId)
    requires |bytes| <= RECV_BYTES && Buffers(c, stream, wire, queued) && HandedOver(before, id, stream)
    requires var r := Receive(Receiver(c.rx, LinesOf(before, id), true), bytes); LinesOf(after, id) == r.delivered
    ensures Buffers(c.(rx := Residual(c.rx + bytes)), stream + bytes, wire, queued)
    ensures HandedOver(after, id, stream + bytes)
  {
    StreamGrows(c.rx, stream, LinesOf(before, id), bytes);
  }

  lemma ReadConsistent(clients: map<ClientId, Client>, nextId: ClientId, before: seq<Callback>, after: seq<Callback>,
                       stream: map<ClientId, Bytes>, queued: map<ClientId, seq<Bytes>>, wire: map<ClientId, Bytes>,
                       id: ClientId, bytes: Bytes)
    requires Consistent(clients, nextId, before, stream, queued, wire) && |bytes| <= RECV_BYTES
    requires id in clients && id in stream
    requires var r := Receive(Receiver(clients[id].rx, LinesOf(before, id), true), bytes); LinesOf(after, id) == r.delivered
    requires forall other :: other != id ==> LinesOf(after, other) == LinesOf(before, other)
    requires forall call :: call in after ==> call in before || call.id == id
    ensures Consistent(clients[id := clients[id].(rx := Residual(clients[id].rx + bytes))], nextId, after,
                       stream[id := stream[id] + bytes], queued, wire)
  {
    hide Lines, Unlines, LinesOf, Residual, HandedOver, Buffers, Receive;
    assert forall k :: k in clients ==> k in stream.Keys;
    var c, s := clients[id], stream[id];
    ReadKeeps(c, s, wire[id], queued[id], bytes, before, after, id);
    var clients', stream' := clients[id := c.(rx := Residual(c.rx + bytes))], stream[id := s + bytes];
    assert stream'.Keys == stream.Keys && clients'.Keys == clients.Keys;
    forall other | other in stream' ensures other < nextId && HandedOver(after, other, stream'[other]) {
      if other != id {
        assert stream'[other] == stream[other];
        SameLines(before, after, other, stream[other]);
      }
    }
    forall other | other in clients' ensures Buffers(clients'[other], stream'[other], wire[other], queued[other]) {
      if other != id { assert clients'[other] == clients[other] && stream'[other] == stream[other]; }
    }
  }

  lemma SameLines(before: seq<Callback>, after: seq<Callback>, id: ClientId, stream: Bytes)
    requires HandedOver(before, id, stream) && LinesOf(after, id) == LinesOf(before, id)
    ensures HandedOver(after, id, stream)
  {}

  lemma FirstContact(calls: seq<Callback>, id: ClientId, fd: int)
    requires forall call :: call in calls ==> call.id < id
    ensures HandedOver(calls + [Connected(id)], id, [])
    ensures Buffers(Client(fd, [], []), [], [], [])
  {
    EmptyStream();
    NoLinesYet(calls, id);
    LinesOfSnoc(calls, Connected(id), id);
  }

  lemma AdmitKeeps(clients: map<ClientId, Client>, nextId: ClientId, calls: seq<Callback>, stream: map<ClientId, Bytes>,
                   queued: map<ClientId, seq<Bytes>>, wire: map<ClientId, Bytes>, fd: int)
    requires Consistent(clients, nextId, calls, stream, queued, wire)
    ensures nextId !in clients
    ensures Consistent(clients[nextId := Client(fd, [], [])], nextId + 1, calls + [Connected(nextId)],
                       stream[nextId := []], queued[nextId := []], wire[nextId := []])
  {
    hide HandedOver, Buffers, LinesOf;
    FirstContact(calls, nextId, fd);
    assert forall id :: id in clients ==> id in stream.Keys;
    forall other | other in stream ensures HandedOver(calls + [Connected(nextId)], other, stream[other]) {
      LinesOfSnoc(calls, Connected(nextId), other);
      SameLines(calls, calls + [Connected(nextId)], other, stream[other]);
    }
  }

  lemma QueueOne(c: Client, stream: Bytes, wire: Bytes, lines: seq<Bytes>, line: Bytes)
    requires Buffers(c, stream, wire, lines)
    ensures Buffers(Enqueue(c, line), stream, wire, lines + [line])
  {
    UnlinesAppend(lines, [line]);
    assert Unlines([line]) == line + [LF];
    assert wire + (c.tx + (line + [LF])) == wire + c.tx + (line + [LF]);
  }

  lemma {:induction false} NoLinesYet(calls: seq<Callback>, id: ClientId)
    requires forall call :: call in calls ==> call.id < id
    ensures LinesOf(calls, id) == []
  {
    if calls != [] {
      assert calls[|calls| - 1] in calls;
      NoLinesYet(calls[..|calls| - 1], id);
    }
  }
}
