/** The GUI side of the wire: the reference client's receive loop and command sender. */
module PeerClient {
  import opened Wire
  import Server = JsonLineServer

  /** ASCII whitespace, as bytes.strip() removes it. */
  predicate Space(b: Byte) { b == 32 || 9 <= b <= 13 }

  predicate Blank(raw: Bytes) { forall i :: 0 <= i < |raw| ==> Space(raw[i]) }

  /** Raw lines that reach the JSON parser: every segment that is not blank. */
  function Kept(segs: seq<Bytes>): seq<Bytes> {
    if segs == [] then []
    else (if Blank(segs[0]) then [] else [segs[0]]) + Kept(segs[1..])
  }

  lemma {:induction false} KeptAppend(a: seq<Bytes>, b: seq<Bytes>)
    ensures Kept(a + b) == Kept(a) + Kept(b)
  {
    if a == [] {
      assert a + b == b;
    } else {
      assert (a + b)[1..] == a[1..] + b;
      KeptAppend(a[1..], b);
    }
  }

  /** A raw line is kept exactly when it holds a byte other than space, tab, LF, VT, FF and CR. */
  lemma KeptExactly(before: seq<Bytes>, raw: Bytes, after: seq<Bytes>)
    ensures Kept(before + [raw] + after) ==
            Kept(before)
            + (if exists i :: 0 <= i < |raw| && raw[i] != 32 && !(9 <= raw[i] <= 13) then [raw] else [])
            + Kept(after)
  {
    KeptAppend(before + [raw], after);
    KeptAppend(before, [raw]);
    KeptOne(raw);
    hide Kept;
  }

  function Decoded(s: Bytes): seq<Bytes> { Kept(Segments(s)) }

  lemma DecodedAppend(a: Bytes, b: Bytes)
    ensures Decoded(a + b) == Decoded(a) + Decoded(Residual(a) + b)
    ensures Residual(a + b) == Residual(Residual(a) + b)
  {
    SegmentsAppend(a, b);
    KeptAppend(Segments(a), Segments(Residual(a) + b));
  }

  /** What a JSON message looks like on the wire: no raw LF, not blank. */
  ghost predicate Message(line: Bytes) { LF !in line && !Blank(line) }

  lemma {:induction false} KeptMessages(lines: seq<Bytes>)
    requires forall i :: 0 <= i < |lines| ==> Message(lines[i])
    ensures Kept(lines) == lines
  {
    if lines != [] {
      assert Message(lines[0]);
      KeptMessages(lines[1..]);
    }
  }

  class Client {
    var rx: Bytes
    var messages: seq<Bytes>          // raw lines handed to the JSON parser
    var running: bool
    var pending: map<string, string>  // command id -> command name
    var sent: seq<Bytes>              // lines written to the socket, without their LF
    ghost var received: Bytes

    ghost predicate Valid()
      reads this`rx, this`messages, this`received
    {
      rx == Residual(received) && messages == Decoded(received)
    }

    constructor ()
      ensures Valid() && received == [] && running && sent == [] && pending == map[]
    {
      rx, messages, running, pending, sent, received := [], [], true, map[], [], [];
      assert FirstLf([]) == 0;
    }

    /** Registers the command, then sends its line. */
    method SendCmd(id: string, cmd: string, line: Bytes) returns (bytes: Bytes)
      modifies this`pending, this`sent
      ensures pending == old(pending)[id := cmd]
      ensures sent == old(sent) + [line] && Unlines(sent) == Unlines(old(sent)) + bytes
    {
      pending := pending[id := cmd];
      bytes := Transmit(id, line);
    }

    /** sock.sendall: only the line of a command already pending may leave, so that its ack finds it. */
    method Transmit(id: string, line: Bytes) returns (bytes: Bytes)
      requires id in pending
      modifies this`sent
      ensures bytes == line + [LF]
      ensures sent == old(sent) + [line] && Unlines(sent) == Unlines(old(sent)) + bytes
    {
      sent := sent + [line];
      bytes := line + [LF];
      UnlinesAppend(old(sent), [line]);
      assert Unlines([line]) == line + [LF];
    }

    /** One chunk: append it and take off every complete line. */
    method OnChunk(chunk: Bytes)
      requires Valid()
      modifies this`rx, this`messages, this`received
      ensures Valid() && received == old(received) + chunk
    {
      hide Decoded, Kept, Segments, Residual, Unlines;
      ghost var whole := rx + chunk;
      ghost var cut: seq<Bytes> := [];
      rx := rx + chunk;
      assert cut + Segments(whole) == Segments(whole);
      assert messages == old(messages) + Kept(cut) by { KeptNone(messages); }
      var pos := FirstLf(rx);
      while pos < |rx|
        invariant pos == FirstLf(rx)
        invariant Segments(whole) == cut + Segments(rx) && Residual(whole) == Residual(rx)
        invariant messages == old(messages) + Kept(cut)
        invariant received == old(received)
        decreases |rx|
      {
        TakeLine(cut, rx);
        var raw := rx[..pos];
        rx := rx[pos + 1..];
        if !Blank(raw) { messages := messages + [raw]; }
        cut := cut + [raw];
        pos := FirstLf(rx);
      }
      Exhausted(whole, cut, rx);
      received := received + chunk;
      DecodedAppend(old(received), chunk);
    }

    /** The receive loop over a script of recv() results: a timeout goes round again, an empty
        read ends the connection, an error leaves the loop. */
    method RxLoop(script: seq<Server.Recv>)
      requires Valid() && running
      modifies this`rx, this`messages, this`received, this`running
      ensures Valid() && received == old(received) + Concat(Server.Chunks(script))
      ensures !running <==> Server.Ending(script) == Server.Fin
    {
      hide Valid, Concat;
      var i := 0;
      assert script[0..] == script;
      while i < |script|
        invariant 0 <= i <= |script| && Valid() && running
        invariant old(received) + Concat(Server.Chunks(script)) == received + Concat(Server.Chunks(script[i..]))
        invariant Server.Ending(script) == Server.Ending(script[i..])
      {
        assert script[i..][1..] == script[i + 1..];
        i := i + 1;
        match script[i - 1]
        case Data(bytes) =>
          ConcatCons(received, bytes, Server.Chunks(script[i..]));
          OnChunk(bytes);
        case Interrupted =>
        case Fin => ConcatNil(received); running := false; return;
        case _ => ConcatNil(received); return;
      }
      ConcatNil(received);
    }
  }

  lemma ConcatCons(s: Bytes, chunk: Bytes, rest: seq<Bytes>)
    ensures s + Concat([chunk] + rest) == s + chunk + Concat(rest)
  {
    assert ([chunk] + rest)[1..] == rest;
  }

  lemma ConcatNil(s: Bytes)
    ensures s + Concat([]) == s
  {}

  lemma KeptNone(messages: seq<Bytes>)
    ensures messages + Kept([]) == messages
  {}

  lemma KeptOne(raw: Bytes)
    ensures Kept([raw]) == if Blank(raw) then [] else [raw]
  {
    assert [raw][1..] == [];
  }

  lemma TakeLine(cut: seq<Bytes>, rx: Bytes)
    requires FirstLf(rx) < |rx|
    ensures var raw := rx[..FirstLf(rx)];
            && cut + Segments(rx) == cut + [raw] + Segments(rx[FirstLf(rx) + 1..])
            && Residual(rx) == Residual(rx[FirstLf(rx) + 1..])
            && Kept(cut + [raw]) == Kept(cut) + (if Blank(raw) then [] else [raw])
  {
    hide Unlines, Blank, Kept;
    var raw := rx[..FirstLf(rx)];
    KeptAppend(cut, [raw]);
    KeptOne(raw);
    assert cut + [raw] + Segments(rx[FirstLf(rx) + 1..]) == cut + ([raw] + Segments(rx[FirstLf(rx) + 1..]));
  }

  lemma Exhausted(whole: Bytes, cut: seq<Bytes>, rx: Bytes)
    requires FirstLf(rx) == |rx| && Segments(whole) == cut + Segments(rx) && Residual(whole) == Residual(rx)
    ensures Decoded(whole) == Kept(cut) && Residual(whole) == rx
  {
    assert cut + [] == cut;
  }

  /** Round trip, server to client: with `wire` followed by `tx` being the enqueued lines (the
      invariant of JsonLineServer.Server), whatever part of `wire` has arrived decodes to a prefix
      of the enqueued messages, and to all of them once the queue is drained and read. */
  lemma PeerDecodesQueue(queued: seq<Bytes>, wire: Bytes, tx: Bytes, got: Bytes)
    requires forall i :: 0 <= i < |queued| ==> Message(queued[i])
    requires wire + tx == Unlines(queued) && got <= wire
    ensures Decoded(got) <= queued
    ensures tx == [] && got == wire ==> Decoded(got) == queued && Residual(got) == []
  {
    assert got <= Unlines(queued);
    PrefixSegments(queued, got);
    KeptMessages(queued);
    assert queued == Segments(got) + queued[|Segments(got)|..];
    KeptAppend(Segments(got), queued[|Segments(got)|..]);
  }
}
