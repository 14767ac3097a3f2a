/** Newline framing of the bridge protocol: the stream function that the server's
    receive loop and the GUI client's receive loop both refine. */
module Wire {
  type Byte = bv8
  type Bytes = seq<Byte>

  const LF: Byte := 10
  const CR: Byte := 13
  const MAX_LINE_BYTES := 65536
  const RECV_BYTES := 4096

  /** Position of the first LF, or the length when there is none (std::string::find). */
  function FirstLf(s: Bytes): (p: nat)
    ensures p <= |s|
    ensures p < |s| ==> s[p] == LF
    ensures LF !in s[..p]
    ensures p == |s| <==> LF !in s
  {
    if s == [] then 0
    else if s[0] == LF then 0
    else
      var q := FirstLf(s[1..]);
      assert s[..1 + q] == [s[0]] + s[1..][..q];
      assert s == [s[0]] + s[1..];
      1 + q
  }

  /** The LF-terminated segments of a stream, in order, without their LF. */
  function Segments(s: Bytes): (r: seq<Bytes>)
    decreases |s|
  {
    var p := FirstLf(s);
    if p == |s| then [] else [s[..p]] + Segments(s[p + 1..])
  }

  /** What follows the last LF. */
  function Residual(s: Bytes): (r: Bytes)
    ensures LF !in r
    ensures |r| <= |s|
    decreases |s|
  {
    var p := FirstLf(s);
    if p == |s| then s else Residual(s[p + 1..])
  }

  /** The sender's direction: every line followed by one LF. */
  function Unlines(lines: seq<Bytes>): Bytes {
    if lines == [] then [] else lines[0] + [LF] + Unlines(lines[1..])
  }

  ghost predicate LfFree(lines: seq<Bytes>) {
    forall i :: 0 <= i < |lines| ==> LF !in lines[i]
  }

  /** One trailing CR is tolerated. */
  function StripCr(seg: Bytes): Bytes {
    if seg != [] && seg[|seg| - 1] == CR then seg[..|seg| - 1] else seg
  }

  /** The lines handed to the line handler: CR-stripped, empty ones skipped. */
  function Deliver(segs: seq<Bytes>): seq<Bytes> {
    if segs == [] then []
    else
      var line := StripCr(segs[0]);
      (if line == [] then [] else [line]) + Deliver(segs[1..])
  }

  function Lines(s: Bytes): seq<Bytes> { Deliver(Segments(s)) }

  function Concat(chunks: seq<Bytes>): Bytes {
    if chunks == [] then [] else chunks[0] + Concat(chunks[1..])
  }

  // ---------- segments and residual are THE decomposition of a stream ----------

  lemma UnlinesCons(line: Bytes, more: seq<Bytes>)
    ensures Unlines([line] + more) == line + [LF] + Unlines(more)
  {
    assert ([line] + more)[1..] == more;
  }

  lemma {:induction false} SplitRebuilds(s: Bytes)
    ensures Unlines(Segments(s)) + Residual(s) == s
    ensures LfFree(Segments(s)) && LF !in Residual(s)
    decreases |s|
  {
    var p := FirstLf(s);
    if p < |s| {
      var lines, rest := Segments(s[p + 1..]), Residual(s[p + 1..]);
      assert Segments(s) == [s[..p]] + lines && Residual(s) == rest;
      SplitRebuilds(s[p + 1..]);
      hide Segments, Residual, Unlines, FirstLf;
      UnlinesCons(s[..p], lines);
      Cut(s, p, Unlines(lines), rest);
      LfFreeCons(s[..p], lines);
    }
  }

  lemma LfFreeCons(line: Bytes, more: seq<Bytes>)
    requires LF !in line && LfFree(more)
    ensures LfFree([line] + more)
  {}

  lemma Cut(s: Bytes, p: nat, u: Bytes, r: Bytes)
    requires p < |s| && s[p] == LF && u + r == s[p + 1..]
    ensures s[..p] + [LF] + u + r == s
  {
    assert s == s[..p] + [LF] + (u + r);
  }

  lemma FirstLfOf(line: Bytes, tail: Bytes)
    requires LF !in line
    ensures FirstLf(line + [LF] + tail) == |line|
    ensures (line + [LF] + tail)[..|line|] == line
    ensures (line + [LF] + tail)[|line| + 1..] == tail
  {
    var s := line + [LF] + tail;
    FirstLfIs(s, |line|);
  }

  lemma {:induction false} FirstLfIs(s: Bytes, p: nat)
    requires p <= |s| && LF !in s[..p]
    requires p < |s| ==> s[p] == LF
    ensures FirstLf(s) == p
  {
    if p > 0 {
      assert s[..p][0] == s[0];
      assert s[1..][..p - 1] == s[..p][1..];
      FirstLfIs(s[1..], p - 1);
    }
  }

  lemma {:induction false} SplitIsUnique(lines: seq<Bytes>, rest: Bytes)
    requires LfFree(lines) && LF !in rest
    ensures Segments(Unlines(lines) + rest) == lines
    ensures Residual(Unlines(lines) + rest) == rest
  {
    if lines == [] {
      assert Unlines(lines) + rest == rest;
    } else {
      var tail := Unlines(lines[1..]) + rest;
      assert Unlines(lines) + rest == lines[0] + [LF] + tail;
      FirstLfOf(lines[0], tail);
      SplitIsUnique(lines[1..], rest);
    }
  }

  // ---------- chunking ----------

  lemma {:induction false} UnlinesAppend(a: seq<Bytes>, b: seq<Bytes>)
    ensures Unlines(a + b) == Unlines(a) + Unlines(b)
  {
    if a == [] {
      assert a + b == b;
    } else {
      assert (a + b)[1..] == a[1..] + b;
      UnlinesAppend(a[1..], b);
    }
  }

  /** Framing may be interrupted anywhere: only the residual has to be carried over. */
  lemma SegmentsAppend(a: Bytes, b: Bytes)
    ensures Segments(a + b) == Segments(a) + Segments(Residual(a) + b)
    ensures Residual(a + b) == Residual(Residual(a) + b)
  {
    SplitRebuilds(a);
    SplitRebuilds(Residual(a) + b);
    Regroup(Segments(a), Residual(a), Segments(Residual(a) + b), Residual(Residual(a) + b), b);
  }

  lemma Regroup(first: seq<Bytes>, mid: Bytes, second: seq<Bytes>, rest: Bytes, b: Bytes)
    requires LfFree(first) && LfFree(second) && LF !in rest
    requires Unlines(second) + rest == mid + b
    ensures Segments(Unlines(first) + mid + b) == first + second
    ensures Residual(Unlines(first) + mid + b) == rest
  {
    hide Segments, Residual, Unlines;
    UnlinesAppend(first, second);
    assert Unlines(first + second) + rest == Unlines(first) + (Unlines(second) + rest);
    assert Unlines(first) + (mid + b) == Unlines(first) + mid + b;
    SplitIsUnique(first + second, rest);
  }

  lemma {:induction false} DeliverAppend(a: seq<Bytes>, b: seq<Bytes>)
    ensures Deliver(a + b) == Deliver(a) + Deliver(b)
  {
    if a == [] {
      assert a + b == b;
    } else {
      assert (a + b)[1..] == a[1..] + b;
      DeliverAppend(a[1..], b);
    }
  }

  /** One more segment: its trailing CR (13) is dropped, and what is then empty is not delivered. */
  lemma DeliverSpelled(segs: seq<Bytes>, seg: Bytes)
    ensures var line := if seg != [] && seg[|seg| - 1] == 13 then seg[..|seg| - 1] else seg;
            Deliver(segs + [seg]) == Deliver(segs) + (if line == [] then [] else [line])
  {
    DeliverAppend(segs, [seg]);
    assert [seg][1..] == [];
  }

  /** One more line: its bytes and a line feed (10). */
  lemma UnlinesSpelled(lines: seq<Bytes>, line: Bytes)
    ensures Unlines(lines + [line]) == Unlines(lines) + line + [10]
  {
    UnlinesAppend(lines, [line]);
    UnlinesCons(line, []);
    assert [line] + [] == [line];
    assert Unlines(lines) + (line + [10]) == Unlines(lines) + line + [10];
  }

  lemma LinesAppend(a: Bytes, b: Bytes)
    ensures Lines(a + b) == Lines(a) + Lines(Residual(a) + b)
  {
    SegmentsAppend(a, b);
    DeliverAppend(Segments(a), Segments(Residual(a) + b));
  }

  lemma {:induction false} ConcatAppend(a: seq<Bytes>, b: seq<Bytes>)
    ensures Concat(a + b) == Concat(a) + Concat(b)
  {
    if a == [] {
      assert a + b == b;
    } else {
      assert (a + b)[1..] == a[1..] + b;
      ConcatAppend(a[1..], b);
    }
  }

  /** Exactly what a line of a stream is: a segment that is not blank once its CR is gone. */
  lemma {:induction false} DeliveredLine(segs: seq<Bytes>, line: Bytes)
    ensures line in Deliver(segs) <==> line != [] && exists k :: 0 <= k < |segs| && line == StripCr(segs[k])
  {
    if segs != [] {
      DeliveredLine(segs[1..], line);
      forall k | 0 <= k < |segs| - 1 ensures segs[1..][k] == segs[k + 1] {}
      if line != [] && exists k :: 0 <= k < |segs| && line == StripCr(segs[k]) {
        var k :| 0 <= k < |segs| && line == StripCr(segs[k]);
        if k > 0 { assert segs[1..][k - 1] == segs[k]; }
      }
    }
  }

  // ---------- the receive rule with its length limit ----------

  /** `delivered` is everything handed to the line handler so far; once `open` is false
      the connection is being dropped and reads no more. */
  datatype Receiver = Receiver(rx: Bytes, delivered: seq<Bytes>, open: bool)

  const FRESH := Receiver([], [], true)

  /** One recv() result: append, extract, then check the residual. The lines of the
      chunk that trips the limit are not handed over. */
  function Receive(r: Receiver, chunk: Bytes): Receiver {
    if !r.open then r
    else
      var rest := Residual(r.rx + chunk);
      if |rest| > MAX_LINE_BYTES then Receiver(rest, r.delivered, false)
      else Receiver(rest, r.delivered + Lines(r.rx + chunk), true)
  }

  function ReceiveAll(r: Receiver, chunks: seq<Bytes>): Receiver
    decreases |chunks|
  {
    if chunks == [] then r else ReceiveAll(Receive(r, chunks[0]), chunks[1..])
  }

  ghost predicate Chunked(chunks: seq<Bytes>) {
    forall i :: 0 <= i < |chunks| ==> |chunks[i]| <= RECV_BYTES
  }

  /** A chunk that trips the limit completes no line, so nothing delivered is lost. */
  lemma CutDiscardsNoLine(rx: Bytes, chunk: Bytes)
    requires LF !in rx && |chunk| <= RECV_BYTES
    requires |Residual(rx + chunk)| > MAX_LINE_BYTES
    ensures Segments(rx + chunk) == [] && Residual(rx + chunk) == rx + chunk
  {
    var s := rx + chunk;
    var p := FirstLf(s);
    assert forall i :: 0 <= i < |rx| ==> s[i] == rx[i];
    assert p < |s| ==> |Residual(s)| <= |s| - p - 1;
  }

  ghost predicate Framed(r: Receiver, consumed: Bytes) {
    && r.rx == Residual(consumed)
    && r.delivered == Lines(consumed)
    && (r.open ==> |r.rx| <= MAX_LINE_BYTES)
    && (!r.open ==> |r.rx| > MAX_LINE_BYTES)
  }

  lemma ReceiveFrames(r: Receiver, consumed: Bytes, chunk: Bytes)
    requires Framed(r, consumed) && r.open && |chunk| <= RECV_BYTES
    ensures Framed(Receive(r, chunk), consumed + chunk)
  {
    SegmentsAppend(consumed, chunk);
    LinesAppend(consumed, chunk);
    if |Residual(r.rx + chunk)| > MAX_LINE_BYTES {
      CutDiscardsNoLine(r.rx, chunk);
      assert Lines(consumed + chunk) == Lines(consumed) + [];
    }
  }

  lemma ConcatStep(before: Bytes, chunks: seq<Bytes>, k: nat)
    requires 0 < k <= |chunks|
    ensures before + Concat(chunks[..k]) == before + chunks[0] + Concat(chunks[1..][..k - 1])
  {
    assert chunks[..k][1..] == chunks[1..][..k - 1];
  }

  /** How many chunks were read before the connection was given up. */
  function Consumed(r: Receiver, chunks: seq<Bytes>): (k: nat)
    ensures k <= |chunks|
    decreases |chunks|
  {
    if chunks == [] || !r.open then 0 else 1 + Consumed(Receive(r, chunks[0]), chunks[1..])
  }

  lemma {:induction false} ClosedStaysClosed(r: Receiver, chunks: seq<Bytes>)
    requires !r.open
    ensures ReceiveAll(r, chunks) == r
    decreases |chunks|
  {
    if chunks != [] { ClosedStaysClosed(r, chunks[1..]); }
  }

  /** Reading one chunk and then the rest. */
  lemma ReceiveOne(r: Receiver, chunks: seq<Bytes>)
    requires chunks != [] && r.open
    ensures ReceiveAll(r, chunks) == ReceiveAll(Receive(r, chunks[0]), chunks[1..])
    ensures Consumed(r, chunks) == 1 + Consumed(Receive(r, chunks[0]), chunks[1..])
  {
    hide Receive;
  }

  lemma NoneConsumed(r: Receiver, chunks: seq<Bytes>)
    requires chunks == [] || !r.open
    ensures ReceiveAll(r, chunks) == r && Consumed(r, chunks) == 0
  {
    if !r.open { ClosedStaysClosed(r, chunks); }
  }

  lemma {:induction false} ReceiveAllFrames(r: Receiver, before: Bytes, chunks: seq<Bytes>)
    requires Framed(r, before) && Chunked(chunks)
    ensures Framed(ReceiveAll(r, chunks), before + Concat(chunks[..Consumed(r, chunks)]))
    ensures ReceiveAll(r, chunks).open ==> Consumed(r, chunks) == |chunks|
    decreases |chunks|
  {
    hide Framed, Receive, ReceiveAll, Consumed;
    var k := Consumed(r, chunks);
    if chunks == [] || !r.open {
      NoneConsumed(r, chunks);
      assert before + Concat(chunks[..0]) == before;
    } else {
      hide Concat;
      assert Chunked(chunks[1..]) && |chunks[0]| <= RECV_BYTES;
      ReceiveOne(r, chunks);
      ReceiveFrames(r, before, chunks[0]);
      ReceiveAllFrames(Receive(r, chunks[0]), before + chunks[0], chunks[1..]);
      ConcatStep(before, chunks, k);
    }
  }

  lemma FreshFramed()
    ensures Framed(FRESH, []) && Lines([]) == [] && Segments([]) == [] && Residual([]) == []
  {
    assert FirstLf([]) == 0;
  }

  lemma WhatWasRead(chunks: seq<Bytes>)
    ensures var k := Consumed(FRESH, chunks);
            && Concat(chunks) == Concat(chunks[..k]) + Concat(chunks[k..])
            && [] + Concat(chunks[..k]) == Concat(chunks[..k])
  {
    hide Concat, Consumed;
    var k := Consumed(FRESH, chunks);
    assert chunks == chunks[..k] + chunks[k..];
    ConcatAppend(chunks[..k], chunks[k..]);
  }

  /** Main framing result: over any chunking, what is delivered is the line function of the
      bytes read, hence a prefix of the lines of the whole stream, and all of them while the
      connection stays open. */
  lemma FramingRefinesStream(chunks: seq<Bytes>)
    requires Chunked(chunks)
    ensures var r := ReceiveAll(FRESH, chunks);
            && r.delivered <= Lines(Concat(chunks))
            && LF !in r.rx
            && (r.open ==> r.delivered == Lines(Concat(chunks)) && r.rx == Residual(Concat(chunks)))
            && (!r.open ==> r.delivered == Lines(Concat(chunks[..Consumed(FRESH, chunks)])))
  {
    hide Concat, Consumed, ReceiveAll, Segments, Lines;
    var k := Consumed(FRESH, chunks);
    FreshFramed();
    ReceiveAllFrames(FRESH, [], chunks);
    WhatWasRead(chunks);
    LinesAppend(Concat(chunks[..k]), Concat(chunks[k..]));
    if ReceiveAll(FRESH, chunks).open { assert chunks[..k] == chunks; }
  }

  ghost predicate AllWithin(segs: seq<Bytes>, limit: nat) {
    forall i :: 0 <= i < |segs| ==> |segs[i]| <= limit
  }

  ghost predicate SegmentsWithin(s: Bytes, limit: nat) {
    AllWithin(Segments(s), limit) && |Residual(s)| <= limit
  }

  /** A residual of a prefix is a prefix of the next segment (or of the residual). */
  lemma ResidualGrows(a: Bytes, b: Bytes, limit: nat)
    requires SegmentsWithin(a + b, limit)
    ensures |Residual(a)| <= limit
  {
    SegmentsAppend(a, b);
    var later := Residual(a) + b;
    var p := FirstLf(later);
    assert forall i :: 0 <= i < |Residual(a)| ==> later[i] == Residual(a)[i];
    if p < |later| {
      assert Segments(later)[0] == later[..p];
      assert Segments(a + b)[|Segments(a)|] == later[..p];
    }
  }

  /** Streams whose segments respect the limit are never cut off. */
  lemma ShortSegmentsStayOpen(chunks: seq<Bytes>)
    requires Chunked(chunks)
    requires SegmentsWithin(Concat(chunks), 65536)
    ensures ReceiveAll(FRESH, chunks).open
  {
    hide SegmentsWithin, Chunked, Concat, Consumed, ReceiveAll, Residual, Segments, Lines;
    var k := Consumed(FRESH, chunks);
    FreshFramed();
    ReceiveAllFrames(FRESH, [], chunks);
    WhatWasRead(chunks);
    ResidualGrows(Concat(chunks[..k]), Concat(chunks[k..]), MAX_LINE_BYTES);
  }

  lemma {:induction false} SegmentFits(segs: seq<Bytes>, i: nat)
    requires i < |segs|
    ensures |segs[i]| + 1 <= |Unlines(segs)|
  {
    if i > 0 { SegmentFits(segs[1..], i - 1); }
  }

  const LONGEST := MAX_LINE_BYTES + RECV_BYTES - 1

  lemma NewSegmentLengths(rx: Bytes, chunk: Bytes)
    requires LF !in rx && |rx| <= MAX_LINE_BYTES && |chunk| <= RECV_BYTES
    ensures AllWithin(Segments(rx + chunk), LONGEST)
  {
    var segs := Segments(rx + chunk);
    SplitRebuilds(rx + chunk);
    assert |Unlines(segs)| <= |rx + chunk|;
    forall i | 0 <= i < |segs| ensures |segs[i]| <= LONGEST { SegmentFits(segs, i); }
  }

  lemma LengthsStep(before: Bytes, chunk: Bytes)
    requires |Residual(before)| <= MAX_LINE_BYTES && |chunk| <= RECV_BYTES
    requires AllWithin(Segments(before), LONGEST)
    ensures AllWithin(Segments(before + chunk), LONGEST)
  {
    SegmentsAppend(before, chunk);
    NewSegmentLengths(Residual(before), chunk);
  }

  /** No segment read exceeds the limit by more than one recv() buffer less one byte. */
  lemma {:induction false} SegmentsReadBounded(r: Receiver, before: Bytes, chunks: seq<Bytes>)
    requires Framed(r, before) && Chunked(chunks) && AllWithin(Segments(before), LONGEST)
    ensures AllWithin(Segments(before + Concat(chunks[..Consumed(r, chunks)])), LONGEST)
    decreases |chunks|
  {
    if chunks == [] || !r.open {
      assert before + Concat(chunks[..0]) == before;
    } else {
      LengthsStep(before, chunks[0]);
      ReceiveFrames(r, before, chunks[0]);
      SegmentsReadBounded(Receive(r, chunks[0]), before + chunks[0], chunks[1..]);
      ConcatStep(before, chunks, Consumed(r, chunks));
    }
  }

  lemma DeliveredLengths(segs: seq<Bytes>, limit: nat)
    requires AllWithin(segs, limit)
    ensures AllWithin(Deliver(segs), limit)
  {
    forall i | 0 <= i < |Deliver(segs)| ensures |Deliver(segs)[i]| <= limit {
      DeliveredLine(segs, Deliver(segs)[i]);
    }
  }

  /** The length limit as a client sees it: no delivered line exceeds 65536 + 4095 bytes, and a
      longer segment always costs the connection. */
  lemma LineLengthBound(chunks: seq<Bytes>)
    requires Chunked(chunks)
    ensures AllWithin(ReceiveAll(FRESH, chunks).delivered, 65536 + 4095)
    ensures !SegmentsWithin(Concat(chunks), 65536 + 4095) ==> !ReceiveAll(FRESH, chunks).open
  {
    var k := Consumed(FRESH, chunks);
    assert FirstLf([]) == 0;
    ReceiveAllFrames(FRESH, [], chunks);
    SegmentsReadBounded(FRESH, [], chunks);
    assert [] + Concat(chunks[..k]) == Concat(chunks[..k]);
    DeliveredLengths(Segments(Concat(chunks[..k])), LONGEST);
    if ReceiveAll(FRESH, chunks).open { assert chunks[..k] == chunks; }
  }

  // ---------- round trip ----------

  /** What the server's framing needs of a sender: no LF inside, not empty, no trailing CR. */
  ghost predicate Sendable(line: Bytes) {
    LF !in line && line != [] && line[|line| - 1] != CR
  }

  lemma {:induction false} DeliverSendable(lines: seq<Bytes>)
    requires forall i :: 0 <= i < |lines| ==> Sendable(lines[i])
    ensures Deliver(lines) == lines
  {
    if lines != [] {
      assert Sendable(lines[0]);
      DeliverSendable(lines[1..]);
    }
  }

  lemma {:induction false} DeliverPrefix(a: seq<Bytes>, b: seq<Bytes>)
    requires a <= b
    ensures Deliver(a) <= Deliver(b)
  {
    assert b == a + b[|a|..];
    DeliverAppend(a, b[|a|..]);
  }

  /** A prefix of the sent bytes frames to a prefix of the sent lines. */
  lemma PrefixSegments(lines: seq<Bytes>, got: Bytes)
    requires LfFree(lines) && got <= Unlines(lines)
    ensures Segments(got) <= lines
    ensures got == Unlines(lines) ==> Segments(got) == lines && Residual(got) == []
  {
    var s := Unlines(lines);
    assert s + [] == s;
    SplitIsUnique(lines, []);
    assert s == got + s[|got|..];
    SegmentsAppend(got, s[|got|..]);
  }

  /** Commands sent line by line, cut anywhere by the network, decode to themselves at the
      server: a prefix at every moment, all of them when every byte has arrived. */
  lemma ServerDecodesCommands(lines: seq<Bytes>, chunks: seq<Bytes>)
    requires forall i :: 0 <= i < |lines| ==> Sendable(lines[i]) && |lines[i]| <= 65536
    requires Chunked(chunks) && Concat(chunks) <= Unlines(lines)
    ensures var r := ReceiveAll(FRESH, chunks);
            && r.open && r.delivered <= lines
            && (Concat(chunks) == Unlines(lines) ==> r.delivered == lines && r.rx == [])
  {
    hide Segments, Residual, Unlines, Deliver, ReceiveAll, Concat, Consumed;
    var got := Concat(chunks);
    PrefixSegments(lines, got);
    var s := Unlines(lines);
    assert s + [] == s;
    SplitIsUnique(lines, []);
    assert s == got + s[|got|..];
    ResidualGrows(got, s[|got|..], MAX_LINE_BYTES);
    ShortSegmentsStayOpen(chunks);
    FramingRefinesStream(chunks);
    DeliverSendable(lines);
    DeliverPrefix(Segments(got), lines);
  }
}
