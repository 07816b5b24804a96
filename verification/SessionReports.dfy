/**
 What one report of the poller does to a connection, in terms of the environment and the log: what is
 taken in, what is sent, which response is queued, and exactly when the connection stops being open.
 */
module SessionReports {
  import opened Basics
  import opened OutputBuffers
  import opened FrameCodec
  import opened Sessions
  import opened SessionRuns
  import opened SessionTheorems

  /** The connection once the requests a report brought in are answered, before anything is sent. */
  function Processed(o: Options, running: bool, c: Session, r: Ready, responses: seq<bytes>): (c': Session)
    requires Settled(c.writeBuffer)
    ensures Settled(c'.writeBuffer)
  {
    AnswerAll(o, BeginReport(o, running, c, r), responses)
  }

  // ------------------------------------------------------------ reading

  /** The part of `data` that one `recv` can deliver: at most 16 KiB, and no more than the buffer has room for. */
  function Delivered(o: Options, c: Session, data: bytes): bytes
    requires |c.readBuffer| < o.maxReadBufferBytes
  {
    data[..Min(|data|, Min(16384, o.maxReadBufferBytes - |c.readBuffer|))]
  }

  predicate Reads(o: Options, running: bool, c: Session, r: Ready) {
    && !r.error && running && r.read
    && IsOpen(c) && !c.readPaused && |c.readBuffer| < o.maxReadBufferBytes
  }

  lemma BeginReads(o: Options, running: bool, c: Session, r: Ready)
    requires Settled(c.writeBuffer)
    ensures
      var b := BeginReport(o, running, c, r);
      && b.log.sent == c.log.sent
      && b.log.received
         == c.log.received + (if Reads(o, running, c, r) && r.recv.Received? then Delivered(o, c, r.recv.data) else [])
  {
    hide Decode, FitsOutput, Frame, Appended, NeedsCompaction;
    assert c.log.received + [] == c.log.received;
  }

  lemma PayloadReadsAndSendsNothing(o: Options, c: Session, response: bytes)
    requires Settled(c.writeBuffer) && c.todo != []
    ensures
      var p := ProcessPayload(o, c, response);
      p.log.received == c.log.received && p.log.sent == c.log.sent
  {
    hide FitsOutput, Frame, Appended, NeedsCompaction, IsQuit;
  }

  lemma {:induction false} AnsweringReadsAndSendsNothing(o: Options, c: Session, responses: seq<bytes>)
    requires Settled(c.writeBuffer)
    ensures
      var a := AnswerAll(o, c, responses);
      a.log.received == c.log.received && a.log.sent == c.log.sent
    decreases |responses|
  {
    hide ProcessPayload, NeedsCompaction;
    if responses != [] && c.todo != [] {
      PayloadReadsAndSendsNothing(o, c, responses[0]);
      AnsweringReadsAndSendsNothing(o, ProcessPayload(o, c, responses[0]), responses[1..]);
    }
  }

  lemma WriteReadsNothing(o: Options, c: Session, send: Send)
    requires Settled(c.writeBuffer)
    ensures HandleWrite(o, c, send).log.received == c.log.received
  {
    hide NeedsCompaction, Consumed;
  }

  lemma RestReadsNothing(o: Options, c: Session)
    requires Settled(c.writeBuffer)
    ensures FinishWriting(c).log.received == RefreshInterest(o, c).log.received == c.log.received
  {
    hide NeedsCompaction;
  }

  lemma EndReadsNothing(o: Options, c: Session, r: Ready)
    requires Settled(c.writeBuffer)
    ensures EndReport(o, c, r).log.received == c.log.received
  {
    hide NeedsCompaction, HandleWrite, FinishWriting, RefreshInterest;
    WriteReadsNothing(o, c, r.send);
    var c2 := if !c.closed && r.write then HandleWrite(o, c, r.send) else c;
    RestReadsNothing(o, c2);
    RestReadsNothing(o, FinishWriting(c2));
  }

  /**
   A connection takes in exactly what `recv` delivers, and calls it exactly when the poller says so while it
   is open, not paused and has room; a paused, closing or draining one takes in nothing.
   */
  lemma ReportReads(o: Options, running: bool, c: Session, r: Ready, responses: seq<bytes>)
    requires Settled(c.writeBuffer)
    ensures HandleReady(o, running, c, r, responses).log.received
            == c.log.received
               + (if Reads(o, running, c, r) && r.recv.Received? then Delivered(o, c, r.recv.data) else [])
  {
    hide BeginReport, AnswerAll, EndReport, NeedsCompaction;
    BeginReads(o, running, c, r);
    AnsweringReadsAndSendsNothing(o, BeginReport(o, running, c, r), responses);
    EndReadsNothing(o, Processed(o, running, c, r, responses), r);
  }

  // ------------------------------------------------------------ sending

  /** What one `send` that accepts `count` bytes puts on the wire. */
  function Transmitted(o: Options, c: Session, count: nat): bytes
    requires InRange(c.writeBuffer)
  {
    Pending(c.writeBuffer)[..Min(count, Min(|Pending(c.writeBuffer)|, o.maxWriteBytesPerEvent))]
  }

  lemma WriteSends(o: Options, c: Session, send: Send)
    requires Settled(c.writeBuffer)
    ensures HandleWrite(o, c, send).log.sent
            == c.log.sent + (if !c.closed && send.Sent? then Transmitted(o, c, send.count) else [])
  {
    hide NeedsCompaction, Consumed;
    assert Pending(c.writeBuffer)[..0] == [] && c.log.sent + [] == c.log.sent;
  }

  lemma RestSendsNothing(o: Options, c: Session)
    requires Settled(c.writeBuffer)
    ensures FinishWriting(c).log.sent == c.log.sent && RefreshInterest(o, c).log.sent == c.log.sent
  {
    hide NeedsCompaction;
  }

  /** A report that allows writing sends the first pending bytes, as many as `send` and the limit per event allow. */
  lemma ReportSends(o: Options, running: bool, c: Session, r: Ready, responses: seq<bytes>)
    requires Settled(c.writeBuffer)
    ensures
      var p := Processed(o, running, c, r, responses);
      HandleReady(o, running, c, r, responses).log.sent
      == c.log.sent + (if !p.closed && r.write && r.send.Sent? then Transmitted(o, p, r.send.count) else [])
  {
    hide BeginReport, AnswerAll, HandleWrite, FinishWriting, RefreshInterest, NeedsCompaction, Transmitted;
    BeginReads(o, running, c, r);
    AnsweringReadsAndSendsNothing(o, BeginReport(o, running, c, r), responses);
    var p := Processed(o, running, c, r, responses);
    WriteSends(o, p, r.send);
    assert p.log.sent + [] == p.log.sent;
    var c2 := if !p.closed && r.write then HandleWrite(o, p, r.send) else p;
    RestSendsNothing(o, c2);
    RestSendsNothing(o, FinishWriting(c2));
  }

  // ------------------------------------------------------------ one response

  /**
   A response is queued, and the connection stays, exactly when a frame can hold it and the output stays
   within its hard limit; then the output grows by exactly its frame.
   */
  lemma ResponseIsQueuedIff(o: Options, c: Session, response: bytes)
    requires Sound(o, c) && c.todo != []
    ensures
      var p := ProcessPayload(o, c, response);
      && (!p.closed <==> |response| <= 1048576 && |Pending(c.writeBuffer)| + 4 + |response| <= o.writeHardLimitBytes)
      && (!p.closed ==> Pending(p.writeBuffer) == Pending(c.writeBuffer) + Frame(response))
  {
    hide Header, EncodeAll, Streamed, Framed, Alternates, Justified, NeedsCompaction, IsQuit;
    SoundToDo(o, c);
    AppendIsEnqueue(c.writeBuffer, Frame(response));
  }

  // ------------------------------------------------------------ closing

  /** A read that finds the buffer full, an error, the end of the stream, or the start of an oversized frame. */
  predicate ReadEnds(o: Options, c: Session, recv: Recv) {
    || |c.readBuffer| >= o.maxReadBufferBytes
    || recv.RecvFailed?
    || (recv.Received? && (recv.data == [] || Decode(c.readBuffer + Delivered(o, c, recv.data)).failed))
  }

  lemma BeginStaysOpenIff(o: Options, running: bool, c: Session, r: Ready)
    requires Settled(c.writeBuffer) && IsOpen(c) && c.todo == []
    ensures
      var b := BeginReport(o, running, c, r);
      && (IsOpen(b) <==> !r.error && !(running && r.read && !c.readPaused && ReadEnds(o, c, r.recv)))
      && (!IsOpen(b) ==> b.todo == [])
      && b.log.exchanges == c.log.exchanges && b.log.refused == c.log.refused
  {
    hide Decode, FitsOutput, Frame, Appended, NeedsCompaction;
  }

  /** Some request answered after the first `n` was `QUIT`. */
  predicate QuitsAfter(log: Log, n: nat) {
    exists i :: n <= i < |log.exchanges| && IsQuit(log.exchanges[i].request)
  }

  lemma PayloadStaysOpenIff(o: Options, c: Session, response: bytes)
    requires Settled(c.writeBuffer) && IsOpen(c) && c.todo != [] && c.log.refused.None?
    ensures
      var p, n := ProcessPayload(o, c, response), |c.log.exchanges|;
      && (IsOpen(p) <==> p.log.refused.None? && !QuitsAfter(p.log, n))
      && (!IsOpen(p) ==> p.todo == [])
      && (IsOpen(p) ==> p.log.exchanges == c.log.exchanges + [Exchange(c.todo[0], response)] && !IsQuit(c.todo[0]))
  {
    hide FitsOutput, Frame, Appended, NeedsCompaction, IsQuit;
    var p, n := ProcessPayload(o, c, response), |c.log.exchanges|;
    if |p.log.exchanges| == n + 1 {
      assert p.log.exchanges[n] == Exchange(c.todo[0], response);
    }
  }

  lemma {:induction false} AnsweringStaysOpenIff(o: Options, c: Session, responses: seq<bytes>)
    requires Settled(c.writeBuffer) && IsOpen(c) && c.log.refused.None?
    ensures
      var a := AnswerAll(o, c, responses);
      && (IsOpen(a) <==> a.log.refused.None? && !QuitsAfter(a.log, |c.log.exchanges|))
      && c.log.exchanges <= a.log.exchanges
    decreases |responses|
  {
    hide ProcessPayload, NeedsCompaction, IsQuit;
    if responses != [] && c.todo != [] {
      var p := ProcessPayload(o, c, responses[0]);
      PayloadStaysOpenIff(o, c, responses[0]);
      PayloadKeepsExchanges(o, c, responses[0]);
      if IsOpen(p) {
        AnsweringStaysOpenIff(o, p, responses[1..]);
        QuitsLater(AnswerAll(o, p, responses[1..]).log, |c.log.exchanges|);
      }
    }
  }

  lemma PayloadKeepsExchanges(o: Options, c: Session, response: bytes)
    requires Settled(c.writeBuffer) && c.todo != []
    ensures c.log.exchanges <= ProcessPayload(o, c, response).log.exchanges
  {
    hide FitsOutput, Frame, Appended, NeedsCompaction, IsQuit;
  }

  lemma QuitsLater(log: Log, n: nat)
    requires n < |log.exchanges| && !IsQuit(log.exchanges[n].request)
    ensures QuitsAfter(log, n) <==> QuitsAfter(log, n + 1)
  {
    hide IsQuit;
  }

  /** A `send` that fails, or takes nothing, when there is something to send. */
  predicate WriteEnds(c: Session, send: Send)
    requires InRange(c.writeBuffer)
  {
    Pending(c.writeBuffer) != [] && (send.SendFailed? || send == Sent(0))
  }

  lemma WriteStaysOpenIff(o: Options, c: Session, send: Send)
    requires ValidOptions(o) && Settled(c.writeBuffer) && IsOpen(c)
    ensures IsOpen(HandleWrite(o, c, send)) <==> !WriteEnds(c, send)
    ensures !IsOpen(HandleWrite(o, c, send)) ==> HandleWrite(o, c, send).closed
  {
    hide NeedsCompaction, Consumed;
  }

  /** The connection after the write of a report. */
  function Written(o: Options, c: Session, r: Ready): (c': Session)
    requires Settled(c.writeBuffer)
    ensures Settled(c'.writeBuffer)
  {
    if r.write then HandleWrite(o, c, r.send) else c
  }

  /** With a high watermark of zero an idle connection is paused at once, and then has nothing to wait for. */
  predicate LosesInterest(o: Options, c: Session)
    requires InRange(c.writeBuffer)
  {
    o.writeHighWatermarkBytes == 0 && !c.readPaused && Pending(c.writeBuffer) == []
  }

  lemma RestStaysOpenIff(o: Options, c: Session)
    requires ValidOptions(o) && Settled(c.writeBuffer) && IsOpen(c)
    ensures IsOpen(RefreshInterest(o, c)) <==> !LosesInterest(o, c)
    ensures !IsOpen(FinishWriting(c))
  {
    hide NeedsCompaction;
  }

  lemma EndStaysOpenIff(o: Options, c: Session, r: Ready)
    requires ValidOptions(o) && Settled(c.writeBuffer) && IsOpen(c)
    ensures IsOpen(EndReport(o, c, r))
            <==> !r.hangup && !(r.write && WriteEnds(c, r.send)) && !LosesInterest(o, Written(o, c, r))
  {
    hide HandleWrite, FinishWriting, RefreshInterest, NeedsCompaction, WriteEnds, LosesInterest;
    WriteStaysOpenIff(o, c, r.send);
    var c2 := Written(o, c, r);
    if IsOpen(c2) {
      RestStaysOpenIff(o, c2);
      if r.hangup {
        RefreshOnlyDrains(o, FinishWriting(c2));
      }
    } else {
      RefreshOnlyDrains(o, c2);
    }
  }

  /**
   An open connection stays open through a report unless the poller reports an error or a hangup, a read
   or a write fails, the stream ends or is malformed, a response is refused, a `QUIT` was answered, or, with a
   high watermark of zero, nothing is left to wait for.
   */
  lemma ReportEndsIff(o: Options, running: bool, c: Session, r: Ready, responses: seq<bytes>)
    requires ValidOptions(o)
    requires Settled(c.writeBuffer) && IsOpen(c) && c.todo == [] && c.log.refused.None?
    ensures
      var p := Processed(o, running, c, r, responses);
      IsOpen(HandleReady(o, running, c, r, responses))
      <==> && !r.error && !r.hangup
           && !(running && r.read && !c.readPaused && ReadEnds(o, c, r.recv))
           && p.log.refused.None? && !QuitsAfter(p.log, |c.log.exchanges|)
           && !(r.write && WriteEnds(p, r.send))
           && !LosesInterest(o, Written(o, p, r))
  {
    hide BeginReport, AnswerAll, EndReport, NeedsCompaction, ReadEnds, WriteEnds, QuitsAfter, LosesInterest, Written;
    var b := BeginReport(o, running, c, r);
    BeginStaysOpenIff(o, running, c, r);
    var p := Processed(o, running, c, r, responses);
    if IsOpen(b) {
      AnsweringStaysOpenIff(o, b, responses);
    } else {
      NothingToAnswer(o, b, responses);
    }
    if IsOpen(p) {
      EndStaysOpenIff(o, p, r);
    } else {
      EndOnlyDrains(o, p, r);
      DrainsClosing(p, EndReport(o, p, r));
    }
  }

  lemma NothingToAnswer(o: Options, c: Session, responses: seq<bytes>)
    requires Settled(c.writeBuffer) && c.todo == []
    ensures AnswerAll(o, c, responses) == c
  {
  }

  /** A closing connection closes exactly when all it owes is sent, or on an error. */
  lemma ClosingEndsIff(o: Options, running: bool, c: Session, r: Ready, responses: seq<bytes>)
    requires ValidOptions(o) && Sound(o, c) && !IsOpen(c) && !c.closed && c.todo == []
    ensures
      var c' := HandleReady(o, running, c, r, responses);
      c'.closed
      <==> || r.error
           || (r.write && WriteEnds(c, r.send))
           || c'.log.sent == EncodeAll(Queued(c.log))
  {
    hide EncodeAll, Queued, Sound, NeedsCompaction, HandleWrite, FinishWriting, RefreshInterest;
    SoundIsBounded(o, c);
    ClosingStream(o, c);
    assert Processed(o, running, c, r, responses) == (if r.error then MarkClosed(c) else c);
    ReportSends(o, running, c, r, responses);
    if !r.error {
      ClosingWrite(o, c, r.send);
      var c2 := if r.write then HandleWrite(o, c, r.send) else c;
      ClosingRest(o, c2);
      ClosingRest(o, FinishWriting(c2));
      SentAllIff(o, c, if r.write && r.send.Sent? then r.send.count else 0);
    } else {
      ClosedStaysClosed(o, MarkClosed(c), r);
    }
  }

  lemma ClosingStream(o: Options, c: Session)
    requires Sound(o, c) && !c.closed
    ensures c.log.sent + Pending(c.writeBuffer) == EncodeAll(Queued(c.log))
  {
    hide EncodeAll, Queued, Ordered, Framed, Alternates, Justified;
  }

  lemma ClosedStaysClosed(o: Options, c: Session, r: Ready)
    requires Settled(c.writeBuffer) && c.closed
    ensures EndReport(o, c, r).closed
  {
  }

  /** Sending some of the pending bytes makes the stream complete exactly when it is all of them. */
  lemma SentAllIff(o: Options, c: Session, count: nat)
    requires InRange(c.writeBuffer) && c.log.sent + Pending(c.writeBuffer) == EncodeAll(Queued(c.log))
    ensures c.log.sent + Transmitted(o, c, count) == EncodeAll(Queued(c.log))
            <==> |Transmitted(o, c, count)| == |Pending(c.writeBuffer)|
    ensures c.log.sent == EncodeAll(Queued(c.log)) <==> Pending(c.writeBuffer) == []
    ensures c.log.sent + [] == c.log.sent
  {
    hide EncodeAll, Queued;
    assert |c.log.sent + Pending(c.writeBuffer)| == |c.log.sent| + |Pending(c.writeBuffer)|;
    assert |c.log.sent + Transmitted(o, c, count)| == |c.log.sent| + |Transmitted(o, c, count)|;
  }

  lemma ClosingWrite(o: Options, c: Session, send: Send)
    requires ValidOptions(o) && Settled(c.writeBuffer) && !c.closed && c.closeAfterWrite
    ensures
      var w := HandleWrite(o, c, send);
      && (w.closed <==>
            || Pending(c.writeBuffer) == [] || WriteEnds(c, send)
            || (send.Sent? && |Transmitted(o, c, send.count)| == |Pending(c.writeBuffer)|))
      && (!w.closed ==> w.closeAfterWrite && Size(w.writeBuffer) > 0)
  {
    hide NeedsCompaction, Consumed;
    if send.Sent? {
      ConsumedSize(c.writeBuffer, Min(send.count, WriteSize(o, c)));
    }
  }

  lemma ClosingRest(o: Options, c: Session)
    requires Settled(c.writeBuffer) && (c.closed || c.closeAfterWrite)
    ensures RefreshInterest(o, c).closed <==> c.closed || Size(c.writeBuffer) == 0
    ensures FinishWriting(c).closed <==> c.closed || Size(c.writeBuffer) == 0
    ensures !FinishWriting(c).closed ==> FinishWriting(c).closeAfterWrite && Size(FinishWriting(c).writeBuffer) > 0
  {
    hide NeedsCompaction;
  }

  /** A read or a send that would block changes nothing but the poller's interest and the pause flag. */
  lemma WouldBlockChangesNothing(o: Options, running: bool, c: Session, r: Ready, responses: seq<bytes>)
    requires ValidOptions(o) && o.writeHighWatermarkBytes > 0
    requires Settled(c.writeBuffer) && IsOpen(c) && c.todo == [] && |c.readBuffer| < o.maxReadBufferBytes
    requires !r.error && !r.hangup && r.recv.RecvWouldBlock? && r.send.SendWouldBlock?
    ensures
      var c' := HandleReady(o, running, c, r, responses);
      c'.(registered := c.registered, readPaused := c.readPaused, log := c'.log.(pressure := c.log.pressure)) == c
  {
    hide NeedsCompaction;
    assert AnswerAll(o, BeginReport(o, running, c, r), responses) == c;
  }
}
