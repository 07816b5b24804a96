/** The connection's guarantees, read off the invariant for every run and every environment. */
module SessionTheorems {
  import opened Basics
  import opened OutputBuffers
  import opened FrameCodec
  import opened Sessions
  import opened SessionRuns

  // ------------------------------------------------------------ end to end

  /** Every request executed is the frame of its own position, and `QUIT` can only be the last. */
  predicate ExecutedInOrder(log: Log) {
    var executed := Executed(log);
    && |executed| <= |log.requests|
    && forall i :: 0 <= i < |executed| ==>
         && executed[i].request == log.requests[i]
         && (IsQuit(executed[i].request) ==> i == |executed| - 1 && log.trailer.None?)
  }

  /**
   However reads are chunked and sends are cut: the frames executed are the first frames of the bytes
   received, in order; what was sent and what is pending are exactly the encoded responses that were
   queued, ended by at most one error frame or `+BYE`; and once closed, what was sent is a prefix of that.
   All responses are queued unless the output buffer refused the last one.
   */
  lemma EndToEndStream(o: Options, events: seq<Event>)
    requires IsSession(o, events)
    ensures
      var c := SessionAfter(o, events);
      && (!c.closed ==> c.log.sent + Pending(c.writeBuffer) == EncodeAll(Queued(c.log)))
      && c.log.sent <= EncodeAll(Queued(c.log))
      && EncodeAll(c.log.requests) <= c.log.received
      && ExecutedInOrder(c.log)
      && (c.log.refused.Some? ==> c.closed)
      && (IsOpen(c) ==>
            && c.log.received == EncodeAll(c.log.requests) + c.readBuffer
            && |c.log.exchanges| == |c.log.requests| && c.log.trailer.None?)
  {
    hide EncodeAll, Queued, Ordered, ExecutedInOrder, IsOpen, Alternates, Incomplete, Bounds, IsSession,
      SessionAfter;
    SessionsAreSound(o, events);
    OrderedLog(SessionAfter(o, events));
  }

  lemma OrderedLog(c: Session)
    requires Ordered(c)
    ensures ExecutedInOrder(c.log)
    ensures (c.log.refused.Some? ==> c.closed) && |c.log.exchanges| <= |c.log.requests|
    ensures IsOpen(c) ==> c.log.trailer.None? && c.log.requests[|c.log.exchanges|..] == c.todo
  {
    hide IsQuit;
    var executed, answered := Executed(c.log), |c.log.exchanges|;
    forall i | 0 <= i < |executed|
      ensures i < |c.log.requests| && executed[i].request == c.log.requests[i]
      ensures IsQuit(executed[i].request) ==> i == |executed| - 1 && c.log.trailer.None?
    {
      assert executed[i] == if i < answered then c.log.exchanges[i] else c.log.refused.value;
    }
  }

  /** Takes in nothing, queues nothing and stays that way; a closed connection also sends nothing more. */
  predicate OnlyDrains(c: Session, c': Session)
    requires InRange(c.writeBuffer) && InRange(c'.writeBuffer)
  {
    && !IsOpen(c')
    && c'.log.(sent := c.log.sent, pressure := c.log.pressure) == c.log
    && Size(c'.writeBuffer) <= Size(c.writeBuffer)
    && (c.closed ==> c'.closed && c'.log == c.log)
  }

  lemma WriteOnlyDrains(o: Options, c: Session, send: Send)
    requires Settled(c.writeBuffer) && !IsOpen(c)
    ensures OnlyDrains(c, HandleWrite(o, c, send))
  {
    hide Consumed;
    if send.Sent? {
      ConsumeIsDequeue(c.writeBuffer, Min(send.count, WriteSize(o, c)));
      ConsumedSize(c.writeBuffer, Min(send.count, WriteSize(o, c)));
    }
  }

  lemma FinishOnlyDrains(c: Session)
    requires Settled(c.writeBuffer) && !c.closed
    ensures OnlyDrains(c, FinishWriting(c))
  {
  }

  lemma RefreshOnlyDrains(o: Options, c: Session)
    requires Settled(c.writeBuffer) && !IsOpen(c)
    ensures OnlyDrains(c, RefreshInterest(o, c))
  {
  }

  lemma OnlyDrainsTwice(c: Session, c': Session, c'': Session)
    requires InRange(c.writeBuffer) && InRange(c'.writeBuffer) && InRange(c''.writeBuffer)
    requires OnlyDrains(c, c') && OnlyDrains(c', c'')
    ensures OnlyDrains(c, c'')
  {
  }

  lemma EndOnlyDrains(o: Options, c: Session, r: Ready)
    requires Settled(c.writeBuffer) && !IsOpen(c)
    ensures OnlyDrains(c, EndReport(o, c, r))
  {
    hide HandleWrite, FinishWriting, RefreshInterest, NeedsCompaction;
    WriteOnlyDrains(o, c, r.send);
    var c2 := if !c.closed && r.write then HandleWrite(o, c, r.send) else c;
    if !c2.closed {
      FinishOnlyDrains(c2);
    }
    var c3 := if !c2.closed && r.hangup then FinishWriting(c2) else c2;
    RefreshOnlyDrains(o, c3);
  }

  lemma BeginOnlyDrains(o: Options, running: bool, c: Session, r: Ready)
    requires Settled(c.writeBuffer) && !IsOpen(c)
    ensures OnlyDrains(c, BeginReport(o, running, c, r))
    ensures c.todo == [] ==> BeginReport(o, running, c, r).todo == []
  {
    hide Receive, QueueFinalError;
  }

  /** A connection that is closing takes in nothing and queues nothing; a closed one also sends nothing, for ever. */
  lemma ClosingIsFinal(o: Options, c: Session, e: Event)
    requires Settled(c.writeBuffer) && !IsOpen(c) && c.todo == []
    ensures OnlyDrains(c, AfterEvent(o, c, e))
  {
    hide BeginReport, EndReport, FinishWriting, RefreshInterest, NeedsCompaction, IsOpen, OnlyDrains;
    match e
    case PollerReports(running, ready, responses) =>
      BeginOnlyDrains(o, running, c, ready);
      var b := BeginReport(o, running, c, ready);
      DrainsClosing(c, b);
      EndOnlyDrains(o, b, ready);
      OnlyDrainsTwice(c, b, EndReport(o, b, ready));
    case GracefulStop =>
      StillOnlyDrains(c);
      if !c.closed {
        DrainOnlyDrains(o, c);
      }
    case ForcedClose => CloseOnlyDrains(c);
  }

  lemma DrainsClosing(c: Session, c': Session)
    requires InRange(c.writeBuffer) && InRange(c'.writeBuffer) && OnlyDrains(c, c')
    ensures !IsOpen(c')
  {
  }

  lemma StillOnlyDrains(c: Session)
    requires Settled(c.writeBuffer) && !IsOpen(c)
    ensures OnlyDrains(c, c)
  {
  }

  lemma CloseOnlyDrains(c: Session)
    requires Settled(c.writeBuffer) && !IsOpen(c)
    ensures OnlyDrains(c, MarkClosed(c))
  {
  }

  lemma DrainOnlyDrains(o: Options, c: Session)
    requires Settled(c.writeBuffer) && !IsOpen(c) && !c.closed
    ensures OnlyDrains(c, DrainSession(o, c))
  {
    hide FinishWriting, RefreshInterest, NeedsCompaction;
    FinishOnlyDrains(c);
    RefreshOnlyDrains(o, FinishWriting(c));
  }

  lemma ConsumedSize(b: Buffer, n: nat)
    requires InRange(b) && n <= Size(b)
    ensures InRange(Consumed(b, n)) && Size(Consumed(b, n)) == Size(b) - n
  {
  }

  /**
   End of stream closes at once, though the code after it means to finish writing: the client gets
   every response queued for it exactly when nothing was still pending.
   */
  lemma EndOfStreamDropsPending(o: Options, c: Session)
    requires Sound(o, c) && IsOpen(c) && !c.readPaused && |c.readBuffer| < o.maxReadBufferBytes
    ensures
      var c' := HandleRead(o, c, Received([]));
      && c'.closed
      && (c'.log.sent == EncodeAll(Queued(c'.log)) <==> Pending(c.writeBuffer) == [])
  {
    hide EncodeAll, Ordered, Framed, Alternates;
    assert c.log.sent + Pending(c.writeBuffer) == EncodeAll(Queued(c.log));
    assert |c.log.sent + Pending(c.writeBuffer)| == |c.log.sent| + |Pending(c.writeBuffer)|;
  }

  /**
   On every run a refused response was one that no frame can hold or that would have taken the output past
   its hard limit; an error frame says that the undecoded bytes start an oversized frame, or that there are
   as many as the read buffer may hold.
   */
  lemma RefusalsAndErrorsHaveCause(o: Options, events: seq<Event>)
    requires IsSession(o, events)
    ensures
      var log := SessionAfter(o, events).log;
      && (log.refused.Some? ==>
            var response := log.refused.value.response;
            || |response| > 1048576
            || |EncodeAll(Queued(log))| - |log.sent| + 4 + |response| > o.writeHardLimitBytes)
      && (log.trailer.Some? ==>
            && EncodeAll(log.requests) <= log.received
            && var undecoded := log.received[|EncodeAll(log.requests)|..];
               if Decode(undecoded).failed then log.trailer.value == Ascii("-ERR protocol error")
               else
                 && log.trailer.value == Ascii("-ERR request buffer too large")
                 && |undecoded| >= o.maxReadBufferBytes)
  {
    hide Bounds, Streamed, Ordered, Framed, Alternates, EncodeAll, Decode;
    SessionsAreSound(o, events);
  }

  // ------------------------------------------------------------ buffers

  lemma BuffersStayBounded(o: Options, events: seq<Event>)
    requires IsSession(o, events)
    ensures Bounds(o, SessionAfter(o, events))
  {
    hide Streamed, Ordered, Framed, Alternates;
    SessionsAreSound(o, events);
  }

  /** The read buffer of an open connection never holds a whole frame. */
  lemma OpenReadBufferIsPartOfAFrame(o: Options, events: seq<Event>)
    requires IsSession(o, events) && IsOpen(SessionAfter(o, events))
    ensures |SessionAfter(o, events).readBuffer| < HEADER_SIZE + MAX_FRAME_SIZE
  {
    hide HeaderValue, Ordered, Streamed, Alternates;
    SessionsAreSound(o, events);
  }

  /** A client that sends one byte at a time of a frame of the largest size. */
  function LargestFrame(): bytes {
    Header(MAX_FRAME_SIZE) + seq(MAX_FRAME_SIZE, i => 0)
  }

  function OneByteEvent(b: byte): Event {
    PollerReports(true, Ready(false, true, false, false, Received([b]), SendWouldBlock), [])
  }

  lemma LargestFrameIsIncomplete(n: nat)
    requires n < HEADER_SIZE + MAX_FRAME_SIZE
    ensures Decode(LargestFrame()[..n]) == Decoded([], LargestFrame()[..n], false)
  {
    var payload: bytes := seq(MAX_FRAME_SIZE, i => 0);
    hide HeaderValue, Decode, EncodeAll;
    assert Frame(payload) == LargestFrame();
    assert Frame(payload) + [] == Frame(payload);
    PartOfFrameIsIncomplete(payload, [], LargestFrame()[..n]);
  }

  /** The poller reports reading and writing only where it was asked to. */
  ghost predicate IsPolled(o: Options, events: seq<Event>) {
    events != [] ==>
      var before, e := events[..|events| - 1], events[|events| - 1];
      IsPolled(o, before) && OnlyAskedFor(SessionAfter(o, before), e)
  }

  predicate OnlyAskedFor(c: Session, e: Event) {
    e.PollerReports? ==> (e.ready.read ==> c.registered.read) && (e.ready.write ==> c.registered.write)
  }

  lemma {:induction false} FillReadBuffer(o: Options, n: nat) returns (events: seq<Event>)
    requires o.writeHighWatermarkBytes > 0 && n <= o.maxReadBufferBytes && n < HEADER_SIZE + MAX_FRAME_SIZE
    ensures IsSession(o, events) && IsPolled(o, events)
    ensures |LargestFrame()| == HEADER_SIZE + MAX_FRAME_SIZE
    ensures
      var c := SessionAfter(o, events);
      IsReading(c) && c.readBuffer == LargestFrame()[..n]
  {
    hide Decode, LargestFrame, AnswerAll, BeginReport, HandleReady, IsReading;
    LargestFrameLength();
    if n == 0 {
      events := [];
      JoinedIsReading();
    } else {
      var before := FillReadBuffer(o, n - 1);
      var e := OneByteEvent(LargestFrame()[n - 1]);
      events := before + [e];
      assert events[..|events| - 1] == before;
      var c := SessionAfter(o, before);
      assert c.readBuffer + [LargestFrame()[n - 1]] == LargestFrame()[..n];
      LargestFrameIsIncomplete(n);
      OneByteStep(o, c, LargestFrame()[n - 1]);
    }
  }

  predicate IsReading(c: Session) {
    && IsOpen(c) && !c.readPaused && c.todo == [] && c.writeBuffer == EMPTY_BUFFER
    && c.registered == Interest(true, false)
  }

  lemma JoinedIsReading()
    ensures IsReading(JOINED) && JOINED.readBuffer == []
  {
  }

  lemma OneByteStep(o: Options, c: Session, b: byte)
    requires o.writeHighWatermarkBytes > 0 && |c.readBuffer| < o.maxReadBufferBytes && IsReading(c)
    requires Decode(c.readBuffer + [b]) == Decoded([], c.readBuffer + [b], false)
    ensures
      var e := OneByteEvent(b);
      var c' := AfterEvent(o, c, e);
      && IsServed(o, c, e) && OnlyAskedFor(c, e)
      && IsReading(c') && c'.readBuffer == c.readBuffer + [b]
  {
    hide Decode;
    var e := OneByteEvent(b);
    assert [b][..Min(1, ReadSize(o, c))] == [b];
    var c1 := BeginReport(o, true, c, e.ready);
    assert IsReading(c1) && c1.readBuffer == c.readBuffer + [b];
    assert AnswerAll(o, c1, []) == c1;
    assert EndReport(o, c1, e.ready) == RefreshInterest(o, c1);
  }

  // ---- with a high watermark of zero a connection is read from only once

  /** Paused exactly while it owes bytes. */
  predicate PausedIffOwing(c: Session)
    requires InRange(c.writeBuffer)
  {
    IsOpen(c) ==> (c.readPaused <==> Size(c.writeBuffer) > 0)
  }

  predicate OnlyWrites(c: Session)
    requires InRange(c.writeBuffer)
  {
    IsOpen(c) ==> c.readPaused && Size(c.writeBuffer) > 0 && c.registered == Interest(false, true)
  }

  lemma QueueingPauses(o: Options, c: Session, response: bytes, purpose: Purpose)
    requires ValidOptions(o) && o.writeHighWatermarkBytes == 0 && Settled(c.writeBuffer) && PausedIffOwing(c)
    ensures PausedIffOwing(QueueResponse(o, c, response, purpose))
  {
    hide Encode, NeedsCompaction;
    if FitsOutput(o, c, response) {
      AppendIsEnqueue(c.writeBuffer, Frame(response));
      assert |Pending(Appended(c.writeBuffer, Frame(response)))| == Size(c.writeBuffer) + |Frame(response)|;
    }
  }

  lemma {:induction false} AnsweringPauses(o: Options, c: Session, responses: seq<bytes>)
    requires ValidOptions(o) && o.writeHighWatermarkBytes == 0 && Settled(c.writeBuffer) && PausedIffOwing(c)
    ensures PausedIffOwing(AnswerAll(o, c, responses))
    decreases |responses|
  {
    hide QueueResponse, NeedsCompaction, IsQuit;
    if responses != [] && c.todo != [] {
      QueueingPauses(o, c.(todo := c.todo[1..]), responses[0], ReplyTo(c.todo[0]));
      AnsweringPauses(o, ProcessPayload(o, c, responses[0]), responses[1..]);
    }
  }

  lemma BeginningPauses(o: Options, running: bool, c: Session, r: Ready)
    requires ValidOptions(o) && o.writeHighWatermarkBytes == 0 && Settled(c.writeBuffer) && PausedIffOwing(c)
    ensures PausedIffOwing(BeginReport(o, running, c, r))
  {
    hide QueueResponse, Decode, NeedsCompaction;
    QueueingPauses(o, c, BUFFER_TOO_LARGE, FinalError);
    if r.recv.Received? {
      var data := r.recv.data[..Min(|r.recv.data|, ReadSize(o, c))];
      var rest := Decode(c.readBuffer + data).rest;
      QueueingPauses(o, c.(readBuffer := rest, log := c.log.(received := c.log.received + data)), PROTOCOL_ERROR,
        FinalError);
    }
  }

  lemma WritingPauses(o: Options, c: Session, send: Send)
    requires ValidOptions(o) && o.writeHighWatermarkBytes == 0 && Settled(c.writeBuffer) && PausedIffOwing(c)
    requires Size(c.writeBuffer) > 0
    ensures PausedIffOwing(HandleWrite(o, c, send))
  {
    hide Consumed, NeedsCompaction;
    if send.Sent? {
      ConsumeIsDequeue(c.writeBuffer, Min(send.count, WriteSize(o, c)));
      ConsumedSize(c.writeBuffer, Min(send.count, WriteSize(o, c)));
    }
  }

  lemma RefreshingPauses(o: Options, c: Session)
    requires ValidOptions(o) && o.writeHighWatermarkBytes == 0 && Settled(c.writeBuffer) && PausedIffOwing(c)
    ensures OnlyWrites(RefreshInterest(o, c))
  {
  }

  lemma WithoutReading(o: Options, running: bool, c: Session, r: Ready, responses: seq<bytes>)
    requires Settled(c.writeBuffer) && c.todo == [] && (r.read ==> !IsOpen(c))
    ensures
      var b := AnswerAll(o, BeginReport(o, running, c, r), responses);
      b == c || b == MarkClosed(c)
  {
  }

  lemma EndingPauses(o: Options, c: Session, r: Ready)
    requires ValidOptions(o) && o.writeHighWatermarkBytes == 0 && Settled(c.writeBuffer) && PausedIffOwing(c)
    requires r.write && !c.closed ==> PausedIffOwing(HandleWrite(o, c, r.send))
    ensures OnlyWrites(EndReport(o, c, r))
  {
    hide HandleWrite, RefreshInterest, NeedsCompaction;
    var c2 := if !c.closed && r.write then HandleWrite(o, c, r.send) else c;
    var c3 := if !c2.closed && r.hangup then FinishWriting(c2) else c2;
    RefreshingPauses(o, c3);
  }

  lemma ReportPauses(o: Options, c: Session, e: Event)
    requires ValidOptions(o) && o.writeHighWatermarkBytes == 0 && Settled(c.writeBuffer)
    requires e.PollerReports? && OnlyAskedFor(c, e) && c.todo == []
    requires OnlyWrites(c) || (PausedIffOwing(c) && !c.registered.write)
    ensures OnlyWrites(AfterEvent(o, c, e))
  {
    hide BeginReport, AnswerAll, HandleWrite, EndReport, NeedsCompaction;
    var r, b := e.ready, BeginReport(o, e.running, c, e.ready);
    var c1 := AnswerAll(o, b, e.responses);
    BeginningPauses(o, e.running, c, r);
    AnsweringPauses(o, b, e.responses);
    if r.write {
      WithoutReading(o, e.running, c, r, e.responses);
      if IsOpen(c) {
        WritingPauses(o, c, r.send);
      } else {
        WriteOnlyDrains(o, c, r.send);
      }
    }
    EndingPauses(o, c1, r);
  }

  /** So once anything has happened to such a connection, an open one is paused. */
  lemma {:induction false} EventsPause(o: Options, events: seq<Event>)
    requires ValidOptions(o) && o.writeHighWatermarkBytes == 0
    requires IsSession(o, events) && IsPolled(o, events) && events != []
    ensures OnlyWrites(SessionAfter(o, events))
  {
    hide AfterEvent, OnlyWrites, IsSession, NeedsCompaction;
    var before, e := events[..|events| - 1], events[|events| - 1];
    var c := SessionAfter(o, before);
    FirstSession(o, events);
    SessionsAreSound(o, before);
    if before == [] {
      JoinedIsIdle();
    } else {
      EventsPause(o, before);
    }
    if e.PollerReports? {
      ReportPauses(o, c, e);
    } else {
      StoppingWrites(o, c, e);
    }
  }

  lemma FirstSession(o: Options, events: seq<Event>)
    requires IsSession(o, events) && events != []
    ensures IsSession(o, events[..|events| - 1])
  {
  }

  lemma JoinedIsIdle()
    ensures PausedIffOwing(JOINED) && !JOINED.registered.write && |JOINED.readBuffer| == 0
  {
  }

  lemma StoppingWrites(o: Options, c: Session, e: Event)
    requires Settled(c.writeBuffer) && !e.PollerReports?
    ensures OnlyWrites(AfterEvent(o, c, e))
  {
  }

  /** A read that finds the buffer full, and so rejects the client. */
  predicate RejectsNext(o: Options, c: Session) {
    IsOpen(c) && !c.readPaused && |c.readBuffer| >= o.maxReadBufferBytes
  }

  /**
   With a poller that reports only what it was asked for, the rejection of an oversized read buffer can
   happen exactly when the buffer is too small for the largest frame and the high watermark is not zero.
   */
  lemma OversizedRejectionIsReachableIff(o: Options)
    requires ValidOptions(o)
    ensures (exists events :: IsSession(o, events) && IsPolled(o, events) && RejectsNext(o, SessionAfter(o, events)))
            <==> o.writeHighWatermarkBytes > 0 && o.maxReadBufferBytes < HEADER_SIZE + MAX_FRAME_SIZE
  {
    hide IsSession, IsPolled, LargestFrame, AfterEvent;
    forall events | IsSession(o, events) && IsPolled(o, events) && RejectsNext(o, SessionAfter(o, events))
      ensures o.writeHighWatermarkBytes > 0 && o.maxReadBufferBytes < HEADER_SIZE + MAX_FRAME_SIZE
    {
      OpenReadBufferIsPartOfAFrame(o, events);
      JoinedIsIdle();
      if o.writeHighWatermarkBytes == 0 && events != [] {
        EventsPause(o, events);
      }
    }
    if o.writeHighWatermarkBytes > 0 && o.maxReadBufferBytes < HEADER_SIZE + MAX_FRAME_SIZE {
      var events := FillReadBuffer(o, o.maxReadBufferBytes);
      assert RejectsNext(o, SessionAfter(o, events));
    }
  }

  lemma LargestFrameLength()
    ensures |LargestFrame()| == HEADER_SIZE + MAX_FRAME_SIZE
  {
  }

  // ------------------------------------------------------------ back-pressure

  /**
   From the high watermark on a connection is paused, down to the low one it is not, and strictly between them
   an update leaves the flag as it is; only where the marks are equal and met exactly does it flip. Nothing but
   the flag and its events ever changes.
   */
  lemma HysteresisHolds(o: Options, c: Session)
    requires ValidOptions(o) && Settled(c.writeBuffer) && IsOpen(c)
    ensures
      var p, pending := UpdateReadBackPressure(o, c), |Pending(c.writeBuffer)|;
      var low, high := o.writeLowWatermarkBytes, o.writeHighWatermarkBytes;
      && p.(readPaused := c.readPaused, log := p.log.(pressure := c.log.pressure)) == c
      && (low < pending < high ==> p == c)
      && (high <= pending && low < pending ==> p.readPaused)
      && (pending <= low && pending < high ==> !p.readPaused)
      && (pending == low == high ==> p.readPaused == !c.readPaused)
  {
  }

  /** The options allow equal watermarks, and then a connection pending exactly that much flips at every update. */
  lemma PressureSettlesIff(o: Options, c: Session)
    requires ValidOptions(o) && Settled(c.writeBuffer) && IsOpen(c)
    ensures
      var p := UpdateReadBackPressure(o, c);
      (UpdateReadBackPressure(o, p) == p)
      <==> !(o.writeLowWatermarkBytes == o.writeHighWatermarkBytes == Size(c.writeBuffer))
  {
    var p := UpdateReadBackPressure(o, c);
    var q := UpdateReadBackPressure(o, p);
    assert p.readPaused != q.readPaused ==> q != p;
  }

  /** On every run the pause and resume metrics of a connection alternate, starting with a pause. */
  lemma PausesAndResumesAlternate(o: Options, events: seq<Event>)
    requires IsSession(o, events)
    ensures
      var pressure := SessionAfter(o, events).log.pressure;
      forall i :: 0 <= i < |pressure| ==> (pressure[i] == Paused <==> i % 2 == 0)
  {
    hide Streamed, Ordered, Framed, Bounds;
    SessionsAreSound(o, events);
  }

  // ------------------------------------------------------------ poller interest

  /**
   Registered for reading unless it is paused or closing, for writing while bytes are pending, and for one of
   the two at least; so if it is closing, there are bytes to wait for.
   */
  predicate IsSettledClient(c: Session)
    requires InRange(c.writeBuffer)
  {
    && !c.closed
    && (c.registered.read <==> !c.readPaused && !c.closeAfterWrite)
    && (c.registered.write <==> Pending(c.writeBuffer) != [])
    && (c.registered.read || c.registered.write)
  }

  lemma RefreshSettles(o: Options, c: Session)
    requires o.writeHighWatermarkBytes > 0 && Settled(c.writeBuffer)
    ensures RefreshInterest(o, c).closed || IsSettledClient(RefreshInterest(o, c))
  {
  }

  /** The branch that closes a connection with nothing to wait for is taken exactly when the high watermark is zero. */
  lemma NoInterestBranchIff(o: Options, c: Session)
    requires ValidOptions(o) && Settled(c.writeBuffer) && !c.closed
    ensures
      var p := UpdateReadBackPressure(o, c);
      (!(p.closeAfterWrite && Size(p.writeBuffer) == 0) && DesiredEvents(p) == NO_INTEREST)
      <==> IsOpen(c) && !c.readPaused && Size(c.writeBuffer) == 0 && o.writeHighWatermarkBytes == 0
  {
  }
}
