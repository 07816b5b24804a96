/** What holds of a connection on every run: the byte streams in both directions, the buffers, the back-pressure. */
module SessionRuns {
  import opened Basics
  import opened OutputBuffers
  import opened FrameCodec
  import opened Sessions

  function Responses(exchanges: seq<Exchange>): seq<bytes> {
    seq(|exchanges|, i requires 0 <= i < |exchanges| => exchanges[i].response)
  }

  /** Everything queued for the client, in order: the responses, then the error frame if there is one. */
  function Queued(log: Log): seq<bytes> {
    Responses(log.exchanges) + (if log.trailer.Some? then [log.trailer.value] else [])
  }

  function Stream(log: Log): bytes {
    EncodeAll(Queued(log))
  }

  // ------------------------------------------------------------ the invariant

  /** Neither buffer outgrows its limit, and a closed connection holds no bytes and no flags. */
  ghost predicate Bounds(o: Options, c: Session) {
    && Settled(c.writeBuffer)
    && Size(c.writeBuffer) <= o.writeHardLimitBytes
    && |c.readBuffer| <= o.maxReadBufferBytes
    && (c.closed ==> c.readBuffer == [] && c.writeBuffer == EMPTY_BUFFER && !c.readPaused && !c.closeAfterWrite)
  }

  /** What was sent and what is pending make up the stream; after closing, what was sent is a prefix of it. */
  ghost predicate Streamed(c: Session) {
    && Settled(c.writeBuffer)
    && (!c.closed ==> c.log.sent + Pending(c.writeBuffer) == Stream(c.log))
    && c.log.sent <= Stream(c.log)
  }

  /**
   The i-th exchange answers the i-th decoded frame, and an open connection has still to do exactly the
   frames not answered. `QUIT` or an error frame comes last, and only a closed connection or one that has
   quit leaves decoded frames unanswered; a refused response is to the first of those.
   */
  ghost predicate Ordered(c: Session) {
    var answered, requests := |c.log.exchanges|, c.log.requests;
    && answered <= |requests|
    && (forall i :: 0 <= i < answered ==> c.log.exchanges[i].request == requests[i])
    && (forall i :: 0 <= i < answered - 1 ==> !IsQuit(requests[i]))
    && (c.log.trailer.Some? ==> answered == |requests| && (answered > 0 ==> !IsQuit(requests[answered - 1])))
    && (c.log.refused.Some? ==> c.closed && answered < |requests| && c.log.refused.value.request == requests[answered])
    && (c.log.refused.Some? && answered > 0 ==> !IsQuit(requests[answered - 1]))
    && (if IsOpen(c) then IsWaiting(c) else c.todo == [])
    && (!c.closed && !IsOpen(c) && answered < |requests| ==> answered > 0 && IsQuit(requests[answered - 1]))
  }

  /** The state of the log of an open connection. */
  ghost predicate IsWaiting(c: Session) {
    var answered, requests := |c.log.exchanges|, c.log.requests;
    && c.log.trailer.None? && answered <= |requests| && requests[answered..] == c.todo
    && (answered > 0 ==> !IsQuit(requests[answered - 1]))
  }

  /** The decoded frames are the first frames of the bytes received; while open, nothing received is lost. */
  ghost predicate Framed(c: Session) {
    && Fit(c.log.requests)
    && EncodeAll(c.log.requests) <= c.log.received
    && (IsOpen(c) ==> Incomplete(c.readBuffer) && c.log.received == EncodeAll(c.log.requests) + c.readBuffer)
  }

  /** Pause and resume events alternate, a pause first, and an open connection is in the state the last one left. */
  ghost predicate Alternates(c: Session) {
    && (forall i :: 0 <= i < |c.log.pressure| ==> c.log.pressure[i] == if i % 2 == 0 then Paused else Resumed)
    && (IsOpen(c) ==> (c.readPaused <==> |c.log.pressure| % 2 == 1))
  }

  /**
   A response was refused because no frame can hold it or because the output would have passed its hard
   limit; and an error frame says whether the bytes behind the decoded frames start an oversized frame, or
   are too many.
   */
  ghost predicate Justified(o: Options, log: Log) {
    && (log.refused.Some? ==> IsTooMuch(o, log, log.refused.value.response))
    && (log.trailer.Some? ==> IsDueError(o, log, log.trailer.value))
  }

  ghost predicate IsTooMuch(o: Options, log: Log, response: bytes) {
    || |response| > 1024 * 1024
    || |EncodeAll(Queued(log))| - |log.sent| + 4 + |response| > o.writeHardLimitBytes
  }

  ghost predicate IsDueError(o: Options, log: Log, message: bytes) {
    && EncodeAll(log.requests) <= log.received
    && var rest := log.received[|EncodeAll(log.requests)|..];
       if Decode(rest).failed then message == Ascii("-ERR protocol error")
       else message == Ascii("-ERR request buffer too large") && |rest| >= o.maxReadBufferBytes
  }

  ghost predicate Sound(o: Options, c: Session) {
    Bounds(o, c) && Streamed(c) && Ordered(c) && Framed(c) && Alternates(c) && Justified(o, c.log)
  }

  lemma JoinedIsSound(o: Options)
    ensures Sound(o, JOINED)
  {
  }

  // ------------------------------------------------------------ one handler at a time

  lemma CloseIsSound(o: Options, c: Session)
    requires Sound(o, c)
    ensures Sound(o, MarkClosed(c))
  {
    hide EncodeAll, Stream, IsQuit, Incomplete, Justified;
  }

  lemma PressedIsSound(o: Options, c: Session, e: Pressure)
    requires Sound(o, c) && IsOpen(c) && (e.Paused? <==> !c.readPaused)
    ensures Sound(o, Pressed(c, e))
  {
    hide EncodeAll, IsQuit, Incomplete, Settled;
    var p := Pressed(c, e);
    assert Alternates(p) by {
      hide Bounds, Streamed, Ordered, Framed;
    }
    assert Queued(p.log) == Queued(c.log);
  }

  /** Back-pressure touches nothing but the pause flag and its events. */
  lemma PressureIsSound(o: Options, c: Session)
    requires Sound(o, c)
    ensures Sound(o, UpdateReadBackPressure(o, c))
    ensures
      var p := UpdateReadBackPressure(o, c);
      p.(readPaused := c.readPaused, log := p.log.(pressure := c.log.pressure)) == c
  {
    hide Sound;
    SoundIsBounded(o, c);
    if IsOpen(c) {
      PressedIsSound(o, c, if c.readPaused then Resumed else Paused);
    }
  }

  lemma StreamGrows(log: Log, purpose: Purpose, response: bytes)
    requires log.trailer.None?
    ensures Stream(Logged(log, purpose, response)) == Stream(log) + Frame(response)
  {
    hide Frame;
    assert Queued(Logged(log, purpose, response)) == Queued(log) + [response];
    EncodeAllConcat(Queued(log), [response]);
    EncodeAllFront(response, []);
    assert [response] + [] == [response];
    assert Frame(response) + EncodeAll([]) == Frame(response);
  }

  /**
   A frame that fits is appended and logged, and the pause flag follows its events; otherwise the client is
   dropped.
  */
  lemma QueueEffect(o: Options, c: Session, response: bytes, purpose: Purpose)
    requires Settled(c.writeBuffer) && IsOpen(c)
    ensures
      var q, log := QueueResponse(o, c, response, purpose), Logged(c.log, purpose, response);
      if FitsOutput(o, c, response) then
        && IsOpen(q) && q.readBuffer == c.readBuffer && q.todo == c.todo
        && q.writeBuffer == Appended(c.writeBuffer, Frame(response))
        && q.log.(pressure := c.log.pressure) == log
        && (Alternates(c) ==> Alternates(q))
      else q == TurnedAway(c, purpose, response)
  {
    hide Frame, Appended, Encode;
  }

  lemma QueuedStreams(c: Session, q: Session, response: bytes, purpose: Purpose)
    requires Streamed(c) && IsOpen(c) && c.log.trailer.None?
    requires q.writeBuffer == Appended(c.writeBuffer, Frame(response)) && q.log.sent == c.log.sent
    requires Queued(q.log) == Queued(Logged(c.log, purpose, response))
    ensures Streamed(q)
  {
    hide Frame, EncodeAll, Queued;
    StreamGrows(c.log, purpose, response);
    AppendIsEnqueue(c.writeBuffer, Frame(response));
    var f := Frame(response);
    assert c.log.sent + (Pending(c.writeBuffer) + f) == c.log.sent + Pending(c.writeBuffer) + f;
  }

  lemma QueuedIsBounded(o: Options, c: Session, q: Session, response: bytes)
    requires Bounds(o, c) && !c.closed && !q.closed && FitsOutput(o, c, response)
    requires q.writeBuffer == Appended(c.writeBuffer, Frame(response)) && q.readBuffer == c.readBuffer
    ensures Bounds(o, q)
  {
    hide Frame;
    AppendIsEnqueue(c.writeBuffer, Frame(response));
    assert |Pending(q.writeBuffer)| == |Pending(c.writeBuffer)| + |Frame(response)|;
  }

  /** The first frame to do is the first one not answered, and it fitted a frame. */
  lemma FirstToDo(c: Session)
    requires Ordered(c) && Framed(c) && c.todo != []
    ensures IsOpen(c) && c.log.refused.None? && c.log.trailer.None?
    ensures
      var answered := |c.log.exchanges|;
      answered < |c.log.requests| && c.todo[0] == c.log.requests[answered]
        && c.todo[1..] == c.log.requests[answered + 1..]
    ensures |c.todo[0]| <= MAX_FRAME_SIZE
  {
    hide EncodeAll, Incomplete, IsQuit;
    var answered, requests := |c.log.exchanges|, c.log.requests;
    assert requests[answered] == requests[answered..][0] == c.todo[0];
    assert requests[answered + 1..] == requests[answered..][1..];
  }

  lemma AnsweredIsOrdered(c: Session, q: Session, response: bytes)
    requires Ordered(c) && Framed(c) && c.todo != []
    requires q.log.requests == c.log.requests && q.log.exchanges == c.log.exchanges + [Exchange(c.todo[0], response)]
    requires q.log.trailer == c.log.trailer && q.log.refused == c.log.refused && !q.closed
    requires q.closeAfterWrite == IsQuit(c.todo[0])
    requires q.todo == if q.closeAfterWrite then [] else c.todo[1..]
    ensures Ordered(q)
  {
    hide IsQuit, Framed;
    FirstToDo(c);
  }

  /** What is pending is what is queued and not yet sent. */
  lemma PendingIsUnsent(o: Options, c: Session)
    requires Sound(o, c) && !c.closed
    ensures |EncodeAll(Queued(c.log))| - |c.log.sent| == Size(c.writeBuffer)
  {
    hide EncodeAll, Queued, Ordered, Framed, Alternates, Justified;
    assert |c.log.sent + Pending(c.writeBuffer)| == |c.log.sent| + |Pending(c.writeBuffer)|;
  }

  lemma RefusedIsSound(o: Options, c: Session, response: bytes)
    requires Sound(o, c) && c.todo != [] && !FitsOutput(o, c.(todo := c.todo[1..]), response)
    ensures Sound(o, TurnedAway(c.(todo := c.todo[1..]), ReplyTo(c.todo[0]), response))
  {
    hide EncodeAll, Stream, IsQuit, Incomplete, IsDueError;
    FirstToDo(c);
    PendingIsUnsent(o, c);
    var r := TurnedAway(c.(todo := c.todo[1..]), ReplyTo(c.todo[0]), response);
    assert Queued(r.log) == Queued(c.log);
    SameQueue(r.log, c.log);
  }

  lemma SameQueue(log: Log, log': Log)
    requires Queued(log) == Queued(log')
    ensures Stream(log) == Stream(log')
  {
  }

  lemma PressureIsNotQueued(log: Log, log': Log)
    requires log.(pressure := log'.pressure) == log'
    ensures Queued(log) == Queued(log')
  {
  }

  lemma SameFraming(c: Session, q: Session)
    requires Framed(c) && IsOpen(c) && q.readBuffer == c.readBuffer
    requires q.log.requests == c.log.requests && q.log.received == c.log.received
    ensures Framed(q)
  {
    hide EncodeAll, Incomplete;
  }

  lemma QueuedReplyIsSound(o: Options, c: Session, response: bytes, q: Session)
    requires Settled(c.writeBuffer) && Sound(o, c) && c.todo != [] && FitsOutput(o, c, response)
    requires !q.closed && q.readBuffer == c.readBuffer && Alternates(q) && q.closeAfterWrite == IsQuit(c.todo[0])
    requires q.todo == if q.closeAfterWrite then [] else c.todo[1..]
    requires q.writeBuffer == Appended(c.writeBuffer, Frame(response))
    requires q.log.(pressure := c.log.pressure) == Logged(c.log, ReplyTo(c.todo[0]), response)
    ensures Sound(o, q)
  {
    hide Frame, Appended, FitsOutput, Bounds, Streamed, Ordered, Framed, Alternates, IsTooMuch, IsDueError, Queued;
    FirstToDo(c);
    PressureIsNotQueued(q.log, Logged(c.log, ReplyTo(c.todo[0]), response));
    QueuedStreams(c, q, response, ReplyTo(c.todo[0]));
    QueuedIsBounded(o, c, q, response);
    AnsweredIsOrdered(c, q, response);
    SameFraming(c, q);
  }

  lemma PayloadIsSound(o: Options, c: Session, response: bytes)
    requires Settled(c.writeBuffer) && Sound(o, c) && c.todo != []
    ensures Sound(o, ProcessPayload(o, c, response))
    ensures
      Executed(ProcessPayload(o, c, response).log) == Executed(c.log) + [Exchange(c.todo[0], response)]
  {
    hide Sound, Frame, Appended, EncodeAll, QueueResponse, FitsOutput, NeedsCompaction, Alternates, IsQuit;
    SoundToDo(o, c);
    var payload, c1 := c.todo[0], c.(todo := c.todo[1..]);
    QueueEffect(o, c1, response, ReplyTo(payload));
    AlternatesAnyhow(c, c1);
    if FitsOutput(o, c1, response) {
      SameFit(o, c, c1, response);
      var q := ProcessPayload(o, c, response);
      AlternatesAnyhow(QueueResponse(o, c1, response, ReplyTo(payload)), q);
      QueuedReplyIsSound(o, c, response, q);
    } else {
      RefusedIsSound(o, c, response);
    }
  }

  lemma SoundToDo(o: Options, c: Session)
    requires Sound(o, c) && c.todo != []
    ensures IsOpen(c) && Alternates(c) && c.log.refused.None? && c.log.trailer.None?
  {
    hide Bounds, Streamed, Alternates, Justified;
    FirstToDo(c);
  }

  lemma AlternatesAnyhow(c: Session, c': Session)
    requires Alternates(c) && c'.log.pressure == c.log.pressure && c'.readPaused == c.readPaused
    requires IsOpen(c') ==> IsOpen(c)
    ensures Alternates(c')
  {
  }

  lemma SameFit(o: Options, c: Session, c': Session, response: bytes)
    requires InRange(c.writeBuffer) && c'.writeBuffer == c.writeBuffer
    ensures FitsOutput(o, c, response) == FitsOutput(o, c', response)
  {
  }

  lemma {:induction false} AnsweringIsSound(o: Options, c: Session, responses: seq<bytes>)
    requires Sound(o, c)
    ensures Sound(o, AnswerAll(o, c, responses))
    decreases |responses|
  {
    hide Bounds, Streamed, Ordered, Framed, Alternates, ProcessPayload;
    BoundsSettle(o, c);
    if responses != [] && c.todo != [] {
      PayloadIsSound(o, c, responses[0]);
      AnsweringIsSound(o, ProcessPayload(o, c, responses[0]), responses[1..]);
    }
  }

  /** The state in which a connection that is to be turned away gets its error frame. */
  ghost predicate EndsWith(o: Options, c: Session, message: bytes) {
    && Bounds(o, c) && Streamed(c) && Ordered(c) && Alternates(c) && IsOpen(c) && c.todo == []
    && Fit(c.log.requests) && EncodeAll(c.log.requests) <= c.log.received
    && IsDueError(o, c.log, message)
  }

  lemma QueuedErrorIsOrdered(c: Session, message: bytes, q: Session)
    requires Ordered(c) && IsOpen(c) && c.todo == [] && IsOpen(q) && q.todo == []
    requires q.log.(pressure := c.log.pressure) == c.log.(trailer := Some(message))
    ensures Ordered(q.(closeAfterWrite := true)) && c.log.trailer.None? && q.log.refused.None?
  {
    hide IsQuit;
  }

  lemma QueuedErrorIsSound(o: Options, c: Session, message: bytes, q: Session)
    requires Settled(c.writeBuffer) && EndsWith(o, c, message) && FitsOutput(o, c, message)
    requires IsOpen(q) && q.readBuffer == c.readBuffer && q.todo == c.todo && Alternates(q)
    requires q.writeBuffer == Appended(c.writeBuffer, Frame(message))
    requires q.log.(pressure := c.log.pressure) == c.log.(trailer := Some(message))
    ensures Sound(o, q.(closeAfterWrite := true))
  {
    hide Frame, Appended, EncodeAll, FitsOutput, Bounds, Streamed, Ordered, Alternates, IsTooMuch, Decode, Queued;
    QueuedErrorIsOrdered(c, message, q);
    PressureIsNotQueued(q.log, Logged(c.log, FinalError, message));
    QueuedStreams(c, q, message, FinalError);
    QueuedIsBounded(o, c, q, message);
    StillBounded(o, q);
    AlternatesAnyhow(q, q.(closeAfterWrite := true));
  }

  lemma StillBounded(o: Options, q: Session)
    requires Bounds(o, q) && Streamed(q) && !q.closed
    ensures Bounds(o, q.(closeAfterWrite := true)) && Streamed(q.(closeAfterWrite := true))
  {
    hide EncodeAll;
  }

  lemma DroppedErrorIsSound(o: Options, c: Session, message: bytes)
    requires EndsWith(o, c, message)
    ensures Sound(o, MarkClosed(c))
  {
    hide EncodeAll, Stream, IsQuit, IsTooMuch, IsDueError;
  }

  lemma FinalErrorIsSound(o: Options, c: Session, message: bytes)
    requires Settled(c.writeBuffer) && EndsWith(o, c, message)
    ensures Sound(o, QueueFinalError(o, c, message))
    ensures Executed(QueueFinalError(o, c, message).log) == Executed(c.log)
  {
    hide EndsWith, Sound, Frame, Appended, QueueResponse, FitsOutput, NeedsCompaction, Alternates;
    EndingIsSettled(o, c, message);
    QueueEffect(o, c, message, FinalError);
    if FitsOutput(o, c, message) {
      QueuedErrorIsSound(o, c, message, QueueResponse(o, c, message, FinalError));
    } else {
      DroppedErrorIsSound(o, c, message);
    }
  }

  lemma EndingIsSettled(o: Options, c: Session, message: bytes)
    requires EndsWith(o, c, message)
    ensures Settled(c.writeBuffer) && IsOpen(c) && Alternates(c)
  {
    hide EncodeAll, IsDueError, Streamed, Ordered;
  }

  lemma ReceivedIsFramed(c: Session, data: bytes)
    requires Framed(c) && IsOpen(c)
    ensures
      var d := Decode(c.readBuffer + data);
      && |d.rest| <= |c.readBuffer + data|
      && Fit(c.log.requests + d.frames)
      && c.log.received + data == EncodeAll(c.log.requests + d.frames) + d.rest
      && (!d.failed ==> Incomplete(d.rest))
      && EncodeAll(c.log.requests) <= c.log.received + data
  {
    hide Decode, EncodeAll, Incomplete;
    var d := Decode(c.readBuffer + data);
    DecodeSplits(c.readBuffer + data);
    EncodeAllConcat(c.log.requests, d.frames);
    assert c.log.received + data == EncodeAll(c.log.requests) + (c.readBuffer + data);
  }

  /** The connection once `recv`'s bytes have been decoded, whether or not decoding failed. */
  function WithFrames(c: Session, data: bytes, frames: seq<bytes>): Session {
    c.(readBuffer := Decode(c.readBuffer + data).rest, todo := frames,
       log := c.log.(received := c.log.received + data, requests := c.log.requests + frames))
  }

  lemma WithFramesStreams(o: Options, c: Session, data: bytes, frames: seq<bytes>)
    requires Bounds(o, c) && Streamed(c) && Alternates(c) && IsOpen(c)
    requires |Decode(c.readBuffer + data).rest| <= o.maxReadBufferBytes
    ensures
      var t := WithFrames(c, data, frames);
      Bounds(o, t) && Streamed(t) && Alternates(t) && IsOpen(t)
  {
    hide Decode, EncodeAll, Settled;
    assert Queued(WithFrames(c, data, frames).log) == Queued(c.log);
  }

  lemma WithFramesIsOrdered(c: Session, data: bytes, frames: seq<bytes>)
    requires Ordered(c) && IsOpen(c) && c.todo == []
    ensures Ordered(WithFrames(c, data, frames))
    ensures c.log.refused.None? && c.log.trailer.None?
  {
    hide Decode, IsQuit;
    assert |c.log.requests| == |c.log.exchanges|;
    assert (c.log.requests + frames)[|c.log.exchanges|..] == frames;
  }

  lemma WithFramesIsFramed(c: Session, data: bytes)
    requires Framed(c) && IsOpen(c) && !Decode(c.readBuffer + data).failed
    ensures Framed(WithFrames(c, data, Decode(c.readBuffer + data).frames))
  {
    hide Decode, EncodeAll, Incomplete;
    ReceivedIsFramed(c, data);
  }

  /** The bytes behind the decoded frames are those in the read buffer. */
  lemma UndecodedBytes(c: Session, data: bytes)
    requires Framed(c) && IsOpen(c)
    ensures
      var received := c.log.received + data;
      && EncodeAll(c.log.requests) <= received
      && received[|EncodeAll(c.log.requests)|..] == c.readBuffer + data
      && !Decode(c.readBuffer).failed
  {
    hide EncodeAll, Decode;
    assert c.log.received + data == EncodeAll(c.log.requests) + (c.readBuffer + data);
    DecodeStops(c.readBuffer);
  }

  lemma RejectedIsSound(o: Options, c: Session, data: bytes)
    requires Sound(o, c) && IsOpen(c) && c.todo == []
    requires |c.readBuffer| + |data| <= o.maxReadBufferBytes && Decode(c.readBuffer + data).failed
    ensures Sound(o, Receive(o, c, data)) && Executed(Receive(o, c, data).log) == Executed(c.log)
  {
    hide Decode, EncodeAll, QueueFinalError, Bounds, Streamed, Ordered, Alternates, IsOpen, Incomplete;
    BoundsSettle(o, c);
    ReceivedIsFramed(c, data);
    WithFramesStreams(o, c, data, []);
    WithFramesIsOrdered(c, data, []);
    UndecodedBytes(c, data);
    assert c.log.requests + [] == c.log.requests;
    FinalErrorIsSound(o, WithFrames(c, data, []), PROTOCOL_ERROR);
  }

  lemma BoundsSettle(o: Options, c: Session)
    requires Bounds(o, c)
    ensures Settled(c.writeBuffer)
  {
  }

  lemma DecodingIsSound(o: Options, c: Session, data: bytes)
    requires Sound(o, c) && IsOpen(c) && c.todo == []
    requires |c.readBuffer| + |data| <= o.maxReadBufferBytes && !Decode(c.readBuffer + data).failed
    ensures Sound(o, WithFrames(c, data, Decode(c.readBuffer + data).frames))
  {
    hide Decode, EncodeAll, Bounds, Streamed, Ordered, Framed, Alternates, IsTooMuch, IsDueError;
    var frames := Decode(c.readBuffer + data).frames;
    ReceivedIsFramed(c, data);
    WithFramesStreams(o, c, data, frames);
    WithFramesIsOrdered(c, data, frames);
    WithFramesIsFramed(c, data);
  }

  lemma ReceiveIsSound(o: Options, c: Session, data: bytes)
    requires Sound(o, c) && IsOpen(c) && c.todo == []
    requires |c.readBuffer| + |data| <= o.maxReadBufferBytes
    ensures Sound(o, Receive(o, c, data)) && Executed(Receive(o, c, data).log) == Executed(c.log)
  {
    hide Decode, Sound, IsOpen, QueueFinalError;
    SoundIsBounded(o, c);
    if Decode(c.readBuffer + data).failed {
      RejectedIsSound(o, c, data);
    } else {
      DecodingIsSound(o, c, data);
    }
  }

  lemma BeginIsSound(o: Options, running: bool, c: Session, r: Ready)
    requires Sound(o, c) && c.todo == []
    ensures Sound(o, BeginReport(o, running, c, r)) && Executed(BeginReport(o, running, c, r).log) == Executed(c.log)
  {
    hide Receive, QueueFinalError, Decode, EncodeAll, Stream, Incomplete, IsQuit, Settled;
    CloseIsSound(o, c);
    if IsOpen(c) {
      if |c.readBuffer| >= o.maxReadBufferBytes {
        UndecodedBytes(c, []);
        assert c.log.received + [] == c.log.received && c.readBuffer + [] == c.readBuffer;
        FinalErrorIsSound(o, c, BUFFER_TOO_LARGE);
      } else if r.recv.Received? {
        ReceiveIsSound(o, c, r.recv.data[..Min(|r.recv.data|, ReadSize(o, c))]);
      }
    }
  }

  lemma TransmitIsSound(o: Options, c: Session, n: nat)
    requires Sound(o, c) && !c.closed && n <= Size(c.writeBuffer)
    ensures Sound(o, Transmit(o, c, n))
  {
    hide EncodeAll, IsQuit, Incomplete, UpdateReadBackPressure, Consumed, IsTooMuch, Decode;
    ConsumeIsDequeue(c.writeBuffer, n);
    var p := Pending(c.writeBuffer);
    var t := c.(writeBuffer := Consumed(c.writeBuffer, n), log := c.log.(sent := c.log.sent + p[..n]));
    assert p == p[..n] + p[n..];
    assert Queued(t.log) == Queued(c.log);
    assert c.log.sent + p[..n] + p[n..] == c.log.sent + p;
    assert |Pending(t.writeBuffer)| == |p| - n;
    PressureIsSound(o, t);
  }

  lemma WriteIsSound(o: Options, c: Session, send: Send)
    requires Sound(o, c)
    ensures Sound(o, HandleWrite(o, c, send))
  {
    hide Sound, Transmit, UpdateReadBackPressure;
    SoundIsBounded(o, c);
    CloseIsSound(o, c);
    PressureIsSound(o, c);
    CloseIsSound(o, UpdateReadBackPressure(o, c));
    if !c.closed && send.Sent? {
      var n := Min(send.count, WriteSize(o, c));
      TransmitIsSound(o, c, n);
      CloseIsSound(o, Transmit(o, c, n));
    }
  }

  lemma SoundIsBounded(o: Options, c: Session)
    requires Sound(o, c)
    ensures Bounds(o, c)
  {
  }

  lemma FinishIsSound(o: Options, c: Session)
    requires Sound(o, c) && !c.closed && c.todo == []
    ensures Sound(o, FinishWriting(c))
  {
    hide EncodeAll, Stream, IsQuit, Incomplete;
    CloseIsSound(o, c);
  }

  lemma RefreshIsSound(o: Options, c: Session)
    requires Sound(o, c)
    ensures Sound(o, RefreshInterest(o, c))
  {
    hide UpdateReadBackPressure, EncodeAll, Stream, IsQuit, Incomplete;
    PressureIsSound(o, c);
    var p := UpdateReadBackPressure(o, c);
    CloseIsSound(o, p);
    assert Sound(o, p.(registered := DesiredEvents(p)));
  }

  // ---- the end of a report executes nothing and leaves nothing to do

  lemma WriteExecutesNothing(o: Options, c: Session, send: Send)
    requires Settled(c.writeBuffer)
    ensures
      var w := HandleWrite(o, c, send);
      && Executed(w.log) == Executed(c.log) && w.log.refused == c.log.refused
      && (w.todo == c.todo || w.todo == []) && (c.closed ==> w.closed)
  {
    hide Consumed;
  }

  lemma FinishExecutesNothing(c: Session)
    requires Settled(c.writeBuffer)
    ensures
      var f := FinishWriting(c);
      && Executed(f.log) == Executed(c.log) && f.log.refused == c.log.refused
      && (f.todo == c.todo || f.todo == []) && (c.closed ==> f.closed)
  {
  }

  lemma RefreshExecutesNothing(o: Options, c: Session)
    requires Settled(c.writeBuffer)
    ensures
      var r := RefreshInterest(o, c);
      && Executed(r.log) == Executed(c.log) && r.log.refused == c.log.refused
      && (r.todo == c.todo || r.todo == []) && (c.closed ==> r.closed)
  {
  }

  lemma EndExecutesNothing(o: Options, c: Session, r: Ready)
    requires Settled(c.writeBuffer)
    ensures
      var e := EndReport(o, c, r);
      && Executed(e.log) == Executed(c.log) && e.log.refused == c.log.refused
      && (e.todo == c.todo || e.todo == []) && (c.closed ==> e.closed)
  {
    hide Executed, HandleWrite, FinishWriting, RefreshInterest;
    WriteExecutesNothing(o, c, r.send);
    var c2 := if !c.closed && r.write then HandleWrite(o, c, r.send) else c;
    FinishExecutesNothing(c2);
    RefreshExecutesNothing(o, if !c2.closed && r.hangup then FinishWriting(c2) else c2);
  }

  lemma EndIsSound(o: Options, c: Session, r: Ready)
    requires Sound(o, c) && c.todo == []
    ensures
      var e := EndReport(o, c, r);
      Sound(o, e) && Executed(e.log) == Executed(c.log) && e.todo == []
  {
    hide Sound, Executed, HandleWrite, FinishWriting, RefreshInterest;
    SoundIsBounded(o, c);
    WriteIsSound(o, c, r.send);
    WriteExecutesNothing(o, c, r.send);
    var c2 := if !c.closed && r.write then HandleWrite(o, c, r.send) else c;
    if !c2.closed {
      FinishIsSound(o, c2);
    }
    FinishExecutesNothing(c2);
    var c3 := if !c2.closed && r.hangup then FinishWriting(c2) else c2;
    RefreshIsSound(o, c3);
    RefreshExecutesNothing(o, c3);
  }

  lemma DrainIsSound(o: Options, c: Session)
    requires Sound(o, c) && !c.closed && c.todo == []
    ensures
      var d := DrainSession(o, c);
      Sound(o, d) && Executed(d.log) == Executed(c.log) && d.todo == []
  {
    hide Sound, Executed, FinishWriting, RefreshInterest;
    SoundIsBounded(o, c);
    FinishIsSound(o, c);
    FinishExecutesNothing(c);
    RefreshIsSound(o, FinishWriting(c));
    RefreshExecutesNothing(o, FinishWriting(c));
  }

  // ------------------------------------------------------------ runs

  datatype Event = PollerReports(running: bool, ready: Ready, responses: seq<bytes>) | GracefulStop | ForcedClose

  function AfterEvent(o: Options, c: Session, e: Event): (c': Session)
    requires Settled(c.writeBuffer)
    ensures Settled(c'.writeBuffer)
  {
    match e
    case PollerReports(running, ready, responses) => HandleReady(o, running, c, ready, responses)
    case GracefulStop => if c.closed then c else DrainSession(o, c)
    case ForcedClose => MarkClosed(c)
  }

  function SessionAfter(o: Options, events: seq<Event>): (c: Session)
    ensures Settled(c.writeBuffer)
  {
    if events == [] then JOINED else AfterEvent(o, SessionAfter(o, events[..|events| - 1]), events[|events| - 1])
  }

  /** A report brings enough responses for the requests it leads to. */
  ghost predicate IsServed(o: Options, c: Session, e: Event)
    requires Settled(c.writeBuffer)
  {
    e.PollerReports? ==> AnswerAll(o, BeginReport(o, e.running, c, e.ready), e.responses).todo == []
  }

  ghost predicate IsSession(o: Options, events: seq<Event>) {
    events != [] ==>
      var before := events[..|events| - 1];
      IsSession(o, before) && IsServed(o, SessionAfter(o, before), events[|events| - 1])
  }

  lemma ReadyIsSound(o: Options, running: bool, c: Session, r: Ready, responses: seq<bytes>)
    requires Sound(o, c) && c.todo == [] && AnswerAll(o, BeginReport(o, running, c, r), responses).todo == []
    ensures
      var c' := HandleReady(o, running, c, r, responses);
      Sound(o, c') && c'.todo == []
  {
    hide Sound, BeginReport, AnswerAll, EndReport;
    SoundIsBounded(o, c);
    BeginIsSound(o, running, c, r);
    AnsweringIsSound(o, BeginReport(o, running, c, r), responses);
    EndIsSound(o, AnswerAll(o, BeginReport(o, running, c, r), responses), r);
  }

  lemma {:induction false} SessionsAreSound(o: Options, events: seq<Event>)
    requires IsSession(o, events)
    ensures Sound(o, SessionAfter(o, events)) && SessionAfter(o, events).todo == []
  {
    hide Sound, HandleReady, DrainSession, AnswerAll, BeginReport;
    if events == [] {
      JoinedIsSound(o);
    } else {
      var before, e := events[..|events| - 1], events[|events| - 1];
      var c := SessionAfter(o, before);
      SessionsAreSound(o, before);
      match e
      case PollerReports(running, ready, responses) => ReadyIsSound(o, running, c, ready, responses);
      case GracefulStop =>
        if !c.closed {
          DrainIsSound(o, c);
        }
      case ForcedClose => CloseIsSound(o, c);
    }
  }
}
