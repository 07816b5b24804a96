/**
 A connection as the object a sub-reactor's handlers update in place. Every method leaves exactly the
 state that the session function of the same name describes, and a method that processes requests adds
 exactly those requests to the history of the store it was given.
 */
module Connections {
  import opened Basics
  import opened OutputBuffers
  import opened FrameCodec
  import opened CommandParser
  import opened CommandExecutor
  import opened KeyValueStore
  import opened ServiceRuns
  import opened Sessions
  import opened SessionRuns

  /** This history has led the store to the state it is in. */
  ghost predicate Drives(t: Service, store: KVStore, now: int)
    reads store
  {
    IsService(t) && Current(t) == store.State() && IsPast(t, now)
  }

  lemma DrivesLater(t: Service, store: KVStore, now: int, later: int)
    requires Drives(t, store, now) && now <= later
    ensures Drives(t, store, later)
  {
    hide IsService, IsPast;
    PastLater(t, now, later);
  }

  /** Between reports nothing is left to do, and only a closed connection has had a response refused. */
  predicate Idle(c: Session) {
    c.todo == [] && (c.log.refused.Some? ==> c.closed)
  }

  /** The history goes on by exactly the requests that the connection's log goes on by. */
  ghost predicate Extends(t: Service, t': Service, who: Client, before: Log, after: Log) {
    && Executed(before) <= Executed(after)
    && Continues(t, t', who, Executed(after)[|Executed(before)|..])
  }

  lemma ExtendsNone(t: Service, who: Client, before: Log, after: Log)
    requires Executed(after) == Executed(before)
    ensures Extends(t, t, who, before, after)
  {
    hide Executed;
  }

  lemma ExtendsOnce(t: Service, t': Service, who: Client, before: Log, log: Log, next: Service, after: Log)
    requires Extends(t, t', who, before, log)
    requires next.Served? && next.before == t' && next.who == who
    requires Executed(after) == Executed(log) + [Exchange(next.payload, next.response)]
    ensures Extends(t, next, who, before, after)
  {
    hide Executed, Continues;
    var n := |Executed(before)|;
    ContinuesOnce(t, t', who, Executed(log)[n..], next);
    assert Executed(after)[n..] == Executed(log)[n..] + [Exchange(next.payload, next.response)];
    assert Executed(before) <= Executed(log) <= Executed(after);
  }

  /** A reader of the log sees the connection's part of the history, before and so after. */
  lemma ExtendingProjects(t: Service, t': Service, who: Client, before: Log, after: Log)
    requires Extends(t, t', who, before, after) && Projection(t, who) == Executed(before)
    ensures Projection(t', who) == Executed(after)
  {
    hide Executed, Continues;
    ContinuingProjects(t, t', who, Executed(after)[|Executed(before)|..]);
    assert Executed(after) == Executed(before) + Executed(after)[|Executed(before)|..];
  }

  /** Executes one request on the store; `STATS` text goes on with metrics that are not modelled. */
  method Respond(store: KVStore, payload: bytes, now: int, statsTail: bytes, ghost who: Client, ghost t: Service)
    returns (cmd: Command, text: bytes, ghost t': Service)
    requires store.Valid() && |payload| <= MAX_FRAME_SIZE && Drives(t, store, now)
    modifies store
    ensures store.Valid() && Drives(t', store, now)
    ensures cmd == Parse(payload) && t' == Served(t, who, now, payload, text, store.State())
  {
    hide Parse, Executes, IsService, PlainText;
    cmd := ParseCommand(payload);
    if cmd.kind == CommandType.Stats {
      var keys, persistent, expiring := store.Stats();
      text := PlainText(CommandType.Stats, persistent, expiring) + METRICS + statsTail;
    } else {
      text := Execute(store, cmd, now);
    }
    t' := Served(t, who, now, payload, text, store.State());
    HandledIsServed(t, who, now, payload, text, t');
  }

  lemma HandledIsServed(t: Service, who: Client, now: int, payload: bytes, response: bytes, t': Service)
    requires IsService(t) && IsPast(t, now) && |payload| <= MAX_FRAME_SIZE
    requires t'.Served? && t' == Served(t, who, now, payload, response, t'.after)
    requires Handles(Current(t), now, payload, response, t'.after)
    ensures IsService(t') && IsPast(t', now) && Current(t') == t'.after
  {
    hide Handles;
  }

  // ------------------------------------------------------------ a batch, one payload at a time

  lemma {:induction false} AnsweredOneMore(o: Options, c: Session, responses: seq<bytes>, response: bytes)
    requires Settled(c.writeBuffer) && AnswerAll(o, c, responses).todo != []
    ensures AnswerAll(o, c, responses + [response]) == ProcessPayload(o, AnswerAll(o, c, responses), response)
    decreases |responses|
  {
    hide Sessions.ProcessPayload;
    if responses == [] {
      var q := Sessions.ProcessPayload(o, c, response);
      assert AnswerAll(o, q, []) == q;
    } else {
      if c.todo != [] {
        AnsweredOneMore(o, Sessions.ProcessPayload(o, c, responses[0]), responses[1..], response);
        assert (responses + [response])[1..] == responses[1..] + [response];
      }
    }
  }

  /** What is executed for a connection is what it had to do, and it goes on exactly while it is open. */
  lemma PayloadExecutes(o: Options, c: Session, response: bytes)
    requires Settled(c.writeBuffer) && IsOpen(c) && c.todo != [] && c.log.refused.None?
    ensures
      var p := Sessions.ProcessPayload(o, c, response);
      && Executed(p.log) == Executed(c.log) + [Exchange(c.todo[0], response)]
      && (p.log.refused.Some? ==> p.closed)
      && p.todo == (if IsOpen(p) then c.todo[1..] else [])
      && (IsOpen(p) <==> !p.closed && !IsQuit(c.todo[0]))
  {
    hide Frame, Appended, FitsOutput, IsQuit;
  }

  class Connection {
    var readBuffer: bytes
    const writeBuffer: OutputBuffer
    var readPaused: bool
    var closeAfterWrite: bool
    var closed: bool
    var registeredEvents: Interest
    /** The payloads of the read in progress still to be processed, and what has passed. */
    ghost var todo: seq<bytes>
    ghost var log: Log

    ghost function State(): Session
      reads this, writeBuffer
    {
      Session(readBuffer, todo, writeBuffer.State(), readPaused, closeAfterWrite, closed, registeredEvents, log)
    }

    ghost predicate Valid()
      reads this, writeBuffer
    {
      writeBuffer.Valid()
    }

    constructor ()
      ensures Valid() && State() == FRESH
      ensures fresh(this) && fresh(writeBuffer)
    {
      readBuffer := [];
      writeBuffer := new OutputBuffer();
      readPaused, closeAfterWrite, closed := false, false, false;
      registeredEvents := NO_INTEREST;
      todo, log := [], FRESH.log;
    }

    method MarkClosed()
      modifies this, writeBuffer
      ensures Valid() && State() == Sessions.MarkClosed(old(State()))
    {
      closed := true;
      readPaused := false;
      closeAfterWrite := false;
      readBuffer := [];
      writeBuffer.Clear();
      todo := [];
    }

    method UpdateReadBackPressure(o: Options)
      requires Valid()
      modifies this`readPaused, this`log
      ensures State() == Sessions.UpdateReadBackPressure(o, old(State()))
    {
      if closeAfterWrite || closed {
        return;
      }
      var pendingBytes := |writeBuffer.storage| - writeBuffer.readPos;
      if readPaused {
        if pendingBytes <= o.writeLowWatermarkBytes {
          readPaused := false;
          log := log.(pressure := log.pressure + [Resumed]);
        }
        return;
      }
      if pendingBytes >= o.writeHighWatermarkBytes {
        readPaused := true;
        log := log.(pressure := log.pressure + [Paused]);
      }
    }

    method QueueResponse(o: Options, response: bytes, ghost purpose: Purpose) returns (queued: bool)
      requires Valid() && !closed
      modifies this, writeBuffer
      ensures Valid() && State() == Sessions.QueueResponse(o, old(State()), response, purpose)
      ensures queued <==> !closed
      ensures queued <==>
        && |response| <= 1048576
        && |old(Pending(State().writeBuffer))| + 4 + |response| <= o.writeHardLimitBytes
    {
      hide Header, Appended;
      if |response| > MAX_FRAME_SIZE {
        TurnAway(response, purpose);
        return false;
      }
      var frame := Frame(response);
      var pendingBytes := |writeBuffer.storage| - writeBuffer.readPos;
      if pendingBytes > o.writeHardLimitBytes || |frame| > o.writeHardLimitBytes - pendingBytes {
        TurnAway(response, purpose);
        return false;
      }
      writeBuffer.Append(frame);
      log := Logged(log, purpose, response);
      UpdateReadBackPressure(o);
      return true;
    }

    /** Closing a client that cannot take its response. */
    method TurnAway(ghost response: bytes, ghost purpose: Purpose)
      modifies this, writeBuffer
      ensures Valid() && State() == TurnedAway(old(State()), purpose, response)
    {
      if purpose.ReplyTo? {
        log := log.(refused := Some(Exchange(purpose.request, response)));
      }
      MarkClosed();
    }

    method QueueFinalError(o: Options, message: bytes)
      requires Valid() && !closed
      modifies this, writeBuffer
      ensures Valid() && State() == Sessions.QueueFinalError(o, old(State()), message)
    {
      hide Sessions.QueueResponse;
      var queued := QueueResponse(o, message, FinalError);
      if queued {
        closeAfterWrite := true;
      }
    }

    /** `QueueResponse` has already closed the connection when it refuses, so closing again changes nothing. */
    method RejectOversizedReadBuffer(o: Options)
      requires Valid() && !closed
      modifies this, writeBuffer
      ensures Valid() && State() == Sessions.QueueFinalError(o, old(State()), BUFFER_TOO_LARGE)
    {
      hide Frame, Appended, FitsOutput;
      var queued := QueueResponse(o, BUFFER_TOO_LARGE, FinalError);
      if queued {
        closeAfterWrite := true;
      } else {
        MarkClosed();
      }
    }

    /** Queues the answer to one request; `more` is whether the rest of the batch is still wanted. */
    method ProcessPayload(o: Options, store: KVStore, payload: bytes, now: int, statsTail: bytes, ghost who: Client,
                          ghost t: Service)
      returns (more: bool, ghost t': Service)
      requires Valid() && IsOpen(State()) && todo != [] && payload == todo[0] && |payload| <= MAX_FRAME_SIZE
      requires store.Valid() && Drives(t, store, now)
      modifies this, writeBuffer, store
      ensures Valid() && store.Valid() && Drives(t', store, now)
      ensures t'.Served? && t' == Served(t, who, now, payload, t'.response, store.State())
      ensures State() == Sessions.ProcessPayload(o, old(State()), t'.response)
      ensures more <==> !closed && !IsQuit(payload)
    {
      hide Parse, Sessions.QueueResponse, Drives;
      var cmd, text;
      cmd, text, t' := Respond(store, payload, now, statsTail, who, t);
      todo := todo[1..];
      var queued := QueueResponse(o, text, ReplyTo(payload));
      if !queued {
        return false, t';
      }
      if cmd.kind == CommandType.Quit {
        closeAfterWrite := true;
        todo := [];
        return false, t';
      }
      return true, t';
    }

    /** The payloads of one read, in order; the i-th is executed at time `clock(i)`. */
    method ProcessPayloads(o: Options, store: KVStore, payloads: seq<bytes>, clock: nat -> int, tails: nat -> bytes,
                           ghost who: Client, ghost t: Service)
      returns (ghost responses: seq<bytes>, ghost t': Service, ghost end: int)
      requires Valid() && IsOpen(State()) && todo == payloads && Fit(payloads) && log.refused.None?
      requires store.Valid() && Drives(t, store, clock(0))
      requires forall i, j :: 0 <= i <= j ==> clock(i) <= clock(j)
      modifies this, writeBuffer, store
      ensures Valid() && store.Valid() && Drives(t', store, end)
      ensures State() == AnswerAll(o, old(State()), responses) && Idle(State())
      ensures Extends(t, t', who, old(log), log)
    {
      hide Parse, Drives, Sessions.ProcessPayload, IsQuit, Executed, Extends;
      responses, t', end := [], t, clock(0);
      ghost var start := State();
      ExtendsNone(t, who, log, log);
      for i := 0 to |payloads|
        invariant Valid() && store.Valid() && IsOpen(State()) && Drives(t', store, clock(i))
        invariant todo == payloads[i..] && log.refused.None? && end == clock(i)
        invariant State() == AnswerAll(o, start, responses)
        invariant Extends(t, t', who, start.log, log)
      {
        ghost var before, history := State(), t';
        var more;
        more, t' := ProcessPayload(o, store, payloads[i], clock(i), tails(i), who, t');
        PayloadExecutes(o, before, t'.response);
        AnsweredOneMore(o, start, responses, t'.response);
        ExtendsOnce(t, history, who, start.log, before.log, t', log);
        responses := responses + [t'.response];
        DrivesLater(t', store, clock(i), clock(i + 1));
        end := clock(i + 1);
        if !more {
          break;
        }
      }
    }

    /** What `recv` delivered is decoded and its requests processed; a decoding failure loses the frames before it. */
    method TakeIn(o: Options, store: KVStore, data: bytes, clock: nat -> int, tails: nat -> bytes, ghost who: Client,
                  ghost t: Service)
      returns (ghost responses: seq<bytes>, ghost t': Service, ghost end: int)
      requires Valid() && IsOpen(State()) && todo == [] && log.refused.None?
      requires store.Valid() && Drives(t, store, clock(0))
      requires forall i, j :: 0 <= i <= j ==> clock(i) <= clock(j)
      modifies this, writeBuffer, store
      ensures Valid() && store.Valid() && Drives(t', store, end)
      ensures State() == AnswerAll(o, Receive(o, old(State()), data), responses) && Idle(State())
      ensures Extends(t, t', who, old(log), log)
    {
      hide Decode, Drives, AnswerAll, Sessions.QueueFinalError, EncodeAll, Extends, Incomplete, Oversized;
      responses, t', end := [], t, clock(0);
      ghost var before := State();
      var thrown, payloads, rest := DecodeBuffer(readBuffer + data);
      DecodeSplits(before.readBuffer + data);
      readBuffer := rest;
      log := log.(received := log.received + data);
      if thrown {
        ghost var rejected := State();
        QueueFinalError(o, PROTOCOL_ERROR);
        NothingAnswered(o, rejected, PROTOCOL_ERROR);
        ExtendsNone(t, who, before.log, log);
        return;
      }
      assert Executed(log) == Executed(before.log);
      todo := payloads;
      log := log.(requests := log.requests + payloads);
      ghost var decoded := log;
      responses, t', end := ProcessPayloads(o, store, payloads, clock, tails, who, t);
      ExtendsFrom(t, t', who, before.log, decoded, log);
    }

    /** One `recv`, decoding of whatever is complete, and the requests in order until one ends the batch. */
    method HandleClientRead(o: Options, store: KVStore, recv: Recv, clock: nat -> int, tails: nat -> bytes,
                            ghost who: Client, ghost t: Service)
      returns (ghost responses: seq<bytes>, ghost t': Service, ghost end: int)
      requires Valid() && Idle(State())
      requires store.Valid() && Drives(t, store, clock(0))
      requires forall i, j :: 0 <= i <= j ==> clock(i) <= clock(j)
      modifies this, writeBuffer, store
      ensures Valid() && store.Valid() && Drives(t', store, end)
      ensures State() == AnswerAll(o, Sessions.HandleRead(o, old(State()), recv), responses) && Idle(State())
      ensures Extends(t, t', who, old(log), log)
    {
      hide Drives, Receive, Sessions.QueueFinalError, Sessions.MarkClosed, Extends, AnswerAll, Executed;
      responses, t', end := [], t, clock(0);
      ghost var before := State();
      ClosingAnswersNothing(o, before);
      ExtendsNone(t, who, before.log, before.log);
      if closed || readPaused || closeAfterWrite {
        return;
      }
      if |readBuffer| >= o.maxReadBufferBytes {
        RejectOversizedReadBuffer(o);
        NothingAnswered(o, before, BUFFER_TOO_LARGE);
        ExtendsNone(t, who, before.log, log);
        return;
      }
      var availableBytes := o.maxReadBufferBytes - |readBuffer|;
      var readSize := Min(RECV_CHUNK, availableBytes);
      if recv == RecvWouldBlock {
        return;
      }
      if recv == RecvFailed || recv.data[..Min(|recv.data|, readSize)] == [] {
        CloseAtEnd(recv.Received?);
        return;
      }
      responses, t', end := TakeIn(o, store, recv.data[..Min(|recv.data|, readSize)], clock, tails, who, t);
    }

    /** A failure closes; so does end of stream, twice over, the flags set in between undone again. */
    method CloseAtEnd(endOfStream: bool)
      modifies this, writeBuffer
      ensures Valid() && State() == Sessions.MarkClosed(old(State()))
    {
      MarkClosed();
      if endOfStream {
        readPaused := true;
        closeAfterWrite := true;
        MarkClosed();
      }
    }

    method HandleClientWrite(o: Options, send: Send)
      requires Valid()
      modifies this, writeBuffer
      ensures Valid() && State() == Sessions.HandleWrite(o, old(State()), send)
    {
      hide Consumed;
      if closed {
        return;
      }
      if writeBuffer.readPos == |writeBuffer.storage| {
        UpdateReadBackPressure(o);
        if closeAfterWrite {
          MarkClosed();
        }
        return;
      }
      if send == SendWouldBlock {
        return;
      }
      if send == SendFailed {
        MarkClosed();
        return;
      }
      ghost var before := State();
      var written := Min(send.count, Min(|writeBuffer.storage| - writeBuffer.readPos, o.maxWriteBytesPerEvent));
      if written == 0 {
        MarkClosed();
        return;
      }
      var thrown := writeBuffer.Consume(written);
      log := log.(sent := log.sent + Pending(before.writeBuffer)[..written]);
      UpdateReadBackPressure(o);
      assert |Pending(writeBuffer.State())| == Size(before.writeBuffer) - written;
      if writeBuffer.readPos == |writeBuffer.storage| && closeAfterWrite {
        MarkClosed();
      }
    }

    /** Hangup and graceful shutdown both end like this. */
    method FinishWriting()
      requires Valid()
      modifies this, writeBuffer
      ensures Valid() && State() == Sessions.FinishWriting(old(State()))
    {
      readPaused := true;
      closeAfterWrite := true;
      if writeBuffer.readPos == |writeBuffer.storage| {
        MarkClosed();
      }
    }

    /** `changed` is whether the poller has to be told of the new interest. */
    method RefreshInterest(o: Options) returns (changed: bool)
      requires Valid()
      modifies this, writeBuffer
      ensures Valid() && State() == Sessions.RefreshInterest(o, old(State()))
      ensures changed <==> State().registered != old(State()).registered
    {
      if closed {
        return false;
      }
      UpdateReadBackPressure(o);
      var nothingPending := writeBuffer.readPos == |writeBuffer.storage|;
      if closeAfterWrite && nothingPending {
        MarkClosed();
        return false;
      }
      var desired := Interest(!readPaused && !closeAfterWrite, !nothingPending);
      if desired == NO_INTEREST {
        MarkClosed();
        return false;
      }
      if desired == registeredEvents {
        return false;
      }
      registeredEvents := desired;
      return true;
    }

    method ReadIfReady(o: Options, running: bool, store: KVStore, r: Ready, clock: nat -> int, tails: nat -> bytes,
                       ghost who: Client, ghost t: Service)
      returns (ghost responses: seq<bytes>, ghost t': Service, ghost end: int)
      requires Valid() && Idle(State())
      requires store.Valid() && Drives(t, store, clock(0))
      requires forall i, j :: 0 <= i <= j ==> clock(i) <= clock(j)
      modifies this, writeBuffer, store
      ensures Valid() && store.Valid() && Drives(t', store, end)
      ensures State() == AnswerAll(o, BeginReport(o, running, old(State()), r), responses) && Idle(State())
      ensures Extends(t, t', who, old(log), log)
      ensures State().registered == old(State()).registered
    {
      hide Drives, Sessions.HandleRead, Extends;
      responses, t', end := [], t, clock(0);
      ghost var before := State();
      ExtendsNone(t, who, before.log, before.log);
      if r.error {
        MarkClosed();
      } else if running && r.read {
        responses, t', end := HandleClientRead(o, store, r.recv, clock, tails, who, t);
        ReadKeepsRegistration(o, before, r.recv, responses);
      }
    }

    /**
     What the loop does with one report about this client; `changed` is whether the poller has to be told of
     a new interest.
    */
    method HandleReady(o: Options, running: bool, store: KVStore, r: Ready, clock: nat -> int, tails: nat -> bytes,
                       ghost who: Client, ghost t: Service)
      returns (changed: bool, ghost responses: seq<bytes>, ghost t': Service, ghost end: int)
      requires Valid() && Idle(State())
      requires store.Valid() && Drives(t, store, clock(0))
      requires forall i, j :: 0 <= i <= j ==> clock(i) <= clock(j)
      modifies this, writeBuffer, store
      ensures Valid() && store.Valid() && Drives(t', store, end)
      ensures State() == Sessions.HandleReady(o, running, old(State()), r, responses)
      ensures AnswerAll(o, BeginReport(o, running, old(State()), r), responses).todo == [] && Idle(State())
      ensures Extends(t, t', who, old(log), log)
      ensures changed <==> State().registered != old(State()).registered
    {
      hide Drives, BeginReport, AnswerAll, Sessions.HandleWrite, Sessions.FinishWriting, Sessions.RefreshInterest,
        Extends, Executed;
      ghost var before := State();
      responses, t', end := ReadIfReady(o, running, store, r, clock, tails, who, t);
      ghost var answered := State();
      if !closed && r.write {
        WriteKeepsRegistration(o, State(), r.send);
        HandleClientWrite(o, r.send);
      }
      if !closed && r.hangup {
        FinishKeepsRegistration(State());
        FinishWriting();
      }
      changed := RefreshInterest(o);
      EndExecutesNothing(o, answered, r);
      ExtendsTo(t, t', who, before.log, answered.log, log);
    }

    /** Graceful shutdown of this client. */
    method Drain(o: Options) returns (changed: bool)
      requires Valid() && Idle(State())
      modifies this, writeBuffer
      ensures Valid() && State() == DrainSession(o, old(State())) && Idle(State())
      ensures changed <==> State().registered != old(State()).registered
    {
      hide Executed, Sessions.FinishWriting, Sessions.RefreshInterest;
      FinishKeepsRegistration(State());
      FinishExecutesNothing(State());
      FinishWriting();
      RefreshExecutesNothing(o, State());
      changed := RefreshInterest(o);
    }
  }

  lemma ExtendsFrom(t: Service, t': Service, who: Client, before: Log, log: Log, after: Log)
    requires Extends(t, t', who, log, after) && Executed(before) == Executed(log)
    ensures Extends(t, t', who, before, after)
  {
    hide Executed, Continues;
  }

  lemma ExtendsTo(t: Service, t': Service, who: Client, before: Log, log: Log, after: Log)
    requires Extends(t, t', who, before, log) && Executed(log) == Executed(after)
    ensures Extends(t, t', who, before, after)
  {
    hide Executed, Continues;
  }

  lemma ClosingIsIdle(c: Session)
    requires Idle(c)
    ensures Idle(Sessions.MarkClosed(c))
  {
  }

  lemma ClosingAnswersNothing(o: Options, c: Session)
    requires Settled(c.writeBuffer) && Idle(c)
    ensures AnswerAll(o, c, []) == c
    ensures
      var m := Sessions.MarkClosed(c);
      Settled(m.writeBuffer) && AnswerAll(o, m, []) == m && m.log == c.log && Idle(m)
  {
  }

  /** An error frame answers no request. */
  lemma NothingAnswered(o: Options, c: Session, message: bytes)
    requires Settled(c.writeBuffer)
    ensures
      var q := Sessions.QueueFinalError(o, c, message);
      && Executed(q.log) == Executed(c.log) && q.log.refused == c.log.refused
      && (q.todo == c.todo || q.todo == []) && AnswerAll(o, q, []) == q
  {
    hide FitsOutput, Frame, Appended;
  }

  // ------------------------------------------------------------ only `RefreshInterest` changes what is registered

  lemma FinishKeepsRegistration(c: Session)
    requires Settled(c.writeBuffer)
    ensures Sessions.FinishWriting(c).registered == c.registered
  {
  }

  lemma WriteKeepsRegistration(o: Options, c: Session, send: Send)
    requires Settled(c.writeBuffer)
    ensures Sessions.HandleWrite(o, c, send).registered == c.registered
  {
    hide Consumed;
  }

  lemma QueueKeepsRegistration(o: Options, c: Session, response: bytes, purpose: Purpose)
    requires Settled(c.writeBuffer)
    ensures Sessions.QueueResponse(o, c, response, purpose).registered == c.registered
  {
    hide FitsOutput, Frame, Appended;
  }

  lemma {:induction false} AnsweringKeepsRegistration(o: Options, c: Session, responses: seq<bytes>)
    requires Settled(c.writeBuffer)
    ensures AnswerAll(o, c, responses).registered == c.registered
    decreases |responses|
  {
    hide Sessions.QueueResponse, IsQuit;
    if responses != [] && c.todo != [] {
      QueueKeepsRegistration(o, c.(todo := c.todo[1..]), responses[0], ReplyTo(c.todo[0]));
      AnsweringKeepsRegistration(o, Sessions.ProcessPayload(o, c, responses[0]), responses[1..]);
    }
  }

  lemma BeginKeepsRegistration(o: Options, running: bool, c: Session, r: Ready)
    requires Settled(c.writeBuffer)
    ensures BeginReport(o, running, c, r).registered == c.registered
  {
    hide Sessions.HandleRead;
    ReadKeepsRegistration(o, c, r.recv, []);
    assert AnswerAll(o, Sessions.HandleRead(o, c, r.recv), []) == Sessions.HandleRead(o, c, r.recv);
  }

  lemma ReadKeepsRegistration(o: Options, c: Session, recv: Recv, responses: seq<bytes>)
    requires Settled(c.writeBuffer)
    ensures AnswerAll(o, Sessions.HandleRead(o, c, recv), responses).registered == c.registered
  {
    hide Decode, AnswerAll, Sessions.QueueResponse;
    QueueKeepsRegistration(o, c, BUFFER_TOO_LARGE, FinalError);
    if recv.Received? {
      var data := recv.data[..Min(|recv.data|, ReadSize(o, c))];
      var rest := Decode(c.readBuffer + data).rest;
      QueueKeepsRegistration(o, c.(readBuffer := rest, log := c.log.(received := c.log.received + data)),
        PROTOCOL_ERROR, FinalError);
    }
    AnsweringKeepsRegistration(o, Sessions.HandleRead(o, c, recv), responses);
  }
}
