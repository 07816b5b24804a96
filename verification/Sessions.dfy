/**
 One client connection as the sub-reactor handles it: what each handler does to the
 connection, with a log of what has passed through it.

 The environment supplies what `recv` and `send` report. `recv` of no bytes is end of
 stream. A report of more bytes than were asked for is cut to what was asked for.
 */
module Sessions {
  import opened Basics
  import opened OutputBuffers
  import opened FrameCodec
  import opened CommandParser

  const RECV_CHUNK := 16 * 1024
  const PROTOCOL_ERROR := Ascii("-ERR protocol error")
  const BUFFER_TOO_LARGE := Ascii("-ERR request buffer too large")

  datatype Options = Options(
    maxReadBufferBytes: nat,
    writeHighWatermarkBytes: nat,
    writeLowWatermarkBytes: nat,
    writeHardLimitBytes: nat,
    maxWriteBytesPerEvent: nat)

  /** What the server's constructor insists on. */
  predicate ValidOptions(o: Options) {
    && o.maxReadBufferBytes >= 4
    && o.writeLowWatermarkBytes <= o.writeHighWatermarkBytes <= o.writeHardLimitBytes
    && o.maxWriteBytesPerEvent > 0
  }

  datatype Interest = Interest(read: bool, write: bool)

  const NO_INTEREST := Interest(false, false)

  datatype Pressure = Paused | Resumed

  datatype Exchange = Exchange(request: bytes, response: bytes)

  /**
   What has passed: bytes received, frames decoded from them, responses queued for frames, a response
   refused by the output buffer, an error queued instead of a response, bytes sent, and the read-pause
   and read-resume metric events.
   */
  datatype Log = Log(
    received: bytes,
    requests: seq<bytes>,
    exchanges: seq<Exchange>,
    refused: Option<Exchange>,
    trailer: Option<bytes>,
    sent: bytes,
    pressure: seq<Pressure>)

  /** `todo` holds the frames of the read in progress that are still to be processed. */
  datatype Session = Session(
    readBuffer: bytes,
    todo: seq<bytes>,
    writeBuffer: Buffer,
    readPaused: bool,
    closeAfterWrite: bool,
    closed: bool,
    registered: Interest,
    log: Log)

  const FRESH := Session([], [], EMPTY_BUFFER, false, false, false, NO_INTEREST, Log([], [], [], None, None, [], []))

  /** A new connection once it is in the client table, registered for reading. */
  const JOINED := FRESH.(registered := Interest(true, false))

  /** Every request executed for this connection: those whose response was queued, and one refused. */
  function Executed(log: Log): seq<Exchange> {
    log.exchanges + (if log.refused.Some? then [log.refused.value] else [])
  }

  /** Neither closed nor on its way to being closed. */
  predicate IsOpen(c: Session) {
    !c.closed && !c.closeAfterWrite
  }

  predicate IsQuit(payload: bytes) {
    Parse(payload).kind == Quit
  }

  // ------------------------------------------------------------ handlers

  /** Unsent data of a closed connection is dropped. */
  function MarkClosed(c: Session): Session {
    c.(closed := true, readPaused := false, closeAfterWrite := false,
       readBuffer := [], todo := [], writeBuffer := EMPTY_BUFFER)
  }

  function Pressed(c: Session, e: Pressure): Session {
    c.(readPaused := e.Paused?, log := c.log.(pressure := c.log.pressure + [e]))
  }

  function UpdateReadBackPressure(o: Options, c: Session): (c': Session)
    requires Settled(c.writeBuffer)
    ensures Settled(c'.writeBuffer)
  {
    if !IsOpen(c) then c
    else if c.readPaused then
      if Size(c.writeBuffer) <= o.writeLowWatermarkBytes then Pressed(c, Resumed) else c
    else if Size(c.writeBuffer) >= o.writeHighWatermarkBytes then Pressed(c, Paused)
    else c
  }

  /** What a frame is queued for. */
  datatype Purpose = ReplyTo(request: bytes) | FinalError

  function Logged(log: Log, purpose: Purpose, response: bytes): Log {
    match purpose
    case ReplyTo(request) => log.(exchanges := log.exchanges + [Exchange(request, response)])
    case FinalError => log.(trailer := Some(response))
  }

  /** A client too slow to take a response is closed; the request was executed all the same. */
  function TurnedAway(c: Session, purpose: Purpose, response: bytes): Session {
    match purpose
    case ReplyTo(request) => MarkClosed(c.(log := c.log.(refused := Some(Exchange(request, response)))))
    case FinalError => MarkClosed(c)
  }

  predicate FitsOutput(o: Options, c: Session, response: bytes)
    requires InRange(c.writeBuffer)
  {
    && Encode(response).Success?
    && Size(c.writeBuffer) <= o.writeHardLimitBytes
    && |Frame(response)| <= o.writeHardLimitBytes - Size(c.writeBuffer)
  }

  /** Queues a frame, or closes a client that is too slow to take it; it reports success by not closing. */
  function QueueResponse(o: Options, c: Session, response: bytes, purpose: Purpose): (c': Session)
    requires Settled(c.writeBuffer)
    ensures Settled(c'.writeBuffer)
  {
    if !FitsOutput(o, c, response) then TurnedAway(c, purpose, response)
    else
      AppendIsEnqueue(c.writeBuffer, Frame(response));
      var buffer := Appended(c.writeBuffer, Frame(response));
      UpdateReadBackPressure(o, c.(writeBuffer := buffer, log := Logged(c.log, purpose, response)))
  }

  /** A queued error frame is the last thing the connection will send. */
  function QueueFinalError(o: Options, c: Session, message: bytes): (c': Session)
    requires Settled(c.writeBuffer)
    ensures Settled(c'.writeBuffer)
  {
    var q := QueueResponse(o, c, message, FinalError);
    if q.closed then q else q.(closeAfterWrite := true)
  }

  /** The first frame still to be processed is answered; `QUIT` and a refusal end the batch. */
  function ProcessPayload(o: Options, c: Session, response: bytes): (c': Session)
    requires Settled(c.writeBuffer) && c.todo != []
    ensures Settled(c'.writeBuffer)
  {
    var q := QueueResponse(o, c.(todo := c.todo[1..]), response, ReplyTo(c.todo[0]));
    if !q.closed && IsQuit(c.todo[0]) then q.(closeAfterWrite := true, todo := []) else q
  }

  /** Frames answered in order, until none is left to do. */
  function AnswerAll(o: Options, c: Session, responses: seq<bytes>): (c': Session)
    requires Settled(c.writeBuffer)
    ensures Settled(c'.writeBuffer)
    decreases |responses|
  {
    if responses == [] || c.todo == [] then c else AnswerAll(o, ProcessPayload(o, c, responses[0]), responses[1..])
  }

  datatype Recv = Received(data: bytes) | RecvWouldBlock | RecvFailed

  datatype Send = Sent(count: nat) | SendWouldBlock | SendFailed

  function ReadSize(o: Options, c: Session): nat {
    if |c.readBuffer| >= o.maxReadBufferBytes then 0 else Min(RECV_CHUNK, o.maxReadBufferBytes - |c.readBuffer|)
  }

  /** `recv` has delivered `data`: decode what is complete, to be answered next. */
  function Receive(o: Options, c: Session, data: bytes): (c': Session)
    requires Settled(c.writeBuffer)
    ensures Settled(c'.writeBuffer)
  {
    var d := Decode(c.readBuffer + data);
    var c1 := c.(readBuffer := d.rest, log := c.log.(received := c.log.received + data));
    if d.failed then QueueFinalError(o, c1, PROTOCOL_ERROR)
    else c1.(todo := d.frames, log := c1.log.(requests := c1.log.requests + d.frames))
  }

  function HandleRead(o: Options, c: Session, recv: Recv): (c': Session)
    requires Settled(c.writeBuffer)
    ensures Settled(c'.writeBuffer)
  {
    if !IsOpen(c) || c.readPaused then c
    else if |c.readBuffer| >= o.maxReadBufferBytes then QueueFinalError(o, c, BUFFER_TOO_LARGE)
    else match recv
         case Received(data) =>
           var got := data[..Min(|data|, ReadSize(o, c))];
           if got == [] then MarkClosed(c) else Receive(o, c, got)
         case RecvWouldBlock => c
         case RecvFailed => MarkClosed(c)
  }

  function Transmit(o: Options, c: Session, n: nat): (c': Session)
    requires Settled(c.writeBuffer) && n <= Size(c.writeBuffer)
    ensures Settled(c'.writeBuffer)
  {
    ConsumeIsDequeue(c.writeBuffer, n);
    UpdateReadBackPressure(o,
      c.(writeBuffer := Consumed(c.writeBuffer, n), log := c.log.(sent := c.log.sent + Pending(c.writeBuffer)[..n])))
  }

  function WriteSize(o: Options, c: Session): nat
    requires InRange(c.writeBuffer)
  {
    Min(Size(c.writeBuffer), o.maxWriteBytesPerEvent)
  }

  function HandleWrite(o: Options, c: Session, send: Send): (c': Session)
    requires Settled(c.writeBuffer)
    ensures Settled(c'.writeBuffer)
  {
    if c.closed then c
    else if Size(c.writeBuffer) == 0 then
      var p := UpdateReadBackPressure(o, c);
      if p.closeAfterWrite then MarkClosed(p) else p
    else match send
         case Sent(count) =>
           var n := Min(count, WriteSize(o, c));
           if n == 0 then MarkClosed(c)
           else
             var t := Transmit(o, c, n);
             if n == Size(c.writeBuffer) && t.closeAfterWrite then MarkClosed(t) else t
         case SendWouldBlock => c
         case SendFailed => MarkClosed(c)
  }

  /** Stop reading, send what is queued, then close: on a hangup, and when the reactor shuts down. */
  function FinishWriting(c: Session): (c': Session)
    requires Settled(c.writeBuffer)
    ensures Settled(c'.writeBuffer)
  {
    if Size(c.writeBuffer) == 0 then MarkClosed(c) else c.(readPaused := true, closeAfterWrite := true)
  }

  function DesiredEvents(c: Session): Interest
    requires InRange(c.writeBuffer)
  {
    if c.closed then NO_INTEREST else Interest(!c.readPaused && !c.closeAfterWrite, Size(c.writeBuffer) > 0)
  }

  function RefreshInterest(o: Options, c: Session): (c': Session)
    requires Settled(c.writeBuffer)
    ensures Settled(c'.writeBuffer)
  {
    if c.closed then c
    else
      var p := UpdateReadBackPressure(o, c);
      if p.closeAfterWrite && Size(p.writeBuffer) == 0 then MarkClosed(p)
      else if DesiredEvents(p) == NO_INTEREST then MarkClosed(p)
      else p.(registered := DesiredEvents(p))
  }

  /** What the poller reports for a connection, and what the system calls made on it then report. */
  datatype Ready = Ready(error: bool, read: bool, write: bool, hangup: bool, recv: Recv, send: Send)

  /** A report up to the requests it brings in. */
  function BeginReport(o: Options, running: bool, c: Session, r: Ready): (c': Session)
    requires Settled(c.writeBuffer)
    ensures Settled(c'.writeBuffer)
  {
    if r.error then MarkClosed(c) else if running && r.read then HandleRead(o, c, r.recv) else c
  }

  /** The rest of a report, once its requests have been processed. */
  function EndReport(o: Options, c: Session, r: Ready): (c': Session)
    requires Settled(c.writeBuffer)
    ensures Settled(c'.writeBuffer)
  {
    var c2 := if !c.closed && r.write then HandleWrite(o, c, r.send) else c;
    var c3 := if !c2.closed && r.hangup then FinishWriting(c2) else c2;
    RefreshInterest(o, c3)
  }

  function HandleReady(o: Options, running: bool, c: Session, r: Ready, responses: seq<bytes>): (c': Session)
    requires Settled(c.writeBuffer)
    ensures Settled(c'.writeBuffer)
  {
    EndReport(o, AnswerAll(o, BeginReport(o, running, c, r), responses), r)
  }

  /** Graceful shutdown of one connection. */
  function DrainSession(o: Options, c: Session): (c': Session)
    requires Settled(c.writeBuffer)
    ensures Settled(c'.writeBuffer)
  {
    RefreshInterest(o, FinishWriting(c))
  }
}
