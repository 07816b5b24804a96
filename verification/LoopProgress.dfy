/** An event loop that has been asked to stop can always go on to its end, whatever it is in the middle of. */
module LoopProgress {
  import opened Basics
  import opened OutputBuffers
  import opened FrameCodec
  import opened Sessions
  import opened Reactors
  import opened EventLoops

  predicate IsAsked(s: EventLoop) {
    s.control.stop || s.control.force
  }

  // ------------------------------------------------------------ how far it is from the end

  /** The parts of a turn, the ones further from the end first. */
  function Stage(s: EventLoop): nat {
    match s.pc
    case Taken(snapshot, _) => if snapshot.stop || snapshot.force then 4 else 9
    case Serving(_) => if s.reactor.state == Running then 8 else 3
    case Answering(_, _) => if s.reactor.state == Running then 8 else 3
    case Waiting => if s.reactor.state == Running then 7 else 4
    case Woken(_) => 6
    case Drained(_) => 5
    case Exited => 0
  }

  function Reports(pc: Pc): nat {
    match pc
    case Woken(ready) => |ready|
    case Drained(ready) => |ready|
    case Taken(_, ready) => |ready|
    case Serving(ready) => |ready|
    case Answering(_, ready) => |ready|
    case _ => 0
  }

  function InReport(pc: Pc): nat {
    if pc.Answering? then 1 else 0
  }

  function RequestsLeft(s: EventLoop): nat {
    if s.pc.Answering? && HasMore(s.reactor.clients, s.pc.report.fd)
    then |s.reactor.clients[s.pc.report.fd].todo|
    else 0
  }

  function BytesLeft(s: EventLoop): nat {
    if s.pc.Woken? then s.channel else 0
  }

  /** Nearer the end, by the first of these measures in which they differ. */
  predicate Nearer(s': EventLoop, s: EventLoop) {
    || Stage(s') < Stage(s)
    || (Stage(s') == Stage(s) && |InTransit(s'.pc)| < |InTransit(s.pc)|)
    || (Stage(s') == Stage(s) && |InTransit(s'.pc)| == |InTransit(s.pc)| && NearerInTurn(s', s))
  }

  predicate NearerInTurn(s': EventLoop, s: EventLoop) {
    || Reports(s'.pc) < Reports(s.pc)
    || (Reports(s'.pc) == Reports(s.pc) && InReport(s'.pc) < InReport(s.pc))
    || (Reports(s'.pc) == Reports(s.pc) && InReport(s'.pc) == InReport(s.pc)
        && (RequestsLeft(s') < RequestsLeft(s)
            || (RequestsLeft(s') == RequestsLeft(s) && BytesLeft(s') < BytesLeft(s))))
  }

  // ------------------------------------------------------------ the next step

  /** What the loop does next when the poller reports nothing new and no system call fails. */
  function StepToExit(s: EventLoop, now: int): Step {
    match s.pc
    case Waiting => WaitReturns(s.reactor.state == Running, [])
    case Woken(_) => if s.channel > 0 then DrainRead(1) else DrainEmpty
    case Drained(_) => Swap
    case Taken(snapshot, _) =>
      if snapshot.force then HandleForce
      else if snapshot.stop then HandleStop
      else if snapshot.pending != [] then HandleClient(true)
      else HandleDone
    case Serving(ready) => if ready != [] then TakeReport else Finish(now)
    case Answering(_, _) => LeaveReport
    case Exited => Swap
  }

  predicate CanStop(s: EventLoop, now: int) {
    && !s.pc.Exited? && s.notifying == 0 && IsAsked(s)
    && (s.reactor.state == Draining ==> now >= s.reactor.deadline)
    && !(s.pc.Answering? && HasMore(s.reactor.clients, s.pc.report.fd))
  }

  /** A running loop that blocks with a request recorded has a byte to wake it. */
  lemma AskedLoopsCanWake(s: EventLoop)
    requires SeenIsDone(s) && NoLostWakeup(s) && IsAsked(s) && s.notifying == 0
    requires s.pc.Waiting? && s.reactor.state == Running
    ensures s.channel > 0
  {
  }

  lemma NextStepIsEnabled(o: Options, s: EventLoop, now: int)
    requires Steady(o, s) && CanStop(s, now)
    ensures Enabled(o, s, StepToExit(s, now))
  {
    hide Healthy, Tidy, HasMore, NoLostWakeup, SeenIsDone, ClosedClients, Quiet;
    HealthyIsTidy(o, s.reactor);
    HealthyIsStarted(o, s.reactor);
    if s.pc.Waiting? && s.reactor.state == Running {
      AskedLoopsCanWake(s);
    }
  }

  lemma NextStepIsNearer(o: Options, capacity: nat, s: EventLoop, now: int)
    requires Steady(o, s) && CanStop(s, now) && Enabled(o, s, StepToExit(s, now))
    ensures Nearer(Do(o, capacity, s, StepToExit(s, now)), s)
  {
    hide Healthy, Tidy, HasMore, NoLostWakeup, SeenIsDone, ClosedClients, Quiet, FinishTurn, ForceStop,
      BeginGraceful, AddClient, ReportBegun, ReportEnded, Dropping;
    HealthyIsStarted(o, s.reactor);
    StepEffect(o, capacity, s, StepToExit(s, now));
    if s.pc.Serving? && s.pc.ready == [] && s.reactor.state == Draining {
      DeadlineStops(s.reactor, now);
    }
  }

  /** Answering a request leaves fewer of them, whatever the response. */
  lemma AnswerIsNearer(o: Options, capacity: nat, s: EventLoop, response: bytes)
    requires s.pc.Answering? && Enabled(o, s, AnswerRequest(response))
    ensures Nearer(Do(o, capacity, s, AnswerRequest(response)), s)
  {
    hide QueueResponse, IsQuit;
    QueueKeepsTodo(o, s.reactor.clients[s.pc.report.fd], response);
  }

  lemma QueueKeepsTodo(o: Options, c: Session, response: bytes)
    requires Settled(c.writeBuffer) && c.todo != []
    ensures |ProcessPayload(o, c, response).todo| < |c.todo|
  {
    hide FitsOutput, Frame, Appended, IsQuit;
  }
}
