/**
 A sub-reactor's event loop as a program that runs beside the threads which hand it clients and ask it
 to stop. Each step is one thing no other thread can see half done: a critical section, one system call
 on the wakeup channel, or work on the loop's own state.
 */
module EventLoops {
  import opened Basics
  import opened Sessions
  import opened SessionRuns
  import opened SessionTheorems
  import opened Reactors

  const DRAIN_CHUNK := 256

  /** What the control mutex guards. */
  datatype Control = Control(pending: seq<nat>, stop: bool, force: bool, deadline: int)

  datatype Report = Report(fd: nat, ready: Ready)

  /** Where the loop is: `ready` is what the poller reported about clients and the loop has still to handle. */
  datatype Pc =
    | Waiting
    | Woken(ready: seq<Report>)
    | Drained(ready: seq<Report>)
    | Taken(snapshot: Control, ready: seq<Report>)
    | Serving(ready: seq<Report>)
    | Answering(report: Report, ready: seq<Report>)
    | Exited

  /**
   `channel` counts the bytes in the wakeup channel and `notifying` the threads between their critical
   section and their `Notify`; `unseen` says that something was recorded since the loop last looked.
   */
  datatype EventLoop = EventLoop(
    control: Control,
    channel: nat,
    notifying: nat,
    unseen: bool,
    pc: Pc,
    reactor: Reactor)

  const LAUNCHED := EventLoop(Control([], false, false, 0), 0, 0, false, Waiting, STARTED)

  datatype Step =
    | RecordClient(fd: nat) | RecordStop(deadline: int) | RecordForce | Notify
    | WaitReturns(control: bool, ready: seq<Report>)
    | DrainRead(count: nat) | DrainEmpty | Swap
    | HandleForce | HandleStop | HandleClient(pollerAdds: bool) | HandleDone
    | TakeReport | AnswerRequest(response: bytes) | LeaveReport | Finish(now: int) | Throw

  predicate Accepts(s: EventLoop) {
    !s.control.stop && !s.control.force
  }

  ghost predicate Enabled(o: Options, s: EventLoop, step: Step) {
    match step
    case RecordClient(fd) => Accepts(s)
    case RecordStop(_) => true
    case RecordForce => true
    case Notify => s.notifying > 0
    case WaitReturns(control, _) => s.pc.Waiting? && (control ==> s.channel > 0)
    case DrainRead(count) => s.pc.Woken? && 0 < count <= Min(s.channel, DRAIN_CHUNK)
    case DrainEmpty => s.pc.Woken? && s.channel == 0
    case Swap => s.pc.Drained?
    case HandleForce => s.pc.Taken? && s.pc.snapshot.force
    case HandleStop => s.pc.Taken? && !s.pc.snapshot.force && s.pc.snapshot.stop && Tidy(s.reactor.clients)
    case HandleClient(_) => s.pc.Taken? && !s.pc.snapshot.force && !s.pc.snapshot.stop && s.pc.snapshot.pending != []
    case HandleDone => s.pc.Taken? && !s.pc.snapshot.force && !s.pc.snapshot.stop && s.pc.snapshot.pending == []
    case TakeReport => s.pc.Serving? && s.pc.ready != [] && Tidy(s.reactor.clients)
    case AnswerRequest(_) => s.pc.Answering? && HasMore(s.reactor.clients, s.pc.report.fd) && Tidy(s.reactor.clients)
    case LeaveReport => s.pc.Answering? && !HasMore(s.reactor.clients, s.pc.report.fd) && Tidy(s.reactor.clients)
    case Finish(_) => s.pc.Serving? && s.pc.ready == []
    case Throw => !s.pc.Exited?
  }

  /** This client's report has brought in a request that is not yet answered. */
  predicate HasMore(clients: map<nat, Session>, fd: nat) {
    fd in clients && clients[fd].todo != []
  }

  function WithRecord(s: EventLoop, control: Control): EventLoop {
    s.(control := control, notifying := s.notifying + 1, unseen := true)
  }

  /** The earliest deadline asked for wins. */
  function WithStop(c: Control, deadline: int): Control {
    c.(stop := true, deadline := if !c.stop || deadline < c.deadline then deadline else c.deadline)
  }

  function AfterStops(c: Control, deadlines: seq<int>): Control {
    if deadlines == [] then c else WithStop(AfterStops(c, deadlines[..|deadlines| - 1]), deadlines[|deadlines| - 1])
  }

  /** However many threads ask a sub-reactor to stop, the deadline it keeps is the earliest any of them gave. */
  lemma {:induction false} EarliestDeadlineWins(c: Control, deadlines: seq<int>)
    requires !c.stop && deadlines != []
    ensures
      var after := AfterStops(c, deadlines);
      after.stop && after.deadline in deadlines && forall d :: d in deadlines ==> after.deadline <= d
  {
    var before, last := deadlines[..|deadlines| - 1], deadlines[|deadlines| - 1];
    assert deadlines == before + [last];
    if before != [] {
      EarliestDeadlineWins(c, before);
    }
  }

  /** A full channel refuses the byte, and needs none. */
  function Notified(capacity: nat, s: EventLoop): EventLoop
    requires s.notifying > 0
  {
    s.(notifying := s.notifying - 1, channel := if s.channel < capacity then s.channel + 1 else s.channel)
  }

  function Onward(s: EventLoop, r: Reactor, pc: Pc): EventLoop {
    s.(reactor := r, pc := if r.state == Stopped then Exited else pc)
  }

  /** Client descriptors taken from the control record and not yet in the table. */
  function InTransit(pc: Pc): seq<nat> {
    if pc.Taken? then pc.snapshot.pending else []
  }

  function Dropping(r: Reactor, fds: seq<nat>): Reactor {
    r.(released := r.released + multiset(fds))
  }

  ghost function Do(o: Options, capacity: nat, s: EventLoop, step: Step): EventLoop
    requires Enabled(o, s, step)
  {
    match step
    case RecordClient(fd) => WithRecord(s, s.control.(pending := s.control.pending + [fd]))
    case RecordStop(deadline) => WithRecord(s, WithStop(s.control, deadline))
    case RecordForce => WithRecord(s, s.control.(force := true))
    case Notify => Notified(capacity, s)
    case WaitReturns(control, ready) => s.(pc := if control then Woken(ready) else Serving(ready))
    case DrainRead(count) => s.(channel := s.channel - count)
    case DrainEmpty => s.(pc := Drained(s.pc.ready))
    case Swap => s.(control := s.control.(pending := []), unseen := false, pc := Taken(s.control, s.pc.ready))
    case HandleForce => Onward(s, ForceStop(Dropping(s.reactor, s.pc.snapshot.pending)), Exited)
    case HandleStop =>
      Onward(s, BeginGraceful(o, Dropping(s.reactor, s.pc.snapshot.pending), s.pc.snapshot.deadline),
        Serving(s.pc.ready))
    case HandleClient(pollerAdds) =>
      var fds := s.pc.snapshot.pending;
      s.(reactor := AddClient(s.reactor, fds[0], pollerAdds),
         pc := s.pc.(snapshot := s.pc.snapshot.(pending := fds[1..])))
    case HandleDone => s.(pc := Serving(s.pc.ready))
    case TakeReport =>
      var report := s.pc.ready[0];
      s.(reactor := ReportBegun(o, s.reactor, report.fd, report.ready), pc := Answering(report, s.pc.ready[1..]))
    case AnswerRequest(response) => s.(reactor := RequestAnswered(o, s.reactor, s.pc.report.fd, response))
    case LeaveReport =>
      s.(reactor := ReportEnded(o, s.reactor, s.pc.report.fd, s.pc.report.ready), pc := Serving(s.pc.ready))
    case Finish(now) => Onward(s, FinishTurn(s.reactor, now), Waiting)
    case Throw => s.(reactor := Fail(Dropping(s.reactor, InTransit(s.pc))), pc := Exited)
  }

  // ------------------------------------------------------------ no lost wakeup

  /**
   Whatever was recorded and not yet taken: the channel holds a byte, or one is coming, or the loop is about
   to look.
  */
  predicate NoLostWakeup(s: EventLoop) {
    s.unseen ==> s.channel > 0 || s.notifying > 0 || s.pc.Woken? || s.pc.Drained? || s.pc.Exited?
  }

  /** What has been taken has been acted on, or the loop is acting on it. */
  predicate SeenIsDone(s: EventLoop) {
    && (!s.unseen ==> s.control.pending == [])
    && (!s.unseen && s.control.stop ==>
          s.reactor.state != Running || (s.pc.Taken? && (s.pc.snapshot.stop || s.pc.snapshot.force)))
    && (!s.unseen && s.control.force ==> s.pc.Exited? || (s.pc.Taken? && s.pc.snapshot.force))
    && (s.pc.Taken? && s.pc.snapshot.stop ==> s.control.stop)
    && (s.pc.Taken? && s.pc.snapshot.force ==> s.control.force)
  }

  /** The loop is handling reports. */
  predicate InTurn(pc: Pc) {
    pc.Serving? || pc.Answering?
  }

  /** The client in the middle of a report. */
  function Busy(pc: Pc): set<nat> {
    if pc.Answering? then {pc.report.fd} else {}
  }

  /** A loop drains only because it was told to, and exits exactly when stopped. */
  predicate InStep(s: EventLoop) {
    && (s.pc.Exited? <==> s.reactor.state == Stopped)
    && (s.reactor.state == Draining ==> s.control.stop && (s.pc.Taken? ==> s.pc.snapshot.stop))
    && (!InTurn(s.pc) ==> ClosedClients(s.reactor.clients) == {})
    && Quiet(s.reactor.clients, Busy(s.pc))
  }

  ghost predicate Steady(o: Options, s: EventLoop) {
    Healthy(o, s.reactor) && InStep(s) && SeenIsDone(s) && NoLostWakeup(s)
  }

  lemma LaunchedIsSteady(o: Options)
    ensures Steady(o, LAUNCHED)
  {
    hide Keeps, Sound;
  }

  // ---- what each step does to the state and to closed clients

  lemma CleanupClears(r: Reactor)
    ensures ClosedClients(Cleanup(r).clients) == {}
  {
  }

  lemma ForceStopStops(r: Reactor)
    ensures ForceStop(r).state == Stopped && ClosedClients(ForceStop(r).clients) == {}
  {
    ForceCloseEmpties(r);
  }

  lemma BeginStops(o: Options, r: Reactor, deadline: int)
    requires Tidy(r.clients) && ClosedClients(r.clients) == {} && r.state != Created
    ensures
      var b := BeginGraceful(o, r, deadline);
      && ClosedClients(b.clients) == {}
      && (if r.state == Running then b.state == Draining || b.state == Stopped else b == r)
  {
    hide Cleanup, AllDraining, WithClients;
    CleanupClears(WithClients(r, AllDraining(o, r.clients)).(state := Draining, deadline := deadline));
    WithClientsIs(r, AllDraining(o, r.clients));
    CleanupKeepsState(WithClients(r, AllDraining(o, r.clients)).(state := Draining, deadline := deadline));
  }

  lemma FinishProgress(r: Reactor, now: int)
    ensures
      var f := FinishTurn(r, now);
      && ClosedClients(f.clients) == {}
      && (f.state == r.state || (r.state == Draining && f.state == Stopped))
  {
    hide Cleanup, ForceStop;
    CleanupClears(r);
    CleanupKeepsState(r);
    ForceStopStops(Cleanup(r));
  }

  lemma AddKeepsState(r: Reactor, fd: nat, pollerAdds: bool)
    requires ClosedClients(r.clients) == {}
    ensures AddClient(r, fd, pollerAdds).state == r.state && ClosedClients(AddClient(r, fd, pollerAdds).clients) == {}
  {
    forall f | f in AddClient(r, fd, pollerAdds).clients
      ensures !AddClient(r, fd, pollerAdds).clients[f].closed
    {
      assert f in r.clients ==> f !in ClosedClients(r.clients);
    }
  }

  lemma ReportKeepsState(o: Options, r: Reactor, fd: nat, ready: Ready, response: bytes)
    requires Tidy(r.clients)
    ensures ReportBegun(o, r, fd, ready).state == r.state && ReportEnded(o, r, fd, ready).state == r.state
    ensures HasMore(r.clients, fd) ==> RequestAnswered(o, r, fd, response).state == r.state
  {
  }

  lemma FailStops(r: Reactor)
    ensures Fail(r).state == Stopped && ClosedClients(Fail(r).clients) == {}
  {
  }

  predicate IsReporting(step: Step) {
    step.TakeReport? || step.AnswerRequest? || step.LeaveReport?
  }

  /** What is known of a step's effect on the reactor without looking inside it. */
  predicate Effect(s: EventLoop, step: Step, r: Reactor) {
    && (s.reactor.state != Created ==> r.state != Created)
    && ((step.HandleForce? || step.Throw?) ==> r.state == Stopped)
    && (step.HandleStop? ==> r.state != Running)
    && (step.HandleStop? && s.reactor.state == Draining ==> r.state == Draining)
    && (step.Finish? ==> r.state == s.reactor.state || (s.reactor.state == Draining && r.state == Stopped))
    && (!step.HandleForce? && !step.Throw? && !step.HandleStop? && !step.Finish? ==> r.state == s.reactor.state)
    && (step.Finish? || step.Throw? || (!IsReporting(step) && ClosedClients(s.reactor.clients) == {})
        ==> ClosedClients(r.clients) == {})
  }

  lemma StepEffect(o: Options, capacity: nat, s: EventLoop, step: Step)
    requires Enabled(o, s, step) && s.reactor.state != Created && InStep(s)
    ensures Effect(s, step, Do(o, capacity, s, step).reactor)
  {
    hide Tidy, ClosedClients, FinishTurn, ForceStop, BeginGraceful, AddClient, ReportBegun, RequestAnswered,
      ReportEnded, Fail;
    var r := s.reactor;
    match step
    case HandleForce => ForceStopStops(Dropping(r, s.pc.snapshot.pending));
    case HandleStop => BeginStops(o, Dropping(r, s.pc.snapshot.pending), s.pc.snapshot.deadline);
    case HandleClient(pollerAdds) => AddKeepsState(r, s.pc.snapshot.pending[0], pollerAdds);
    case TakeReport => ReportKeepsState(o, r, s.pc.ready[0].fd, s.pc.ready[0].ready, []);
    case AnswerRequest(response) => ReportKeepsState(o, r, s.pc.report.fd, s.pc.report.ready, response);
    case LeaveReport => ReportKeepsState(o, r, s.pc.report.fd, s.pc.report.ready, []);
    case Finish(now) => FinishProgress(r, now);
    case Throw => FailStops(Dropping(r, InTransit(s.pc)));
    case _ =>
  }

  lemma StepsKeepWakeups(o: Options, capacity: nat, s: EventLoop, step: Step)
    requires capacity > 0 && NoLostWakeup(s) && Enabled(o, s, step)
    ensures NoLostWakeup(Do(o, capacity, s, step))
  {
    hide Tidy, FinishTurn, ForceStop, BeginGraceful, AddClient, ReportBegun, RequestAnswered, ReportEnded, Fail;
  }

  // ---- nothing is left to do outside a report

  lemma QuietWhenDone(clients: map<nat, Session>, fd: nat)
    requires Quiet(clients, {fd}) && !HasMore(clients, fd)
    ensures Quiet(clients, {})
  {
  }

  lemma CleanupIsQuiet(r: Reactor, busy: set<nat>)
    requires Quiet(r.clients, busy)
    ensures Quiet(Cleanup(r).clients, busy)
  {
  }

  lemma ForceStopIsQuiet(r: Reactor)
    ensures Quiet(ForceStop(r).clients, {})
  {
    ForceCloseEmpties(r);
  }

  lemma BeginIsQuiet(o: Options, r: Reactor, deadline: int)
    requires Tidy(r.clients) && Quiet(r.clients, {})
    ensures Quiet(BeginGraceful(o, r, deadline).clients, {})
  {
    hide Cleanup, FinishWriting, RefreshInterest;
    var draining := WithClients(r, AllDraining(o, r.clients)).(state := Draining, deadline := deadline);
    forall fd | fd in r.clients
      ensures draining.clients[fd].todo == []
    {
      FinishExecutesNothing(r.clients[fd]);
      RefreshExecutesNothing(o, FinishWriting(r.clients[fd]));
    }
    CleanupIsQuiet(draining, {});
  }

  lemma FinishIsQuiet(r: Reactor, now: int)
    requires Quiet(r.clients, {})
    ensures Quiet(FinishTurn(r, now).clients, {})
  {
    hide Cleanup, ForceStop;
    CleanupIsQuiet(r, {});
    ForceStopIsQuiet(Cleanup(r));
  }

  lemma ReportIsQuiet(o: Options, r: Reactor, fd: nat, ready: Ready, response: bytes)
    requires Tidy(r.clients) && Quiet(r.clients, {fd})
    ensures Quiet(ReportBegun(o, r, fd, ready).clients, {fd})
    ensures HasMore(r.clients, fd) ==> Quiet(RequestAnswered(o, r, fd, response).clients, {fd})
    ensures !HasMore(r.clients, fd) ==> Quiet(ReportEnded(o, r, fd, ready).clients, {})
  {
    hide BeginReport, Sessions.ProcessPayload, HandleWrite, FinishWriting, RefreshInterest;
    if fd in r.clients {
      var c := r.clients[fd];
      WriteExecutesNothing(o, c, ready.send);
      var c2 := if !c.closed && ready.write then HandleWrite(o, c, ready.send) else c;
      FinishExecutesNothing(c2);
      RefreshExecutesNothing(o, if !c2.closed && ready.hangup then FinishWriting(c2) else c2);
    }
  }

  lemma StepsKeepQuiet(o: Options, capacity: nat, s: EventLoop, step: Step)
    requires Quiet(s.reactor.clients, Busy(s.pc)) && Enabled(o, s, step)
    ensures var s' := Do(o, capacity, s, step); Quiet(s'.reactor.clients, Busy(s'.pc))
  {
    hide Tidy, Quiet, FinishTurn, ForceStop, BeginGraceful, AddClient, ReportBegun, RequestAnswered, ReportEnded,
      Fail, Dropping, HasMore;
    var r := s.reactor;
    match step
    case HandleForce => ForceStopIsQuiet(Dropping(r, s.pc.snapshot.pending));
    case HandleStop =>
      DroppingIsQuiet(r, s.pc.snapshot.pending);
      BeginIsQuiet(o, Dropping(r, s.pc.snapshot.pending), s.pc.snapshot.deadline);
    case HandleClient(pollerAdds) => AddIsQuiet(r, s.pc.snapshot.pending[0], pollerAdds);
    case TakeReport =>
      LessQuiet(r.clients, s.pc.ready[0].fd);
      ReportIsQuiet(o, r, s.pc.ready[0].fd, s.pc.ready[0].ready, []);
    case AnswerRequest(response) => ReportIsQuiet(o, r, s.pc.report.fd, s.pc.report.ready, response);
    case LeaveReport => ReportIsQuiet(o, r, s.pc.report.fd, s.pc.report.ready, []);
    case Finish(now) => FinishIsQuiet(r, now);
    case Throw => FailIsQuiet(Dropping(r, InTransit(s.pc)));
    case _ =>
  }

  lemma LessQuiet(clients: map<nat, Session>, fd: nat)
    requires Quiet(clients, {})
    ensures Quiet(clients, {fd})
  {
  }

  lemma DroppingIsQuiet(r: Reactor, fds: seq<nat>)
    ensures Dropping(r, fds).clients == r.clients
  {
  }

  lemma AddIsQuiet(r: Reactor, fd: nat, pollerAdds: bool)
    requires Quiet(r.clients, {})
    ensures Quiet(AddClient(r, fd, pollerAdds).clients, {})
  {
  }

  lemma FailIsQuiet(r: Reactor)
    ensures Quiet(Fail(r).clients, {})
  {
  }

  lemma StepsKeepSeen(o: Options, capacity: nat, s: EventLoop, step: Step)
    requires SeenIsDone(s) && InStep(s) && Enabled(o, s, step) && s.reactor.state != Created
    ensures SeenIsDone(Do(o, capacity, s, step)) && InStep(Do(o, capacity, s, step))
  {
    hide Tidy, ClosedClients, FinishTurn, ForceStop, BeginGraceful, AddClient, ReportBegun, RequestAnswered,
      ReportEnded, Fail, Dropping;
    StepEffect(o, capacity, s, step);
    StepsKeepQuiet(o, capacity, s, step);
  }

  lemma DroppingKeepsHealthy(o: Options, r: Reactor, fds: seq<nat>)
    requires Healthy(o, r)
    ensures Healthy(o, Dropping(r, fds)) && Dropping(r, fds).clients == r.clients
  {
    hide Keeps;
  }

  lemma StepsKeepHealthy(o: Options, capacity: nat, s: EventLoop, step: Step)
    requires Healthy(o, s.reactor) && InStep(s) && Enabled(o, s, step)
    ensures Healthy(o, Do(o, capacity, s, step).reactor)
  {
    hide Healthy, Tidy, ClosedClients, FinishTurn, ForceStop, BeginGraceful, AddClient, ReportBegun,
      RequestAnswered, ReportEnded, Fail, Dropping;
    var r := s.reactor;
    HealthyIsStarted(o, r);
    match step
    case HandleForce =>
      DroppingKeepsHealthy(o, r, s.pc.snapshot.pending);
      ForceStopKeepsHealthy(o, Dropping(r, s.pc.snapshot.pending));
    case HandleStop =>
      DroppingKeepsHealthy(o, r, s.pc.snapshot.pending);
      BeginKeepsHealthy(o, Dropping(r, s.pc.snapshot.pending), s.pc.snapshot.deadline);
    case HandleClient(pollerAdds) => AddKeepsHealthy(o, r, s.pc.snapshot.pending[0], pollerAdds);
    case TakeReport => BeginReportKeepsHealthy(o, r, s.pc.ready[0].fd, s.pc.ready[0].ready);
    case AnswerRequest(response) => AnswerKeepsHealthy(o, r, s.pc.report.fd, response);
    case LeaveReport =>
      QuietWhenDone(r.clients, s.pc.report.fd);
      EndReportKeepsHealthy(o, r, s.pc.report.fd, s.pc.report.ready);
    case Finish(now) => FinishKeepsHealthy(o, r, now);
    case Throw =>
      DroppingKeepsHealthy(o, r, InTransit(s.pc));
      FailKeepsHealthy(o, Dropping(r, InTransit(s.pc)));
    case _ =>
  }

  lemma HealthyIsStarted(o: Options, r: Reactor)
    requires Healthy(o, r)
    ensures r.state != Created && (r.state == Stopped ==> r.clients == map[])
  {
  }

  /** Every step of the loop, and everything other threads may do to it, keeps the loop steady. */
  lemma StepsStaySteady(o: Options, capacity: nat, s: EventLoop, step: Step)
    requires capacity > 0 && Steady(o, s) && Enabled(o, s, step)
    ensures Steady(o, Do(o, capacity, s, step))
  {
    hide Healthy, InStep, SeenIsDone, NoLostWakeup, Enabled, Do;
    HealthyIsStarted(o, s.reactor);
    StepsKeepHealthy(o, capacity, s, step);
    StepsKeepSeen(o, capacity, s, step);
    StepsKeepWakeups(o, capacity, s, step);
  }

  // ------------------------------------------------------------ the poller

  /** Between turns every client is settled with the poller; during one, those already handled may be closed. */
  ghost predicate WellAttended(s: EventLoop) {
    if InTurn(s.pc) then Attended(s.reactor, Busy(s.pc)) else AtRest(s.reactor)
  }

  lemma RestIsAttended(r: Reactor)
    requires AtRest(r)
    ensures Attended(r, {}) && Tidy(r.clients)
  {
  }

  lemma AddRests(r: Reactor, fd: nat, pollerAdds: bool)
    requires AtRest(r)
    ensures AtRest(AddClient(r, fd, pollerAdds))
  {
    hide IsSettledClient;
    JoinedIsSettled();
  }

  lemma BeginKeepsAttended(o: Options, r: Reactor, fd: nat, ready: Ready)
    requires Tidy(r.clients) && Attended(r, {})
    ensures Attended(ReportBegun(o, r, fd, ready), {fd})
  {
    hide BeginReport, WithClients, IsSettledClient;
    MoreBusy(r, fd);
    if fd in r.clients {
      assert {} + {fd} == {fd};
      UpdateKeepsAttended(r, fd, BeginReport(o, r.state == Running, r.clients[fd], ready), {});
    }
  }

  lemma MoreBusy(r: Reactor, fd: nat)
    requires Attended(r, {})
    ensures Attended(r, {fd})
  {
  }

  lemma AnswerKeepsAttended(o: Options, r: Reactor, fd: nat, response: bytes)
    requires Tidy(r.clients) && HasMore(r.clients, fd) && Attended(r, {fd})
    ensures Attended(RequestAnswered(o, r, fd, response), {fd})
  {
    hide Sessions.ProcessPayload, WithClients, IsSettledClient;
    assert {} + {fd} == {fd};
    UpdateKeepsAttended(r, fd, Sessions.ProcessPayload(o, r.clients[fd], response), {});
  }

  lemma EndKeepsAttended(o: Options, r: Reactor, fd: nat, ready: Ready)
    requires o.writeHighWatermarkBytes > 0 && Tidy(r.clients) && Attended(r, {fd})
    ensures Attended(ReportEnded(o, r, fd, ready), {})
  {
    hide EndReport, WithClients, IsSettledClient;
    assert {} + {fd} == {fd};
    if fd in r.clients {
      EndIsAttended(o, r.clients[fd], ready);
      UpdateKeepsAttended(r, fd, EndReport(o, r.clients[fd], ready), {});
    }
  }

  lemma StepsStayAttended(o: Options, capacity: nat, s: EventLoop, step: Step)
    requires o.writeHighWatermarkBytes > 0 && WellAttended(s) && Enabled(o, s, step)
    ensures WellAttended(Do(o, capacity, s, step))
  {
    hide AtRest, Attended, Tidy, FinishTurn, ForceStop, BeginGraceful, AddClient, ReportBegun, RequestAnswered,
      ReportEnded, Fail, Dropping;
    var r := s.reactor;
    if !InTurn(s.pc) {
      RestIsAttended(r);
    }
    match step
    case HandleForce =>
      EmptyRests(ForceStop(Dropping(r, s.pc.snapshot.pending)), Dropping(r, s.pc.snapshot.pending));
    case HandleStop =>
      DroppingRests(r, s.pc.snapshot.pending);
      RestIsAttended(Dropping(r, s.pc.snapshot.pending));
      BeginRests(o, Dropping(r, s.pc.snapshot.pending), s.pc.snapshot.deadline);
      RestIsAttended(BeginGraceful(o, Dropping(r, s.pc.snapshot.pending), s.pc.snapshot.deadline));
    case HandleClient(pollerAdds) => AddRests(r, s.pc.snapshot.pending[0], pollerAdds);
    case TakeReport => BeginKeepsAttended(o, r, s.pc.ready[0].fd, s.pc.ready[0].ready);
    case AnswerRequest(response) => AnswerKeepsAttended(o, r, s.pc.report.fd, response);
    case LeaveReport => EndKeepsAttended(o, r, s.pc.report.fd, s.pc.report.ready);
    case Finish(now) => FinishRests(r, now);
    case Throw => FailedRests(Dropping(r, InTransit(s.pc)));
    case _ =>
  }

  lemma EmptyRests(f: Reactor, r: Reactor)
    requires f == ForceStop(r)
    ensures AtRest(f)
  {
    ForceCloseEmpties(r);
  }

  lemma DroppingRests(r: Reactor, fds: seq<nat>)
    requires AtRest(r)
    ensures AtRest(Dropping(r, fds)) && Dropping(r, fds).clients == r.clients
  {
  }

  lemma FailedRests(r: Reactor)
    ensures AtRest(Fail(r))
  {
  }

  // ------------------------------------------------------------ descriptors

  /** Every client descriptor this sub-reactor owns, wherever it is. */
  function Held(s: EventLoop): multiset<nat> {
    multiset(s.control.pending) + multiset(InTransit(s.pc)) + multiset(s.reactor.clients.Keys)
  }

  function Given(step: Step): multiset<nat> {
    if step.RecordClient? then multiset{step.fd} else multiset{}
  }

  function Owned(r: Reactor): multiset<nat> {
    multiset(r.clients.Keys) + r.released
  }

  lemma CleanupOwns(r: Reactor)
    ensures Owned(Cleanup(r)) == Owned(r)
  {
    var gone := ClosedClients(r.clients);
    assert (r.clients - gone).Keys == r.clients.Keys - gone;
    assert multiset(r.clients.Keys - gone) + multiset(gone) == multiset(r.clients.Keys);
  }

  lemma ForceStopOwns(r: Reactor)
    ensures Owned(ForceStop(r)) == Owned(r)
  {
    hide Cleanup, AllClosed, Owned;
    var closing := r.(clients := AllClosed(r.clients), forced := r.forced + |r.clients|);
    CleanupOwns(closing);
    SameOwned(r, closing);
    SameOwned(Cleanup(closing), ForceStop(r));
  }

  lemma SameOwned(r: Reactor, r': Reactor)
    requires (r'.clients == r.clients || r'.clients == AllClosed(r.clients)) && r'.released == r.released
    ensures Owned(r') == Owned(r)
  {
    assert AllClosed(r.clients).Keys == r.clients.Keys;
  }

  lemma BeginOwns(o: Options, r: Reactor, deadline: int)
    requires Tidy(r.clients)
    ensures Owned(BeginGraceful(o, r, deadline)) == Owned(r)
  {
    hide Cleanup, DrainSession;
    var draining := WithClients(r, AllDraining(o, r.clients)).(state := Draining, deadline := deadline);
    CleanupOwns(draining);
    assert AllDraining(o, r.clients).Keys == r.clients.Keys;
  }

  lemma FinishOwns(r: Reactor, now: int)
    ensures Owned(FinishTurn(r, now)) == Owned(r)
  {
    hide Cleanup, ForceStop;
    CleanupOwns(r);
    ForceStopOwns(Cleanup(r));
  }

  lemma UpdateOwns(r: Reactor, fd: nat, c: Session)
    requires fd in r.clients
    ensures Owned(WithClients(r, r.clients[fd := c])) == Owned(r)
  {
    assert r.clients[fd := c].Keys == r.clients.Keys;
  }

  lemma ReportOwns(o: Options, r: Reactor, fd: nat, ready: Ready, response: bytes)
    requires Tidy(r.clients)
    ensures Owned(ReportBegun(o, r, fd, ready)) == Owned(r) && Owned(ReportEnded(o, r, fd, ready)) == Owned(r)
    ensures HasMore(r.clients, fd) ==> Owned(RequestAnswered(o, r, fd, response)) == Owned(r)
  {
    hide BeginReport, Sessions.ProcessPayload, EndReport, WithClients, Owned;
    if fd in r.clients {
      var c := r.clients[fd];
      UpdateOwns(r, fd, BeginReport(o, r.state == Running, c, ready));
      UpdateOwns(r, fd, EndReport(o, c, ready));
      if c.todo != [] {
        UpdateOwns(r, fd, Sessions.ProcessPayload(o, c, response));
      }
    }
  }

  lemma AddOwns(r: Reactor, fd: nat, pollerAdds: bool)
    ensures Owned(AddClient(r, fd, pollerAdds)) == Owned(r) + multiset{fd}
  {
    var a := AddClient(r, fd, pollerAdds);
    if fd !in r.clients && pollerAdds {
      assert a.clients.Keys == r.clients.Keys + {fd};
    }
  }

  lemma FailOwns(r: Reactor)
    ensures Owned(Fail(r)) == Owned(r)
  {
    assert Fail(r).clients.Keys == {};
  }

  lemma DroppingOwns(r: Reactor, fds: seq<nat>)
    ensures Owned(Dropping(r, fds)) == Owned(r) + multiset(fds) && Dropping(r, fds).clients == r.clients
  {
  }

  /** Every descriptor this sub-reactor was ever given: those it owns, and those it has closed. */
  function EverGiven(s: EventLoop): multiset<nat> {
    multiset(s.control.pending) + multiset(InTransit(s.pc)) + Owned(s.reactor)
  }

  lemma EverGivenIsHeldOrReleased(s: EventLoop)
    ensures EverGiven(s) == Held(s) + s.reactor.released
  {
  }

  predicate IsHandling(step: Step) {
    step.HandleForce? || step.HandleStop? || step.HandleClient? || IsReporting(step) || step.Finish? || step.Throw?
  }

  lemma SignalsConserve(o: Options, capacity: nat, s: EventLoop, step: Step)
    requires Enabled(o, s, step) && !IsHandling(step)
    ensures EverGiven(Do(o, capacity, s, step)) == EverGiven(s) + Given(step)
  {
    hide Tidy, Owned;
  }

  ghost predicate KeepsOwned(s: EventLoop, s': EventLoop) {
    && s'.control == s.control
    && multiset(InTransit(s'.pc)) + Owned(s'.reactor) == multiset(InTransit(s.pc)) + Owned(s.reactor)
  }

  lemma DroppingKeepsOwned(s: EventLoop, s': EventLoop)
    requires s'.control == s.control && InTransit(s'.pc) == []
    requires Owned(s'.reactor) == Owned(Dropping(s.reactor, InTransit(s.pc)))
    ensures KeepsOwned(s, s')
  {
  }

  lemma StoppingOwns(o: Options, capacity: nat, s: EventLoop, step: Step)
    requires Enabled(o, s, step) && (step.HandleForce? || step.HandleStop? || step.Throw?)
    ensures KeepsOwned(s, Do(o, capacity, s, step))
  {
    hide Tidy, ForceStop, BeginGraceful, Fail, Owned, Dropping, KeepsOwned;
    var r, fds, s' := s.reactor, InTransit(s.pc), Do(o, capacity, s, step);
    DroppingOwns(r, fds);
    match step {
      case HandleForce => ForceStopOwns(Dropping(r, fds));
      case HandleStop => BeginOwns(o, Dropping(r, fds), s.pc.snapshot.deadline);
      case Throw => FailOwns(Dropping(r, fds));
    }
    DroppingKeepsOwned(s, s');
  }

  lemma AddingOwns(o: Options, capacity: nat, s: EventLoop, pollerAdds: bool)
    requires Enabled(o, s, HandleClient(pollerAdds))
    ensures KeepsOwned(s, Do(o, capacity, s, HandleClient(pollerAdds)))
  {
    hide Tidy, AddClient, Owned;
    var fds := InTransit(s.pc);
    assert fds == [fds[0]] + fds[1..];
    AddOwns(s.reactor, fds[0], pollerAdds);
  }

  lemma ServingOwns(o: Options, capacity: nat, s: EventLoop, step: Step)
    requires Enabled(o, s, step) && (IsReporting(step) || step.Finish?)
    ensures KeepsOwned(s, Do(o, capacity, s, step))
  {
    hide Tidy, FinishTurn, ReportBegun, RequestAnswered, ReportEnded, Owned;
    match step
    case TakeReport => ReportOwns(o, s.reactor, s.pc.ready[0].fd, s.pc.ready[0].ready, []);
    case AnswerRequest(response) => ReportOwns(o, s.reactor, s.pc.report.fd, s.pc.report.ready, response);
    case LeaveReport => ReportOwns(o, s.reactor, s.pc.report.fd, s.pc.report.ready, []);
    case Finish(now) => FinishOwns(s.reactor, now);
  }

  /** No step loses or duplicates a descriptor: it is recorded, moves along, or is closed. */
  lemma StepsConserve(o: Options, capacity: nat, s: EventLoop, step: Step)
    requires Enabled(o, s, step)
    ensures EverGiven(Do(o, capacity, s, step)) == EverGiven(s) + Given(step)
  {
    hide Enabled, Do, Owned, InTransit;
    var s' := Do(o, capacity, s, step);
    if IsHandling(step) {
      if step.HandleClient? {
        AddingOwns(o, capacity, s, step.pollerAdds);
      } else if IsReporting(step) || step.Finish? {
        ServingOwns(o, capacity, s, step);
      } else {
        StoppingOwns(o, capacity, s, step);
      }
      assert EverGiven(s') == multiset(s'.control.pending) + (multiset(InTransit(s'.pc)) + Owned(s'.reactor));
      assert EverGiven(s) == multiset(s.control.pending) + (multiset(InTransit(s.pc)) + Owned(s.reactor));
    } else {
      SignalsConserve(o, capacity, s, step);
    }
  }

  lemma CleanupReleases(r: Reactor)
    ensures r.released <= Cleanup(r).released
  {
  }

  lemma ForceStopReleases(r: Reactor)
    ensures r.released <= ForceStop(r).released
  {
    CleanupReleases(r.(clients := AllClosed(r.clients), forced := r.forced + |r.clients|));
  }

  lemma BeginReleases(o: Options, r: Reactor, deadline: int)
    requires Tidy(r.clients)
    ensures r.released <= BeginGraceful(o, r, deadline).released
  {
    hide Cleanup, DrainSession;
    CleanupReleases(WithClients(r, AllDraining(o, r.clients)).(state := Draining, deadline := deadline));
  }

  lemma FinishReleases(r: Reactor, now: int)
    ensures r.released <= FinishTurn(r, now).released
  {
    hide Cleanup, ForceStop;
    CleanupReleases(r);
    ForceStopReleases(Cleanup(r));
  }

  lemma ReportReleases(o: Options, r: Reactor, fd: nat, ready: Ready, response: bytes)
    requires Tidy(r.clients)
    ensures ReportBegun(o, r, fd, ready).released == ReportEnded(o, r, fd, ready).released == r.released
    ensures HasMore(r.clients, fd) ==> RequestAnswered(o, r, fd, response).released == r.released
  {
    hide BeginReport, Sessions.ProcessPayload, EndReport;
  }

  lemma StepsRelease(o: Options, capacity: nat, s: EventLoop, step: Step)
    requires Enabled(o, s, step)
    ensures s.reactor.released <= Do(o, capacity, s, step).reactor.released
  {
    hide Tidy, FinishTurn, ForceStop, BeginGraceful, ReportBegun, RequestAnswered, ReportEnded;
    var r := s.reactor;
    var d := Dropping(r, InTransit(s.pc));
    assert r.released <= d.released;
    match step
    case HandleForce => ForceStopReleases(d);
    case HandleStop => BeginReleases(o, d, s.pc.snapshot.deadline);
    case Finish(now) => FinishReleases(r, now);
    case TakeReport => ReportReleases(o, r, s.pc.ready[0].fd, s.pc.ready[0].ready, []);
    case AnswerRequest(response) => ReportReleases(o, r, s.pc.report.fd, s.pc.report.ready, response);
    case LeaveReport => ReportReleases(o, r, s.pc.report.fd, s.pc.report.ready, []);
    case Throw => assert d.released <= Fail(d).released;
    case _ =>
  }

  /** What a step hands over apart, a loop only ever owns fewer descriptors. */
  lemma StepsHold(o: Options, capacity: nat, s: EventLoop, step: Step)
    requires Enabled(o, s, step)
    ensures Held(Do(o, capacity, s, step)) <= Held(s) + Given(step)
  {
    hide Enabled, Do, Held, EverGiven;
    StepsConserve(o, capacity, s, step);
    StepsRelease(o, capacity, s, step);
    EverGivenIsHeldOrReleased(s);
    EverGivenIsHeldOrReleased(Do(o, capacity, s, step));
    var s' := Do(o, capacity, s, step);
    assert Held(s') + s'.reactor.released == (Held(s) + Given(step)) + s.reactor.released;
    Balance(Held(s) + Given(step), s.reactor.released, Held(s'), s'.reactor.released);
  }

  // ------------------------------------------------------------ shutdown

  lemma StepsAdvance(o: Options, capacity: nat, s: EventLoop, step: Step)
    requires Steady(o, s) && Enabled(o, s, step)
    ensures Advances(s.reactor.state, Do(o, capacity, s, step).reactor.state)
  {
    hide Healthy, Do, Enabled, ClosedClients;
    HealthyIsStarted(o, s.reactor);
    StepEffect(o, capacity, s, step);
    if s.reactor.state == Stopped {
      ExitedIsOver(o, capacity, s, step);
    }
  }

  lemma ExitedIsOver(o: Options, capacity: nat, s: EventLoop, step: Step)
    requires s.pc.Exited? && Enabled(o, s, step)
    ensures Do(o, capacity, s, step).reactor == s.reactor && Do(o, capacity, s, step).pc.Exited?
  {
    hide Tidy, FinishTurn, ForceStop, BeginGraceful, AddClient, ReportBegun, RequestAnswered, ReportEnded, Fail;
  }

  lemma DrainingHasNoMore(o: Options, r: Reactor, fd: nat)
    requires Healthy(o, r) && r.state == Draining
    ensures !HasMore(r.clients, fd)
  {
    hide Healthy, Sound;
    if HasMore(r.clients, fd) {
      HealthyKeeps(o, r, fd);
      SoundDoesOnlyWhenOpen(o, r.clients[fd]);
    }
  }

  lemma HealthyIsFrozen(o: Options, r: Reactor)
    requires Healthy(o, r) && r.state == Draining
    ensures Frozen(r)
  {
    hide Matched, Streamed, Ordered, Framed, Alternates;
    HealthyIsTidy(o, r);
  }

  /** While draining, no step reads from a client, queues for one or admits one, and what is pending never grows. */
  lemma StepsFreeze(o: Options, capacity: nat, s: EventLoop, step: Step)
    requires Steady(o, s) && Enabled(o, s, step) && s.reactor.state == Draining
    ensures OnlyEmpties(s.reactor, Do(o, capacity, s, step).reactor)
  {
    hide Healthy, Tidy, ClosedClients, FinishTurn, ForceStop, BeginGraceful, AddClient, ReportBegun,
      RequestAnswered, ReportEnded, Fail, OnlyEmpties, Frozen;
    var r := s.reactor;
    HealthyIsFrozen(o, r);
    var r' := Do(o, capacity, s, step).reactor;
    match step
    case TakeReport => ReportOnlyEmpties(o, r, s.pc.ready[0].fd, s.pc.ready[0].ready);
    case AnswerRequest(_) => DrainingHasNoMore(o, r, s.pc.report.fd);
    case LeaveReport => ReportOnlyEmpties(o, r, s.pc.report.fd, s.pc.report.ready);
    case Finish(now) =>
      FinishOnlyEmpties(r, now);
      assert r' == FinishTurn(r, now);
    case HandleForce =>
      ForceStopEmpties(Dropping(r, s.pc.snapshot.pending));
      SameOnlyEmpties(r, r');
    case HandleStop =>
      GracefulOnce(o, Dropping(r, s.pc.snapshot.pending), s.pc.snapshot.deadline);
      SameOnlyEmpties(r, r');
    case Throw =>
      FailEmpties(Dropping(r, InTransit(s.pc)));
      SameOnlyEmpties(r, r');
    case _ => SameOnlyEmpties(r, r');
  }

  lemma FailEmpties(r: Reactor)
    ensures Fail(r).clients == map[] && Fail(r).accepted == r.accepted
  {
  }

  // ------------------------------------------------------------ why a loop stops, and whom it forces

  /** Nothing but an exception makes a reactor failed, and the failure is never taken back. */
  predicate FailsOnlyBy(r: Reactor, step: Step, r': Reactor) {
    r'.failed <==> r.failed || step.Throw?
  }

  /** Clients are forced only on request, or by the end of a turn at or after the deadline of a shutdown. */
  predicate ForcesOnlyBy(r: Reactor, step: Step, r': Reactor) {
    r'.forced != r.forced ==> step.HandleForce? || (step.Finish? && r.state == Draining && step.now >= r.deadline)
  }

  lemma BeginForcesNobody(o: Options, r: Reactor, deadline: int)
    requires Tidy(r.clients)
    ensures BeginGraceful(o, r, deadline).forced == r.forced && BeginGraceful(o, r, deadline).failed == r.failed
  {
    hide AllDraining;
  }

  lemma FinishForcesLate(r: Reactor, now: int)
    ensures
      var f := FinishTurn(r, now);
      && f.failed == r.failed
      && (f.forced != r.forced ==> r.state == Draining && now >= r.deadline)
  {
    hide AllClosed;
    CleanupKeepsState(r);
    CleanupKeepsState(Cleanup(r).(clients := AllClosed(Cleanup(r).clients),
                                  forced := Cleanup(r).forced + |Cleanup(r).clients|));
  }

  lemma ReportForcesNobody(o: Options, r: Reactor, fd: nat, ready: Ready, response: bytes)
    requires Tidy(r.clients)
    ensures
      var b := ReportBegun(o, r, fd, ready);
      b.forced == r.forced && b.failed == r.failed
    ensures
      var e := ReportEnded(o, r, fd, ready);
      e.forced == r.forced && e.failed == r.failed
    ensures HasMore(r.clients, fd) ==>
      var a := RequestAnswered(o, r, fd, response);
      a.forced == r.forced && a.failed == r.failed
  {
  }

  lemma ForceStopFailsNobody(r: Reactor)
    ensures ForceStop(r).failed == r.failed
  {
  }

  lemma AddForcesNobody(r: Reactor, fd: nat, pollerAdds: bool)
    ensures AddClient(r, fd, pollerAdds).forced == r.forced && AddClient(r, fd, pollerAdds).failed == r.failed
  {
  }

  lemma FailForcesNobody(r: Reactor)
    ensures Fail(r).forced == r.forced && Fail(r).failed
  {
  }

  lemma StepsFailAndForceForCause(o: Options, capacity: nat, s: EventLoop, step: Step)
    requires Enabled(o, s, step)
    ensures FailsOnlyBy(s.reactor, step, Do(o, capacity, s, step).reactor)
    ensures ForcesOnlyBy(s.reactor, step, Do(o, capacity, s, step).reactor)
  {
    hide Tidy, FinishTurn, ForceStop, BeginGraceful, AddClient, ReportBegun, RequestAnswered, ReportEnded, Fail;
    var r := s.reactor;
    match step
    case HandleForce => ForceStopFailsNobody(Dropping(r, s.pc.snapshot.pending));
    case HandleStop => BeginForcesNobody(o, Dropping(r, s.pc.snapshot.pending), s.pc.snapshot.deadline);
    case HandleClient(pollerAdds) => AddForcesNobody(r, s.pc.snapshot.pending[0], pollerAdds);
    case TakeReport => ReportForcesNobody(o, r, s.pc.ready[0].fd, s.pc.ready[0].ready, []);
    case AnswerRequest(response) => ReportForcesNobody(o, r, s.pc.report.fd, s.pc.report.ready, response);
    case LeaveReport => ReportForcesNobody(o, r, s.pc.report.fd, s.pc.report.ready, []);
    case Finish(now) => FinishForcesLate(r, now);
    case Throw => FailForcesNobody(Dropping(r, InTransit(s.pc)));
    case _ =>
  }

  /** A loop that no longer serves was asked to stop, or has failed. */
  predicate StopsForCause(s: EventLoop) {
    s.reactor.state == Running || s.reactor.failed || s.control.stop || s.control.force
  }

  lemma StepsStopForCause(o: Options, capacity: nat, s: EventLoop, step: Step)
    requires Steady(o, s) && Enabled(o, s, step) && StopsForCause(s)
    ensures StopsForCause(Do(o, capacity, s, step))
  {
    hide Healthy, Do, ClosedClients, NoLostWakeup, Quiet;
    HealthyIsStarted(o, s.reactor);
    StepEffect(o, capacity, s, step);
    StepsFailAndForceForCause(o, capacity, s, step);
    RequestsOnlyGrow(o, capacity, s, step);
  }

  lemma RequestsOnlyGrow(o: Options, capacity: nat, s: EventLoop, step: Step)
    requires Enabled(o, s, step)
    ensures
      var c, c' := s.control, Do(o, capacity, s, step).control;
      (c.stop ==> c'.stop) && (c.force ==> c'.force)
  {
    hide Tidy, FinishTurn, ForceStop, BeginGraceful, AddClient, ReportBegun, RequestAnswered, ReportEnded, Fail,
      Dropping;
  }

  lemma GracefulOnce(o: Options, r: Reactor, deadline: int)
    requires Tidy(r.clients) && r.state != Running
    ensures BeginGraceful(o, r, deadline) == r
  {
  }
}
