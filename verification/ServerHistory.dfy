/** The log of every connection is its part of the one history of the store. */
module ServerHistories {
  import opened Basics
  import opened OutputBuffers
  import opened FrameCodec
  import opened Sessions
  import opened SessionRuns
  import opened Reactors
  import opened EventLoops
  import opened ServiceRuns
  import opened Servers
  import opened ServerRuns


  // ------------------------------------------------------------ what a step of a loop executes

  lemma DrainingAllExecutesNothing(o: Options, r: Reactor)
    requires Tidy(r.clients)
    ensures Undisturbed(r.clients, AllDraining(o, r.clients))
  {
    hide Executed, FinishWriting, RefreshInterest;
    forall fd | fd in r.clients
      ensures Executed(AllDraining(o, r.clients)[fd].log) == Executed(r.clients[fd].log)
    {
      FinishExecutesNothing(r.clients[fd]);
      RefreshExecutesNothing(o, FinishWriting(r.clients[fd]));
    }
  }

  lemma CleanupExecutesNothing(r: Reactor)
    ensures Undisturbed(r.clients, Cleanup(r).clients)
  {
    hide Executed;
  }

  lemma NoneIsUndisturbed(before: map<nat, Session>, after: map<nat, Session>)
    requires after == map[]
    ensures Undisturbed(before, after)
  {
  }

  lemma BeginningExecutesNothing(o: Options, r: Reactor, deadline: int)
    requires Tidy(r.clients)
    ensures Undisturbed(r.clients, BeginGraceful(o, r, deadline).clients)
  {
    hide Executed, AllDraining, Cleanup;
    var draining := WithClients(r, AllDraining(o, r.clients)).(state := Draining, deadline := deadline);
    SameIsUndisturbed(r.clients);
    DrainingAllExecutesNothing(o, r);
    CleanupExecutesNothing(draining);
    UndisturbedTwice(r.clients, draining.clients, Cleanup(draining).clients);
  }

  lemma UndisturbedTwice(a: map<nat, Session>, b: map<nat, Session>, c: map<nat, Session>)
    requires Undisturbed(a, b) && Undisturbed(b, c)
    ensures Undisturbed(a, c)
  {
    hide Executed;
  }

  lemma FinishingExecutesNothing(r: Reactor, now: int)
    ensures Undisturbed(r.clients, FinishTurn(r, now).clients)
  {
    hide Cleanup, ForceStop, Undisturbed;
    CleanupExecutesNothing(r);
    ForceStopEmpties(Cleanup(r));
    NoneIsUndisturbed(r.clients, ForceStop(Cleanup(r)).clients);
  }

  lemma FinalErrorExecutesNothing(o: Options, c: Session, message: bytes)
    requires Settled(c.writeBuffer)
    ensures Executed(QueueFinalError(o, c, message).log) == Executed(c.log)
  {
    hide FitsOutput, Frame, Appended;
  }

  lemma BeginExecutesNothing(o: Options, running: bool, c: Session, r: Ready)
    requires Settled(c.writeBuffer)
    ensures Executed(BeginReport(o, running, c, r).log) == Executed(c.log)
  {
    hide QueueFinalError, Decode;
    FinalErrorExecutesNothing(o, c, BUFFER_TOO_LARGE);
    if r.recv.Received? {
      var data := r.recv.data[..Min(|r.recv.data|, ReadSize(o, c))];
      var rest := Decode(c.readBuffer + data).rest;
      FinalErrorExecutesNothing(o, c.(readBuffer := rest, log := c.log.(received := c.log.received + data)),
        PROTOCOL_ERROR);
    }
  }

  lemma ReportingExecutesNothing(o: Options, r: Reactor, fd: nat, ready: Ready)
    requires Tidy(r.clients)
    ensures Undisturbed(r.clients, ReportBegun(o, r, fd, ready).clients)
    ensures Undisturbed(r.clients, ReportEnded(o, r, fd, ready).clients)
  {
    hide Executed, BeginReport, EndReport;
    if fd in r.clients {
      BeginExecutesNothing(o, r.state == Running, r.clients[fd], ready);
      EndExecutesNothing(o, r.clients[fd], ready);
    }
  }

  /** Only answering a request executes anything, and only a new client is not in the table before. */
  lemma StepsExecuteNothing(o: Options, capacity: nat, s: EventLoop, step: Step)
    requires Enabled(o, s, step) && Tidy(s.reactor.clients) && !step.AnswerRequest? && !step.HandleClient?
    ensures Undisturbed(s.reactor.clients, Do(o, capacity, s, step).reactor.clients)
  {
    hide Tidy, Undisturbed, FinishTurn, ForceStop, BeginGraceful, ReportBegun, ReportEnded, Fail, HasMore;
    var r := s.reactor;
    var dropped := Dropping(r, InTransit(s.pc));
    SameIsUndisturbed(r.clients);
    match step
    case HandleForce =>
      ForceStopEmpties(dropped);
      NoneIsUndisturbed(r.clients, ForceStop(dropped).clients);
    case HandleStop => BeginningExecutesNothing(o, dropped, s.pc.snapshot.deadline);
    case TakeReport => ReportingExecutesNothing(o, r, s.pc.ready[0].fd, s.pc.ready[0].ready);
    case LeaveReport => ReportingExecutesNothing(o, r, s.pc.report.fd, s.pc.report.ready);
    case Finish(now) => FinishingExecutesNothing(r, now);
    case Throw =>
      FailEmpties(dropped);
      NoneIsUndisturbed(r.clients, Fail(dropped).clients);
    case _ =>
  }

  lemma SameIsUndisturbed(clients: map<nat, Session>)
    ensures Undisturbed(clients, clients)
  {
  }

  /** A new client starts with an empty log, and disturbs no other. */
  lemma EntrantsAreNew(o: Options, capacity: nat, i: nat, s: EventLoop, step: Step)
    requires Enabled(o, s, step) && step.HandleClient?
    ensures
      var clients, clients', entrant := s.reactor.clients, Do(o, capacity, s, step).reactor.clients,
        Entrant(i, s, step);
      if entrant.Some?
      then entrant.value.loop == i && clients' == clients[entrant.value.fd := JOINED]
      else clients' == clients
  {
  }

  /** The client's next request has been executed, for it alone. */
  predicate HasAnswered(clients: map<nat, Session>, clients': map<nat, Session>, fd: nat, response: bytes) {
    && HasMore(clients, fd) && fd in clients' && clients' == clients[fd := clients'[fd]]
    && Executed(clients'[fd].log) == Executed(clients[fd].log) + [Exchange(clients[fd].todo[0], response)]
    && |clients[fd].todo[0]| <= MAX_FRAME_SIZE
  }

  lemma AnswersExecute(o: Options, capacity: nat, s: EventLoop, response: bytes)
    requires Healthy(o, s.reactor) && Enabled(o, s, AnswerRequest(response))
    ensures s.pc.Answering?
    ensures HasAnswered(s.reactor.clients, Do(o, capacity, s, AnswerRequest(response)).reactor.clients,
      s.pc.report.fd, response)
  {
    hide Healthy, Sound, Executed, ProcessPayload;
    var fd := s.pc.report.fd;
    var c := s.reactor.clients[fd];
    HealthyKeeps(o, s.reactor, fd);
    PayloadIsSound(o, c, response);
    SoundRequestsFit(o, c);
  }

  lemma SoundRequestsFit(o: Options, c: Session)
    requires Sound(o, c) && c.todo != []
    ensures |c.todo[0]| <= MAX_FRAME_SIZE
  {
    hide Bounds, Streamed, Ordered, Framed, Alternates;
    FirstToDo(c);
  }

  // ------------------------------------------------------------ the logs and the history

  ghost predicate Recorded(v: Server) {
    && IsService(v.history)
    && forall i :: 0 <= i < |v.loops| ==> LogsRecorded(v.history, i, v.loops[i].reactor.clients)
  }

  ghost predicate LogsRecorded(t: Service, i: nat, clients: map<nat, Session>) {
    forall fd :: fd in clients ==> Projection(t, Client(i, fd)) == Executed(clients[fd].log)
  }

  lemma UndisturbedStaysRecorded(t: Service, i: nat, clients: map<nat, Session>, clients': map<nat, Session>)
    requires LogsRecorded(t, i, clients) && Undisturbed(clients, clients')
    ensures LogsRecorded(t, i, clients')
  {
    hide Executed, Projection;
  }

  lemma OthersStayRecorded(t: Service, t': Service, who: Client, i: nat, clients: map<nat, Session>)
    requires LogsRecorded(t, i, clients) && i != who.loop
    requires (t'.Admitted? || t'.Served?) && t'.before == t && t'.who == who
    ensures LogsRecorded(t', i, clients)
  {
    hide Executed;
  }

  lemma EntryIsRecorded(t: Service, who: Client, clients: map<nat, Session>)
    requires LogsRecorded(t, who.loop, clients)
    ensures LogsRecorded(Admitted(t, who), who.loop, clients[who.fd := JOINED])
  {
  }

  lemma AnswerIsRecorded(t: Service, t': Service, clients: map<nat, Session>, clients': map<nat, Session>)
    requires t'.Served? && t'.before == t && LogsRecorded(t, t'.who.loop, clients)
    requires t'.who.fd in clients && t'.who.fd in clients'
    requires clients' == clients[t'.who.fd := clients'[t'.who.fd]]
    requires Executed(clients'[t'.who.fd].log) == Executed(clients[t'.who.fd].log) + [Exchange(t'.payload, t'.response)]
    ensures LogsRecorded(t', t'.who.loop, clients')
  {
    hide Executed;
  }

  lemma SweepIsRecorded(t: Service, t': Service, i: nat, clients: map<nat, Session>)
    requires LogsRecorded(t, i, clients) && t'.Cleaned? && t'.before == t
    ensures LogsRecorded(t', i, clients)
  {
    hide Executed;
  }

  lemma HistoryGoesOn(g: Config, v: Server, move: Move)
    requires IsService(v.history) && AllSteady(g, v) && Can(g, v, move)
    ensures IsService(NextHistory(v, move))
  {
    hide StillOpen, Handles, Healthy, InStep, SeenIsDone, NoLostWakeup;
    if move.ExecuteRequest? {
      assert Steady(g.options, v.loops[move.loop]);
      AnswersExecute(g.options, g.capacity, v.loops[move.loop], move.response);
    }
  }

  lemma LoopStaysRecorded(g: Config, v: Server, move: Move, i: nat)
    requires Recorded(v) && AllSteady(g, v) && Can(g, v, move) && i < |v.loops|
    ensures LogsRecorded(NextHistory(v, move), i, NextLoops(g, v, move)[i].reactor.clients)
  {
    hide Enabled, Do, StillOpen, Accepts, LogsRecorded, IsService, Handles, Steady, Undisturbed, Entrant;
    var s, t := v.loops[i], Touched(v, move);
    assert LogsRecorded(v.history, i, s.reactor.clients) && Steady(g.options, s);
    SteadyLoopIsTidy(g.options, s);
    if t.Some? && t.value.loop == i {
      TouchedIsEnabled(g, v, move);
      TouchedStaysRecorded(g, v, move);
    } else {
      UntouchedStaysRecorded(g, v, move, i);
    }
  }

  lemma SteadyLoopIsTidy(o: Options, s: EventLoop)
    requires Steady(o, s)
    ensures Healthy(o, s.reactor) && Tidy(s.reactor.clients)
  {
    hide Healthy;
    HealthyIsTidy(o, s.reactor);
  }

  lemma UntouchedStaysRecorded(g: Config, v: Server, move: Move, i: nat)
    requires Can(g, v, move) && i < |v.loops| && LogsRecorded(v.history, i, v.loops[i].reactor.clients)
    requires Touched(v, move).Some? ==> Touched(v, move).value.loop != i
    ensures LogsRecorded(NextHistory(v, move), i, NextLoops(g, v, move)[i].reactor.clients)
  {
    hide Enabled, Do, StillOpen, Accepts, LogsRecorded, Handles, HasMore;
    var t, t', clients := v.history, NextHistory(v, move), v.loops[i].reactor.clients;
    match move
    case InLoop(j, step) =>
      if Entrant(j, v.loops[j], step).Some? {
        OthersStayRecorded(t, t', Entrant(j, v.loops[j], step).value, i, clients);
      }
    case ExecuteRequest(j, now, response, after) =>
      if t' != t {
        OthersStayRecorded(t, t', t'.who, i, clients);
      }
    case SweepStore(now, budget, answer, after) => SweepIsRecorded(t, t', i, clients);
    case _ =>
  }

  lemma TouchedStaysRecorded(g: Config, v: Server, move: Move)
    requires Can(g, v, move) && Touched(v, move).Some? && Touched(v, move).value.loop < |v.loops|
    requires
      var i := Touched(v, move).value.loop;
      && Healthy(g.options, v.loops[i].reactor) && Tidy(v.loops[i].reactor.clients)
      && LogsRecorded(v.history, i, v.loops[i].reactor.clients)
    ensures
      var i := Touched(v, move).value.loop;
      LogsRecorded(NextHistory(v, move), i, NextLoops(g, v, move)[i].reactor.clients)
  {
    hide Enabled, Do, StillOpen, Accepts, LogsRecorded, Handles, Healthy, Tidy, Undisturbed, Entrant;
    var t, i, step := v.history, Touched(v, move).value.loop, Touched(v, move).value.step;
    var s := v.loops[i];
    TouchedIsEnabled(g, v, move);
    var clients, clients' := s.reactor.clients, Do(g.options, g.capacity, s, step).reactor.clients;
    if step.AnswerRequest? {
      AnswersExecute(g.options, g.capacity, s, step.response);
      AnsweredInExecution(g, v, move);
      AnswerIsRecorded(t, NextHistory(v, move), clients, clients');
    } else if step.HandleClient? {
      EntrantsAreNew(g.options, g.capacity, i, s, step);
      if Entrant(i, s, step).Some? {
        EntryIsRecorded(t, Entrant(i, s, step).value, clients);
      }
    } else {
      StepsExecuteNothing(g.options, g.capacity, s, step);
      NoEntrant(i, s, step);
      UndisturbedStaysRecorded(t, i, clients, clients');
    }
  }

  lemma AnsweredInExecution(g: Config, v: Server, move: Move)
    requires Can(g, v, move) && Touched(v, move).Some? && Touched(v, move).value.step.AnswerRequest?
    ensures move.ExecuteRequest?
  {
    hide Enabled, StillOpen, Accepts, Handles;
  }

  lemma NoEntrant(i: nat, s: EventLoop, step: Step)
    requires !step.HandleClient?
    ensures Entrant(i, s, step).None?
  {
  }

  /** Every move, whoever makes it, keeps every log equal to its connection's part of the history. */
  lemma MovesKeepRecorded(g: Config, v: Server, move: Move)
    requires Recorded(v) && AllSteady(g, v) && Can(g, v, move)
    ensures Recorded(NextServer(g, v, move))
  {
    hide Can, NextMain, NextLoops, NextHistory, LogsRecorded, IsService;
    HistoryGoesOn(g, v, move);
    forall i | 0 <= i < |v.loops|
      ensures LogsRecorded(NextHistory(v, move), i, NextLoops(g, v, move)[i].reactor.clients)
    {
      LoopStaysRecorded(g, v, move, i);
    }
  }
}
