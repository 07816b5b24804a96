/**
 One sub-reactor as its own thread sees it: the client table, what the poller holds for each client,
 the shutdown state and the connection metrics it contributes to.
 */
module Reactors {
  import opened Basics
  import opened OutputBuffers
  import opened Sessions
  import opened SessionRuns
  import opened SessionTheorems

  datatype ServerState = Created | Running | Draining | Stopped

  /** `released` collects every client descriptor this reactor has closed. */
  datatype Reactor = Reactor(
    state: ServerState,
    clients: map<nat, Session>,
    interests: map<nat, Interest>,
    deadline: int,
    failed: bool,
    accepted: nat,
    closed: nat,
    forced: nat,
    released: multiset<nat>)

  const STARTED := Reactor(Running, map[], map[], 0, false, 0, 0, 0, multiset{})

  /** What the handlers rely on: every output buffer is in range with nothing left to compact. */
  ghost predicate Tidy(clients: map<nat, Session>) {
    forall fd :: fd in clients ==> Settled(clients[fd].writeBuffer)
  }

  // ------------------------------------------------------------ what the loop does

  /** A client enters the table, unless its descriptor is there already or the poller refuses it. */
  function AddClient(r: Reactor, fd: nat, pollerAdds: bool): Reactor {
    if fd in r.clients || !pollerAdds then r.(released := r.released + multiset{fd})
    else
      r.(clients := r.clients[fd := JOINED],
         interests := r.interests[fd := JOINED.registered],
         accepted := r.accepted + 1)
  }

  /** The poller is told of a client's interest only when it changes. */
  function Told(interests: map<nat, Interest>, before: map<nat, Session>, after: map<nat, Session>)
    : map<nat, Interest>
  {
    map fd | fd in interests ::
      if fd in before && fd in after && before[fd].registered != after[fd].registered
      then after[fd].registered
      else interests[fd]
  }

  function WithClients(r: Reactor, clients: map<nat, Session>): Reactor {
    r.(clients := clients, interests := Told(r.interests, r.clients, clients))
  }

  /** A report up to the requests it brings in; a client no longer in the table is skipped. */
  function ReportBegun(o: Options, r: Reactor, fd: nat, ready: Ready): Reactor
    requires Tidy(r.clients)
  {
    if fd !in r.clients then r
    else WithClients(r, r.clients[fd := BeginReport(o, r.state == Running, r.clients[fd], ready)])
  }

  /** One request of the report is answered. */
  function RequestAnswered(o: Options, r: Reactor, fd: nat, response: bytes): Reactor
    requires Tidy(r.clients) && fd in r.clients && r.clients[fd].todo != []
  {
    WithClients(r, r.clients[fd := Sessions.ProcessPayload(o, r.clients[fd], response)])
  }

  function ReportEnded(o: Options, r: Reactor, fd: nat, ready: Ready): Reactor
    requires Tidy(r.clients)
  {
    if fd !in r.clients then r else WithClients(r, r.clients[fd := EndReport(o, r.clients[fd], ready)])
  }

  function ClosedClients(clients: map<nat, Session>): set<nat> {
    set fd | fd in clients && clients[fd].closed
  }

  /** Closed clients leave the poller and the table, and their descriptors are closed. */
  function Cleanup(r: Reactor): Reactor {
    var gone := ClosedClients(r.clients);
    r.(clients := r.clients - gone, interests := r.interests - gone,
       closed := r.closed + |gone|, released := r.released + multiset(gone))
  }

  function AllClosed(clients: map<nat, Session>): map<nat, Session> {
    map fd | fd in clients :: Sessions.MarkClosed(clients[fd])
  }

  function ForceClose(r: Reactor): Reactor {
    Cleanup(r.(clients := AllClosed(r.clients), forced := r.forced + |r.clients|))
  }

  function ForceStop(r: Reactor): Reactor {
    ForceClose(r).(state := Stopped)
  }

  function AllDraining(o: Options, clients: map<nat, Session>): map<nat, Session>
    requires Tidy(clients)
  {
    map fd | fd in clients :: DrainSession(o, clients[fd])
  }

  function StopIfEmpty(r: Reactor): Reactor {
    if r.clients == map[] then r.(state := Stopped) else r
  }

  function BeginGraceful(o: Options, r: Reactor, deadline: int): Reactor
    requires Tidy(r.clients)
  {
    if r.state != Running then r
    else StopIfEmpty(Cleanup(WithClients(r, AllDraining(o, r.clients)).(state := Draining, deadline := deadline)))
  }

  function CheckShutdown(r: Reactor, now: int): Reactor {
    if r.state != Draining then r
    else if r.clients == map[] then r.(state := Stopped)
    else if now >= r.deadline then ForceStop(r)
    else r
  }

  /** The end of one turn of the event loop. */
  function FinishTurn(r: Reactor, now: int): Reactor {
    CheckShutdown(Cleanup(r), now)
  }

  /** An exception anywhere in the loop: the table is dropped without the closed metric. */
  function Fail(r: Reactor): Reactor {
    r.(state := Stopped, failed := true, clients := map[], released := r.released + multiset(r.clients.Keys))
  }

  const NANOS_PER_MILLI := 1_000_000

  /**
   How long, in milliseconds, a reactor in this state may block. Only the main reactor sends forced stops,
   and having sent them it looks every ten milliseconds.
   */
  function WaitTimeout(state: ServerState, forceStopSent: bool, deadline: int, now: int): nat {
    if state == Running then 500
    else if state != Draining then 0
    else if forceStopSent then 10
    else if now >= deadline then 0
    else
      var remaining := (deadline - now) / NANOS_PER_MILLI;
      Min(100, if remaining <= 0 then 1 else remaining)
  }

  /**
   Until forced stops are sent, a draining reactor does not spin before its deadline, sleeps at most a tenth
   of a second, wakes early only for that, and never sleeps a whole millisecond past the deadline.
   */
  lemma WaitEndsByTheDeadline(deadline: int, now: int)
    ensures
      var timeout := WaitTimeout(Draining, false, deadline, now);
      && (timeout == 0 <==> now >= deadline) && timeout <= 100
      && (now < deadline ==> now + timeout * 1_000_000 < deadline + 1_000_000)
      && (timeout < 100 ==> now + (timeout + 1) * 1_000_000 > deadline)
    ensures WaitTimeout(Running, false, deadline, now) == 500 && WaitTimeout(Draining, true, deadline, now) == 10
  {
    if now < deadline {
      var remaining := (deadline - now) / NANOS_PER_MILLI;
      assert remaining * NANOS_PER_MILLI <= deadline - now < (remaining + 1) * NANOS_PER_MILLI;
    }
  }

  // ------------------------------------------------------------ what it keeps

  /** The poller holds exactly the table's interests, and the metrics count exactly the table. */
  ghost predicate Matched(r: Reactor) {
    && r.interests.Keys == r.clients.Keys
    && (forall fd :: fd in r.clients ==> r.interests[fd] == r.clients[fd].registered)
    && r.accepted == r.closed + |r.clients|
  }

  /** Every client is sound, and a draining one takes in nothing. */
  ghost predicate Keeps(o: Options, state: ServerState, c: Session) {
    Sound(o, c) && (state == Draining ==> !IsOpen(c))
  }

  ghost predicate Healthy(o: Options, r: Reactor) {
    && r.state != Created
    && (!r.failed ==> Matched(r))
    && (r.state == Stopped ==> r.clients == map[])
    && forall fd :: fd in r.clients ==> Keeps(o, r.state, r.clients[fd])
  }

  /**
   With a high watermark above zero, every client that is not closed waits for something and the poller
   knows for what, apart from a client in the middle of a report.
   */
  ghost predicate Attended(r: Reactor, busy: set<nat>) {
    forall fd :: fd in r.clients ==>
      Settled(r.clients[fd].writeBuffer) && (fd in busy || r.clients[fd].closed || IsSettledClient(r.clients[fd]))
  }

  ghost predicate AtRest(r: Reactor) {
    forall fd :: fd in r.clients ==> Settled(r.clients[fd].writeBuffer) && IsSettledClient(r.clients[fd])
  }

  /** Nothing is left to do for any client, apart from one in the middle of a report. */
  predicate Quiet(clients: map<nat, Session>, busy: set<nat>) {
    forall fd :: fd in clients && fd !in busy ==> clients[fd].todo == []
  }

  /** For every client still in the table, nothing has been executed in between. */
  predicate Undisturbed(before: map<nat, Session>, after: map<nat, Session>) {
    forall fd :: fd in after ==> fd in before && Executed(after[fd].log) == Executed(before[fd].log)
  }

  lemma HealthyIsTidy(o: Options, r: Reactor)
    requires Healthy(o, r)
    ensures Tidy(r.clients)
  {
    hide Streamed, Ordered, Framed, Alternates, Matched;
  }

  lemma ToldKeepsMatched(r: Reactor, clients: map<nat, Session>)
    requires Matched(r) && clients.Keys == r.clients.Keys
    ensures Matched(WithClients(r, clients))
  {
    assert |clients| == |clients.Keys| == |r.clients.Keys| == |r.clients|;
  }

  lemma CleanupKeepsMatched(r: Reactor)
    requires Matched(r)
    ensures Matched(Cleanup(r))
  {
    var gone := ClosedClients(r.clients);
    assert (r.clients - gone).Keys == r.clients.Keys - gone;
    assert |r.clients.Keys - gone| == |r.clients.Keys| - |gone|;
    assert |r.clients - gone| == |(r.clients - gone).Keys|;
  }

  lemma JoinedKeeps(o: Options)
    ensures Keeps(o, Running, JOINED)
  {
    JoinedIsSound(o);
  }

  // ------------------------------------------------------------ each operation keeps it

  lemma AddKeepsHealthy(o: Options, r: Reactor, fd: nat, pollerAdds: bool)
    requires Healthy(o, r) && r.state == Running
    ensures Healthy(o, AddClient(r, fd, pollerAdds))
  {
    hide Keeps;
    JoinedKeeps(o);
  }

  lemma UpdateKeepsHealthy(o: Options, r: Reactor, fd: nat, c: Session)
    requires Healthy(o, r) && fd in r.clients && Keeps(o, r.state, c)
    ensures Healthy(o, WithClients(r, r.clients[fd := c]))
  {
    hide Keeps, Matched, WithClients;
    var clients := r.clients[fd := c];
    if !r.failed {
      ToldKeepsMatched(r, clients);
    }
    WithClientsIs(r, clients);
  }

  lemma BeginReportKeepsHealthy(o: Options, r: Reactor, fd: nat, ready: Ready)
    requires Healthy(o, r) && Tidy(r.clients) && Quiet(r.clients, {})
    ensures Healthy(o, ReportBegun(o, r, fd, ready))
  {
    hide Healthy, Sound, WithClients, BeginReport, IsOpen;
    if fd in r.clients {
      var c := r.clients[fd];
      HealthyKeeps(o, r, fd);
      BeginIsSound(o, r.state == Running, c, ready);
      if r.state == Draining {
        BeginOnlyDrains(o, false, c, ready);
        DrainsClosing(c, BeginReport(o, false, c, ready));
      }
      UpdateKeepsHealthy(o, r, fd, BeginReport(o, r.state == Running, c, ready));
    }
  }

  lemma HealthyKeeps(o: Options, r: Reactor, fd: nat)
    requires Healthy(o, r) && fd in r.clients
    ensures Keeps(o, r.state, r.clients[fd])
  {
    hide Keeps;
  }

  lemma AnswerKeepsHealthy(o: Options, r: Reactor, fd: nat, response: bytes)
    requires Healthy(o, r) && Tidy(r.clients) && fd in r.clients && r.clients[fd].todo != []
    ensures Healthy(o, RequestAnswered(o, r, fd, response))
  {
    hide Healthy, Sound, WithClients, Sessions.ProcessPayload;
    var c := r.clients[fd];
    HealthyKeeps(o, r, fd);
    SoundDoesOnlyWhenOpen(o, c);
    PayloadIsSound(o, c, response);
    UpdateKeepsHealthy(o, r, fd, Sessions.ProcessPayload(o, c, response));
  }

  lemma SoundDoesOnlyWhenOpen(o: Options, c: Session)
    requires Sound(o, c) && c.todo != []
    ensures IsOpen(c)
  {
    hide Streamed, Framed, Alternates, IsQuit;
  }

  lemma EndReportKeepsHealthy(o: Options, r: Reactor, fd: nat, ready: Ready)
    requires Healthy(o, r) && Tidy(r.clients) && Quiet(r.clients, {})
    ensures Healthy(o, ReportEnded(o, r, fd, ready))
  {
    hide Healthy, Sound, WithClients, EndReport, IsOpen;
    if fd in r.clients {
      var c := r.clients[fd];
      HealthyKeeps(o, r, fd);
      EndIsSound(o, c, ready);
      if r.state == Draining {
        EndOnlyDrains(o, c, ready);
        DrainsClosing(c, EndReport(o, c, ready));
      }
      UpdateKeepsHealthy(o, r, fd, EndReport(o, c, ready));
    }
  }

  lemma WithClientsIs(r: Reactor, clients: map<nat, Session>)
    ensures WithClients(r, clients) == r.(clients := clients, interests := WithClients(r, clients).interests)
  {
  }

  lemma CleanupKeepsHealthy(o: Options, r: Reactor)
    requires Healthy(o, r)
    ensures Healthy(o, Cleanup(r))
  {
    hide Keeps, Matched;
    if !r.failed {
      CleanupKeepsMatched(r);
    }
  }

  lemma ClosingAllKeepsHealthy(o: Options, r: Reactor)
    requires Healthy(o, r)
    ensures Healthy(o, r.(clients := AllClosed(r.clients), forced := r.forced + |r.clients|))
  {
    hide Keeps;
    forall fd | fd in r.clients
      ensures Keeps(o, r.state, Sessions.MarkClosed(r.clients[fd]))
    {
      ClosedKeeps(o, r.state, r.clients[fd]);
    }
    assert AllClosed(r.clients).Keys == r.clients.Keys;
    assert |AllClosed(r.clients)| == |AllClosed(r.clients).Keys| == |r.clients.Keys| == |r.clients|;
  }

  lemma ClosedKeeps(o: Options, state: ServerState, c: Session)
    requires Keeps(o, state, c)
    ensures Keeps(o, state, Sessions.MarkClosed(c))
  {
    hide Sound;
    CloseIsSound(o, c);
  }

  lemma ForceCloseEmpties(r: Reactor)
    ensures ForceClose(r).clients == map[]
  {
    var clients := AllClosed(r.clients);
    assert forall fd :: fd in clients ==> clients[fd].closed;
    assert clients - ClosedClients(clients) == map[];
  }

  lemma ForceStopKeepsHealthy(o: Options, r: Reactor)
    requires Healthy(o, r)
    ensures Healthy(o, ForceStop(r)) && ForceStop(r).state == Stopped && ForceStop(r).clients == map[]
  {
    hide Keeps, Matched, AllClosed, Cleanup;
    ClosingAllKeepsHealthy(o, r);
    CleanupKeepsHealthy(o, r.(clients := AllClosed(r.clients), forced := r.forced + |r.clients|));
    ForceCloseEmpties(r);
    StoppingKeepsHealthy(o, ForceClose(r));
  }

  lemma StoppingKeepsHealthy(o: Options, r: Reactor)
    requires Healthy(o, r) && r.clients == map[]
    ensures Healthy(o, r.(state := Stopped))
  {
    hide Keeps;
  }

  lemma DrainedKeeps(o: Options, c: Session)
    requires Keeps(o, Running, c) && Settled(c.writeBuffer) && !c.closed && c.todo == []
    ensures Keeps(o, Draining, DrainSession(o, c))
  {
    hide Sound;
    DrainIsSound(o, c);
  }

  lemma BeginKeepsHealthy(o: Options, r: Reactor, deadline: int)
    requires Healthy(o, r) && Tidy(r.clients) && Quiet(r.clients, {}) && ClosedClients(r.clients) == {}
    ensures Healthy(o, BeginGraceful(o, r, deadline))
  {
    hide Keeps, Matched, AllDraining, WithClients, Cleanup;
    if r.state == Running {
      var d := WithClients(r, AllDraining(o, r.clients)).(state := Draining, deadline := deadline);
      DrainingAllKeepsHealthy(o, r, deadline);
      CleanupKeepsHealthy(o, d);
      if Cleanup(d).clients == map[] {
        StoppingKeepsHealthy(o, Cleanup(d));
      }
    }
  }

  lemma DrainingAllKeepsHealthy(o: Options, r: Reactor, deadline: int)
    requires Healthy(o, r) && Tidy(r.clients) && Quiet(r.clients, {}) && ClosedClients(r.clients) == {}
      && r.state == Running
    ensures Healthy(o, WithClients(r, AllDraining(o, r.clients)).(state := Draining, deadline := deadline))
  {
    hide Keeps, DrainSession;
    var clients := AllDraining(o, r.clients);
    forall fd | fd in r.clients
      ensures Keeps(o, Draining, clients[fd])
    {
      assert fd !in ClosedClients(r.clients);
      DrainedKeeps(o, r.clients[fd]);
    }
    if !r.failed {
      ToldKeepsMatched(r, clients);
    }
  }

  lemma FinishKeepsHealthy(o: Options, r: Reactor, now: int)
    requires Healthy(o, r)
    ensures Healthy(o, FinishTurn(r, now))
  {
    hide Keeps, Matched, Cleanup, ForceStop;
    CleanupKeepsHealthy(o, r);
    ForceStopKeepsHealthy(o, Cleanup(r));
    if Cleanup(r).clients == map[] {
      StoppingKeepsHealthy(o, Cleanup(r));
    }
  }

  lemma FailKeepsHealthy(o: Options, r: Reactor)
    requires Healthy(o, r)
    ensures Healthy(o, Fail(r))
  {
    hide Keeps;
  }

  // ------------------------------------------------------------ the poller and the table agree

  lemma JoinedIsSettled()
    ensures IsSettledClient(JOINED)
  {
  }

  lemma EndIsAttended(o: Options, c: Session, ready: Ready)
    requires o.writeHighWatermarkBytes > 0 && Settled(c.writeBuffer)
    ensures EndReport(o, c, ready).closed || IsSettledClient(EndReport(o, c, ready))
  {
    hide RefreshInterest, HandleWrite, FinishWriting, IsSettledClient;
    var c2 := if !c.closed && ready.write then HandleWrite(o, c, ready.send) else c;
    var c3 := if !c2.closed && ready.hangup then FinishWriting(c2) else c2;
    RefreshSettles(o, c3);
  }

  lemma UpdateKeepsAttended(r: Reactor, fd: nat, c: Session, busy: set<nat>)
    requires Attended(r, busy + {fd}) && Settled(c.writeBuffer)
    ensures Attended(WithClients(r, r.clients[fd := c]), busy + {fd})
    ensures c.closed || IsSettledClient(c) ==> Attended(WithClients(r, r.clients[fd := c]), busy)
  {
    hide IsSettledClient;
  }

  lemma CleanupRests(r: Reactor)
    requires Attended(r, {})
    ensures AtRest(Cleanup(r))
  {
    hide IsSettledClient;
  }

  lemma BeginRests(o: Options, r: Reactor, deadline: int)
    requires o.writeHighWatermarkBytes > 0 && AtRest(r) && Tidy(r.clients)
    ensures AtRest(BeginGraceful(o, r, deadline))
  {
    hide IsSettledClient, DrainSession, Cleanup;
    if r.state == Running {
      var d := WithClients(r, AllDraining(o, r.clients)).(state := Draining, deadline := deadline);
      forall fd | fd in r.clients
        ensures Settled(d.clients[fd].writeBuffer) && (d.clients[fd].closed || IsSettledClient(d.clients[fd]))
      {
        DrainedIsAttended(o, r.clients[fd]);
      }
      CleanupRests(d);
    }
  }

  lemma DrainedIsAttended(o: Options, c: Session)
    requires o.writeHighWatermarkBytes > 0 && Settled(c.writeBuffer)
    ensures DrainSession(o, c).closed || IsSettledClient(DrainSession(o, c))
  {
    hide RefreshInterest, FinishWriting, IsSettledClient;
    RefreshSettles(o, FinishWriting(c));
  }

  lemma FinishRests(r: Reactor, now: int)
    requires Attended(r, {})
    ensures AtRest(FinishTurn(r, now))
  {
    hide IsSettledClient, Cleanup;
    CleanupRests(r);
    if FinishTurn(r, now) != Cleanup(r) {
      ForceCloseEmpties(Cleanup(r));
    }
  }

  // ------------------------------------------------------------ shutdown

  predicate Advances(before: ServerState, after: ServerState) {
    match before
    case Created => after == Created || after == Running
    case Running => after != Created
    case Draining => after == Draining || after == Stopped
    case Stopped => after == Stopped
  }

  lemma ForceCloseCounts(r: Reactor)
    ensures
      var f := ForceClose(r);
      && f.forced == r.forced + |r.clients| && f.closed == r.closed + |r.clients|
      && f.released == r.released + multiset(r.clients.Keys)
      && f.accepted == r.accepted && f.failed == r.failed
  {
    assert ClosedClients(AllClosed(r.clients)) == r.clients.Keys;
    assert |r.clients.Keys| == |r.clients|;
  }

  /** What is left when the clients that are closed have gone. */
  function StillThere(clients: map<nat, Session>): set<nat> {
    set fd | fd in clients && !clients[fd].closed
  }

  lemma CleanupLeaves(r: Reactor)
    ensures Cleanup(r).clients.Keys == StillThere(r.clients)
    ensures forall fd :: fd in Cleanup(r).clients ==> Cleanup(r).clients[fd] == r.clients[fd]
    ensures Cleanup(r).closed + |Cleanup(r).clients| == r.closed + |r.clients|
    ensures |Cleanup(r).clients| == |StillThere(r.clients)|
    ensures Cleanup(r).released + multiset(Cleanup(r).clients.Keys) == r.released + multiset(r.clients.Keys)
  {
    var gone := ClosedClients(r.clients);
    assert (r.clients - gone).Keys == r.clients.Keys - gone == StillThere(r.clients);
    assert |r.clients.Keys - gone| == |r.clients.Keys| - |gone|;
    assert |r.clients - gone| == |(r.clients - gone).Keys| && |r.clients.Keys| == |r.clients|;
  }

  /**
   A turn that ends at or after the deadline of a shutdown ends stopped, with an empty table: every client is
   closed and counted, those that were not closed yet as forced.
   */
  lemma DeadlineStops(r: Reactor, now: int)
    requires r.state == Draining && now >= r.deadline
    ensures
      var f := FinishTurn(r, now);
      && f.state == Stopped && f.clients == map[]
      && f.forced == r.forced + |StillThere(r.clients)|
      && f.closed == r.closed + |r.clients|
      && f.released == r.released + multiset(r.clients.Keys)
  {
    hide Cleanup, ForceClose;
    CleanupLeaves(r);
    CleanupKeepsState(r);
    ForceCloseEmpties(Cleanup(r));
    ForceCloseCounts(Cleanup(r));
  }

  lemma CleanupKeepsState(r: Reactor)
    ensures Cleanup(r) == r.(clients := Cleanup(r).clients, interests := Cleanup(r).interests,
                             closed := Cleanup(r).closed, released := Cleanup(r).released)
  {
  }

  /** While running, the end of a turn only clears away the clients that are closed, and counts them. */
  lemma RunningTurnOnlyCleans(r: Reactor, now: int)
    requires r.state == Running
    ensures
      var f := FinishTurn(r, now);
      && f.state == Running && f.forced == r.forced && f.accepted == r.accepted && !(f.failed && !r.failed)
      && f.clients.Keys == StillThere(r.clients)
      && (forall fd :: fd in f.clients ==> f.clients[fd] == r.clients[fd])
      && f.closed + |StillThere(r.clients)| == r.closed + |r.clients|
  {
    hide Cleanup;
    CleanupLeaves(r);
    CleanupKeepsState(r);
  }

  /** Before the deadline a turn stops a shutdown exactly when it leaves no client. */
  lemma DrainedStops(r: Reactor, now: int)
    requires r.state == Draining && now < r.deadline
    ensures
      (FinishTurn(r, now).state == Stopped) <==> (forall fd :: fd in r.clients ==> r.clients[fd].closed)
    ensures FinishTurn(r, now).forced == r.forced
  {
    if FinishTurn(r, now).state == Stopped {
      assert Cleanup(r).clients == map[];
      forall fd | fd in r.clients
        ensures r.clients[fd].closed
      {
        assert fd !in Cleanup(r).clients;
      }
    }
    if forall fd :: fd in r.clients ==> r.clients[fd].closed {
      assert r.clients - ClosedClients(r.clients) == map[];
    }
  }

  // ---- bytes still to be sent

  function Sizes(clients: map<nat, Session>): map<nat, nat>
    requires Tidy(clients)
  {
    map fd | fd in clients :: Size(clients[fd].writeBuffer)
  }

  ghost function PendingBytes(clients: map<nat, Session>): nat
    requires Tidy(clients)
  {
    Sum(Sizes(clients), clients.Keys)
  }

  /** Nothing is read or queued for any client, no client joins, and the bytes still to be sent never grow. */
  ghost predicate OnlyEmpties(before: Reactor, after: Reactor) {
    && Tidy(before.clients) && Tidy(after.clients)
    && after.clients.Keys <= before.clients.Keys
    && (forall fd :: fd in after.clients ==> OnlyDrains(before.clients[fd], after.clients[fd]))
    && PendingBytes(after.clients) <= PendingBytes(before.clients)
    && after.accepted == before.accepted
  }

  lemma ClientsOnlyDrain(before: Reactor, after: Reactor)
    requires Tidy(before.clients) && Tidy(after.clients) && after.accepted == before.accepted
    requires after.clients.Keys <= before.clients.Keys
    requires forall fd :: fd in after.clients ==> OnlyDrains(before.clients[fd], after.clients[fd])
    ensures OnlyEmpties(before, after)
  {
    hide Settled;
    forall fd | fd in after.clients
      ensures Size(after.clients[fd].writeBuffer) <= Size(before.clients[fd].writeBuffer)
    {
    }
    SumShrinks(Sizes(before.clients), Sizes(after.clients), before.clients.Keys, after.clients.Keys);
  }

  ghost predicate Frozen(r: Reactor) {
    Tidy(r.clients) && forall fd :: fd in r.clients ==> !IsOpen(r.clients[fd])
  }

  lemma UpdateOnlyEmpties(r: Reactor, fd: nat, c: Session)
    requires Frozen(r) && fd in r.clients && Settled(c.writeBuffer) && OnlyDrains(r.clients[fd], c)
    ensures OnlyEmpties(r, WithClients(r, r.clients[fd := c]))
  {
    hide NeedsCompaction, IsOpen, OnlyEmpties, OnlyDrains;
    forall f | f in r.clients
      ensures OnlyDrains(r.clients[f], r.clients[f])
    {
      StillOnlyDrains(r.clients[f]);
    }
    ClientsOnlyDrain(r, WithClients(r, r.clients[fd := c]));
  }

  /** While draining, a report makes no client read or queue, and brings in no request. */
  lemma ReportOnlyEmpties(o: Options, r: Reactor, fd: nat, ready: Ready)
    requires r.state == Draining && Frozen(r)
    ensures OnlyEmpties(r, ReportBegun(o, r, fd, ready)) && OnlyEmpties(r, ReportEnded(o, r, fd, ready))
  {
    hide BeginReport, EndReport, NeedsCompaction, IsOpen, OnlyEmpties, OnlyDrains, WithClients;
    if fd in r.clients {
      var c := r.clients[fd];
      BeginOnlyDrains(o, false, c, ready);
      EndOnlyDrains(o, c, ready);
      UpdateOnlyEmpties(r, fd, BeginReport(o, false, c, ready));
      UpdateOnlyEmpties(r, fd, EndReport(o, c, ready));
    } else {
      SameOnlyEmpties(r, r);
    }
  }

  lemma CleanupOnlyEmpties(r: Reactor)
    requires Frozen(r)
    ensures OnlyEmpties(r, Cleanup(r))
  {
    hide NeedsCompaction, IsOpen, OnlyEmpties, OnlyDrains;
    forall fd | fd in r.clients
      ensures OnlyDrains(r.clients[fd], r.clients[fd])
    {
      StillOnlyDrains(r.clients[fd]);
    }
    ClientsOnlyDrain(r, Cleanup(r));
  }

  lemma SameOnlyEmpties(r: Reactor, r': Reactor)
    requires Frozen(r) && (r'.clients == r.clients || r'.clients == map[]) && r'.accepted == r.accepted
    ensures OnlyEmpties(r, r')
  {
    hide OnlyDrains, IsOpen, NeedsCompaction, OnlyEmpties;
    forall fd | fd in r'.clients
      ensures OnlyDrains(r.clients[fd], r.clients[fd])
    {
      StillOnlyDrains(r.clients[fd]);
    }
    ClientsOnlyDrain(r, r');
  }

  lemma FinishOnlyEmpties(r: Reactor, now: int)
    requires r.state == Draining && Frozen(r)
    ensures OnlyEmpties(r, FinishTurn(r, now))
  {
    hide Frozen, OnlyEmpties, ForceStop;
    CleanupOnlyEmpties(r);
    var f := FinishTurn(r, now);
    if f.clients == Cleanup(r).clients && f.accepted == Cleanup(r).accepted {
      SameClients(r, Cleanup(r), f);
    } else {
      ForceStopEmpties(Cleanup(r));
      SameOnlyEmpties(r, f);
    }
  }

  lemma SameClients(before: Reactor, after: Reactor, after': Reactor)
    requires OnlyEmpties(before, after) && after'.clients == after.clients && after'.accepted == after.accepted
    ensures OnlyEmpties(before, after')
  {
    hide OnlyDrains, NeedsCompaction;
  }

  lemma ForceStopEmpties(r: Reactor)
    ensures ForceStop(r).clients == map[] && ForceStop(r).accepted == r.accepted
  {
    ForceCloseEmpties(r);
  }

  lemma DrainedIffNothingPends(o: Options, c: Session)
    requires Settled(c.writeBuffer) && !c.closed
    ensures
      var d := DrainSession(o, c);
      && (d.closed <==> Size(c.writeBuffer) == 0)
      && (!d.closed ==> d.writeBuffer == c.writeBuffer && d.log == c.log)
  {
  }

  /** Starting to shut down closes exactly the clients owed nothing; the others keep every byte they are owed. */
  lemma BeginDropsNoOutput(o: Options, r: Reactor, deadline: int)
    requires r.state == Running && Tidy(r.clients) && ClosedClients(r.clients) == {}
    ensures
      var b := BeginGraceful(o, r, deadline);
      && b.clients.Keys == (set fd | fd in r.clients && Size(r.clients[fd].writeBuffer) > 0)
      && (forall fd :: fd in b.clients ==>
            b.clients[fd].writeBuffer == r.clients[fd].writeBuffer && b.clients[fd].log == r.clients[fd].log)
      && (b.state == if b.clients == map[] then Stopped else Draining)
      && b.deadline == deadline && b.forced == r.forced && b.accepted == r.accepted
      && b.closed + |b.clients| == r.closed + |r.clients|
  {
    hide DrainSession, Settled, Size, Cleanup, WithClients, ClosedClients, AllDraining, StillThere;
    var clients := AllDraining(o, r.clients);
    var d := WithClients(r, clients).(state := Draining, deadline := deadline);
    WithClientsIs(r, clients);
    DrainingLeavesOwing(o, r);
    CleanupLeaves(d);
    CleanupKeepsState(d);
    DrainingKeepsTable(o, r);
    assert Cleanup(d).clients.Keys == StillThere(clients);
  }

  lemma DrainingKeepsTable(o: Options, r: Reactor)
    requires Tidy(r.clients)
    ensures |AllDraining(o, r.clients)| == |r.clients|
  {
    hide DrainSession;
    assert AllDraining(o, r.clients).Keys == r.clients.Keys;
    assert |AllDraining(o, r.clients).Keys| == |r.clients.Keys|;
  }

  lemma DrainingLeavesOwing(o: Options, r: Reactor)
    requires Tidy(r.clients) && ClosedClients(r.clients) == {}
    ensures
      var clients := AllDraining(o, r.clients);
      && StillThere(clients) == (set fd | fd in r.clients && Size(r.clients[fd].writeBuffer) > 0)
      && (forall fd :: fd in StillThere(clients) ==>
            clients[fd].writeBuffer == r.clients[fd].writeBuffer && clients[fd].log == r.clients[fd].log)
  {
    hide DrainSession, NeedsCompaction, Size;
    forall fd | fd in r.clients
      ensures
        var c, d := r.clients[fd], DrainSession(o, r.clients[fd]);
        && (d.closed <==> Size(c.writeBuffer) == 0)
        && (!d.closed ==> d.writeBuffer == c.writeBuffer && d.log == c.log)
    {
      assert fd !in ClosedClients(r.clients);
      DrainedIffNothingPends(o, r.clients[fd]);
    }
  }
}
