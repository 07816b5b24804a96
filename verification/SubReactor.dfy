/**
 The sub-reactor as the object its thread updates in place: a table of connections, the poller's
 registrations, the shutdown state, and the control record other threads write to.
 */
module SubReactors {
  import opened Basics
  import opened OutputBuffers
  import opened KeyValueStore
  import opened ServiceRuns
  import opened Sessions
  import opened Connections
  import opened Reactors
  import opened EventLoops

  // ------------------------------------------------------------ tables of objects

  ghost function ObjectsOf(clients: map<nat, Connection>): set<object> {
    (set fd | fd in clients :: clients[fd]) + (set fd | fd in clients :: clients[fd].writeBuffer)
  }

  lemma InsideFootprint(clients: map<nat, Connection>, fd: nat)
    requires fd in clients
    ensures clients[fd] in ObjectsOf(clients) && clients[fd].writeBuffer in ObjectsOf(clients)
  {
  }

  /** No two clients share an object. */
  ghost predicate Separate(clients: map<nat, Connection>) {
    forall a, b :: a in clients && b in clients && a != b ==>
      clients[a] != clients[b] && clients[a].writeBuffer != clients[b].writeBuffer
  }

  /** The objects of a table are apart, in order, and in the states `table` gives them. */
  ghost predicate Backs(clients: map<nat, Connection>, table: map<nat, Session>)
    reads ObjectsOf(clients)
  {
    && clients.Keys == table.Keys && Separate(clients)
    && forall fd :: fd in clients ==> clients[fd].Valid() && clients[fd].State() == table[fd] && Idle(table[fd])
  }

  lemma BackedTable(clients: map<nat, Connection>, table: map<nat, Session>)
    requires Backs(clients, table)
    ensures clients.Keys == table.Keys && Tidy(table)
  {
  }

  lemma BacksNothing()
    ensures Backs(map[], map[]) && ObjectsOf(map[]) == {}
  {
  }

  lemma BacksFewer(clients: map<nat, Connection>, table: map<nat, Session>, gone: set<nat>)
    requires Backs(clients, table)
    ensures Backs(clients - gone, table - gone) && ObjectsOf(clients - gone) <= ObjectsOf(clients)
  {
  }

  lemma BacksMore(clients: map<nat, Connection>, table: map<nat, Session>, fd: nat, conn: Connection)
    requires Backs(clients, table) && conn.Valid() && Idle(conn.State()) && conn !in ObjectsOf(clients)
      && conn.writeBuffer !in ObjectsOf(clients)
    ensures Backs(clients[fd := conn], table[fd := conn.State()])
    ensures ObjectsOf(clients[fd := conn]) <= ObjectsOf(clients) + {conn, conn.writeBuffer}
  {
  }

  /** One client's objects are apart from those of all the others. */
  lemma Detach(clients: map<nat, Connection>, table: map<nat, Session>, fd: nat)
    requires Backs(clients, table) && fd in clients
    ensures fd in table && clients[fd].Valid() && clients[fd].State() == table[fd] && Idle(table[fd])
    ensures Backs(clients - {fd}, table - {fd})
    ensures clients[fd] !in ObjectsOf(clients - {fd}) && clients[fd].writeBuffer !in ObjectsOf(clients - {fd})
  {
  }

  /** So after a change to them it fits back in, with its new state. */
  lemma Attach(clients: map<nat, Connection>, table: map<nat, Session>, fd: nat)
    requires fd in clients && fd in table && Backs(clients - {fd}, table - {fd})
    requires clients[fd].Valid() && Idle(clients[fd].State())
    requires clients[fd] !in ObjectsOf(clients - {fd}) && clients[fd].writeBuffer !in ObjectsOf(clients - {fd})
    ensures Backs(clients, table[fd := clients[fd].State()])
  {
    hide Backs, ObjectsOf;
    BacksMore(clients - {fd}, table - {fd}, fd, clients[fd]);
    assert (clients - {fd})[fd := clients[fd]] == clients;
    assert (table - {fd})[fd := clients[fd].State()] == table[fd := clients[fd].State()];
  }

  lemma StoreIsApart(clients: map<nat, Connection>, store: KVStore)
    ensures store !in ObjectsOf(clients)
  {
  }

  method ServeClient(o: Options, running: bool, clients: map<nat, Connection>, ghost table: map<nat, Session>, fd: nat,
                      store: KVStore, ready: Ready, clock: nat -> int, tails: nat -> bytes,
                      ghost who: Client, ghost t: Service)
    returns (changed: bool, ghost c: Session, ghost responses: seq<bytes>, ghost t': Service, ghost end: int)
    requires Backs(clients, table) && fd in clients && store.Valid() && Drives(t, store, clock(0))
    requires forall i, j :: 0 <= i <= j ==> clock(i) <= clock(j)
    modifies clients[fd], clients[fd].writeBuffer, store
    ensures store.Valid() && Drives(t', store, end)
    ensures fd in table && Settled(table[fd].writeBuffer)
    ensures c == HandleReady(o, running, table[fd], ready, responses)
    ensures AnswerAll(o, BeginReport(o, running, table[fd], ready), responses).todo == []
    ensures Extends(t, t', who, table[fd].log, c.log)
    ensures changed <==> c.registered != table[fd].registered
    ensures Backs(clients, table[fd := c]) && c.registered == clients[fd].registeredEvents
  {
    hide Backs, Drives, HandleReady, AnswerAll, BeginReport, Extends, Idle;
    Detach(clients, table, fd);
    StoreIsApart(clients - {fd}, store);
    changed, responses, t', end := clients[fd].HandleReady(o, running, store, ready, clock, tails, who, t);
    c := clients[fd].State();
    Attach(clients, table, fd);
  }

  method CloseClient(clients: map<nat, Connection>, ghost table: map<nat, Session>, fd: nat)
    requires Backs(clients, table) && fd in clients
    modifies clients[fd], clients[fd].writeBuffer
    ensures fd in table && Backs(clients, table[fd := Sessions.MarkClosed(table[fd])])
  {
    hide Backs, Sessions.MarkClosed;
    Detach(clients, table, fd);
    ClosingIsIdle(table[fd]);
    clients[fd].MarkClosed();
    Attach(clients, table, fd);
  }

  method DrainClient(o: Options, clients: map<nat, Connection>, ghost table: map<nat, Session>, fd: nat)
    returns (changed: bool, ghost c: Session)
    requires Backs(clients, table) && fd in clients
    modifies clients[fd], clients[fd].writeBuffer
    ensures fd in table && Settled(table[fd].writeBuffer) && c == DrainSession(o, table[fd])
    ensures changed <==> c.registered != table[fd].registered
    ensures Backs(clients, table[fd := c]) && c.registered == clients[fd].registeredEvents
  {
    hide Backs, DrainSession;
    Detach(clients, table, fd);
    changed := clients[fd].Drain(o);
    c := clients[fd].State();
    Attach(clients, table, fd);
  }

  class SubReactor {
    const id: nat
    var state: ServerState
    var clients: map<nat, Connection>
    var interests: map<nat, Interest>
    var shutdownDeadline: int
    var failed: bool
    var acceptedConnections: nat
    var closedConnections: nat
    var forcedConnections: nat
    /** The states of the clients, and the descriptors closed so far. */
    ghost var table: map<nat, Session>
    ghost var released: multiset<nat>

    var pendingClients: seq<nat>
    var stopRequested: bool
    var forceStopRequested: bool
    var requestedShutdownDeadline: int

    ghost predicate Valid()
      reads this, ObjectsOf(clients)
    {
      Backs(clients, table) && (!failed ==> interests.Keys == clients.Keys)
    }

    ghost function State(): Reactor
      reads this
    {
      Reactor(state, table, interests, shutdownDeadline, failed, acceptedConnections, closedConnections,
        forcedConnections, released)
    }

    function ControlState(): Control
      reads this
    {
      Control(pendingClients, stopRequested, forceStopRequested, requestedShutdownDeadline)
    }

    constructor (id: nat)
      ensures Valid() && State() == STARTED && ControlState() == LAUNCHED.control && this.id == id
    {
      this.id := id;
      state := Running;
      clients, interests, table := map[], map[], map[];
      shutdownDeadline, failed := 0, false;
      acceptedConnections, closedConnections, forcedConnections := 0, 0, 0;
      released := multiset{};
      pendingClients, stopRequested, forceStopRequested, requestedShutdownDeadline := [], false, false, 0;
    }

    // -------------------------------------------------------- the control record, under its mutex

    method EnqueClient(fd: nat) returns (taken: bool)
      modifies this`pendingClients
      ensures taken <==> !stopRequested && !forceStopRequested
      ensures pendingClients == old(pendingClients) + (if taken then [fd] else [])
    {
      if stopRequested || forceStopRequested {
        return false;
      }
      pendingClients := pendingClients + [fd];
      return true;
    }

    method Stop(deadline: int)
      modifies this`stopRequested, this`requestedShutdownDeadline
      ensures ControlState() == WithStop(old(ControlState()), deadline)
    {
      if !stopRequested || deadline < requestedShutdownDeadline {
        requestedShutdownDeadline := deadline;
      }
      stopRequested := true;
    }

    method ForceStop()
      modifies this`forceStopRequested
      ensures ControlState() == old(ControlState()).(force := true)
    {
      forceStopRequested := true;
    }

    // -------------------------------------------------------- the loop's own thread

    method NewConnection() returns (conn: Connection)
      requires Valid()
      ensures Valid()
      ensures fresh(conn) && fresh(conn.writeBuffer) && conn !in ObjectsOf(clients)
        && conn.writeBuffer !in ObjectsOf(clients)
      ensures conn.Valid() && conn.State() == JOINED
    {
      hide Backs;
      ghost var objects := ObjectsOf(clients);
      conn := new Connection();
      assert conn !in objects && conn.writeBuffer !in objects;
      conn.registeredEvents := Interest(true, false);
    }

    /** The table takes a new connection that the poller has accepted. */
    method EmplaceClient(fd: nat, conn: Connection)
      requires Valid() && !failed && fd !in clients
      requires conn.Valid() && conn !in ObjectsOf(clients) && conn.writeBuffer !in ObjectsOf(clients)
      requires conn.State() == JOINED
      modifies this`clients, this`interests, this`acceptedConnections, this`table
      ensures Valid() && State() == AddClient(old(State()), fd, true)
      ensures ObjectsOf(clients) <= old(ObjectsOf(clients)) + {conn, conn.writeBuffer}
    {
      hide Backs, ObjectsOf;
      Apart(clients);
      Apart(clients[fd := conn]);
      BackedTable(clients, table);
      BacksMore(clients, table, fd, conn);
      interests := interests[fd := conn.registeredEvents];
      clients := clients[fd := conn];
      table := table[fd := conn.State()];
      acceptedConnections := acceptedConnections + 1;
    }

    method AddClientInLoop(fd: nat, pollerAdds: bool)
      requires Valid() && !failed
      modifies this`clients, this`interests, this`acceptedConnections, this`table, this`released
      ensures Valid() && State() == AddClient(old(State()), fd, pollerAdds)
      ensures fresh(ObjectsOf(clients) - old(ObjectsOf(clients)))
    {
      hide Backs, AddClient, ObjectsOf;
      BackedTable(clients, table);
      Apart(clients);
      if fd in clients || !pollerAdds {
        released := released + multiset{fd};
        AddClientRefused(old(State()), fd, pollerAdds);
        return;
      }
      var conn := NewConnection();
      EmplaceClient(fd, conn);
    }

    /** The poller and the table forget one closed client, and its descriptor is closed. */
    method EraseClient(fd: nat)
      requires Valid() && fd in clients
      modifies this`clients, this`interests, this`closedConnections, this`table, this`released
      ensures Valid() && State() == Without(old(State()), fd)
      ensures ObjectsOf(clients) <= old(ObjectsOf(clients))
    {
      hide Backs, ObjectsOf;
      Apart(clients);
      Apart(clients - {fd});
      BacksFewer(clients, table, {fd});
      interests := interests - {fd};
      closedConnections := closedConnections + 1;
      clients := clients - {fd};
      table := table - {fd};
      assert !failed ==> interests.Keys == clients.Keys;
      released := released + multiset{fd};
    }

    method CleanupClosedConnections()
      requires Valid()
      modifies this`clients, this`interests, this`closedConnections, this`table, this`released
      ensures Valid() && State() == Cleanup(old(State()))
      ensures ObjectsOf(clients) <= old(ObjectsOf(clients))
    {
      hide Backs, ObjectsOf, Valid, CleanedUp;
      ghost var before := State();
      ghost var done: set<nat> := {};
      var unvisited := clients.Keys;
      ValidTable();
      NothingCleanedUp(before);
      while unvisited != {}
        invariant Valid() && ObjectsOf(clients) <= old(ObjectsOf(clients))
        invariant State() == CleanedUp(before, done) && unvisited == before.clients.Keys - done
        decreases unvisited
      {
        var fd :| fd in unvisited;
        NotYetCleanedUp(before, done, fd);
        ValidClient(fd);
        unvisited := unvisited - {fd};
        CleanedUpOneMore(before, done, fd);
        done := done + {fd};
        if clients[fd].closed {
          EraseClient(fd);
        }
      }
      AllCleanedUp(before, done);
    }

    /**
     One report about one client, and the requests it brings in, executed on the store; a report about a
     client no longer in the table is skipped. The history goes on by exactly what the client's log does.
     */
    method HandleReport(o: Options, store: KVStore, fd: nat, ready: Ready, clock: nat -> int, tails: nat -> bytes,
                        ghost t: Service)
      returns (ghost responses: seq<bytes>, ghost t': Service, ghost end: int)
      requires Valid() && !failed && store.Valid() && Drives(t, store, clock(0))
      requires forall i, j :: 0 <= i <= j ==> clock(i) <= clock(j)
      modifies this`interests, this`table, ObjectsOf(clients), store
      ensures Valid() && store.Valid() && Drives(t', store, end)
      ensures Tidy(old(table)) && State() == Reported(o, old(State()), fd, ready, responses)
      ensures BringsEnough(o, old(State()), fd, ready, responses)
      ensures ExtendsFor(t, t', Client(id, fd), old(table), table)
    {
      hide Backs, ObjectsOf, Drives, HandleReady, Reported, BringsEnough, ExtendsFor, Extends, AnswerAll,
        BeginReport, Tidy;
      responses, t', end := [], t, clock(0);
      ValidTable();
      ghost var before := State();
      if fd !in clients {
        UnknownReport(o, before, fd, ready, t, Client(id, fd));
        return;
      }
      var changed;
      ghost var c;
      InsideFootprint(clients, fd);
      Apart(clients);
      changed, c, responses, t', end :=
        ServeClient(o, state == Running, clients, table, fd, store, ready, clock, tails, Client(id, fd), t);
      KnownReport(o, before, fd, ready, responses, c);
      KnownExtends(t, t', Client(id, fd), before.clients, c);
      TellPoller(fd, changed, c);
    }

    /** After one client's objects changed, its entry follows, and the poller's if its interest changed. */
    method TellPoller(fd: nat, changed: bool, ghost c: Session)
      requires fd in clients && Backs(clients, table[fd := c]) && fd in table && !failed
        && interests.Keys == clients.Keys
      requires c.registered == clients[fd].registeredEvents && (changed <==> c.registered != table[fd].registered)
      modifies this`interests, this`table
      ensures Valid()
      ensures table == old(table)[fd := c]
      ensures interests == if changed then old(interests)[fd := c.registered] else old(interests)
    {
      hide Backs, ObjectsOf;
      Apart(clients);
      if changed {
        interests := interests[fd := clients[fd].registeredEvents];
      }
      table := table[fd := c];
    }

    method MarkAllClosed()
      requires Valid()
      modifies this`table, ObjectsOf(clients)
      ensures Valid() && table == AllClosed(old(table))
    {
      hide Backs, ObjectsOf, ClosedSoFar;
      ghost var start := table;
      ghost var done: set<nat> := {};
      var unvisited := clients.Keys;
      Apart(clients);
      ValidTable();
      NoneClosed(start);
      while unvisited != {}
        invariant Backs(clients, table)
        invariant table == ClosedSoFar(start, done) && unvisited == start.Keys - done
        decreases unvisited
      {
        var fd :| fd in unvisited;
        InsideFootprint(clients, fd);
        CloseClient(clients, table, fd);
        OneMoreClosed(start, done, fd);
        table := table[fd := Sessions.MarkClosed(table[fd])];
        unvisited := unvisited - {fd};
        done := done + {fd};
      }
      EveryOneClosed(start, done);
    }

    method ForceCloseAllConnections()
      requires Valid()
      modifies this`clients, this`interests, this`closedConnections, this`forcedConnections, this`table,
        this`released, ObjectsOf(clients)
      ensures Valid() && State() == ForceClose(old(State()))
      ensures ObjectsOf(clients) <= old(ObjectsOf(clients))
    {
      hide Backs, ObjectsOf, Cleanup, Valid;
      Apart(clients);
      ValidTable();
      ghost var before := State();
      CountForced();
      MarkAllClosed();
      CleanupClosedConnections();
    }

    method CountForced()
      requires Valid()
      modifies this`forcedConnections
      ensures Valid() && forcedConnections == old(forcedConnections) + |table|
    {
      hide Backs, ObjectsOf;
      Apart(clients);
      ValidTable();
      assert |clients| == |clients.Keys| == |table.Keys| == |table|;
      forcedConnections := forcedConnections + |clients|;
    }

    method DrainAll(o: Options)
      requires Valid() && !failed
      modifies this`table, this`interests, ObjectsOf(clients)
      ensures Valid() && Tidy(old(table)) && table == AllDraining(o, old(table))
      ensures interests == Told(old(interests), old(table), table)
    {
      hide Backs, ObjectsOf, DrainedSoFar, DrainSession, Told;
      ghost var start, told := table, interests;
      ghost var done: set<nat> := {};
      var unvisited := clients.Keys;
      Apart(clients);
      ValidTable();
      NoneDrained(o, told, start);
      while unvisited != {}
        invariant Backs(clients, table)
        invariant table == DrainedSoFar(o, start, done) && unvisited == start.Keys - done
        invariant interests == Told(told, start, table) && interests.Keys == clients.Keys
        decreases unvisited
      {
        var fd :| fd in unvisited;
        InsideFootprint(clients, fd);
        OneMoreDrained(o, told, start, done, fd);
        var changed;
        ghost var c;
        changed, c := DrainClient(o, clients, table, fd);
        if changed {
          interests := interests[fd := clients[fd].registeredEvents];
        }
        table := table[fd := c];
        unvisited := unvisited - {fd};
        done := done + {fd};
      }
      EveryOneDrained(o, start, done);
    }

    method BeginGracefulShutdown(o: Options, deadline: int)
      requires Valid() && !failed
      modifies this`state, this`shutdownDeadline, this`clients, this`interests, this`closedConnections, this`table,
        this`released, ObjectsOf(clients)
      ensures Valid() && Tidy(old(table)) && State() == BeginGraceful(o, old(State()), deadline)
      ensures ObjectsOf(clients) <= old(ObjectsOf(clients))
    {
      hide Backs, ObjectsOf, Cleanup, AllDraining, Told;
      Apart(clients);
      ValidTable();
      if state != Running {
        return;
      }
      shutdownDeadline := deadline;
      state := Draining;
      DrainAll(o);
      CleanupClosedConnections();
      Apart(clients);
      ValidTable();
      if |clients| == 0 {
        state := Stopped;
      }
      assert |clients| == 0 <==> table == map[];
    }

    method CheckShutdownProgress(now: int)
      requires Valid()
      modifies this`state, this`clients, this`interests, this`closedConnections, this`forcedConnections, this`table,
        this`released, ObjectsOf(clients)
      ensures Valid() && State() == CheckShutdown(old(State()), now)
    {
      hide Backs, ObjectsOf, Reactors.ForceStop;
      Apart(clients);
      ValidTable();
      if state != Draining {
        return;
      }
      assert |clients| == 0 <==> table == map[];
      if |clients| == 0 {
        state := Stopped;
        return;
      }
      if now >= shutdownDeadline {
        ForceStopLoop();
      }
    }

    /** Takes what the control record holds and acts on it; the poller's answer for the i-th new client is `adds(i)`. */
    method ProcessControlRequests(o: Options, adds: nat -> bool)
      requires Valid() && !failed
      modifies this, ObjectsOf(clients)
      ensures Valid() && Tidy(old(table)) && State() == Obeyed(o, old(State()), old(ControlState()), adds)
      ensures ControlState() == old(ControlState()).(pending := [])
    {
      hide Backs, ObjectsOf, BeginGraceful, Reactors.ForceStop, AddedClients, Dropping, Valid, Tidy;
      ValidTable();
      Apart(clients);
      var taken := TakePending();
      if forceStopRequested {
        DropClients(taken);
        ForceStopLoop();
      } else if stopRequested {
        DropClients(taken);
        BeginGracefulShutdown(o, requestedShutdownDeadline);
      } else {
        AddClients(taken, adds);
      }
    }

    method TakePending() returns (fds: seq<nat>)
      requires Valid()
      modifies this`pendingClients
      ensures Valid() && State() == old(State()) && fds == old(pendingClients) && pendingClients == []
    {
      hide Backs, ObjectsOf;
      Apart(clients);
      fds := pendingClients;
      pendingClients := [];
    }

    /** Descriptors that will not be served are closed. */
    method DropClients(fds: seq<nat>)
      requires Valid()
      modifies this`released
      ensures Valid() && State() == Dropping(old(State()), fds)
    {
      hide Backs, ObjectsOf;
      Apart(clients);
      released := released + multiset(fds);
    }

    method ForceStopLoop()
      requires Valid()
      modifies this`state, this`clients, this`interests, this`closedConnections, this`forcedConnections, this`table,
        this`released, ObjectsOf(clients)
      ensures Valid() && State() == Reactors.ForceStop(old(State()))
    {
      hide Backs, ObjectsOf, ForceClose;
      ForceCloseAllConnections();
      Apart(clients);
      state := Stopped;
    }

    method AddClients(fds: seq<nat>, adds: nat -> bool)
      requires Valid() && !failed
      modifies this`clients, this`interests, this`acceptedConnections, this`table, this`released
      ensures Valid() && State() == AddedClients(old(State()), fds, adds)
    {
      hide Backs, ObjectsOf, AddClient;
      ghost var before := State();
      for i := 0 to |fds|
        invariant Valid() && State() == AddedClients(before, fds[..i], adds)
      {
        assert fds[..i + 1][..i] == fds[..i];
        AddClientInLoop(fds[i], adds(i));
      }
      assert fds[..|fds|] == fds;
    }

    /** The loop's answer to an exception, outside `ProcessControlRequests`. */
    method Terminate()
      requires Valid()
      modifies this`failed, this`clients, this`table, this`state, this`released
      ensures Valid() && State() == Fail(old(State()))
    {
      hide Backs, ObjectsOf;
      ValidTable();
      BacksNothing();
      failed := true;
      released := released + multiset(clients.Keys);
      clients, table := map[], map[];
      state := Stopped;
    }

    lemma Apart(clients: map<nat, Connection>)
      ensures this !in ObjectsOf(clients)
    {
    }

    lemma ValidTable()
      requires Valid()
      ensures clients.Keys == table.Keys && Tidy(table)
    {
    }

    lemma ValidClient(fd: nat)
      requires Valid() && fd in table
      ensures fd in clients && clients[fd].Valid() && clients[fd].State() == table[fd]
    {
    }
  }

  ghost function AddedClients(r: Reactor, fds: seq<nat>, adds: nat -> bool): Reactor {
    if fds == [] then r else AddClient(AddedClients(r, fds[..|fds| - 1], adds), fds[|fds| - 1], adds(|fds| - 1))
  }

  /** What a control record makes of the reactor: the steps from taking it to having acted on all of it. */
  ghost function Obeyed(o: Options, r: Reactor, c: Control, adds: nat -> bool): Reactor
    requires Tidy(r.clients)
  {
    if c.force then Reactors.ForceStop(Dropping(r, c.pending))
    else if c.stop then BeginGraceful(o, Dropping(r, c.pending), c.deadline)
    else AddedClients(r, c.pending, adds)
  }

  ghost function AllAnswered(o: Options, r: Reactor, fd: nat, responses: seq<bytes>): (r': Reactor)
    requires Tidy(r.clients)
    ensures Tidy(r'.clients)
    decreases |responses|
  {
    if responses == [] || !HasMore(r.clients, fd) then r
    else AllAnswered(o, RequestAnswered(o, r, fd, responses[0]), fd, responses[1..])
  }

  /** A report from beginning to end, its requests given these responses. */
  ghost function Reported(o: Options, r: Reactor, fd: nat, ready: Ready, responses: seq<bytes>): Reactor
    requires Tidy(r.clients)
  {
    ReportEnded(o, AllAnswered(o, ReportBegun(o, r, fd, ready), fd, responses), fd, ready)
  }

  ghost predicate BringsEnough(o: Options, r: Reactor, fd: nat, ready: Ready, responses: seq<bytes>)
    requires Tidy(r.clients)
  {
    !HasMore(AllAnswered(o, ReportBegun(o, r, fd, ready), fd, responses).clients, fd)
  }

  /** Of all the logs only this client's goes on, and the history by exactly that. */
  ghost predicate ExtendsFor(t: Service, t': Service, who: Client,
                             before: map<nat, Session>, after: map<nat, Session>)
  {
    && before.Keys == after.Keys
    && (forall fd :: fd in before && fd != who.fd ==> after[fd] == before[fd])
    && (if who.fd in before then Extends(t, t', who, before[who.fd].log, after[who.fd].log) else t' == t)
  }

  lemma UnknownReport(o: Options, r: Reactor, fd: nat, ready: Ready, t: Service, who: Client)
    requires Tidy(r.clients) && fd !in r.clients && who.fd == fd
    ensures Reported(o, r, fd, ready, []) == r && BringsEnough(o, r, fd, ready, [])
    ensures ExtendsFor(t, t, who, r.clients, r.clients)
  {
  }

  lemma KnownExtends(t: Service, t': Service, who: Client, before: map<nat, Session>, c: Session)
    requires who.fd in before && Extends(t, t', who, before[who.fd].log, c.log)
    ensures ExtendsFor(t, t', who, before, before[who.fd := c])
  {
    hide Extends;
  }

  /** A client's entry may change without the poller hearing of it. */
  function Entered(r: Reactor, fd: nat, c: Session): Reactor {
    r.(clients := r.clients[fd := c])
  }

  lemma SameInterestNotTold(r: Reactor, fd: nat, c: Session)
    requires fd in r.clients && c.registered == r.clients[fd].registered
    ensures WithClients(r, r.clients[fd := c]) == Entered(r, fd, c)
  {
    assert Told(r.interests, r.clients, r.clients[fd := c]) == r.interests;
  }

  lemma NewInterestIsTold(r: Reactor, fd: nat, c: Session)
    requires fd in r.clients && r.interests.Keys == r.clients.Keys
    ensures
      WithClients(r, r.clients[fd := c])
      == Entered(r, fd, c).(interests := InterestAfter(r, fd, c))
  {
  }

  function InterestAfter(r: Reactor, fd: nat, c: Session): map<nat, Interest>
    requires fd in r.clients
  {
    if c.registered != r.clients[fd].registered then r.interests[fd := c.registered] else r.interests
  }

  lemma {:induction false} AnsweringEnters(o: Options, r: Reactor, fd: nat, responses: seq<bytes>)
    requires Tidy(r.clients) && fd in r.clients
    ensures AllAnswered(o, r, fd, responses) == Entered(r, fd, AnswerAll(o, r.clients[fd], responses))
    ensures AnswerAll(o, r.clients[fd], responses).registered == r.clients[fd].registered
    decreases |responses|
  {
    hide ProcessPayload, WithClients;
    AnsweringKeepsRegistration(o, r.clients[fd], responses);
    if responses == [] || !HasMore(r.clients, fd) {
      assert r.clients[fd := r.clients[fd]] == r.clients;
    } else {
      var c := ProcessPayload(o, r.clients[fd], responses[0]);
      AnsweringKeepsRegistration(o, r.clients[fd], [responses[0]]);
      assert AnswerAll(o, c, []) == c;
      SameInterestNotTold(r, fd, c);
      AnsweringEnters(o, Entered(r, fd, c), fd, responses[1..]);
    }
  }

  lemma EnteredTwice(r: Reactor, fd: nat, b: Session, c: Session)
    ensures Entered(Entered(r, fd, b), fd, c) == Entered(r, fd, c)
  {
  }

  /** Until its end, a report changes the client's entry and nothing else. */
  lemma ReportAnswered(o: Options, r: Reactor, fd: nat, ready: Ready, responses: seq<bytes>)
    requires Tidy(r.clients) && fd in r.clients
    ensures
      var a := AnswerAll(o, BeginReport(o, r.state == Running, r.clients[fd], ready), responses);
      && AllAnswered(o, ReportBegun(o, r, fd, ready), fd, responses) == Entered(r, fd, a)
      && a.registered == r.clients[fd].registered
  {
    hide BeginReport, AnswerAll, WithClients, AllAnswered, Entered;
    var b := BeginReport(o, r.state == Running, r.clients[fd], ready);
    BeginKeepsRegistration(o, r.state == Running, r.clients[fd], ready);
    SameInterestNotTold(r, fd, b);
    EntryOf(r, fd, b);
    AnsweringEnters(o, Entered(r, fd, b), fd, responses);
    EnteredTwice(r, fd, b, AnswerAll(o, b, responses));
  }

  lemma EntryOf(r: Reactor, fd: nat, c: Session)
    requires Tidy(r.clients) && Settled(c.writeBuffer)
    ensures Tidy(Entered(r, fd, c).clients) && fd in Entered(r, fd, c).clients && Entered(r, fd, c).clients[fd] == c
    ensures Entered(r, fd, c).interests == r.interests && Entered(r, fd, c).clients.Keys == r.clients.Keys + {fd}
  {
  }

  /** A report changes one client, as `HandleReady` says, and the poller exactly if its interest has changed. */
  lemma ReportIsOneClients(o: Options, r: Reactor, fd: nat, ready: Ready, responses: seq<bytes>)
    requires Tidy(r.clients) && r.interests.Keys == r.clients.Keys
    ensures fd !in r.clients ==> Reported(o, r, fd, ready, responses) == r
    ensures fd in r.clients ==>
      var c := HandleReady(o, r.state == Running, r.clients[fd], ready, responses);
      var interests :=
        if c.registered != r.clients[fd].registered then r.interests[fd := c.registered] else r.interests;
      Reported(o, r, fd, ready, responses) == r.(clients := r.clients[fd := c], interests := interests)
  {
    hide BeginReport, AnswerAll, EndReport, WithClients, ReportBegun;
    if fd in r.clients {
      hide AllAnswered, Entered;
      var c := HandleReady(o, r.state == Running, r.clients[fd], ready, responses);
      var a := AnswerAll(o, BeginReport(o, r.state == Running, r.clients[fd], ready), responses);
      ReportAnswered(o, r, fd, ready, responses);
      EntryOf(r, fd, a);
      assert r.clients.Keys + {fd} == r.clients.Keys;
      NewInterestIsTold(Entered(r, fd, a), fd, c);
      EnteredTwice(r, fd, a, c);
      EnteredIs(r, fd, c);
    } else {
      UnknownBegins(o, r, fd, ready);
    }
  }

  lemma EnteredIs(r: Reactor, fd: nat, c: Session)
    ensures Entered(r, fd, c) == r.(clients := r.clients[fd := c])
  {
  }

  lemma UnknownBegins(o: Options, r: Reactor, fd: nat, ready: Ready)
    requires Tidy(r.clients) && fd !in r.clients
    ensures ReportBegun(o, r, fd, ready) == r
  {
  }

  lemma KnownReport(o: Options, r: Reactor, fd: nat, ready: Ready, responses: seq<bytes>, c: Session)
    requires Tidy(r.clients) && fd in r.clients && r.interests.Keys == r.clients.Keys
    requires c == HandleReady(o, r.state == Running, r.clients[fd], ready, responses)
    requires AnswerAll(o, BeginReport(o, r.state == Running, r.clients[fd], ready), responses).todo == []
    ensures BringsEnough(o, r, fd, ready, responses)
    ensures Reported(o, r, fd, ready, responses) == Entered(r, fd, c).(interests := InterestAfter(r, fd, c))
  {
    hide BeginReport, AnswerAll, HandleReady, WithClients, AllAnswered, ReportBegun, Entered, Reported;
    var a := AnswerAll(o, BeginReport(o, r.state == Running, r.clients[fd], ready), responses);
    ReportAnswered(o, r, fd, ready, responses);
    EntryOf(r, fd, a);
    ReportIsOneClients(o, r, fd, ready, responses);
    EnteredIs(r, fd, c);
  }

  // ------------------------------------------------------------ closing and draining, one client at a time

  ghost function ClosedSoFar(table: map<nat, Session>, done: set<nat>): map<nat, Session> {
    map fd | fd in table :: if fd in done then Sessions.MarkClosed(table[fd]) else table[fd]
  }

  lemma NoneClosed(table: map<nat, Session>)
    ensures ClosedSoFar(table, {}) == table
  {
  }

  lemma OneMoreClosed(table: map<nat, Session>, done: set<nat>, fd: nat)
    requires fd in table && fd !in done
    ensures fd in ClosedSoFar(table, done) && ClosedSoFar(table, done)[fd] == table[fd]
    ensures ClosedSoFar(table, done + {fd}) == ClosedSoFar(table, done)[fd := Sessions.MarkClosed(table[fd])]
  {
  }

  lemma EveryOneClosed(table: map<nat, Session>, done: set<nat>)
    requires table.Keys <= done
    ensures ClosedSoFar(table, done) == AllClosed(table)
  {
  }

  ghost function DrainedSoFar(o: Options, table: map<nat, Session>, done: set<nat>): map<nat, Session>
    requires Tidy(table)
  {
    map fd | fd in table :: if fd in done then DrainSession(o, table[fd]) else table[fd]
  }

  lemma NoneDrained(o: Options, interests: map<nat, Interest>, table: map<nat, Session>)
    requires Tidy(table)
    ensures DrainedSoFar(o, table, {}) == table && Told(interests, table, table) == interests
  {
  }

  lemma OneMoreDrained(o: Options, interests: map<nat, Interest>, table: map<nat, Session>, done: set<nat>, fd: nat)
    requires Tidy(table) && fd in table && fd !in done && fd in interests
    ensures
      var now, later, c := DrainedSoFar(o, table, done), DrainedSoFar(o, table, done + {fd}),
        DrainSession(o, table[fd]);
      && fd in now && now[fd] == table[fd] && later == now[fd := c]
      && Told(interests, table, later)
         == if c.registered != table[fd].registered then Told(interests, table, now)[fd := c.registered]
             else Told(interests, table, now)
  {
    hide DrainSession;
  }

  lemma EveryOneDrained(o: Options, table: map<nat, Session>, done: set<nat>)
    requires Tidy(table) && table.Keys <= done
    ensures DrainedSoFar(o, table, done) == AllDraining(o, table)
  {
    hide DrainSession;
  }

  lemma AddClientRefused(r: Reactor, fd: nat, pollerAdds: bool)
    requires fd in r.clients || !pollerAdds
    ensures AddClient(r, fd, pollerAdds) == r.(released := r.released + multiset{fd})
  {
  }

  // ------------------------------------------------------------ cleaning up, one client at a time

  ghost function Without(r: Reactor, fd: nat): Reactor {
    r.(clients := r.clients - {fd}, interests := r.interests - {fd}, closed := r.closed + 1,
       released := r.released + multiset{fd})
  }

  /** `Cleanup` as far as the clients in `done`. */
  ghost function CleanedUp(r: Reactor, done: set<nat>): Reactor {
    var gone := ClosedClients(r.clients) * done;
    r.(clients := r.clients - gone, interests := r.interests - gone, closed := r.closed + |gone|,
       released := r.released + multiset(gone))
  }

  lemma NothingCleanedUp(r: Reactor)
    ensures CleanedUp(r, {}) == r
  {
    hide ClosedClients;
    assert ClosedClients(r.clients) * {} == {};
  }

  lemma AllCleanedUp(r: Reactor, done: set<nat>)
    requires r.clients.Keys <= done
    ensures CleanedUp(r, done) == Cleanup(r)
  {
    assert ClosedClients(r.clients) * done == ClosedClients(r.clients);
  }

  lemma NotYetCleanedUp(r: Reactor, done: set<nat>, fd: nat)
    requires fd in r.clients && fd !in done
    ensures fd in CleanedUp(r, done).clients && CleanedUp(r, done).clients[fd] == r.clients[fd]
  {
  }

  lemma ClosedOneMore(clients: map<nat, Session>, done: set<nat>, fd: nat)
    requires fd in clients && fd !in done
    ensures
      var closed := ClosedClients(clients);
      && fd !in closed * done
      && closed * (done + {fd}) == if clients[fd].closed then closed * done + {fd} else closed * done
  {
  }

  lemma CleanedUpOneMore(r: Reactor, done: set<nat>, fd: nat)
    requires fd in r.clients && fd !in done
    ensures CleanedUp(r, done + {fd}) == if r.clients[fd].closed then Without(CleanedUp(r, done), fd)
      else CleanedUp(r, done)
  {
    hide ClosedClients;
    ClosedOneMore(r.clients, done, fd);
    var gone := ClosedClients(r.clients) * done;
    if r.clients[fd].closed {
      assert r.clients - (gone + {fd}) == r.clients - gone - {fd};
      assert r.interests - (gone + {fd}) == r.interests - gone - {fd};
      assert multiset(gone + {fd}) == multiset(gone) + multiset{fd};
    }
  }
}
