/** What is true of the server in every state it can reach, by every interleaving of its threads. */
module ServerTheorems {
  import opened Basics
  import opened OutputBuffers
  import opened Sessions
  import opened SessionRuns
  import opened SessionTheorems
  import opened Reactors
  import opened EventLoops
  import opened Servers
  import opened ServerRuns
  import opened ServerLedger
  import opened ServerHistories
  import opened ServiceRuns
  import opened CommandParser
  import FrameCodec

  ghost predicate AllAttended(g: Config, v: Server) {
    g.options.writeHighWatermarkBytes > 0 ==> forall i :: 0 <= i < |v.loops| ==> WellAttended(v.loops[i])
  }

  ghost predicate Good(g: Config, v: Server) {
    && AllSteady(g, v) && AllAttended(g, v)
    && PcFits(v.main, |v.loops|) && NotifiersKnown(v) && StopsKnown(v) && AllTold(v)
    && Accounted(v) && Distinct(v) && Fair(v.main.ledger, |v.loops|)
    && Emptied(v) && TurnFits(v.main, g.maxAccepts) && ForcesKnown(v) && Recorded(v)
  }

  /** Once the sub-reactors are destroyed, none of them has anything queued. */
  predicate Emptied(v: Server) {
    v.main.pc.Gone? ==> forall i :: 0 <= i < |v.loops| ==> v.loops[i].pc.Exited? && v.loops[i].control.pending == []
  }

  lemma ExitedLoopsAreStill(o: Options, s: EventLoop, step: Step)
    requires s.pc.Exited? && IsLoops(step)
    ensures !Enabled(o, s, step)
  {
  }

  lemma ExitedLoopsDoNothing(g: Config, v: Server, move: Move)
    requires Can(g, v, move) && v.main.pc.Gone? && Touched(v, move).Some?
    ensures Touched(v, move).value.loop < |v.loops| && !v.loops[Touched(v, move).value.loop].pc.Exited?
  {
    hide Enabled, StillOpen, Accepts, Handles;
    TouchedIsEnabled(g, v, move);
    var t := Touched(v, move).value;
    assert IsLoops(t.step);
    if v.loops[t.loop].pc.Exited? {
      ExitedLoopsAreStill(g.options, v.loops[t.loop], t.step);
    }
  }

  lemma GoneIsGone(g: Config, v: Server, move: Move)
    requires Due(v.main, move) && v.main.pc.Gone?
    ensures NextMain(g, v, move).pc.Gone?
  {
  }

  lemma MovesKeepEmptied(g: Config, v: Server, move: Move)
    requires Emptied(v) && StopsKnown(v) && PcFits(v.main, |v.loops|) && Can(g, v, move)
    ensures Emptied(NextServer(g, v, move))
  {
    hide Can, Enabled, Do, StopsKnown, PcFits, NextMain;
    CanIsDue(g, v, move);
    if v.main.pc.Gone? {
      GoneIsGone(g, v, move);
      if Touched(v, move).Some? {
        ExitedLoopsDoNothing(g, v, move);
      }
    } else if NextMain(g, v, move).pc.Gone? {
      OnlyDestructionEnds(g, v, move);
      DestroyedHaveExited(v, move);
    }
  }

  lemma OnlyDestructionEnds(g: Config, v: Server, move: Move)
    requires PcFits(v.main, |v.loops|) && Can(g, v, move)
    requires !v.main.pc.Gone? && NextMain(g, v, move).pc.Gone?
    ensures Destroys(v, move)
  {
    hide Enabled, StillOpen, Accepts, AfterOffer;
  }

  lemma MovesKeepAttended(g: Config, v: Server, move: Move)
    requires AllAttended(g, v) && Can(g, v, move)
    ensures AllAttended(g, NextServer(g, v, move))
  {
    hide Can, NextMain, Enabled, Do, WellAttended, Destroyed;
    if g.options.writeHighWatermarkBytes > 0 {
      forall i | 0 <= i < |v.loops|
        ensures WellAttended(NextServer(g, v, move).loops[i])
      {
        assert WellAttended(v.loops[i]);
        var t := Touched(v, move);
        if t.Some? && t.value.loop == i {
          TouchedIsEnabled(g, v, move);
          StepsStayAttended(g.options, g.capacity, v.loops[i], t.value.step);
        } else if Destroys(v, move) {
          DestroyedIsAttended(v.loops[i]);
        }
      }
    }
  }

  lemma DestroyedIsAttended(s: EventLoop)
    requires WellAttended(s)
    ensures WellAttended(Destroyed(s))
  {
  }

  lemma DestroyedHaveExited(v: Server, move: Move)
    requires StopsKnown(v) && Destroys(v, move)
    ensures forall i :: 0 <= i < |v.loops| ==> v.loops[i].pc.Exited?
  {
    forall i | 0 <= i < |v.loops|
      ensures v.loops[i].pc.Exited?
    {
      assert StopKnown(v.main, i, v.loops[i]);
    }
  }

  lemma MovesKeepGood(g: Config, v: Server, move: Move)
    requires g.capacity > 0 && Good(g, v) && Can(g, v, move)
    ensures Good(g, NextServer(g, v, move)) && |NextServer(g, v, move).loops| == |v.loops|
  {
    hide Can, NextMain, NextLoops, AllSteady, AllAttended, PcFits, NotifiersKnown, StopsKnown, AllTold, Accounted,
      Distinct, Fair, Emptied, TurnFits, ForcesKnown, Recorded;
    CanIsDue(g, v, move);
    if Destroys(v, move) {
      DestroyedHaveExited(v, move);
    }
    MovesKeepSteady(g, v, move);
    MovesKeepAttended(g, v, move);
    MovesKeepPcFits(g, v, move);
    MovesKeepNotifiers(g, v, move);
    MovesKeepStopsKnown(g, v, move);
    MovesKeepTold(g, v, move);
    MovesKeepAccounts(g, v, move);
    MovesKeepDistinct(g, v, move);
    MovesKeepFair(g, v, move);
    MovesKeepEmptied(g, v, move);
    if move.AcceptOne? {
      AcceptIsShared(g, v, move);
    }
    MovesKeepTurn(g, v, move);
    MovesKeepForces(g, v, move);
    MovesKeepRecorded(g, v, move);
  }

  lemma AcceptIsShared(g: Config, v: Server, move: Move)
    requires Can(g, v, move) && move.AcceptOne?
    ensures v.main.pc.count < g.maxAccepts
  {
    hide StillOpen;
  }

  lemma {:induction false} NothingGathered(parts: seq<multiset<nat>>)
    requires forall i :: 0 <= i < |parts| ==> parts[i] == multiset{}
    ensures Gather(parts) == multiset{}
  {
    if parts != [] {
      NothingGathered(parts[..|parts| - 1]);
    }
  }

  lemma StartHoldsNothing(n: nat)
    ensures Accounted(Started(n)) && Distinct(Started(n))
  {
    NothingGathered(HeldParts(Started(n).loops));
    NothingGathered(ReceivedParts(Started(n).loops));
  }

  lemma StartIsGood(g: Config, n: nat)
    requires n > 0
    ensures Good(g, Started(n))
  {
    hide Steady, Accounted, Distinct;
    LaunchedIsSteady(g.options);
    StartHoldsNothing(n);
  }

  // ------------------------------------------------------------ runs

  ghost predicate IsServerRun(g: Config, n: nat, moves: seq<Move>)
    decreases |moves|, 0
  {
    moves != [] ==>
      var before := moves[..|moves| - 1];
      IsServerRun(g, n, before) && Can(g, ServerAfter(g, n, before), moves[|moves| - 1])
  }

  ghost function ServerAfter(g: Config, n: nat, moves: seq<Move>): Server
    requires IsServerRun(g, n, moves)
    decreases |moves|, 1
  {
    if moves == [] then Started(n) else NextServer(g, ServerAfter(g, n, moves[..|moves| - 1]), moves[|moves| - 1])
  }

  /** One to sixteen sub-reactors, each with a wakeup channel that can hold at least one byte. */
  predicate Configured(g: Config, n: nat) {
    ValidOptions(g.options) && g.capacity > 0 && 1 <= n <= 16
  }

  lemma {:induction false} ServersStayGood(g: Config, n: nat, moves: seq<Move>)
    requires Configured(g, n) && IsServerRun(g, n, moves)
    ensures Good(g, ServerAfter(g, n, moves)) && |ServerAfter(g, n, moves).loops| == n
  {
    hide Good, Can, NextServer;
    if moves == [] {
      StartIsGood(g, n);
    } else {
      var before := moves[..|moves| - 1];
      ServersStayGood(g, n, before);
      MovesKeepGood(g, ServerAfter(g, n, before), moves[|moves| - 1]);
    }
  }

  lemma GoodParts(g: Config, v: Server)
    requires Good(g, v)
    ensures PcFits(v.main, |v.loops|) && NotifiersKnown(v) && AllSteady(g, v) && AllTold(v) && ForcesKnown(v)
      && StopsKnown(v) && TurnFits(v.main, g.maxAccepts) && Fair(v.main.ledger, |v.loops|)
  {
    hide AllSteady, AllAttended, PcFits, NotifiersKnown, StopsKnown, AllTold, ForcesKnown;
  }

  // ------------------------------------------------------------ wakeups

  /**
   Whenever a client or a stop is recorded for a sub-reactor and its loop has yet to look, its channel
   holds a byte, or the main reactor is about to write one, or the loop is about to look, or is gone.
   */
  lemma NoWakeupIsLost(g: Config, n: nat, moves: seq<Move>, i: nat)
    requires Configured(g, n) && IsServerRun(g, n, moves) && i < n
    ensures |ServerAfter(g, n, moves).loops| == n
    ensures
      var v := ServerAfter(g, n, moves);
      var s := v.loops[i];
      && (s.unseen ==>
            || s.channel > 0 || (v.main.pc.Notifying? && v.main.pc.loop == i)
            || s.pc.Woken? || s.pc.Drained? || s.pc.Exited?)
      && (!s.unseen ==> s.control.pending == [])
  {
    hide ServerAfter, IsServerRun, Healthy, InStep, AllAttended, PcFits, StopsKnown, AllTold, Accounted, Distinct,
      Fair;
    ServersStayGood(g, n, moves);
    var v := ServerAfter(g, n, moves);
    assert Steady(g.options, v.loops[i]) && v.loops[i].notifying == Notifiers(v.main.pc, i);
  }

  /**
   So a loop can only block with a request pending while the main reactor is about to wake it: otherwise
   `Wait` returns.
  */
  lemma BlockedLoopsAreWoken(g: Config, n: nat, moves: seq<Move>, i: nat, ready: seq<Report>)
    requires Configured(g, n) && IsServerRun(g, n, moves) && i < n
    ensures |ServerAfter(g, n, moves).loops| == n
    ensures
      var v := ServerAfter(g, n, moves);
      var s := v.loops[i];
      s.pc.Waiting? && s.unseen && !v.main.pc.Notifying? ==> Can(g, v, InLoop(i, WaitReturns(true, ready)))
  {
    hide ServerAfter, IsServerRun;
    NoWakeupIsLost(g, n, moves, i);
  }

  // ------------------------------------------------------------ shutdown

  /**
   Once the main reactor has told everyone, each loop has begun to stop, or is at this moment acting on
   the request, or has still to look and, by `NoWakeupIsLost`, will.
   */
  lemma ShutdownReachesEveryLoop(g: Config, n: nat, moves: seq<Move>, i: nat)
    requires Configured(g, n) && IsServerRun(g, n, moves) && i < n
    ensures |ServerAfter(g, n, moves).loops| == n
    ensures
      var v := ServerAfter(g, n, moves);
      var s := v.loops[i];
      v.main.state == Draining && !Place(v.main.pc).Telling? ==>
        && s.control.stop && s.control.deadline == v.main.deadline
        && (s.unseen || s.reactor.state != Running || (s.pc.Taken? && (s.pc.snapshot.stop || s.pc.snapshot.force)))
  {
    hide ServerAfter, IsServerRun, Healthy, InStep, AllAttended, PcFits, StopsKnown, NotifiersKnown, Accounted,
      Distinct, Fair, NoLostWakeup;
    ServersStayGood(g, n, moves);
    var v := ServerAfter(g, n, moves);
    assert Steady(g.options, v.loops[i]) && ToldFits(v.main, i, v.loops[i]);
  }

  /**
   When the deadline has passed, and when the main reactor itself fails, every loop is forced: it has
   stopped, or it has the request and is acting on it or has still to look.
   */
  lemma ForceReachesEveryLoop(g: Config, n: nat, moves: seq<Move>, i: nat)
    requires Configured(g, n) && IsServerRun(g, n, moves) && i < n
    ensures |ServerAfter(g, n, moves).loops| == n
    ensures
      var v := ServerAfter(g, n, moves);
      var s := v.loops[i];
      v.main.forceStopSent || (v.main.aborted && !Place(v.main.pc).Aborting?) ==>
        s.pc.Exited? || (s.control.force && (s.unseen || (s.pc.Taken? && s.pc.snapshot.force)))
  {
    hide ServerAfter, IsServerRun, Healthy, InStep, AllAttended, PcFits, StopsKnown, AllTold, NotifiersKnown,
      Accounted, Distinct, Fair, Emptied, TurnFits, NoLostWakeup;
    ServersStayGood(g, n, moves);
    var v := ServerAfter(g, n, moves);
    assert Steady(g.options, v.loops[i]);
    assert v.main.forceStopSent || (v.main.aborted && !Place(v.main.pc).Aborting?) ==> ForceDue(v.main, i);
  }

  /** The server stops only when every sub-reactor has, and a stopped sub-reactor has no client left. */
  lemma StoppedMeansEveryLoopStopped(g: Config, n: nat, moves: seq<Move>, i: nat)
    requires Configured(g, n) && IsServerRun(g, n, moves) && i < n
    ensures |ServerAfter(g, n, moves).loops| == n
    ensures
      var v := ServerAfter(g, n, moves);
      var s := v.loops[i];
      && (v.main.state == Stopped ==> s.reactor.state == Stopped)
      && (s.reactor.state == Stopped ==> s.reactor.clients == map[])
      && (s.reactor.state == Stopped <==> s.pc.Exited?)
  {
    hide ServerAfter, IsServerRun, Healthy, AllAttended, PcFits, AllTold, NotifiersKnown, Accounted, Distinct,
      Fair, NoLostWakeup;
    ServersStayGood(g, n, moves);
    var v := ServerAfter(g, n, moves);
    assert Steady(g.options, v.loops[i]) && StopKnown(v.main, i, v.loops[i]);
    HealthyIsStarted(g.options, v.loops[i].reactor);
  }

  /**
   A stop asked for before `Wait` returns is heard in that turn: the turn accepts no one, so no client is
   let in after the stop. No turn accepts more clients than configured.
   */
  lemma StopComesBeforeAccepting(g: Config, n: nat, moves: seq<Move>)
    requires Configured(g, n) && IsServerRun(g, n, moves)
    ensures
      var main := ServerAfter(g, n, moves).main;
      && (Place(main.pc).Accepting? || Place(main.pc).InHand? ==> !main.sawStop && main.state == Running)
      && (main.pc.InHand? ==> main.pc.count <= g.maxAccepts)
  {
    hide ServerAfter, IsServerRun, AllSteady, AllAttended, StopsKnown, NotifiersKnown, AllTold, Accounted,
      Distinct, Fair, Emptied;
    ServersStayGood(g, n, moves);
  }

  /** From one state to the next, shutdown only moves forward, in the main reactor and in every loop. */
  lemma StatesOnlyAdvance(g: Config, n: nat, moves: seq<Move>, i: nat)
    requires Configured(g, n) && IsServerRun(g, n, moves) && moves != [] && i < n
    ensures |ServerAfter(g, n, moves).loops| == |ServerAfter(g, n, moves[..|moves| - 1]).loops| == n
    ensures
      var v, v' := ServerAfter(g, n, moves[..|moves| - 1]), ServerAfter(g, n, moves);
      Advances(v.main.state, v'.main.state) && Advances(v.loops[i].reactor.state, v'.loops[i].reactor.state)
  {
    hide Good, Can, NextMain, NextLoops, NextHistory;
    var v, move := ServerAfter(g, n, moves[..|moves| - 1]), moves[|moves| - 1];
    ServersStayGood(g, n, moves[..|moves| - 1]);
    ServersStayGood(g, n, moves);
    GoodMovesAreDue(g, v, move);
    MainAdvances(g, v, move);
    LoopAdvances(g, v, move, i);
  }

  lemma GoodMovesAreDue(g: Config, v: Server, move: Move)
    requires Good(g, v) && Can(g, v, move)
    ensures Due(v.main, move) && PcFits(v.main, |v.loops|)
  {
    hide Can, AllSteady, AllAttended, PcFits, NotifiersKnown, StopsKnown, AllTold, Accounted, Distinct, Fair,
      Emptied, TurnFits, ForcesKnown, Recorded;
    CanIsDue(g, v, move);
  }

  lemma MainAdvances(g: Config, v: Server, move: Move)
    requires Due(v.main, move) && PcFits(v.main, |v.loops|)
    ensures Advances(v.main.state, NextMain(g, v, move).state)
  {
    hide AfterOffer, Accepts;
  }

  lemma LoopAdvances(g: Config, v: Server, move: Move, i: nat)
    requires Good(g, v) && Can(g, v, move) && i < |v.loops|
    ensures Advances(v.loops[i].reactor.state, NextServer(g, v, move).loops[i].reactor.state)
  {
    hide Can, Enabled, Do, NextMain, Steady, AllAttended, AllTold, Accounted, Distinct, Fair, NotifiersKnown,
      StopsKnown, PcFits;
    assert Steady(g.options, v.loops[i]);
    SteadyLoopIsStarted(g.options, v.loops[i]);
    var t := Touched(v, move);
    if t.Some? && t.value.loop == i {
      TouchedIsEnabled(g, v, move);
      StepsAdvance(g.options, g.capacity, v.loops[i], t.value.step);
    }
  }

  lemma SteadyLoopIsStarted(o: Options, s: EventLoop)
    requires Steady(o, s)
    ensures s.reactor.state != Created
  {
    hide Keeps;
  }

  /** While a loop drains, no move of anyone makes it read, queue or admit anything, or owe more bytes. */
  lemma DrainingLoopsOnlyEmpty(g: Config, n: nat, moves: seq<Move>, i: nat)
    requires Configured(g, n) && IsServerRun(g, n, moves) && moves != [] && i < n
    ensures |ServerAfter(g, n, moves).loops| == |ServerAfter(g, n, moves[..|moves| - 1]).loops| == n
    ensures
      var r := ServerAfter(g, n, moves[..|moves| - 1]).loops[i].reactor;
      r.state == Draining ==> OnlyEmpties(r, ServerAfter(g, n, moves).loops[i].reactor)
  {
    hide Good, Can, NextServer, OnlyEmpties;
    ServersStayGood(g, n, moves[..|moves| - 1]);
    ServersStayGood(g, n, moves);
    var v := ServerAfter(g, n, moves[..|moves| - 1]);
    if v.loops[i].reactor.state == Draining {
      LoopOnlyEmpties(g, v, moves[|moves| - 1], i);
    }
  }

  lemma LoopOnlyEmpties(g: Config, v: Server, move: Move, i: nat)
    requires Good(g, v) && Can(g, v, move) && i < |v.loops| && v.loops[i].reactor.state == Draining
    ensures OnlyEmpties(v.loops[i].reactor, NextServer(g, v, move).loops[i].reactor)
  {
    hide Can, Enabled, Do, NextMain, Steady, AllAttended, AllTold, Accounted, Distinct, Fair, NotifiersKnown,
      StopsKnown, PcFits, OnlyEmpties, Emptied, TurnFits, ForcesKnown, Recorded, Touched, Destroyed;
    assert Steady(g.options, v.loops[i]);
    SteadyLoopIsFrozen(g.options, v.loops[i]);
    var t, r := Touched(v, move), v.loops[i].reactor;
    if t.Some? && t.value.loop == i {
      TouchedIsEnabled(g, v, move);
      StepsFreeze(g.options, g.capacity, v.loops[i], t.value.step);
    } else {
      DestroyedClients(v.loops[i]);
      SameOnlyEmpties(r, NextServer(g, v, move).loops[i].reactor);
    }
  }

  lemma DestroyedClients(s: EventLoop)
    ensures Destroyed(s).reactor.(released := s.reactor.released) == s.reactor
  {
  }

  lemma SteadyLoopIsFrozen(o: Options, s: EventLoop)
    requires Steady(o, s) && s.reactor.state == Draining
    ensures Frozen(s.reactor)
  {
    hide Healthy, Frozen;
    HealthyIsFrozen(o, s.reactor);
  }

  /** A draining loop that ends a turn at or after the server's deadline is stopped, its table empty. */
  lemma DeadlineEndsTheDrain(g: Config, n: nat, moves: seq<Move>, i: nat, now: int)
    requires Configured(g, n) && IsServerRun(g, n, moves) && i < n
    ensures |ServerAfter(g, n, moves).loops| == n
    ensures
      var v := ServerAfter(g, n, moves);
      var s := v.loops[i];
      s.reactor.state == Draining ==>
        && s.reactor.deadline == v.main.deadline
        && (s.pc.Serving? && s.pc.ready == [] && now >= v.main.deadline ==>
              && Can(g, v, InLoop(i, Finish(now)))
              && NextServer(g, v, InLoop(i, Finish(now))).loops[i].reactor.state == Stopped
              && NextServer(g, v, InLoop(i, Finish(now))).loops[i].reactor.clients == map[])
  {
    hide ServerAfter, IsServerRun, Steady, AllAttended, PcFits, StopsKnown, NotifiersKnown, Accounted, Distinct,
      Fair, FinishTurn, StillOpen;
    ServersStayGood(g, n, moves);
    var v := ServerAfter(g, n, moves);
    assert ToldFits(v.main, i, v.loops[i]);
    if v.loops[i].reactor.state == Draining && now >= v.main.deadline {
      DeadlineStops(v.loops[i].reactor, now);
    }
  }

  // ------------------------------------------------------------ descriptors

  /**
   Every connection ever accepted has been closed or is open in exactly one place: with the main
   reactor, in one sub-reactor's queue or on its way out of it, or in one client table.
   */
  lemma EveryDescriptorHasOnePlace(g: Config, n: nat, moves: seq<Move>)
    requires Configured(g, n) && IsServerRun(g, n, moves)
    ensures
      var v := ServerAfter(g, n, moves);
      && v.main.ledger.accepted == Carried(v.main.pc) + Gather(ReceivedParts(v.loops)) + v.main.ledger.closed
      && forall fd :: StillOpen(v)[fd] <= 1
  {
    hide ServerAfter, IsServerRun, AllSteady, AllAttended, PcFits, StopsKnown, NotifiersKnown, AllTold, Fair,
      StillOpen;
    ServersStayGood(g, n, moves);
  }

  /** So a new client never finds its descriptor already in the table. */
  lemma ClientsNeverCollide(g: Config, n: nat, moves: seq<Move>, i: nat)
    requires Configured(g, n) && IsServerRun(g, n, moves) && i < n
    ensures |ServerAfter(g, n, moves).loops| == n
    ensures
      var s := ServerAfter(g, n, moves).loops[i];
      forall fd :: fd in InTransit(s.pc) + s.control.pending ==> fd !in s.reactor.clients
  {
    hide ServerAfter, IsServerRun, Good, StillOpen, InTransit;
    ServersStayGood(g, n, moves);
    EveryDescriptorHasOnePlace(g, n, moves);
    var v := ServerAfter(g, n, moves);
    LoopHoldsOnce(v, i);
    HeldOnceIsElsewhere(v.loops[i]);
  }

  lemma LoopHoldsOnce(v: Server, i: nat)
    requires (forall fd :: StillOpen(v)[fd] <= 1) && i < |v.loops|
    ensures forall fd :: Held(v.loops[i])[fd] <= 1
  {
    hide Held;
    GatherContains(HeldParts(v.loops), i);
    assert HeldParts(v.loops)[i] == Held(v.loops[i]);
    forall fd
      ensures Held(v.loops[i])[fd] <= 1
    {
      assert Held(v.loops[i])[fd] <= Gather(HeldParts(v.loops))[fd] <= StillOpen(v)[fd];
    }
  }

  lemma HeldOnceIsElsewhere(s: EventLoop)
    requires forall fd :: Held(s)[fd] <= 1
    ensures forall fd :: fd in InTransit(s.pc) + s.control.pending ==> fd !in s.reactor.clients
  {
    hide InTransit;
    forall fd | fd in InTransit(s.pc) + s.control.pending
      ensures fd !in s.reactor.clients
    {
      assert fd in multiset(InTransit(s.pc)) + multiset(s.control.pending);
      assert Held(s)[fd] == multiset(s.control.pending)[fd] + multiset(InTransit(s.pc))[fd]
        + multiset(s.reactor.clients.Keys)[fd];
    }
  }

  /** When the server is gone, every connection it ever accepted has been closed. */
  lemma NothingLeaks(g: Config, n: nat, moves: seq<Move>)
    requires Configured(g, n) && IsServerRun(g, n, moves)
    ensures
      var v := ServerAfter(g, n, moves);
      v.main.pc.Gone? ==> StillOpen(v) == multiset{}
  {
    hide ServerAfter, IsServerRun, Healthy, AllAttended, PcFits, StopsKnown, NotifiersKnown, AllTold, Accounted,
      Distinct, Fair, SeenIsDone, NoLostWakeup;
    ServersStayGood(g, n, moves);
    var v := ServerAfter(g, n, moves);
    if v.main.pc.Gone? {
      forall i | 0 <= i < n
        ensures HeldParts(v.loops)[i] == multiset{}
      {
        assert Steady(g.options, v.loops[i]);
        HealthyIsStarted(g.options, v.loops[i].reactor);
      }
      NothingGathered(HeldParts(v.loops));
    }
  }

  // ------------------------------------------------------------ fairness, metrics, poller

  /** The numbers of connections offered to any two sub-reactors differ by at most one. */
  lemma OffersAreEven(g: Config, n: nat, moves: seq<Move>, i: nat, j: nat)
    requires Configured(g, n) && IsServerRun(g, n, moves) && i < n && j < n
    ensures |ServerAfter(g, n, moves).main.ledger.offered| == n
    ensures
      var offered := ServerAfter(g, n, moves).main.ledger.offered;
      offered[i] <= offered[j] + 1
  {
    hide ServerAfter, IsServerRun, AllSteady, AllAttended, PcFits, StopsKnown, NotifiersKnown, AllTold, Accounted,
      Distinct, Emptied;
    ServersStayGood(g, n, moves);
  }

  function Total(loops: seq<EventLoop>, count: EventLoop -> nat): nat {
    if loops == [] then 0 else Total(loops[..|loops| - 1], count) + count(loops[|loops| - 1])
  }

  lemma {:induction false} TotalsMatch(loops: seq<EventLoop>)
    requires forall i :: 0 <= i < |loops| ==>
      loops[i].reactor.accepted == loops[i].reactor.closed + |loops[i].reactor.clients|
    ensures
      Total(loops, (s: EventLoop) => s.reactor.accepted)
      == Total(loops, (s: EventLoop) => s.reactor.closed) + Total(loops, (s: EventLoop) => |s.reactor.clients|)
  {
    if loops != [] {
      TotalsMatch(loops[..|loops| - 1]);
    }
  }

  /** Unless a sub-reactor has failed, the accepted and closed metrics differ by exactly the clients now in tables. */
  lemma ConnectionMetricsAddUp(g: Config, n: nat, moves: seq<Move>)
    requires Configured(g, n) && IsServerRun(g, n, moves)
    ensures
      var loops := ServerAfter(g, n, moves).loops;
      (forall i :: 0 <= i < |loops| ==> !loops[i].reactor.failed) ==>
        Total(loops, (s: EventLoop) => s.reactor.accepted)
        == Total(loops, (s: EventLoop) => s.reactor.closed) + Total(loops, (s: EventLoop) => |s.reactor.clients|)
  {
    hide ServerAfter, IsServerRun, AllAttended, PcFits, StopsKnown, NotifiersKnown, AllTold, Accounted, Distinct,
      Fair, Emptied;
    ServersStayGood(g, n, moves);
    var loops := ServerAfter(g, n, moves).loops;
    if forall i :: 0 <= i < |loops| ==> !loops[i].reactor.failed {
      forall i | 0 <= i < |loops|
        ensures loops[i].reactor.accepted == loops[i].reactor.closed + |loops[i].reactor.clients|
      {
        SteadyLoopMatches(g.options, loops[i]);
      }
      TotalsMatch(loops);
    }
  }

  lemma SteadyLoopMatches(o: Options, s: EventLoop)
    requires Steady(o, s) && !s.reactor.failed
    ensures Matched(s.reactor)
  {
    hide Keeps;
  }

  /**
   With a high watermark above zero, each time a loop blocks in `Wait` no client of it is closed, and the
   poller waits for reading from each that is neither paused nor closing, and for writing to each that is
   owed bytes, so for something from each.
   */
  lemma BlockedLoopsAreAttended(g: Config, n: nat, moves: seq<Move>, i: nat, fd: nat)
    requires Configured(g, n) && IsServerRun(g, n, moves) && i < n && g.options.writeHighWatermarkBytes > 0
    ensures |ServerAfter(g, n, moves).loops| == n
    ensures
      var s := ServerAfter(g, n, moves).loops[i];
      s.pc.Waiting? && fd in s.reactor.clients && !s.reactor.failed ==>
        && fd in s.reactor.interests
        && InRange(s.reactor.clients[fd].writeBuffer)
        && s.reactor.interests[fd] == s.reactor.clients[fd].registered
        && IsSettledClient(s.reactor.clients[fd])
  {
    hide ServerAfter, IsServerRun, Steady, PcFits, StopsKnown, NotifiersKnown, AllTold, Accounted, Distinct, Fair,
      Emptied;
    ServersStayGood(g, n, moves);
    var s := ServerAfter(g, n, moves).loops[i];
    assert Steady(g.options, s) && WellAttended(s);
    if !s.reactor.failed {
      SteadyLoopMatches(g.options, s);
    }
  }

  // ------------------------------------------------------------ the store and the connections

  /**
   The store is shared: all requests of all connections, and all sweeps, form one run of it, and the log
   of every client in any table is exactly its part of that run since it joined.
   */
  lemma LogsArePartsOfOneHistory(g: Config, n: nat, moves: seq<Move>, i: nat, fd: nat)
    requires Configured(g, n) && IsServerRun(g, n, moves) && i < n
    ensures |ServerAfter(g, n, moves).loops| == n
    ensures
      var v := ServerAfter(g, n, moves);
      var clients := v.loops[i].reactor.clients;
      IsService(v.history) && (fd in clients ==> Projection(v.history, Client(i, fd)) == Executed(clients[fd].log))
  {
    hide ServerAfter, IsServerRun, AllSteady, AllAttended, PcFits, StopsKnown, NotifiersKnown, AllTold, Accounted,
      Distinct, Fair, Emptied, TurnFits, ForcesKnown, IsService, Executed, Projection;
    ServersStayGood(g, n, moves);
    var v := ServerAfter(g, n, moves);
    assert LogsRecorded(v.history, i, v.loops[i].reactor.clients);
  }

  /**
   Every client in any table of any reachable server is sound, so its streams are those of
   `EndToEndStream`, and each of its responses has a point in the one history of the store at which the
   plain map gives it: after all that came before, on whatever connection, and before all that came later.
   */
  lemma EveryClientIsServed(g: Config, n: nat, moves: seq<Move>, i: nat, fd: nat, k: nat) returns (p: Service)
    requires Configured(g, n) && IsServerRun(g, n, moves) && i < n
    requires |ServerAfter(g, n, moves).loops| == n && fd in ServerAfter(g, n, moves).loops[i].reactor.clients
    requires k < |Executed(ServerAfter(g, n, moves).loops[i].reactor.clients[fd].log)|
    ensures
      var c := ServerAfter(g, n, moves).loops[i].reactor.clients[fd];
      && Sound(g.options, c) && ExecutedInOrder(c.log)
      && IsPointOf(p, ServerAfter(g, n, moves).history) && p.Served? && p.who == Client(i, fd)
      && Exchange(p.payload, p.response) == Executed(c.log)[k]
      && Projection(p, Client(i, fd)) == Executed(c.log)[..k + 1]
      && IsThePlainMaps(p)
  {
    hide ServerAfter, IsServerRun, Sound, Executed, ExecutedInOrder, Projection, IsService, IsThePlainMaps;
    LogsArePartsOfOneHistory(g, n, moves, i, fd);
    var v := ServerAfter(g, n, moves);
    ClientIsSound(g, n, moves, i, fd);
    p := PointOfRequest(v.history, Client(i, fd), k);
    PointsAreServices(p, v.history);
    ResponsesComeFromThePlainMap(p);
  }

  lemma ClientIsSound(g: Config, n: nat, moves: seq<Move>, i: nat, fd: nat)
    requires Configured(g, n) && IsServerRun(g, n, moves) && i < n
    requires |ServerAfter(g, n, moves).loops| == n && fd in ServerAfter(g, n, moves).loops[i].reactor.clients
    ensures
      var c := ServerAfter(g, n, moves).loops[i].reactor.clients[fd];
      Sound(g.options, c) && ExecutedInOrder(c.log)
  {
    hide ServerAfter, IsServerRun, InStep, AllAttended, PcFits, StopsKnown, NotifiersKnown, AllTold, Accounted,
      Distinct, Fair, Emptied, TurnFits, ForcesKnown, Recorded, SeenIsDone, NoLostWakeup, Healthy, Sound,
      ExecutedInOrder;
    ServersStayGood(g, n, moves);
    var s := ServerAfter(g, n, moves).loops[i];
    assert Steady(g.options, s);
    HealthyKeeps(g.options, s.reactor, fd);
    SoundIsInOrder(g.options, s.reactor.clients[fd]);
  }

  lemma SoundIsInOrder(o: Options, c: Session)
    requires Sound(o, c)
    ensures ExecutedInOrder(c.log)
  {
    hide Bounds, Streamed, Ordered, Framed, Alternates, ExecutedInOrder;
    OrderedLog(c);
  }

  /**
   A client is refused a response only because it is slow: unless the response is the text of `STATS`, it
   can be encoded, and with what the client was already owed it would have passed the hard limit.
   */
  lemma OnlySlowClientsAreRefused(g: Config, n: nat, moves: seq<Move>, i: nat, fd: nat)
    requires Configured(g, n) && IsServerRun(g, n, moves) && i < n
    requires |ServerAfter(g, n, moves).loops| == n && fd in ServerAfter(g, n, moves).loops[i].reactor.clients
    requires ServerAfter(g, n, moves).loops[i].reactor.clients[fd].log.refused.Some?
    ensures
      var log := ServerAfter(g, n, moves).loops[i].reactor.clients[fd].log;
      var refused := log.refused.value;
      Parse(refused.request).kind != Stats ==>
        && |refused.response| <= 1048576
        && |FrameCodec.EncodeAll(Queued(log))| - |log.sent| + 4 + |refused.response| > g.options.writeHardLimitBytes
  {
    hide ServerAfter, IsServerRun, Sound, ExecutedInOrder, Projection, IsService, IsThePlainMaps, Parse,
      FrameCodec.EncodeAll, Queued;
    var c := ServerAfter(g, n, moves).loops[i].reactor.clients[fd];
    assert Executed(c.log)[|c.log.exchanges|] == c.log.refused.value;
    var p := EveryClientIsServed(g, n, moves, i, fd, |c.log.exchanges|);
    LogsArePartsOfOneHistory(g, n, moves, i, fd);
    PointsAreServices(p, ServerAfter(g, n, moves).history);
    if Parse(p.payload).kind != Stats {
      ResponsesAlwaysEncode(p);
      SoundRefusal(g.options, c);
    }
  }

  lemma SoundRefusal(o: Options, c: Session)
    requires Sound(o, c) && c.log.refused.Some?
    ensures IsTooMuch(o, c.log, c.log.refused.value.response)
  {
    hide Bounds, Streamed, Ordered, Framed, Alternates, IsTooMuch;
  }
}
