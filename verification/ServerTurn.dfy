/**
 What a turn of the main reactor does: it hears a stop asked for before it and a sub-reactor that has failed,
 it forces everyone at the deadline, and otherwise it hands each new client to a loop that takes it.
 */
module ServerTurns {
  import opened Basics
  import opened OutputBuffers
  import opened Sessions
  import opened Reactors
  import opened EventLoops
  import opened Servers
  import opened ServerRuns
  import opened ServerLedger
  import opened ServerTheorems
  import opened ServerShutdowns
  import opened ServerProgress

  // ------------------------------------------------------------ a stop is heard

  /** A stop had been asked for, or its event was reported, when `Wait` last returned. */
  function HeardStop(moves: seq<Move>): bool {
    if moves == [] then false
    else
      var before, last := moves[..|moves| - 1], moves[|moves| - 1];
      if last.MainWaits? then last.stopEvent || AskStop in before else HeardStop(before)
  }

  predicate Hears(main: Main, asked: bool, heard: bool) {
    && (asked ==> main.stopRequested)
    && (heard ==> IsStopping(main) || (main.pc.Deciding? && main.pc.stop))
  }

  /** No longer serving. */
  predicate IsStopping(main: Main) {
    main.state != Running || main.aborted
  }

  lemma MovesKeepHearing(g: Config, v: Server, move: Move, asked: bool, heard: bool)
    requires Hears(v.main, asked, heard) && PcFits(v.main, |v.loops|) && Due(v.main, move)
    ensures Hears(NextMain(g, v, move), asked || move.AskStop?,
                  if move.MainWaits? then move.stopEvent || asked else heard)
  {
    hide AfterOffer, Accepts;
  }

  lemma {:induction false} ServersHear(g: Config, n: nat, moves: seq<Move>)
    requires Configured(g, n) && IsServerRun(g, n, moves)
    ensures Hears(ServerAfter(g, n, moves).main, AskStop in moves, HeardStop(moves))
  {
    hide Good, Can, NextMain, NextLoops, Hears;
    if moves == [] {
      StartHears(n);
    } else {
      var before, last := moves[..|moves| - 1], moves[|moves| - 1];
      var v := ServerAfter(g, n, before);
      ServersStayGood(g, n, before);
      ServersHear(g, n, before);
      GoodParts(g, v);
      CanIsDue(g, v, last);
      MovesKeepHearing(g, v, last, AskStop in before, HeardStop(before));
      assert moves == before + [last];
      assert AskStop in moves <==> AskStop in before || last.AskStop?;
    }
  }

  lemma StartHears(n: nat)
    ensures Hears(Started(n).main, false, false)
  {
  }

  /**
   A stop asked for before `Wait` returned ends service in that turn, at its next decision: from then on the
   server drains, has stopped, or has failed.
   */
  lemma StopEndsService(g: Config, n: nat, moves: seq<Move>)
    requires Configured(g, n) && IsServerRun(g, n, moves) && HeardStop(moves)
    ensures
      var main := ServerAfter(g, n, moves).main;
      main.pc.Deciding? || main.state != Running || main.aborted
  {
    hide ServerAfter, IsServerRun, HeardStop;
    ServersHear(g, n, moves);
  }

  // ------------------------------------------------------------ a failed sub-reactor is noticed

  /** This sub-reactor had failed when `Wait` last returned. */
  ghost predicate HadFailed(g: Config, n: nat, moves: seq<Move>, i: nat)
    requires IsServerRun(g, n, moves)
  {
    moves != [] &&
    var before := moves[..|moves| - 1];
    if moves[|moves| - 1].MainWaits?
    then i < |ServerAfter(g, n, before).loops| && ServerAfter(g, n, before).loops[i].reactor.failed
    else HadFailed(g, n, before, i)
  }

  /** On its way to find that the i-th sub-reactor has failed, or past it. */
  predicate Notices(main: Main, i: nat) {
    IsStopping(main) || main.pc.Deciding? || (main.pc.Inspecting? && main.pc.next <= i)
  }

  lemma MovesKeepNoticing(g: Config, v: Server, move: Move, i: nat)
    requires PcFits(v.main, |v.loops|) && Due(v.main, move) && i < |v.loops| && v.loops[i].reactor.failed
    requires Notices(v.main, i) || move.MainWaits?
    ensures Notices(NextMain(g, v, move), i)
  {
    hide AfterOffer, Accepts;
  }

  lemma LoopStaysFailed(g: Config, v: Server, move: Move, i: nat)
    requires Can(g, v, move) && i < |v.loops| && v.loops[i].reactor.failed
    ensures NextLoops(g, v, move)[i].reactor.failed
  {
    hide Can, Enabled, Do;
    var t := Touched(v, move);
    if t.Some? && t.value.loop == i {
      TouchedIsEnabled(g, v, move);
      StepsFailAndForceForCause(g.options, g.capacity, v.loops[i], t.value.step);
    }
  }

  lemma {:induction false} ServersNotice(g: Config, n: nat, moves: seq<Move>, i: nat)
    requires Configured(g, n) && IsServerRun(g, n, moves) && HadFailed(g, n, moves, i)
    ensures
      var v := ServerAfter(g, n, moves);
      i < |v.loops| && v.loops[i].reactor.failed && Notices(v.main, i)
  {
    hide Good, Can, NextMain, NextLoops, Notices;
    var before, last := moves[..|moves| - 1], moves[|moves| - 1];
    var v := ServerAfter(g, n, before);
    ServersStayGood(g, n, before);
    if !last.MainWaits? {
      ServersNotice(g, n, before, i);
    }
    GoodParts(g, v);
    CanIsDue(g, v, last);
    MovesKeepNoticing(g, v, last, i);
    LoopStaysFailed(g, v, last, i);
  }

  /**
   A turn that begins after a sub-reactor has failed accepts nobody and ends service: once it has come to
   inspect that sub-reactor, the server drains, has stopped, or has failed.
   */
  lemma FailureEndsService(g: Config, n: nat, moves: seq<Move>, i: nat)
    requires Configured(g, n) && IsServerRun(g, n, moves) && HadFailed(g, n, moves, i)
    ensures
      var main := ServerAfter(g, n, moves).main;
      || main.pc.Deciding? || (main.pc.Inspecting? && main.pc.next <= i)
      || main.state != Running || main.aborted
  {
    hide ServerAfter, IsServerRun, HadFailed;
    ServersNotice(g, n, moves, i);
  }

  // ------------------------------------------------------------ the deadline is noticed

  /** The time of the last check whether everyone has stopped. */
  function LastCheck(moves: seq<Move>): Option<int> {
    if moves == [] then None
    else if moves[|moves| - 1].Check? then Some(moves[|moves| - 1].now)
    else LastCheck(moves[..|moves| - 1])
  }

  /** While it drains, the main reactor waits only after a check before the deadline, or having forced everyone. */
  predicate ChecksInTime(main: Main, last: Option<int>) {
    main.state == Draining && (main.pc.AtWait? || main.pc.Deciding?) ==>
      main.forceStopSent || (last.Some? && last.value < main.deadline)
  }

  lemma MovesKeepChecking(g: Config, v: Server, move: Move, last: Option<int>)
    requires ChecksInTime(v.main, last) && PcFits(v.main, |v.loops|) && Due(v.main, move)
    ensures ChecksInTime(NextMain(g, v, move), if move.Check? then Some(move.now) else last)
  {
    hide AfterOffer, Accepts;
  }

  lemma {:induction false} ServersCheck(g: Config, n: nat, moves: seq<Move>)
    requires Configured(g, n) && IsServerRun(g, n, moves)
    ensures ChecksInTime(ServerAfter(g, n, moves).main, LastCheck(moves))
  {
    hide Good, Can, NextMain, NextLoops;
    if moves != [] {
      var before, last := moves[..|moves| - 1], moves[|moves| - 1];
      var v := ServerAfter(g, n, before);
      ServersStayGood(g, n, before);
      ServersCheck(g, n, before);
      GoodParts(g, v);
      CanIsDue(g, v, last);
      MovesKeepChecking(g, v, last, LastCheck(before));
    }
  }

  /**
   When the main reactor goes back to `Wait` while sub-reactors are still up, it has forced them all to stop, or
   the grace period was not over when it last looked.
   */
  lemma MainForcesAtTheDeadline(g: Config, n: nat, moves: seq<Move>)
    requires Configured(g, n) && IsServerRun(g, n, moves)
    ensures
      var main, began := ServerAfter(g, n, moves).main, BeganAt(g, n, moves);
      main.state == Draining && main.pc.AtWait? ==>
        || main.forceStopSent
        || (began.Some? && LastCheck(moves).Some? && LastCheck(moves).value < began.value + g.gracefulTimeout)
  {
    hide ServerAfter, IsServerRun, BeganAt, LastCheck;
    ServersCheck(g, n, moves);
    DeadlineIsTheGracePeriod(g, n, moves, 0);
  }

  // ------------------------------------------------------------ clients

  /** From `v` to `v'` the client in hand goes to the end of the queue of the loop whose turn it is. */
  predicate HandsOver(v: Server, v': Server) {
    var k := v.main.ledger.nextLoop;
    && v.main.pc.InHand? && k < |v.loops| && |v'.loops| == |v.loops|
    && v'.loops == v.loops[k := WithRecord(v.loops[k], v'.loops[k].control)]
    && v'.loops[k].control == v.loops[k].control.(pending := v.loops[k].control.pending + [v.main.pc.fd])
    && v'.main.pc == Notifying(k, Accepting(v.main.pc.count))
    && v'.main.ledger.closed == v.main.ledger.closed && v'.main.state == v.main.state && v'.history == v.history
  }

  /**
   No client accepted is ever refused: the loop whose turn it is takes it, at the end of its queue, and the
   main reactor goes on to wake that loop.
   */
  lemma EveryOfferIsTaken(g: Config, n: nat, moves: seq<Move>)
    requires Configured(g, n) && IsServerRun(g, n, moves) && ServerAfter(g, n, moves).main.pc.InHand?
    ensures
      var v := ServerAfter(g, n, moves);
      Can(g, v, Offer(true)) && HandsOver(v, NextServer(g, v, Offer(true)))
  {
    hide ServerAfter, IsServerRun, Good, AllSteady, NotifiersKnown, StopsKnown, TurnFits, StillOpen, BeganAt,
      GraceIsOver, HandsOver;
    ServersStayGood(g, n, moves);
    ServersStayInGrace(g, n, moves);
    var v := ServerAfter(g, n, moves);
    GoodParts(g, v);
    var k := v.main.ledger.nextLoop;
    assert ToldFits(v.main, k, v.loops[k]);
    OfferHandsOver(g, v);
  }

  lemma OfferHandsOver(g: Config, v: Server)
    requires v.main.pc.InHand? && Fair(v.main.ledger, |v.loops|) && Accepts(v.loops[v.main.ledger.nextLoop])
    ensures Can(g, v, Offer(true)) && HandsOver(v, NextServer(g, v, Offer(true)))
  {
    hide StillOpen, Tidy;
  }

  /** As it comes to the table: nothing received, queued or sent, and registered for reading only. */
  predicate IsNewClient(c: Session) {
    && IsOpen(c) && !c.readPaused && c.todo == []
    && c.readBuffer == [] && InRange(c.writeBuffer) && Pending(c.writeBuffer) == []
    && c.registered.read && !c.registered.write
    && c.log == Log([], [], [], None, None, [], [])
  }

  /**
   A client taken from the queue of a loop that is serving enters its table, its poller and its count of
   clients together, unless the poller refuses it, and disturbs no other client.
   */
  lemma EveryClientEnters(g: Config, n: nat, moves: seq<Move>, i: nat)
    requires Configured(g, n) && IsServerRun(g, n, moves) && i < n
    requires |ServerAfter(g, n, moves).loops| == n
    requires Can(g, ServerAfter(g, n, moves), InLoop(i, HandleClient(true)))
    ensures
      var v := ServerAfter(g, n, moves);
      var r, r' := v.loops[i].reactor, NextServer(g, v, InLoop(i, HandleClient(true))).loops[i].reactor;
      var fd := v.loops[i].pc.snapshot.pending[0];
      && fd !in r.clients && fd in r'.clients && IsNewClient(r'.clients[fd])
      && r'.clients == r.clients[fd := r'.clients[fd]]
      && r'.interests == r.interests[fd := r'.clients[fd].registered]
      && r'.accepted == r.accepted + 1 && r'.released == r.released
  {
    hide ServerAfter, IsServerRun, StillOpen;
    ClientsNeverCollide(g, n, moves, i);
    var s := ServerAfter(g, n, moves).loops[i];
    assert s.pc.snapshot.pending[0] in InTransit(s.pc) + s.control.pending;
  }

  // ------------------------------------------------------------ a client can always join

  lemma MainMovesAlone(g: Config, v: Server, move: Move)
    requires Can(g, v, move) && (move.MainWaits? || move.Decide? || move.Inspect? || IsAccepting(move))
    ensures NextServer(g, v, move) == v.(main := NextMain(g, v, move))
  {
    hide NextMain, StillOpen;
  }

  predicate IsAccepting(move: Move) {
    move.AcceptOne? || move.AcceptNone? || move.StopAccepting?
  }

  lemma {:induction false} InspectionPasses(g: Config, v: Server, now: int) returns (moves: seq<Move>, v': Server)
    requires v.main.pc.Inspecting? && v.main.pc.listen
    requires forall i :: 0 <= i < |v.loops| ==> !v.loops[i].reactor.failed
    ensures Reaches(g, v, moves, v') && v' == v.(main := v.main.(pc := Accepting(0)))
    decreases if v.main.pc.next < |v.loops| then |v.loops| - v.main.pc.next else 0
  {
    hide Reaches, StillOpen;
    var move := Inspect(now);
    MainMovesAlone(g, v, move);
    v' := NextServer(g, v, move);
    if v.main.pc.next >= |v.loops| {
      moves := [];
      NoMovesReach(g, v');
    } else {
      moves, v' := InspectionPasses(g, v', now);
    }
    ReachesFirst(g, v, move, moves, v');
    moves := [move] + moves;
  }

  /** Nothing but `Wait` and its decision lie between here and the inspection of the sub-reactors. */
  lemma TurnComesToAccepting(g: Config, v: Server, now: int) returns (moves: seq<Move>, v': Server)
    requires v.main.pc.AtWait? && v.main.state == Running && !v.main.stopRequested
    requires forall i :: 0 <= i < |v.loops| ==> !v.loops[i].reactor.failed
    ensures Reaches(g, v, moves, v') && v' == v.(main := v.main.(pc := Accepting(0), sawStop := false))
  {
    hide Reaches, StillOpen;
    var wait, decide := MainWaits(false, true), Decide(now);
    MainMovesAlone(g, v, wait);
    var awake := NextServer(g, v, wait);
    MainMovesAlone(g, awake, decide);
    var inspecting := NextServer(g, awake, decide);
    var more;
    more, v' := InspectionPasses(g, inspecting, now);
    ReachesFirst(g, awake, decide, more, v');
    ReachesFirst(g, v, wait, [decide] + more, v');
    moves := [wait] + ([decide] + more);
  }

  /** From `v` to `v'` this client joins the queue of the loop whose turn it is, and the loop is notified. */
  predicate Joins(g: Config, v: Server, fd: nat, v': Server) {
    var k := v.main.ledger.nextLoop;
    && k < |v.loops| && |v'.loops| == |v.loops| && v'.loops == v.loops[k := v'.loops[k]]
    && v'.loops[k].control == v.loops[k].control.(pending := v.loops[k].control.pending + [fd])
    && v'.loops[k] == v.loops[k].(control := v'.loops[k].control, unseen := true, channel := v'.loops[k].channel)
    && v'.loops[k].channel == (if v.loops[k].channel < g.capacity then v.loops[k].channel + 1 else v.loops[k].channel)
    && v'.main.state == v.main.state && v'.history == v.history
  }

  lemma NotifyWakes(g: Config, v: Server, v': Server)
    requires HandsOver(v, v')
    ensures Can(g, v', MainNotifies) && Joins(g, v, v.main.pc.fd, NextServer(g, v', MainNotifies))
    ensures NextServer(g, v', MainNotifies).main.pc == Accepting(v.main.pc.count)
  {
    hide StillOpen;
  }

  lemma AcceptTakesInHand(g: Config, v: Server, fd: nat)
    requires v.main.pc == Accepting(0) && fd !in StillOpen(v) && g.maxAccepts > 0
    ensures Can(g, v, AcceptOne(fd))
    ensures
      var v' := NextServer(g, v, AcceptOne(fd));
      && v'.main.pc == InHand(fd, 1) && v'.loops == v.loops && v'.history == v.history
      && v'.main.ledger.nextLoop == v.main.ledger.nextLoop && v'.main.state == v.main.state
  {
    hide StillOpen;
  }

  lemma AcceptedClientJoins(g: Config, n: nat, before: seq<Move>, v: Server, fd: nat)
    returns (moves: seq<Move>, v': Server)
    requires Configured(g, n) && IsServerRun(g, n, before) && v == ServerAfter(g, n, before) && g.maxAccepts > 0
    requires v.main.pc == Accepting(0) && fd !in StillOpen(v)
    ensures Reaches(g, v, moves, v') && Joins(g, v, fd, v') && v'.main.pc == Accepting(1)
  {
    hide Reaches, StillOpen, ServerAfter, IsServerRun, Can, NextMain, NextLoops, NextHistory, HandsOver, Joins;
    var accept, offer := AcceptOne(fd), Offer(true);
    AcceptTakesInHand(g, v, fd);
    var inHand := NextServer(g, v, accept);
    NoMovesReach(g, inHand);
    ReachesFirst(g, v, accept, [], inHand);
    assert [accept] + [] == [accept];
    ReachedIsARun(g, n, before, [accept], inHand);
    EveryOfferIsTaken(g, n, before + [accept]);
    var offered := NextServer(g, inHand, offer);
    NotifyWakes(g, inHand, offered);
    v' := NextServer(g, offered, MainNotifies);
    NoMovesReach(g, v');
    ReachesFirst(g, offered, MainNotifies, [], v');
    ReachesFirst(g, inHand, offer, [MainNotifies] + [], v');
    ReachesFirst(g, v, accept, [offer] + ([MainNotifies] + []), v');
    moves := [accept] + ([offer] + ([MainNotifies] + []));
    SameLoopsJoin(g, v, inHand, fd, v');
  }

  lemma SameLoopsJoin(g: Config, v: Server, w: Server, fd: nat, v': Server)
    requires Joins(g, w, fd, v') && w.loops == v.loops && w.history == v.history
    requires w.main.ledger.nextLoop == v.main.ledger.nextLoop && w.main.state == v.main.state
    ensures Joins(g, v, fd, v')
  {
  }

  /** The end of the turn, which accepts no more. */
  lemma TurnEnds(g: Config, v: Server) returns (moves: seq<Move>, v': Server)
    requires v.main.pc.Accepting?
    ensures Reaches(g, v, moves, v') && v' == v.(main := v.main.(pc := AtWait))
  {
    hide Reaches, StillOpen;
    var move := if v.main.pc.count < g.maxAccepts then AcceptNone else StopAccepting;
    MainMovesAlone(g, v, move);
    v' := NextServer(g, v, move);
    NoMovesReach(g, v');
    ReachesFirst(g, v, move, [], v');
    moves := [move] + [];
  }

  /** Waiting for something to do: no stop has been asked for, and no sub-reactor has failed. */
  predicate IsServing(v: Server) {
    && v.main.pc.AtWait? && v.main.state == Running && !v.main.stopRequested
    && forall i :: 0 <= i < |v.loops| ==> !v.loops[i].reactor.failed
  }

  /**
   As long as the server is serving, a client that connects can be accepted and handed to the loop whose turn it
   is: there are moves without a failure that end with it in that loop's queue, the loop notified, and the main
   reactor waiting again.
   */
  lemma ClientsCanAlwaysJoin(g: Config, n: nat, before: seq<Move>, v: Server, fd: nat, now: int)
    returns (moves: seq<Move>, v': Server)
    requires Configured(g, n) && IsServerRun(g, n, before) && v == ServerAfter(g, n, before) && g.maxAccepts > 0
    requires IsServing(v) && fd !in StillOpen(v)
    ensures IsServerRun(g, n, before + moves) && v' == ServerAfter(g, n, before + moves)
    ensures forall move :: move in moves ==> IsOrdinary(move)
    ensures Joins(g, v, fd, v') && v'.main.pc.AtWait?
  {
    hide Reaches, StillOpen, ServerAfter, IsServerRun, Joins, Can, NextMain, NextLoops, NextHistory, IsOrdinary;
    var first, accepting := TurnComesToAccepting(g, v, now);
    ReachedIsARun(g, n, before, first, accepting);
    SameOpen(v, accepting);
    var second, queued := AcceptedClientJoins(g, n, before + first, accepting, fd);
    SameLoopsJoin(g, v, accepting, fd, queued);
    var third, waiting := TurnEnds(g, queued);
    JoinedAnyhow(g, v, fd, queued, waiting);
    ReachesOn(g, v, first, accepting, second, queued);
    ReachesOn(g, v, first + second, queued, third, waiting);
    moves, v' := first + second + third, waiting;
    ReachedIsARun(g, n, before, moves, waiting);
    ReachedByOrdinary(g, v, moves, waiting);
  }

  lemma JoinedAnyhow(g: Config, v: Server, fd: nat, w: Server, v': Server)
    requires Joins(g, v, fd, w) && v' == w.(main := w.main.(pc := v'.main.pc))
    ensures Joins(g, v, fd, v')
  {
  }

  lemma SameOpen(v: Server, v': Server)
    requires v'.loops == v.loops && Carried(v'.main.pc) == Carried(v.main.pc)
    ensures StillOpen(v') == StillOpen(v)
  {
  }
}
