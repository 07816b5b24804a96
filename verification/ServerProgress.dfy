/**
 The server can always finish: from every state it can reach in which it is shutting down, with the
 deadline past, there are moves, none of them a failure, after which it is gone. So nothing in it can
 wait for ever for something else in it.
 */
module ServerProgress {
  import opened Basics
  import StoreModel
  import opened CommandParser
  import opened CommandExecutor
  import opened ServiceRuns
  import opened Reactors
  import opened EventLoops
  import opened LoopProgress
  import opened Servers
  import opened ServerRuns
  import ServerHistories
  import opened ServerTheorems

  // ------------------------------------------------------------ sequences of moves

  /** No system call fails and nothing is thrown. */
  predicate IsOrdinary(move: Move) {
    !move.MainThrows? && (move.InLoop? ==> !move.step.Throw?)
  }

  /** These moves, in this order and without a failure, lead from `v` to `v'`. */
  ghost predicate Reaches(g: Config, v: Server, moves: seq<Move>, v': Server)
    decreases |moves|
  {
    if moves == [] then v' == v
    else IsOrdinary(moves[0]) && Can(g, v, moves[0]) && Reaches(g, NextServer(g, v, moves[0]), moves[1..], v')
  }

  lemma ReachesFirst(g: Config, v: Server, move: Move, moves: seq<Move>, v': Server)
    requires IsOrdinary(move) && Can(g, v, move) && Reaches(g, NextServer(g, v, move), moves, v')
    ensures Reaches(g, v, [move] + moves, v')
  {
    hide Can, NextServer, IsOrdinary;
    assert ([move] + moves)[1..] == moves;
  }

  lemma {:induction false} ReachesOn(g: Config, v: Server, moves: seq<Move>, v': Server, more: seq<Move>, v'': Server)
    requires Reaches(g, v, moves, v') && Reaches(g, v', more, v'')
    ensures Reaches(g, v, moves + more, v'')
    decreases |moves|
  {
    hide Can, NextServer, IsOrdinary;
    if moves == [] {
      assert moves + more == more;
    } else {
      ReachesOn(g, NextServer(g, v, moves[0]), moves[1..], v', more, v'');
      assert (moves + more)[1..] == moves[1..] + more;
    }
  }

  lemma {:induction false} ReachedIsARun(g: Config, n: nat, before: seq<Move>, moves: seq<Move>, v': Server)
    requires IsServerRun(g, n, before) && Reaches(g, ServerAfter(g, n, before), moves, v')
    ensures IsServerRun(g, n, before + moves) && ServerAfter(g, n, before + moves) == v'
    decreases |moves|
  {
    hide Can, NextServer, IsOrdinary;
    if moves == [] {
      assert before + moves == before;
    } else {
      var longer := before + [moves[0]];
      assert longer[..|longer| - 1] == before;
      ReachedIsARun(g, n, longer, moves[1..], v');
      assert longer + moves[1..] == before + moves;
    }
  }

  // ------------------------------------------------------------ shutting down

  /** Told to stop, or failed, and past the deadline if there is one. */
  predicate IsEnding(v: Server, now: int) {
    && v.main.state != Created && (v.main.state != Running || v.main.aborted)
    && now >= v.main.deadline && IsPast(v.history, now)
  }

  /** The main reactor has told everyone and waits for the loops. */
  predicate IsMainWaiting(main: Main) {
    main.pc.AtWait? || main.pc.Joining? || main.pc.Gone?
  }

  function Rest(n: nat, k: nat): nat {
    if k < n then n - k else 0
  }

  /** The moves the main reactor has to make before it waits. */
  function MovesToWait(pc: MainPc, n: nat): nat {
    match pc
    case Forcing(k) => 1 + 2 * Rest(n, k)
    case Aborting(k) => 1 + 2 * Rest(n, k)
    case Checking(k, _) => 2 + 2 * n + Rest(n, k)
    case Telling(k) => 3 + 3 * n + 2 * Rest(n, k)
    case Deciding(_, _) => 4 + 3 * n
    case Notifying(_, resume) => 1 + MovesToWait(resume, n)
    case _ => 0
  }

  function MainMove(pc: MainPc, now: int): Move {
    match pc
    case AtWait => MainWaits(false, false)
    case Deciding(_, _) => Decide(now)
    case Telling(_) => Tell
    case Checking(_, _) => Check(now)
    case Forcing(_) => ForceOne
    case Aborting(_) => AbortOne
    case Notifying(_, _) => MainNotifies
    case _ => Join
  }

  lemma MainCanMove(g: Config, v: Server, now: int)
    requires PcFits(v.main, |v.loops|) && NotifiersKnown(v) && IsEnding(v, now) && !v.main.pc.Gone?
    requires v.main.pc.Joining? ==> forall i :: 0 <= i < |v.loops| ==> v.loops[i].pc.Exited?
    ensures Can(g, v, MainMove(v.main.pc, now)) && IsOrdinary(MainMove(v.main.pc, now))
  {
  }

  lemma DecidingComesNearer(g: Config, v: Server, now: int)
    requires v.main.pc.Deciding? && v.main.state != Running
    ensures MovesToWait(NextMain(g, v, Decide(now)).pc, |v.loops|) < MovesToWait(v.main.pc, |v.loops|)
  {
  }

  lemma CheckingComesNearer(g: Config, v: Server, now: int)
    requires v.main.pc.Checking?
    ensures MovesToWait(NextMain(g, v, Check(now)).pc, |v.loops|) < MovesToWait(v.main.pc, |v.loops|)
  {
  }

  lemma ForcingComesNearer(g: Config, v: Server)
    requires v.main.pc.Forcing?
    ensures MovesToWait(NextMain(g, v, ForceOne).pc, |v.loops|) < MovesToWait(v.main.pc, |v.loops|)
  {
  }

  lemma TellingComesNearer(g: Config, v: Server)
    requires v.main.pc.Telling?
    ensures MovesToWait(NextMain(g, v, Tell).pc, |v.loops|) < MovesToWait(v.main.pc, |v.loops|)
  {
  }

  lemma AbortingComesNearer(g: Config, v: Server)
    requires v.main.pc.Aborting?
    ensures MovesToWait(NextMain(g, v, AbortOne).pc, |v.loops|) < MovesToWait(v.main.pc, |v.loops|)
  {
  }

  lemma NotifyingComesNearer(g: Config, v: Server)
    requires v.main.pc.Notifying?
    ensures MovesToWait(NextMain(g, v, MainNotifies).pc, |v.loops|) < MovesToWait(v.main.pc, |v.loops|)
  {
  }

  lemma EndingMainIsDraining(v: Server, now: int)
    requires PcFits(v.main, |v.loops|) && IsEnding(v, now)
    ensures v.main.pc.Deciding? ==> v.main.state != Running
    ensures IsMainWaiting(v.main) || v.main.pc.Deciding? || v.main.pc.Checking? || v.main.pc.Forcing?
      || v.main.pc.Telling?
            || v.main.pc.Aborting? || v.main.pc.Notifying?
  {
    hide IsPast, Resumes;
  }

  lemma MainComesNearer(g: Config, v: Server, now: int)
    requires PcFits(v.main, |v.loops|) && IsEnding(v, now) && !IsMainWaiting(v.main)
    requires Due(v.main, MainMove(v.main.pc, now))
    ensures MovesToWait(NextMain(g, v, MainMove(v.main.pc, now)).pc, |v.loops|) < MovesToWait(v.main.pc, |v.loops|)
  {
    hide IsPast, PcFits, NextMain, MovesToWait;
    EndingMainIsDraining(v, now);
    match v.main.pc
    case Deciding(_, _) => DecidingComesNearer(g, v, now);
    case Checking(_, _) => CheckingComesNearer(g, v, now);
    case Forcing(_) => ForcingComesNearer(g, v);
    case Telling(_) => TellingComesNearer(g, v);
    case Aborting(_) => AbortingComesNearer(g, v);
    case Notifying(_, _) => NotifyingComesNearer(g, v);
    case _ =>
  }

  lemma MainKeepsEnding(g: Config, v: Server, now: int)
    requires PcFits(v.main, |v.loops|) && IsEnding(v, now) && Due(v.main, MainMove(v.main.pc, now))
    ensures
      var main' := NextMain(g, v, MainMove(v.main.pc, now));
      && main'.deadline == v.main.deadline && main'.aborted == v.main.aborted && main'.state != Created
      && (v.main.state != Running ==> main'.state != Running)
  {
    hide IsPast, Resumes;
  }

  lemma MainMovesTouchNoStore(v: Server, now: int)
    ensures NextHistory(v, MainMove(v.main.pc, now)) == v.history
  {
  }

  // ------------------------------------------------------------ first, the main reactor

  lemma {:induction false} MainComesToWait(g: Config, v: Server, now: int) returns (moves: seq<Move>, v': Server)
    requires g.capacity > 0 && Good(g, v) && IsEnding(v, now)
    ensures Reaches(g, v, moves, v') && Good(g, v') && IsEnding(v', now) && IsMainWaiting(v'.main)
      && |v'.loops| == |v.loops|
    decreases MovesToWait(v.main.pc, |v.loops|)
  {
    hide Good, Can, NextMain, NextLoops, NextHistory, IsOrdinary, PcFits, NotifiersKnown, AllSteady, AllTold,
      ForcesKnown, StopsKnown, IsPast, MovesToWait;
    if IsMainWaiting(v.main) {
      moves, v' := [], v;
    } else {
      var move := MainMove(v.main.pc, now);
      GoodParts(g, v);
      MainCanMove(g, v, now);
      CanIsDue(g, v, move);
      MainComesNearer(g, v, now);
      MainKeepsEnding(g, v, now);
      MainMovesTouchNoStore(v, now);
      MovesKeepGood(g, v, move);
      moves, v' := MainComesToWait(g, NextServer(g, v, move), now);
      ReachesFirst(g, v, move, moves, v');
      moves := [move] + moves;
    }
  }

  // ------------------------------------------------------------ then, each loop

  /** The store has an answer to every request. */
  lemma StoreAnswersAll(s: StoreModel.Store, now: int, payload: bytes)
    returns (response: bytes, after: StoreModel.Store)
    ensures Handles(s, now, payload, response, after)
  {
    hide Parse, StoreModel.AnswerTo, StoreModel.After, AnswerText, PlainText;
    var cmd := Parse(payload);
    var q := RequestOf(cmd);
    if q.Some? {
      response, after := AnswerText(StoreModel.AnswerTo(s, now, q.value)), StoreModel.After(s, now, q.value);
    } else {
      var text := PlainText(cmd.kind, |StoreModel.PersistentKeys(s.data)|, |StoreModel.ExpiringKeys(s.data)|);
      response, after := if cmd.kind == CommandType.Stats then text + METRICS else text, s;
    }
  }

  /** While the main reactor waits, a loop that has not exited has been asked to stop, and its deadline is past. */
  lemma LoopsAreAsked(g: Config, v: Server, now: int, i: nat)
    requires Good(g, v) && IsEnding(v, now) && IsMainWaiting(v.main) && i < |v.loops| && !v.loops[i].pc.Exited?
    ensures Steady(g.options, v.loops[i]) && v.loops[i].notifying == 0 && IsAsked(v.loops[i])
    ensures v.loops[i].reactor.state == Draining ==> now >= v.loops[i].reactor.deadline
  {
    hide Good, AllSteady, Steady, IsPast;
    GoodParts(g, v);
    SteadyIs(g, v, i);
    assert ToldFits(v.main, i, v.loops[i]) && v.loops[i].notifying == Notifiers(v.main.pc, i);
    assert StopKnown(v.main, i, v.loops[i]);
    assert v.main.aborted ==> ForceDue(v.main, i);
  }

  lemma SteadyIs(g: Config, v: Server, i: nat)
    requires AllSteady(g, v) && i < |v.loops|
    ensures Steady(g.options, v.loops[i])
    ensures v.loops[i].reactor.state == Draining ==> v.loops[i].control.stop
  {
    hide Healthy, SeenIsDone, NoLostWakeup, ClosedClients, Quiet;
  }

  /** This loop comes nearer its end, and nobody else is touched. */
  ghost predicate OnlyNearer(g: Config, v: Server, move: Move, i: nat, now: int)
    requires i < |v.loops|
  {
    && Can(g, v, move) && IsOrdinary(move)
    && Nearer(NextLoops(g, v, move)[i], v.loops[i])
    && (forall j :: 0 <= j < |v.loops| && j != i ==> NextLoops(g, v, move)[j] == v.loops[j])
    && NextMain(g, v, move) == v.main && IsPast(NextHistory(v, move), now)
  }

  lemma RequestComesNearer(g: Config, v: Server, now: int, i: nat) returns (move: Move)
    requires i < |v.loops| && IsPast(v.history, now) && Steady(g.options, v.loops[i])
    requires v.loops[i].pc.Answering? && HasMore(v.loops[i].reactor.clients, v.loops[i].pc.report.fd)
    ensures OnlyNearer(g, v, move, i, now)
  {
    hide Steady, Nearer, Do, Handles, HasMore, Tidy;
    var s := v.loops[i];
    ServerHistories.SteadyLoopIsTidy(g.options, s);
    var response, after := StoreAnswersAll(Current(v.history), now, NextRequest(s));
    move := ExecuteRequest(i, now, response, after);
    AnswerIsNearer(g.options, g.capacity, s, response);
  }

  lemma StepComesNearer(g: Config, v: Server, now: int, i: nat) returns (move: Move)
    requires i < |v.loops| && IsPast(v.history, now) && Steady(g.options, v.loops[i]) && CanStop(v.loops[i], now)
    ensures OnlyNearer(g, v, move, i, now)
  {
    hide Steady, Nearer, Do, Enabled, Entrant, IsPast, StepToExit, CanStop;
    var s := v.loops[i];
    var step := StepToExit(s, now);
    move := InLoop(i, step);
    NextStepIsOwn(s, now);
    NextStepIsEnabled(g.options, s, now);
    NextStepIsNearer(g.options, g.capacity, s, now);
    EntryIsPast(v.history, Entrant(i, s, step), now);
  }

  lemma NextStepIsOwn(s: EventLoop, now: int)
    ensures IsOwn(StepToExit(s, now)) && !StepToExit(s, now).Throw?
  {
  }

  lemma EntryIsPast(t: Service, who: Option<Client>, now: int)
    requires IsPast(t, now)
    ensures IsPast(WithAdmitted(t, who), now)
  {
  }

  /** The i-th loop goes on to its end by itself. */
  lemma {:induction false} LoopComesToExit(g: Config, v: Server, now: int, i: nat)
    returns (moves: seq<Move>, v': Server)
    requires g.capacity > 0 && Good(g, v) && IsEnding(v, now) && IsMainWaiting(v.main) && i < |v.loops|
    ensures Reaches(g, v, moves, v') && Good(g, v') && IsEnding(v', now) && v'.main == v.main && |v'.loops| == |v.loops|
    ensures v'.loops[i].pc.Exited? && forall j :: 0 <= j < |v.loops| && j != i ==> v'.loops[j] == v.loops[j]
    decreases Stage(v.loops[i]), |InTransit(v.loops[i].pc)|, Reports(v.loops[i].pc), InReport(v.loops[i].pc),
              RequestsLeft(v.loops[i]), BytesLeft(v.loops[i])
  {
    hide Good, Can, NextMain, NextLoops, NextHistory, IsOrdinary, IsPast, Steady, IsAsked, IsMainWaiting, HasMore,
      Stage, InTransit, Reports, RequestsLeft, BytesLeft;
    var s := v.loops[i];
    if s.pc.Exited? {
      moves, v' := [], v;
    } else {
      LoopsAreAsked(g, v, now, i);
      var move;
      if s.pc.Answering? && HasMore(s.reactor.clients, s.pc.report.fd) {
        move := RequestComesNearer(g, v, now, i);
      } else {
        move := StepComesNearer(g, v, now, i);
      }
      MovesKeepGood(g, v, move);
      moves, v' := LoopComesToExit(g, NextServer(g, v, move), now, i);
      ReachesFirst(g, v, move, moves, v');
      moves := [move] + moves;
    }
  }

  lemma {:induction false} LoopsComeToExit(g: Config, v: Server, now: int, k: nat)
    returns (moves: seq<Move>, v': Server)
    requires g.capacity > 0 && Good(g, v) && IsEnding(v, now) && IsMainWaiting(v.main) && k <= |v.loops|
    requires forall i :: 0 <= i < k ==> v.loops[i].pc.Exited?
    ensures Reaches(g, v, moves, v') && Good(g, v') && IsEnding(v', now) && v'.main == v.main && |v'.loops| == |v.loops|
    ensures forall i :: 0 <= i < |v.loops| ==> v'.loops[i].pc.Exited?
    decreases |v.loops| - k
  {
    hide Good, Can, IsOrdinary, IsPast, Reaches;
    if k == |v.loops| {
      moves, v' := [], v;
      NoMovesReach(g, v);
    } else {
      var first, mid := LoopComesToExit(g, v, now, k);
      var rest;
      rest, v' := LoopsComeToExit(g, mid, now, k + 1);
      ReachesOn(g, v, first, mid, rest, v');
      moves := first + rest;
    }
  }

  lemma NoMovesReach(g: Config, v: Server)
    ensures Reaches(g, v, [], v)
  {
  }

  // ------------------------------------------------------------ and the main reactor again

  /** The way from waiting to the end, once every loop has exited. */
  predicate IsOnTheWay(pc: MainPc) {
    pc.AtWait? || pc.Deciding? || (pc.Checking? && pc.all) || pc.Joining? || pc.Gone?
  }

  function MovesToEnd(pc: MainPc, n: nat): nat {
    match pc
    case AtWait => 2 * n + 5
    case Deciding(_, _) => 2 * n + 4
    case Checking(k, _) => n + 2 + Rest(n, k)
    case Joining(k) => 1 + Rest(n, k)
    case _ => 0
  }

  lemma MainEndsByChecking(g: Config, v: Server, now: int)
    requires v.main.pc.Checking? && v.main.pc.all
    requires forall i :: 0 <= i < |v.loops| ==> v.loops[i].reactor.state == Stopped
    ensures
      var pc' := NextMain(g, v, Check(now)).pc;
      IsOnTheWay(pc') && MovesToEnd(pc', |v.loops|) < MovesToEnd(v.main.pc, |v.loops|)
  {
  }

  lemma MainEndsByDeciding(g: Config, v: Server, now: int)
    requires v.main.pc.Deciding? && v.main.state != Running
    ensures
      var pc' := NextMain(g, v, Decide(now)).pc;
      IsOnTheWay(pc') && MovesToEnd(pc', |v.loops|) < MovesToEnd(v.main.pc, |v.loops|)
  {
  }

  lemma MainEndsByWaitingAndJoining(g: Config, v: Server)
    ensures
      v.main.pc.AtWait? ==>
        var pc' := NextMain(g, v, MainWaits(false, false)).pc;
        IsOnTheWay(pc') && MovesToEnd(pc', |v.loops|) < MovesToEnd(v.main.pc, |v.loops|)
    ensures
      v.main.pc.Joining? ==>
        var pc' := NextMain(g, v, Join).pc;
        IsOnTheWay(pc') && MovesToEnd(pc', |v.loops|) < MovesToEnd(v.main.pc, |v.loops|)
  {
  }

  lemma MainComesNearerTheEnd(g: Config, v: Server, now: int)
    requires PcFits(v.main, |v.loops|) && IsEnding(v, now) && IsOnTheWay(v.main.pc) && !v.main.pc.Gone?
    requires Due(v.main, MainMove(v.main.pc, now))
    requires forall i :: 0 <= i < |v.loops| ==> v.loops[i].reactor.state == Stopped
    ensures
      var pc' := NextMain(g, v, MainMove(v.main.pc, now)).pc;
      IsOnTheWay(pc') && MovesToEnd(pc', |v.loops|) < MovesToEnd(v.main.pc, |v.loops|)
  {
    hide IsPast, PcFits, NextMain, MovesToEnd;
    EndingMainIsDraining(v, now);
    match v.main.pc
    case Checking(_, _) => MainEndsByChecking(g, v, now);
    case Deciding(_, _) => MainEndsByDeciding(g, v, now);
    case _ => MainEndsByWaitingAndJoining(g, v);
  }

  lemma {:induction false} MainComesToEnd(g: Config, v: Server, now: int) returns (moves: seq<Move>, v': Server)
    requires g.capacity > 0 && Good(g, v) && IsEnding(v, now) && IsOnTheWay(v.main.pc)
    requires forall i :: 0 <= i < |v.loops| ==> v.loops[i].pc.Exited?
    ensures Reaches(g, v, moves, v') && v'.main.pc.Gone?
    decreases MovesToEnd(v.main.pc, |v.loops|)
  {
    hide Good, Can, NextMain, NextLoops, NextHistory, IsOrdinary, PcFits, NotifiersKnown, AllSteady, AllTold,
      ForcesKnown, StopsKnown, IsPast, MovesToEnd, IsOnTheWay;
    if v.main.pc.Gone? {
      moves, v' := [], v;
    } else {
      var move := MainMove(v.main.pc, now);
      GoodParts(g, v);
      SteadyLoopsExitStopped(g, v);
      MainCanMove(g, v, now);
      CanIsDue(g, v, move);
      MainComesNearerTheEnd(g, v, now);
      MainKeepsEnding(g, v, now);
      MainMovesTouchNoStore(v, now);
      MovesKeepGood(g, v, move);
      forall i | 0 <= i < |v.loops|
        ensures NextLoops(g, v, move)[i].pc.Exited?
      {
        ExitIsForGood(g, v, move, i);
      }
      moves, v' := MainComesToEnd(g, NextServer(g, v, move), now);
      ReachesFirst(g, v, move, moves, v');
      moves := [move] + moves;
    }
  }

  lemma WaitingIsOnTheWay(main: Main)
    requires IsMainWaiting(main)
    ensures IsOnTheWay(main.pc)
  {
  }

  /**
   From every reachable state in which the server has been told to stop or its main reactor has failed, at
   any time from the deadline on, there is a finite sequence of moves without a failure to its end: no
   loop, channel, queue, poller or join can hold up the others for ever.
   */
  lemma ShutdownCanAlwaysFinish(g: Config, n: nat, before: seq<Move>, now: int) returns (moves: seq<Move>)
    requires Configured(g, n) && IsServerRun(g, n, before) && IsEnding(ServerAfter(g, n, before), now)
    ensures IsServerRun(g, n, before + moves) && ServerAfter(g, n, before + moves).main.pc.Gone?
    ensures forall move :: move in moves ==> IsOrdinary(move)
  {
    hide Good, Can, NextMain, NextLoops, NextHistory, IsServerRun, ServerAfter, IsPast, IsOnTheWay, Reaches,
      IsOrdinary;
    var v := ServerAfter(g, n, before);
    ServersStayGood(g, n, before);
    var first, waiting := MainComesToWait(g, v, now);
    var second, exited := LoopsComeToExit(g, waiting, now, 0);
    WaitingIsOnTheWay(exited.main);
    var third, gone := MainComesToEnd(g, exited, now);
    ReachesOn(g, v, first, waiting, second, exited);
    ReachesOn(g, v, first + second, exited, third, gone);
    moves := first + second + third;
    ReachedIsARun(g, n, before, moves, gone);
    ReachedByOrdinary(g, v, moves, gone);
  }

  lemma {:induction false} ReachedByOrdinary(g: Config, v: Server, moves: seq<Move>, v': Server)
    requires Reaches(g, v, moves, v')
    ensures forall move :: move in moves ==> IsOrdinary(move)
    decreases |moves|
  {
    hide Can, NextServer, IsOrdinary;
    if moves != [] {
      ReachedByOrdinary(g, NextServer(g, v, moves[0]), moves[1..], v');
      assert moves == [moves[0]] + moves[1..];
    }
  }
}
