/**
 The grace period of a shutdown. The deadline everyone works to is the time at which the shutdown began
 plus the configured grace, and until that time nobody is forced, unless the main reactor itself has failed.
 */
module ServerShutdowns {
  import opened Basics
  import opened Reactors
  import opened EventLoops
  import opened Servers
  import opened ServerRuns
  import opened ServerTheorems

  /** What the clock said to whoever made this move, if it was looked at. */
  function TimeOf(move: Move): Option<int> {
    match move
    case Decide(now) => Some(now)
    case Inspect(now) => Some(now)
    case Check(now) => Some(now)
    case InLoop(_, Finish(now)) => Some(now)
    case _ => None
  }

  /** The time of the move with which the main reactor went from running to draining. */
  ghost function BeganAt(g: Config, n: nat, moves: seq<Move>): Option<int>
    requires IsServerRun(g, n, moves)
  {
    if moves == [] then None
    else
      var before := moves[..|moves| - 1];
      if ServerAfter(g, n, before).main.state == Running && ServerAfter(g, n, moves).main.state == Draining
      then TimeOf(moves[|moves| - 1])
      else BeganAt(g, n, before)
  }

  /** Since the shutdown began, someone has looked at the clock and found the grace period over. */
  ghost predicate GraceIsOver(g: Config, n: nat, moves: seq<Move>)
    requires IsServerRun(g, n, moves)
  {
    moves != [] &&
    (GraceIsOver(g, n, moves[..|moves| - 1])
     || HasRunOut(g, BeganAt(g, n, moves), TimeOf(moves[|moves| - 1])))
  }

  predicate HasRunOut(g: Config, began: Option<int>, now: Option<int>) {
    began.Some? && now.Some? && now.value >= began.value + g.gracefulTimeout
  }

  // ------------------------------------------------------------ one move

  predicate IsForcing(main: Main) {
    Place(main.pc).Forcing? || main.forceStopSent
  }

  predicate MainInGrace(g: Config, main: Main, began: Option<int>, over: bool) {
    && (main.state == Draining ==> began.Some?)
    && (main.state == Running ==> began.None?)
    && (began.Some? ==> main.deadline == began.value + g.gracefulTimeout)
    && (over ==> began.Some?)
    && (IsForcing(main) ==> over)
  }

  predicate LoopInGrace(s: EventLoop, aborted: bool, began: Option<int>, over: bool) {
    && (s.control.stop ==> began.Some?)
    && (s.control.force || s.reactor.forced > 0 ==> aborted || over)
    && StopsForCause(s)
  }

  predicate InGrace(g: Config, v: Server, began: Option<int>, over: bool) {
    && MainInGrace(g, v.main, began, over)
    && forall i :: 0 <= i < |v.loops| ==> LoopInGrace(v.loops[i], v.main.aborted, began, over)
  }

  function NextBegan(main: Main, main': Main, move: Move, began: Option<int>): Option<int> {
    if main.state == Running && main'.state == Draining then TimeOf(move) else began
  }

  lemma MainStaysInGrace(g: Config, v: Server, move: Move, began: Option<int>, over: bool)
    requires MainInGrace(g, v.main, began, over) && PcFits(v.main, |v.loops|) && Due(v.main, move)
    ensures
      var main' := NextMain(g, v, move);
      var began' := NextBegan(v.main, main', move, began);
      && MainInGrace(g, main', began', over || HasRunOut(g, began', TimeOf(move)))
      && (began.Some? ==> began' == began) && (v.main.aborted ==> main'.aborted)
  {
    hide AfterOffer, Accepts;
  }

  /** A loop is told to stop by a main reactor that is draining, and to force by one that forces or has failed. */
  lemma TouchIsInGrace(g: Config, v: Server, move: Move, began: Option<int>, over: bool)
    requires Can(g, v, move) && MainInGrace(g, v.main, began, over) && PcFits(v.main, |v.loops|)
    requires Touched(v, move).Some?
    ensures
      var step := Touched(v, move).value.step;
      && (step.RecordStop? ==> began.Some?)
      && (step.RecordForce? ==> v.main.aborted || over)
      && (step.Finish? ==> TimeOf(move) == Some(step.now))
  {
    hide Enabled, StillOpen, Accepts;
  }

  lemma TouchedStaysInGrace(g: Config, v: Server, i: nat, step: Step, began: Option<int>, over: bool, over': bool)
    requires i < |v.loops| && Enabled(g.options, v.loops[i], step) && Steady(g.options, v.loops[i])
    requires LoopInGrace(v.loops[i], v.main.aborted, began, over) && (over ==> over')
    requires ToldFits(v.main, i, v.loops[i])
    requires began.Some? ==> v.main.deadline == began.value + g.gracefulTimeout
    requires step.RecordStop? ==> began.Some?
    requires step.RecordForce? ==> v.main.aborted || over
    requires step.Finish? && HasRunOut(g, began, Some(step.now)) ==> over'
    ensures LoopInGrace(Do(g.options, g.capacity, v.loops[i], step), v.main.aborted, began, over')
  {
    hide Healthy, Do, ClosedClients, NoLostWakeup, StopsForCause, Quiet, Tidy;
    var s := v.loops[i];
    StepsFailAndForceForCause(g.options, g.capacity, s, step);
    StepsStopForCause(g.options, g.capacity, s, step);
    StepKeepsRequests(g.options, g.capacity, s, step);
    StepKeepsForce(g.options, g.capacity, s, step);
  }

  lemma LoopStaysInGrace(g: Config, v: Server, move: Move, i: nat, began: Option<int>, over: bool)
    requires Good(g, v) && Can(g, v, move) && InGrace(g, v, began, over) && i < |v.loops|
    ensures
      var main' := NextMain(g, v, move);
      var began' := NextBegan(v.main, main', move, began);
      var over' := over || HasRunOut(g, began', TimeOf(move));
      LoopInGrace(NextLoops(g, v, move)[i], main'.aborted, began', over')
  {
    hide Good, Can, Enabled, Do, NextMain, AllSteady, AllTold, PcFits, NotifiersKnown, StopsKnown, TurnFits,
      ForcesKnown, Steady, ToldFits, MainInGrace, TimeOf, StopsForCause, Touched;
    GoodParts(g, v);
    CanIsDue(g, v, move);
    MainStaysInGrace(g, v, move, began, over);
    GraceFacts(g, v, i, began, over);
    var t := Touched(v, move);
    if t.Some? && t.value.loop == i {
      TouchedIsEnabled(g, v, move);
      TouchIsInGrace(g, v, move, began, over);
      var over' := over || HasRunOut(g, NextBegan(v.main, NextMain(g, v, move), move, began), TimeOf(move));
      TouchedStaysInGrace(g, v, i, t.value.step, began, over, over');
    } else {
      DestroyedStaysInGrace(v.loops[i], v.main.aborted, began, over);
    }
  }

  lemma GraceFacts(g: Config, v: Server, i: nat, began: Option<int>, over: bool)
    requires AllSteady(g, v) && AllTold(v) && MainInGrace(g, v.main, began, over) && i < |v.loops|
    ensures Steady(g.options, v.loops[i]) && ToldFits(v.main, i, v.loops[i])
    ensures began.Some? ==> v.main.deadline == began.value + g.gracefulTimeout
  {
    hide Steady, ToldFits;
  }

  lemma DestroyedStaysInGrace(s: EventLoop, aborted: bool, began: Option<int>, over: bool)
    requires LoopInGrace(s, aborted, began, over)
    ensures LoopInGrace(Destroyed(s), aborted, began, over)
  {
  }

  lemma MovesStayInGrace(g: Config, v: Server, move: Move, began: Option<int>, over: bool)
    requires Good(g, v) && Can(g, v, move) && InGrace(g, v, began, over)
    ensures
      var v' := NextServer(g, v, move);
      var began' := NextBegan(v.main, v'.main, move, began);
      InGrace(g, v', began', over || HasRunOut(g, began', TimeOf(move)))
  {
    hide Good, Can, NextMain, NextLoops, MainInGrace, LoopInGrace, TimeOf, AllSteady, AllTold, PcFits,
      NotifiersKnown, StopsKnown, TurnFits, ForcesKnown;
    GoodParts(g, v);
    CanIsDue(g, v, move);
    MainStaysInGrace(g, v, move, began, over);
    var main' := NextMain(g, v, move);
    var began' := NextBegan(v.main, main', move, began);
    var over' := over || HasRunOut(g, began', TimeOf(move));
    forall i | 0 <= i < |v.loops|
      ensures LoopInGrace(NextLoops(g, v, move)[i], main'.aborted, began', over')
    {
      LoopStaysInGrace(g, v, move, i, began, over);
    }
  }

  // ------------------------------------------------------------ runs

  lemma {:induction false} ServersStayInGrace(g: Config, n: nat, moves: seq<Move>)
    requires Configured(g, n) && IsServerRun(g, n, moves)
    ensures InGrace(g, ServerAfter(g, n, moves), BeganAt(g, n, moves), GraceIsOver(g, n, moves))
  {
    hide Good, Can, NextServer, InGrace, TimeOf;
    if moves == [] {
      StartIsInGrace(g, n);
    } else {
      var before := moves[..|moves| - 1];
      ServersStayGood(g, n, before);
      ServersStayInGrace(g, n, before);
      MovesStayInGrace(g, ServerAfter(g, n, before), moves[|moves| - 1], BeganAt(g, n, before),
                       GraceIsOver(g, n, before));
    }
  }

  lemma StartIsInGrace(g: Config, n: nat)
    ensures InGrace(g, Started(n), None, false)
  {
  }

  /**
   The main reactor drains until the time at which it began to, plus the configured grace; so does each loop
   that drains, and each that was told to stop.
   */
  lemma DeadlineIsTheGracePeriod(g: Config, n: nat, moves: seq<Move>, i: nat)
    requires Configured(g, n) && IsServerRun(g, n, moves) && i < n
    ensures |ServerAfter(g, n, moves).loops| == n
    ensures
      var v, began := ServerAfter(g, n, moves), BeganAt(g, n, moves);
      && (v.main.state == Draining ==> began.Some? && v.main.deadline == began.value + g.gracefulTimeout)
      && (v.loops[i].control.stop ==>
            began.Some? && v.loops[i].control.deadline == began.value + g.gracefulTimeout)
      && (v.loops[i].reactor.state == Draining ==>
            began.Some? && v.loops[i].reactor.deadline == began.value + g.gracefulTimeout)
  {
    hide ServerAfter, IsServerRun, BeganAt, GraceIsOver, Good, Healthy, PcFits, StopsKnown, NotifiersKnown,
      TurnFits, ForcesKnown, NoLostWakeup, SeenIsDone;
    ServersStayGood(g, n, moves);
    GoodParts(g, ServerAfter(g, n, moves));
    ServersStayInGrace(g, n, moves);
    var v := ServerAfter(g, n, moves);
    assert Steady(g.options, v.loops[i]) && ToldFits(v.main, i, v.loops[i]);
  }

  /**
   On every run, if any client was ever forced off, or any loop asked to force its clients, then the grace
   period was over, or the main reactor had failed.
   */
  lemma NobodyIsForcedInGrace(g: Config, n: nat, moves: seq<Move>, i: nat)
    requires Configured(g, n) && IsServerRun(g, n, moves) && i < n
    ensures |ServerAfter(g, n, moves).loops| == n
    ensures
      var v := ServerAfter(g, n, moves);
      v.loops[i].reactor.forced > 0 || v.loops[i].control.force || v.main.forceStopSent ==>
        v.main.aborted || GraceIsOver(g, n, moves)
  {
    hide ServerAfter, IsServerRun, BeganAt, GraceIsOver, Good, Place;
    ServersStayGood(g, n, moves);
    ServersStayInGrace(g, n, moves);
  }

  /** In particular no turn of a loop that ends within the grace period forces anyone, whatever anyone was asked. */
  lemma TurnsInGraceForceNobody(g: Config, n: nat, moves: seq<Move>, i: nat, now: int)
    requires Configured(g, n) && IsServerRun(g, n, moves + [InLoop(i, Finish(now))]) && i < n
    requires IsServerRun(g, n, moves) && BeganAt(g, n, moves).Some?
    requires now < BeganAt(g, n, moves).value + g.gracefulTimeout
    ensures |ServerAfter(g, n, moves).loops| == |ServerAfter(g, n, moves + [InLoop(i, Finish(now))]).loops| == n
    ensures ServerAfter(g, n, moves + [InLoop(i, Finish(now))]).loops[i].reactor.forced
            == ServerAfter(g, n, moves).loops[i].reactor.forced
  {
    hide Can, NextMain, Good, BeganAt, Do, Enabled;
    var move, v := InLoop(i, Finish(now)), ServerAfter(g, n, moves);
    assert (moves + [move])[..|moves|] == moves;
    ServersStayGood(g, n, moves);
    ServersStayGood(g, n, moves + [move]);
    DeadlineIsTheGracePeriod(g, n, moves, i);
    TouchedIsEnabled(g, v, move);
    StepsFailAndForceForCause(g.options, g.capacity, v.loops[i], Finish(now));
  }

  /** A sub-reactor goes on serving until the server shuts down, its main reactor fails, or it fails itself. */
  lemma LoopsServeUntilTold(g: Config, n: nat, moves: seq<Move>, i: nat)
    requires Configured(g, n) && IsServerRun(g, n, moves) && i < n
    ensures |ServerAfter(g, n, moves).loops| == n
    ensures
      var v := ServerAfter(g, n, moves);
      v.loops[i].reactor.state == Running || v.loops[i].reactor.failed || v.main.state != Running || v.main.aborted
  {
    hide ServerAfter, IsServerRun, BeganAt, GraceIsOver, Good, Place;
    ServersStayGood(g, n, moves);
    ServersStayInGrace(g, n, moves);
  }
}
