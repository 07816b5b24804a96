/** What every interleaving of the main reactor, the event loops and the outside world keeps. */
module ServerRuns {
  import opened Sessions
  import opened Reactors
  import opened EventLoops
  import opened Servers

  // ------------------------------------------------------------ the loops

  ghost predicate AllSteady(g: Config, v: Server) {
    forall i :: 0 <= i < |v.loops| ==> Steady(g.options, v.loops[i])
  }

  lemma DestroyedIsSteady(o: Options, s: EventLoop)
    requires Steady(o, s) && s.pc.Exited?
    ensures Steady(o, Destroyed(s))
  {
    hide Healthy, ClosedClients, Dropping;
    DroppingKeepsHealthy(o, s.reactor, s.control.pending);
    DroppingIsHarmless(s.reactor, s.control.pending);
  }

  lemma DroppingIsHarmless(r: Reactor, fds: seq<nat>)
    ensures Dropping(r, fds) == r.(released := r.released + multiset(fds))
  {
  }

  lemma MovesKeepSteady(g: Config, v: Server, move: Move)
    requires g.capacity > 0 && AllSteady(g, v) && Can(g, v, move)
    requires Destroys(v, move) ==> forall i :: 0 <= i < |v.loops| ==> v.loops[i].pc.Exited?
    ensures AllSteady(g, NextServer(g, v, move))
  {
    hide Can, NextMain, Touched, Enabled, Do, Steady, Destroyed;
    var touched, v' := Touched(v, move), NextServer(g, v, move);
    forall i | 0 <= i < |v'.loops|
      ensures Steady(g.options, v'.loops[i])
    {
      assert Steady(g.options, v.loops[i]);
      if touched.Some? {
        TouchedIsEnabled(g, v, move);
      }
      if touched.Some? && touched.value.loop == i {
        StepsStaySteady(g.options, g.capacity, v.loops[i], touched.value.step);
      } else if Destroys(v, move) {
        DestroyedIsSteady(g.options, v.loops[i]);
      }
    }
  }

  // ------------------------------------------------------------ the main reactor's place

  /** Where the main reactor is, looking past a `Notify` it is about to make. */
  function Place(pc: MainPc): MainPc {
    if pc.Notifying? then pc.resume else pc
  }

  predicate Resumes(pc: MainPc) {
    pc.Telling? || pc.Accepting? || pc.Forcing? || pc.Aborting?
  }

  predicate PcFits(main: Main, n: nat) {
    && (main.pc.Notifying? ==> main.pc.loop < n && Resumes(main.pc.resume))
    && Allowed(Place(main.pc), main.state, main.aborted)
  }

  predicate Allowed(place: MainPc, state: ServerState, aborted: bool) {
    match place
    case Telling(_) => state == Draining && !aborted
    case Checking(_, _) => state == Draining && !aborted
    case Forcing(_) => state == Draining && !aborted
    case Inspecting(_, _) => state == Running && !aborted
    case Accepting(_) => state == Running && !aborted
    case InHand(_, _) => state == Running && !aborted
    case AtWait => (state == Running || state == Draining) && !aborted
    case Deciding(_, _) => (state == Running || state == Draining) && !aborted
    case Aborting(_) => (state == Running || state == Draining) && aborted
    case Joining(_) => if aborted then state == Running || state == Draining else state == Stopped
    case Gone => state == Stopped
    case Notifying(_, _) => false
  }

  lemma OfferKeepsPcFits(v: Server, ready: bool)
    requires PcFits(v.main, |v.loops|) && v.main.pc.InHand?
    ensures PcFits(Offered(v, v.main.pc, ready), |v.loops|)
  {
    hide AfterOffer, Accepts;
  }

  lemma MovesKeepPcFits(g: Config, v: Server, move: Move)
    requires PcFits(v.main, |v.loops|) && Due(v.main, move)
    ensures PcFits(NextMain(g, v, move), |v.loops|)
  {
    hide Offered;
    if move.Offer? {
      OfferKeepsPcFits(v, move.ready);
    }
  }

  // ------------------------------------------------------------ one turn of the main reactor

  /** A turn that saw a stop accepts nobody, and no turn accepts more than its share. */
  predicate TurnFits(main: Main, maxAccepts: nat) {
    match Place(main.pc)
    case Deciding(stop, _) => stop == main.sawStop
    case Inspecting(_, _) => !main.sawStop
    case Accepting(count) => !main.sawStop && count <= maxAccepts
    case InHand(_, count) => !main.sawStop && count <= maxAccepts
    case _ => true
  }

  lemma OfferKeepsTurn(v: Server, ready: bool, maxAccepts: nat)
    requires TurnFits(v.main, maxAccepts) && v.main.pc.InHand?
    ensures TurnFits(Offered(v, v.main.pc, ready), maxAccepts)
  {
    hide Accepts;
  }

  lemma MovesKeepTurn(g: Config, v: Server, move: Move)
    requires TurnFits(v.main, g.maxAccepts) && PcFits(v.main, |v.loops|) && Due(v.main, move)
    requires move.AcceptOne? ==> v.main.pc.count < g.maxAccepts
    ensures TurnFits(NextMain(g, v, move), g.maxAccepts)
  {
    hide AfterOffer, Offered, Accepts;
    if move.Offer? {
      OfferKeepsTurn(v, move.ready, g.maxAccepts);
    }
  }

  // ------------------------------------------------------------ what a step may change for the main reactor

  lemma StepNotifies(o: Options, capacity: nat, s: EventLoop, step: Step)
    requires Enabled(o, s, step)
    ensures
      var s' := Do(o, capacity, s, step);
      s'.notifying == (if step.Notify? then s.notifying - 1 else if IsLoops(step) then s.notifying else s.notifying + 1)
  {
    hide Tidy, FinishTurn, ForceStop, BeginGraceful, AddClient, ReportBegun, RequestAnswered, ReportEnded, Fail,
      Dropping;
  }

  lemma StepKeepsRequests(o: Options, capacity: nat, s: EventLoop, step: Step)
    requires Enabled(o, s, step)
    ensures
      var c, c' := s.control, Do(o, capacity, s, step).control;
      if step.RecordStop? then c' == WithStop(c, step.deadline) else c'.stop == c.stop && c'.deadline == c.deadline
  {
    hide Tidy, FinishTurn, ForceStop, BeginGraceful, AddClient, ReportBegun, RequestAnswered, ReportEnded, Fail,
      Dropping;
  }

  lemma CanIsDue(g: Config, v: Server, move: Move)
    requires Can(g, v, move)
    ensures Due(v.main, move) && (move.InLoop? ==> IsLoops(move.step))
    ensures move.Join? && v.main.pc.next < |v.loops| ==> v.loops[v.main.pc.next].pc.Exited?
  {
    hide Enabled, StillOpen;
  }

  // ------------------------------------------------------------ who is notifying

  function Notifiers(pc: MainPc, i: nat): nat {
    if pc.Notifying? && pc.loop == i then 1 else 0
  }

  predicate NotifiersKnown(v: Server) {
    forall i :: 0 <= i < |v.loops| ==> v.loops[i].notifying == Notifiers(v.main.pc, i)
  }

  /** What a step does to the number of notifies on their way to a loop. */
  function Notifies(step: Step): int {
    if step.Notify? then -1 else if IsLoops(step) then 0 else 1
  }

  /** The main reactor comes to a notify exactly by recording something, and leaves it by making it. */
  lemma MainNotifiesAfterRecording(g: Config, v: Server, move: Move, i: nat)
    requires Due(v.main, move) && PcFits(v.main, |v.loops|) && i < |v.loops|
    requires move.InLoop? ==> IsLoops(move.step)
    ensures
      var t := Touched(v, move);
      Notifiers(NextMain(g, v, move).pc, i)
      == Notifiers(v.main.pc, i) + (if t.Some? && t.value.loop == i then Notifies(t.value.step) else 0)
  {
    hide AfterOffer, Accepts;
  }

  lemma MovesKeepNotifiers(g: Config, v: Server, move: Move)
    requires NotifiersKnown(v) && PcFits(v.main, |v.loops|) && Can(g, v, move)
    ensures NotifiersKnown(NextServer(g, v, move))
  {
    hide Can, Enabled, Do, Touched, NextMain, PcFits, Notifiers, Destroyed;
    CanIsDue(g, v, move);
    var t := Touched(v, move);
    forall i | 0 <= i < |v.loops|
      ensures NextLoops(g, v, move)[i].notifying == Notifiers(NextMain(g, v, move).pc, i)
    {
      MainNotifiesAfterRecording(g, v, move, i);
      if t.Some? && t.value.loop == i {
        TouchedIsEnabled(g, v, move);
        StepNotifies(g.options, g.capacity, v.loops[i], t.value.step);
      } else {
        DestroyedNotifies(v.loops[i]);
      }
    }
  }

  lemma DestroyedNotifies(s: EventLoop)
    ensures Destroyed(s).notifying == s.notifying
  {
  }

  // ------------------------------------------------------------ who has stopped

  /** The loops the main reactor has found stopped, or has joined, are. */
  predicate StopsKnown(v: Server) {
    forall i :: 0 <= i < |v.loops| ==> StopKnown(v.main, i, v.loops[i])
  }

  predicate StopKnown(main: Main, i: nat, s: EventLoop) {
    (main.pc.Checking? && main.pc.all && i < main.pc.next) || (main.pc.Joining? && i < main.pc.next)
      || main.state == Stopped
    ==> s.pc.Exited?
  }

  /** A loop that has exited stays so, whatever anyone does. */
  lemma ExitIsForGood(g: Config, v: Server, move: Move, i: nat)
    requires Can(g, v, move) && i < |v.loops| && v.loops[i].pc.Exited?
    ensures NextLoops(g, v, move)[i].pc.Exited?
  {
    hide Can, Enabled, Do;
    var t := Touched(v, move);
    if t.Some? && t.value.loop == i {
      TouchedIsEnabled(g, v, move);
      ExitedIsOver(g.options, g.capacity, v.loops[i], t.value.step);
    }
  }

  predicate ExitIsStop(v: Server) {
    forall i :: 0 <= i < |v.loops| ==> (v.loops[i].pc.Exited? <==> v.loops[i].reactor.state == Stopped)
  }

  lemma SteadyLoopsExitStopped(g: Config, v: Server)
    requires AllSteady(g, v)
    ensures ExitIsStop(v)
  {
    hide Healthy, SeenIsDone, NoLostWakeup, ClosedClients;
  }

  lemma MainKnowsStops(g: Config, v: Server, move: Move)
    requires StopsKnown(v) && ExitIsStop(v) && PcFits(v.main, |v.loops|) && Due(v.main, move)
    requires move.Join? && v.main.pc.next < |v.loops| ==> v.loops[v.main.pc.next].pc.Exited?
    ensures forall i :: 0 <= i < |v.loops| ==> StopKnown(NextMain(g, v, move), i, v.loops[i])
  {
    hide AfterOffer, Accepts;
  }

  lemma MovesKeepStopsKnown(g: Config, v: Server, move: Move)
    requires StopsKnown(v) && AllSteady(g, v) && PcFits(v.main, |v.loops|) && Can(g, v, move)
    ensures StopsKnown(NextServer(g, v, move))
  {
    hide Can, NextMain, NextLoops, Steady;
    SteadyLoopsExitStopped(g, v);
    CanIsDue(g, v, move);
    MainKnowsStops(g, v, move);
    forall i | 0 <= i < |v.loops| && v.loops[i].pc.Exited?
      ensures NextLoops(g, v, move)[i].pc.Exited?
    {
      ExitIsForGood(g, v, move, i);
    }
  }

  // ------------------------------------------------------------ who has been told to stop

  /** Whatever this loop has been told about a deadline, it was `deadline`. */
  predicate OnDeadline(s: EventLoop, deadline: int) {
    && (s.control.stop ==> s.control.deadline == deadline)
    && (s.pc.Taken? && s.pc.snapshot.stop ==> s.pc.snapshot.deadline == deadline)
    && (s.reactor.state == Draining ==> s.reactor.deadline == deadline)
  }

  lemma UntoldIsOnDeadline(o: Options, s: EventLoop, deadline: int)
    requires Steady(o, s) && !s.control.stop
    ensures OnDeadline(s, deadline)
  {
    hide Healthy, NoLostWakeup, ClosedClients;
  }

  lemma StepKeepsDeadline(o: Options, capacity: nat, s: EventLoop, step: Step, deadline: int)
    requires OnDeadline(s, deadline) && Enabled(o, s, step) && (step.RecordStop? ==> step.deadline == deadline)
    ensures OnDeadline(Do(o, capacity, s, step), deadline)
  {
    hide Tidy, HandleReady, AllDraining, AllClosed, ClosedClients, Told;
  }

  predicate ToldFits(main: Main, i: nat, s: EventLoop) {
    && (main.state == Running ==> !s.control.stop)
    && (main.state == Draining && (Place(main.pc).Telling? ==> i < Place(main.pc).next) ==> s.control.stop)
    && OnDeadline(s, main.deadline)
  }

  predicate AllTold(v: Server) {
    forall i :: 0 <= i < |v.loops| ==> ToldFits(v.main, i, v.loops[i])
  }

  lemma MainKnowsTold(g: Config, v: Server, move: Move, i: nat)
    requires AllTold(v) && AllSteady(g, v) && PcFits(v.main, |v.loops|) && Due(v.main, move) && i < |v.loops|
    requires !move.Tell? && !move.MainNotifies?
    ensures ToldFits(NextMain(g, v, move), i, v.loops[i])
  {
    hide AfterOffer, Accepts, Steady, OnDeadline;
    assert ToldFits(v.main, i, v.loops[i]) && Steady(g.options, v.loops[i]);
    if !v.loops[i].control.stop {
      UntoldIsOnDeadline(g.options, v.loops[i], NextMain(g, v, move).deadline);
    }
  }

  lemma LoopTold(g: Config, v: Server, move: Move, i: nat)
    requires AllTold(v) && Can(g, v, move) && i < |v.loops|
    ensures OnDeadline(NextLoops(g, v, move)[i], v.main.deadline)
    ensures
      var told, told' := v.loops[i].control.stop, NextLoops(g, v, move)[i].control.stop;
      if move.Tell? && v.main.pc.next == i then told' else told' == told
  {
    hide Can, Enabled, Do;
    var t := Touched(v, move);
    assert ToldFits(v.main, i, v.loops[i]);
    TellerIsTelling(g, v, move);
    if t.Some? {
      TouchedIsEnabled(g, v, move);
      if t.value.loop == i {
        TouchTells(g, v, move);
        StepKeepsDeadline(g.options, g.capacity, v.loops[i], t.value.step, v.main.deadline);
        StepKeepsRequests(g.options, g.capacity, v.loops[i], t.value.step);
      }
    }
  }

  lemma TellerIsTelling(g: Config, v: Server, move: Move)
    requires Can(g, v, move)
    ensures move.Tell? ==> v.main.pc.Telling?
  {
    hide Enabled, StillOpen, Accepts;
  }

  lemma TouchTells(g: Config, v: Server, move: Move)
    requires Can(g, v, move) && Touched(v, move).Some?
    ensures
      var t := Touched(v, move).value;
      t.step.RecordStop? <==> move.Tell?
    ensures move.Tell? ==> Touched(v, move).value == LoopStep(v.main.pc.next, RecordStop(v.main.deadline))
  {
    hide Enabled, StillOpen, Accepts;
  }

  /** Telling and notifying change what the main reactor knows only together with the loop it deals with. */
  lemma TellingFits(g: Config, v: Server, move: Move, i: nat, told: EventLoop)
    requires AllTold(v) && PcFits(v.main, |v.loops|) && Can(g, v, move) && i < |v.loops|
    requires move.Tell? || move.MainNotifies?
    requires OnDeadline(told, v.main.deadline)
    requires
      if move.Tell? && v.main.pc.next == i then told.control.stop
      else told.control.stop == v.loops[i].control.stop
    ensures ToldFits(NextMain(g, v, move), i, told)
  {
    hide Enabled, StillOpen, Accepts, OnDeadline;
    assert ToldFits(v.main, i, v.loops[i]);
  }

  lemma LoopsOrDeadlineStay(g: Config, v: Server, move: Move)
    requires Can(g, v, move)
    ensures NextLoops(g, v, move) == v.loops || NextMain(g, v, move).deadline == v.main.deadline
  {
    hide Enabled, StillOpen, Accepts, AfterOffer, Do;
  }

  lemma MovesKeepTold(g: Config, v: Server, move: Move)
    requires AllTold(v) && AllSteady(g, v) && PcFits(v.main, |v.loops|) && Can(g, v, move)
    ensures AllTold(NextServer(g, v, move))
  {
    hide Can, NextMain, NextLoops, AllSteady, OnDeadline, AllTold, PcFits;
    CanIsDue(g, v, move);
    forall i | 0 <= i < |v.loops|
      ensures ToldFits(NextMain(g, v, move), i, NextLoops(g, v, move)[i])
    {
      LoopTold(g, v, move, i);
      if move.Tell? || move.MainNotifies? {
        TellingFits(g, v, move, i, NextLoops(g, v, move)[i]);
      } else {
        MainKnowsTold(g, v, move, i);
        LoopsOrDeadlineStay(g, v, move);
      }
    }
    ToldEverywhere(NextServer(g, v, move));
  }

  lemma ToldEverywhere(v: Server)
    requires forall i :: 0 <= i < |v.loops| ==> ToldFits(v.main, i, v.loops[i])
    ensures AllTold(v)
  {
  }

  // ------------------------------------------------------------ who has been forced to stop

  /** The main reactor has come past this loop in forcing everyone to stop. */
  predicate ForceDue(main: Main, i: nat) {
    var place := Place(main.pc);
    || main.forceStopSent
    || (place.Forcing? && i < place.next)
    || (main.aborted && (place.Aborting? ==> i < place.next))
  }

  predicate ForcesKnown(v: Server) {
    forall i :: 0 <= i < |v.loops| && ForceDue(v.main, i) ==> v.loops[i].control.force || v.loops[i].pc.Exited?
  }

  /** The one move that forces a given loop. */
  predicate ForcesNow(v: Server, move: Move, i: nat) {
    && (move.ForceOne? || move.AbortOne?) && i < |v.loops|
    && (v.main.pc.Forcing? || v.main.pc.Aborting?) && v.main.pc.next == i
  }

  lemma MainForces(g: Config, v: Server, move: Move, i: nat)
    requires Due(v.main, move) && PcFits(v.main, |v.loops|) && i < |v.loops|
    ensures ForceDue(NextMain(g, v, move), i) ==> ForceDue(v.main, i) || ForcesNow(v, move, i)
  {
    hide AfterOffer, Accepts;
  }

  lemma StepKeepsForce(o: Options, capacity: nat, s: EventLoop, step: Step)
    requires Enabled(o, s, step)
    ensures Do(o, capacity, s, step).control.force == (s.control.force || step.RecordForce?)
  {
    hide Tidy, FinishTurn, ForceStop, BeginGraceful, AddClient, ReportBegun, RequestAnswered, ReportEnded, Fail,
      Dropping;
  }

  lemma LoopForced(g: Config, v: Server, move: Move, i: nat)
    requires Can(g, v, move) && i < |v.loops|
    ensures v.loops[i].control.force ==> NextLoops(g, v, move)[i].control.force
    ensures ForcesNow(v, move, i) && v.loops[i].reactor.state != Stopped ==> NextLoops(g, v, move)[i].control.force
  {
    hide Permitted, Enabled, Do;
    var t := Touched(v, move);
    if t.Some? {
      TouchedIsEnabled(g, v, move);
      StepKeepsForce(g.options, g.capacity, v.loops[t.value.loop], t.value.step);
    }
  }

  lemma MovesKeepForces(g: Config, v: Server, move: Move)
    requires ForcesKnown(v) && AllSteady(g, v) && PcFits(v.main, |v.loops|) && Can(g, v, move)
    ensures ForcesKnown(NextServer(g, v, move))
  {
    hide Can, NextMain, NextLoops, AllSteady, PcFits, ForceDue, ForcesNow;
    CanIsDue(g, v, move);
    SteadyLoopsExitStopped(g, v);
    forall i | 0 <= i < |v.loops| && ForceDue(NextMain(g, v, move), i)
      ensures NextLoops(g, v, move)[i].control.force || NextLoops(g, v, move)[i].pc.Exited?
    {
      MainForces(g, v, move, i);
      LoopForced(g, v, move, i);
      if v.loops[i].pc.Exited? {
        ExitIsForGood(g, v, move, i);
      }
    }
  }
}
