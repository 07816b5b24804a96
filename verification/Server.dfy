/**
 The whole server after start-up: the main reactor accepting clients and shutting down, one event loop
 per sub-reactor, the one store they share, the sweeper, and other threads asking the server to stop,
 interleaved one step at a time. A request is executed in one step, under the store's mutex.
 */
module Servers {
  import opened Basics
  import opened Sessions
  import opened Reactors
  import opened EventLoops
  import opened ServiceRuns
  import StoreModel

  datatype Config = Config(options: Options, capacity: nat, maxAccepts: nat, gracefulTimeout: int)

  /** Where the main reactor is. `Notifying` is between a critical section on a sub-reactor and its `Notify`. */
  datatype MainPc =
    | AtWait
    | Deciding(stop: bool, listen: bool)
    | Telling(next: nat)
    | Inspecting(next: nat, listen: bool)
    | Accepting(count: nat)
    | InHand(fd: nat, count: nat)
    | Checking(next: nat, all: bool)
    | Forcing(next: nat)
    | Aborting(next: nat)
    | Joining(next: nat)
    | Notifying(loop: nat, resume: MainPc)
    | Gone

  /** `offered` counts the connections offered to each sub-reactor; `accepted` and `closed` collect descriptors. */
  datatype Ledger = Ledger(
    nextLoop: nat,
    rounds: nat,
    offered: seq<nat>,
    accepted: multiset<nat>,
    closed: multiset<nat>)

  /** `sawStop` is whether a stop had been asked for when `Wait` last returned. */
  datatype Main = Main(
    state: ServerState,
    pc: MainPc,
    stopRequested: bool,
    sawStop: bool,
    deadline: int,
    forceStopSent: bool,
    aborted: bool,
    ledger: Ledger)

  /** `history` is all that has happened to the store, whose contents are `Current(history)`. */
  datatype Server = Server(main: Main, loops: seq<EventLoop>, history: Service)

  function Started(n: nat): Server {
    var ledger := Ledger(0, 0, seq(n, i => 0), multiset{}, multiset{});
    Server(Main(Running, AtWait, false, false, 0, false, false, ledger), seq(n, i => LAUNCHED), Untouched)
  }

  datatype Move =
    | InLoop(loop: nat, step: Step)
    | ExecuteRequest(loop: nat, now: int, response: bytes, after: StoreModel.Store)
    | SweepStore(now: int, budget: nat, answer: StoreModel.Answer, after: StoreModel.Store)
    | AskStop
    | MainWaits(stopEvent: bool, listen: bool)
    | Decide(now: int)
    | Tell
    | MainNotifies
    | Inspect(now: int)
    | AcceptOne(fd: nat) | AcceptNone | StopAccepting
    | Offer(ready: bool)
    | Check(now: int)
    | ForceOne
    | MainThrows
    | AbortOne
    | Join

  /** Descriptors accepted and still open, wherever they are. */
  function HeldParts(loops: seq<EventLoop>): seq<multiset<nat>> {
    seq(|loops|, i requires 0 <= i < |loops| => Held(loops[i]))
  }

  function Carried(pc: MainPc): multiset<nat> {
    if pc.InHand? then multiset{pc.fd} else multiset{}
  }

  ghost function StillOpen(v: Server): multiset<nat> {
    Carried(v.main.pc) + Gather(HeldParts(v.loops))
  }

  /** What the loop's thread does by itself. */
  predicate IsOwn(step: Step) {
    IsLoops(step) && !step.AnswerRequest?
  }

  predicate IsLoops(step: Step) {
    !step.RecordClient? && !step.RecordStop? && !step.RecordForce? && !step.Notify?
  }

  /** The request a loop is about to execute, and whose it is. */
  function NextRequest(s: EventLoop): bytes
    requires s.pc.Answering? && HasMore(s.reactor.clients, s.pc.report.fd)
  {
    s.reactor.clients[s.pc.report.fd].todo[0]
  }

  function Requester(i: nat, s: EventLoop): Client
    requires s.pc.Answering?
  {
    Client(i, s.pc.report.fd)
  }

  /** The main reactor is where this move of its begins. */
  predicate Due(main: Main, move: Move) {
    match move
    case InLoop(_, _) => true
    case ExecuteRequest(_, _, _, _) => true
    case SweepStore(_, _, _, _) => true
    case AskStop => true
    case MainWaits(_, _) => main.pc.AtWait?
    case Decide(_) => main.pc.Deciding?
    case Tell => main.pc.Telling?
    case MainNotifies => main.pc.Notifying?
    case Inspect(_) => main.pc.Inspecting?
    case AcceptOne(_) => main.pc.Accepting?
    case AcceptNone => main.pc.Accepting?
    case StopAccepting => main.pc.Accepting?
    case Offer(_) => main.pc.InHand?
    case Check(_) => main.pc.Checking?
    case ForceOne => main.pc.Forcing?
    case MainThrows => main.pc.AtWait? || main.pc.Deciding? || main.pc.Accepting?
    case AbortOne => main.pc.Aborting?
    case Join => main.pc.Joining?
  }

  /** What else the move waits for, in the loops and in the kernel. */
  ghost predicate Permitted(g: Config, v: Server, move: Move)
    requires Due(v.main, move)
  {
    var pc, n := v.main.pc, |v.loops|;
    match move
    case InLoop(i, step) => i < n && IsOwn(step) && Enabled(g.options, v.loops[i], step)
    case ExecuteRequest(i, now, response, after) =>
      && i < n && Enabled(g.options, v.loops[i], AnswerRequest(response))
      && IsPast(v.history, now) && Handles(Current(v.history), now, NextRequest(v.loops[i]), response, after)
    case SweepStore(now, budget, answer, after) =>
      IsPast(v.history, now) && answer.Swept? && StoreModel.Sweeps(Current(v.history), now, budget, answer, after)
    case MainNotifies => pc.loop < n && v.loops[pc.loop].notifying > 0
    case AcceptOne(fd) => pc.count < g.maxAccepts && fd !in StillOpen(v)
    case AcceptNone => pc.count < g.maxAccepts
    case StopAccepting => pc.count >= g.maxAccepts
    case Offer(_) => v.main.ledger.nextLoop < n && |v.main.ledger.offered| == n
    case Join => pc.next < n ==> v.loops[pc.next].pc.Exited?
    case _ => true
  }

  ghost predicate Can(g: Config, v: Server, move: Move) {
    Due(v.main, move) && Permitted(g, v, move)
  }

  // ------------------------------------------------------------ the loop a move touches

  datatype LoopStep = LoopStep(loop: nat, step: Step)

  /**
   The step a move makes in one of the loops: the loop's own, or the main reactor's in its control record or
   channel.
  */
  function Touched(v: Server, move: Move): Option<LoopStep> {
    var pc, n := v.main.pc, |v.loops|;
    match move
    case InLoop(i, step) => Some(LoopStep(i, step))
    case ExecuteRequest(i, _, response, _) => Some(LoopStep(i, AnswerRequest(response)))
    case Tell => if pc.Telling? && pc.next < n then Some(LoopStep(pc.next, RecordStop(v.main.deadline))) else None
    case MainNotifies => if pc.Notifying? then Some(LoopStep(pc.loop, Notify)) else None
    case Offer(ready) =>
      var i := v.main.ledger.nextLoop;
      if ready && pc.InHand? && i < n && Accepts(v.loops[i]) then Some(LoopStep(i, RecordClient(pc.fd))) else None
    case ForceOne =>
      if pc.Forcing? && pc.next < n && v.loops[pc.next].reactor.state != Stopped
      then Some(LoopStep(pc.next, RecordForce))
      else None
    case AbortOne => if pc.Aborting? && pc.next < n then Some(LoopStep(pc.next, RecordForce)) else None
    case _ => None
  }

  lemma TouchedIsEnabled(g: Config, v: Server, move: Move)
    requires Can(g, v, move) && Touched(v, move).Some?
    ensures
      var t := Touched(v, move).value;
      t.loop < |v.loops| && Enabled(g.options, v.loops[t.loop], t.step)
  {
    hide StillOpen;
  }

  /** The destruction of a sub-reactor that has exited closes what was never taken from its queue. */
  function Destroyed(s: EventLoop): EventLoop {
    s.(control := s.control.(pending := []), reactor := Dropping(s.reactor, s.control.pending))
  }

  /** Every thread is joined, and the sub-reactors are destroyed. */
  predicate Destroys(v: Server, move: Move) {
    move.Join? && v.main.pc.Joining? && v.main.pc.next >= |v.loops|
  }

  ghost function NextLoops(g: Config, v: Server, move: Move): (loops: seq<EventLoop>)
    requires Can(g, v, move)
    ensures |loops| == |v.loops|
  {
    var t := Touched(v, move);
    if t.Some? then
      TouchedIsEnabled(g, v, move);
      v.loops[t.value.loop := Do(g.options, g.capacity, v.loops[t.value.loop], t.value.step)]
    else if Destroys(v, move) then seq(|v.loops|, i requires 0 <= i < |v.loops| => Destroyed(v.loops[i]))
    else v.loops
  }

  // ------------------------------------------------------------ the main reactor

  function At(main: Main, pc: MainPc): Main {
    main.(pc := pc)
  }

  /** `BeginGracefulShutdown`, up to telling the sub-reactors. */
  function BeginShutdown(g: Config, main: Main, now: int): Main {
    main.(state := Draining, deadline := now + g.gracefulTimeout, pc := Telling(0))
  }

  function AfterOffer(l: Ledger): Ledger {
    var i := l.nextLoop;
    if i >= |l.offered| then l
    else
      var counted := l.(offered := l.offered[i := l.offered[i] + 1]);
      if i + 1 < |l.offered| then counted.(nextLoop := i + 1) else counted.(nextLoop := 0, rounds := l.rounds + 1)
  }

  function Accepted(l: Ledger, fd: nat): Ledger {
    l.(accepted := l.accepted + multiset{fd})
  }

  function Refused(main: Main, ledger: Ledger, fd: nat, count: nat): Main {
    main.(pc := Accepting(count), ledger := ledger.(closed := ledger.closed + multiset{fd}))
  }

  function Awake(main: Main, stop: bool, listen: bool): Main {
    main.(pc := Deciding(stop, listen), sawStop := stop)
  }

  function Decided(g: Config, main: Main, pc: MainPc, now: int): Main
    requires pc.Deciding?
  {
    if main.state != Running then At(main, Checking(0, true))
    else if pc.stop then BeginShutdown(g, main, now)
    else At(main, Inspecting(0, pc.listen))
  }

  function Inspected(g: Config, v: Server, pc: MainPc, now: int): Main
    requires pc.Inspecting?
  {
    if pc.next >= |v.loops| && pc.listen then At(v.main, Accepting(0))
    else if pc.next >= |v.loops| then At(v.main, AtWait)
    else if v.loops[pc.next].reactor.failed then BeginShutdown(g, v.main, now)
    else At(v.main, Inspecting(pc.next + 1, pc.listen))
  }

  /** The sub-reactor whose turn it is may have been told to stop, and then refuses. */
  function Offered(v: Server, pc: MainPc, ready: bool): Main
    requires pc.InHand?
  {
    var l := v.main.ledger;
    if !ready then Refused(v.main, l, pc.fd, pc.count)
    else if l.nextLoop < |v.loops| && Accepts(v.loops[l.nextLoop]) then
      v.main.(pc := Notifying(l.nextLoop, Accepting(pc.count)), ledger := AfterOffer(l))
    else Refused(v.main, AfterOffer(l), pc.fd, pc.count)
  }

  function Checked(v: Server, pc: MainPc, now: int): Main
    requires pc.Checking?
  {
    if pc.next < |v.loops| && pc.all && v.loops[pc.next].reactor.state == Stopped
      then At(v.main, Checking(pc.next + 1, true))
    else if pc.next < |v.loops| then At(v.main, Checking(pc.next + 1, false))
    else if pc.all then v.main.(state := Stopped, pc := Joining(0))
    else if !v.main.forceStopSent && now >= v.main.deadline then At(v.main, Forcing(0))
    else At(v.main, AtWait)
  }

  function Forced(v: Server, pc: MainPc): Main
    requires pc.Forcing?
  {
    if pc.next >= |v.loops| then v.main.(forceStopSent := true, pc := AtWait)
    else if v.loops[pc.next].reactor.state == Stopped then At(v.main, Forcing(pc.next + 1))
    else At(v.main, Notifying(pc.next, Forcing(pc.next + 1)))
  }

  function NextMain(g: Config, v: Server, move: Move): Main
    requires Due(v.main, move)
  {
    var main, pc, n := v.main, v.main.pc, |v.loops|;
    match move
    case InLoop(_, _) => main
    case ExecuteRequest(_, _, _, _) => main
    case SweepStore(_, _, _, _) => main
    case AskStop => main.(stopRequested := true)
    case MainWaits(stopEvent, listen) => Awake(main, stopEvent || main.stopRequested, listen)
    case Decide(now) => Decided(g, main, pc, now)
    case Tell => if pc.next < n then At(main, Notifying(pc.next, Telling(pc.next + 1))) else At(main, Checking(0, true))
    case MainNotifies => At(main, pc.resume)
    case Inspect(now) => Inspected(g, v, pc, now)
    case AcceptOne(fd) => main.(pc := InHand(fd, pc.count + 1), ledger := Accepted(main.ledger, fd))
    case AcceptNone => At(main, AtWait)
    case StopAccepting => At(main, AtWait)
    case Offer(ready) => Offered(v, pc, ready)
    case Check(now) => Checked(v, pc, now)
    case ForceOne => Forced(v, pc)
    case MainThrows => main.(aborted := true, pc := Aborting(0))
    case AbortOne => if pc.next < n then At(main, Notifying(pc.next, Aborting(pc.next + 1))) else At(main, Joining(0))
    case Join => if pc.next < n then At(main, Joining(pc.next + 1)) else main.(state := Stopped, pc := Gone)
  }

  // ------------------------------------------------------------ the store

  /** The client a step of this loop lets into the table. */
  function Entrant(i: nat, s: EventLoop, step: Step): Option<Client> {
    if step.HandleClient? && step.pollerAdds && s.pc.Taken? && s.pc.snapshot.pending != []
       && s.pc.snapshot.pending[0] !in s.reactor.clients
    then Some(Client(i, s.pc.snapshot.pending[0]))
    else None
  }

  function WithAdmitted(t: Service, who: Option<Client>): Service {
    if who.Some? then Admitted(t, who.value) else t
  }

  function WithServed(t: Service, i: nat, s: EventLoop, now: int, response: bytes, after: StoreModel.Store): Service {
    if s.pc.Answering? && HasMore(s.reactor.clients, s.pc.report.fd)
    then Served(t, Requester(i, s), now, NextRequest(s), response, after)
    else t
  }

  function NextHistory(v: Server, move: Move): Service {
    match move
    case InLoop(i, step) => if i < |v.loops| then WithAdmitted(v.history, Entrant(i, v.loops[i], step)) else v.history
    case ExecuteRequest(i, now, response, after) =>
      if i < |v.loops| then WithServed(v.history, i, v.loops[i], now, response, after) else v.history
    case SweepStore(now, budget, answer, after) => Cleaned(v.history, now, budget, answer, after)
    case _ => v.history
  }

  ghost function NextServer(g: Config, v: Server, move: Move): Server
    requires Can(g, v, move)
  {
    Server(NextMain(g, v, move), NextLoops(g, v, move), NextHistory(v, move))
  }
}
