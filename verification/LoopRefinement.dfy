/** The methods of `SubReactor` do what the event loop's steps, one after the other, do. */
module LoopRefinements {
  import opened Basics
  import opened Sessions
  import opened Reactors
  import opened EventLoops
  import opened SubReactors

  /** These steps, in this order, lead from `s` to `s'`. */
  ghost predicate Leads(o: Options, capacity: nat, s: EventLoop, steps: seq<Step>, s': EventLoop)
    decreases |steps|
  {
    if steps == [] then s' == s
    else Enabled(o, s, steps[0]) && Leads(o, capacity, Do(o, capacity, s, steps[0]), steps[1..], s')
  }

  lemma LeadsFirst(o: Options, capacity: nat, s: EventLoop, step: Step, steps: seq<Step>, s': EventLoop)
    requires Enabled(o, s, step) && Leads(o, capacity, Do(o, capacity, s, step), steps, s')
    ensures Leads(o, capacity, s, [step] + steps, s')
  {
    hide Enabled, Do;
    assert ([step] + steps)[1..] == steps;
  }

  lemma {:induction false} LeadsOn(o: Options, capacity: nat, s: EventLoop, steps: seq<Step>, s': EventLoop,
                                   more: seq<Step>, s'': EventLoop)
    requires Leads(o, capacity, s, steps, s') && Leads(o, capacity, s', more, s'')
    ensures Leads(o, capacity, s, steps + more, s'')
    decreases |steps|
  {
    hide Enabled, Do;
    if steps == [] {
      assert steps + more == more;
    } else {
      LeadsOn(o, capacity, Do(o, capacity, s, steps[0]), steps[1..], s', more, s'');
      assert (steps + more)[1..] == steps[1..] + more;
    }
  }

  // ------------------------------------------------------------ acting on a control record

  /** New clients enter one at a time, the i-th with the poller's answer `adds(i)`. */
  lemma {:induction false} ClientsEnterByStep(o: Options, capacity: nat, s: EventLoop, fds: seq<nat>,
                                              adds: nat -> bool, k: nat)
    returns (steps: seq<Step>)
    requires k <= |fds| && s.pc.Taken? && !s.pc.snapshot.force && !s.pc.snapshot.stop && s.pc.snapshot.pending == fds
    ensures Leads(o, capacity, s, steps, Entering(s, fds, adds, k))
    decreases k
  {
    hide AddClient;
    if k == 0 {
      steps := [];
      assert fds[..0] == [] && fds[0..] == fds;
    } else {
      var before := ClientsEnterByStep(o, capacity, s, fds, adds, k - 1);
      var middle, step := Entering(s, fds, adds, k - 1), HandleClient(adds(k - 1));
      assert fds[..k][..k - 1] == fds[..k - 1] && fds[..k][k - 1] == fds[k - 1];
      assert fds[k - 1..][0] == fds[k - 1] && fds[k - 1..][1..] == fds[k..];
      assert Do(o, capacity, middle, step) == Entering(s, fds, adds, k);
      LeadsFirst(o, capacity, middle, step, [], Entering(s, fds, adds, k));
      assert [step] + [] == [step];
      LeadsOn(o, capacity, s, before, middle, [step], Entering(s, fds, adds, k));
      steps := before + [step];
    }
  }

  /** The loop with the first `k` of the clients it has taken added. */
  ghost function Entering(s: EventLoop, fds: seq<nat>, adds: nat -> bool, k: nat): EventLoop
    requires k <= |fds| && s.pc.Taken?
  {
    s.(reactor := AddedClients(s.reactor, fds[..k], adds),
       pc := Taken(s.pc.snapshot.(pending := fds[k..]), s.pc.ready))
  }

  /**
   Taking the control record and acting on all of it, step by step, leaves the reactor, the record and
   the loop as `SubReactor.ProcessControlRequests` does.
   */
  lemma ControlIsObeyedByStep(o: Options, capacity: nat, s: EventLoop, adds: nat -> bool) returns (steps: seq<Step>)
    requires s.pc.Drained? && Tidy(s.reactor.clients) && s.reactor.state != Stopped
    ensures Leads(o, capacity, s, steps, Obedient(o, s, adds))
  {
    hide Leads, ForceStop, BeginGraceful, AddedClients, Tidy;
    var taken := Do(o, capacity, s, Swap);
    var c, r := s.control, s.reactor;
    NoStepsLead(o, capacity, Obedient(o, s, adds));
    if c.force {
      ForceStopStops(Dropping(r, c.pending));
      LeadsFirst(o, capacity, taken, HandleForce, [], Obedient(o, s, adds));
      steps := [HandleForce] + [];
    } else if c.stop {
      LeadsFirst(o, capacity, taken, HandleStop, [], Obedient(o, s, adds));
      steps := [HandleStop] + [];
    } else {
      var entering := ClientsEnterByStep(o, capacity, taken, c.pending, adds, |c.pending|);
      assert c.pending[..|c.pending|] == c.pending;
      var entered := Entering(taken, c.pending, adds, |c.pending|);
      AddingKeepsRunning(r, c.pending, adds);
      LeadsFirst(o, capacity, entered, HandleDone, [], Obedient(o, s, adds));
      LeadsOn(o, capacity, taken, entering, entered, [HandleDone] + [], Obedient(o, s, adds));
      steps := entering + ([HandleDone] + []);
    }
    LeadsFirst(o, capacity, s, Swap, steps, Obedient(o, s, adds));
    steps := [Swap] + steps;
  }

  lemma NoStepsLead(o: Options, capacity: nat, s: EventLoop)
    ensures Leads(o, capacity, s, [], s)
  {
  }

  lemma {:induction false} AddingKeepsRunning(r: Reactor, fds: seq<nat>, adds: nat -> bool)
    ensures AddedClients(r, fds, adds).state == r.state
  {
    if fds != [] {
      AddingKeepsRunning(r, fds[..|fds| - 1], adds);
    }
  }

  /** The loop having obeyed its control record. */
  ghost function Obedient(o: Options, s: EventLoop, adds: nat -> bool): EventLoop
    requires s.pc.Drained? && Tidy(s.reactor.clients)
  {
    var r := Obeyed(o, s.reactor, s.control, adds);
    var taken := s.(control := s.control.(pending := []), unseen := false, reactor := r);
    if r.state == Stopped then taken.(pc := Exited) else taken.(pc := Serving(s.pc.ready))
  }

  // ------------------------------------------------------------ handling a report

  lemma {:induction false} RequestsAreAnsweredByStep(o: Options, capacity: nat, s: EventLoop, responses: seq<bytes>)
    returns (steps: seq<Step>)
    requires s.pc.Answering? && Tidy(s.reactor.clients)
    ensures Leads(o, capacity, s, steps, s.(reactor := AllAnswered(o, s.reactor, s.pc.report.fd, responses)))
    decreases |responses|
  {
    hide RequestAnswered, Tidy;
    var fd := s.pc.report.fd;
    if responses == [] || !HasMore(s.reactor.clients, fd) {
      steps := [];
    } else {
      AnsweringKeepsTidy(o, s.reactor, fd, responses[0]);
      var step := AnswerRequest(responses[0]);
      var answered := Do(o, capacity, s, step);
      steps := RequestsAreAnsweredByStep(o, capacity, answered, responses[1..]);
      LeadsFirst(o, capacity, s, step, steps, s.(reactor := AllAnswered(o, s.reactor, fd, responses)));
      steps := [step] + steps;
    }
  }

  lemma AnsweringKeepsTidy(o: Options, r: Reactor, fd: nat, response: bytes)
    requires Tidy(r.clients) && HasMore(r.clients, fd)
    ensures Tidy(RequestAnswered(o, r, fd, response).clients)
  {
    hide ProcessPayload;
  }

  lemma BeginningKeepsTidy(o: Options, r: Reactor, fd: nat, ready: Ready)
    requires Tidy(r.clients)
    ensures Tidy(ReportBegun(o, r, fd, ready).clients)
  {
    hide BeginReport;
  }

  /** A report handled step by step leaves the reactor as `SubReactor.HandleReport` does. */
  lemma ReportIsHandledByStep(o: Options, capacity: nat, s: EventLoop, responses: seq<bytes>) returns (steps: seq<Step>)
    requires s.pc.Serving? && s.pc.ready != [] && Tidy(s.reactor.clients)
    requires BringsEnough(o, s.reactor, s.pc.ready[0].fd, s.pc.ready[0].ready, responses)
    ensures
      var report := s.pc.ready[0];
      var s' := s.(reactor := Reported(o, s.reactor, report.fd, report.ready, responses),
                   pc := Serving(s.pc.ready[1..]));
      Leads(o, capacity, s, steps, s')
  {
    hide Leads, ReportBegun, AllAnswered, ReportEnded, Tidy, HasMore;
    var report := s.pc.ready[0];
    BeginningKeepsTidy(o, s.reactor, report.fd, report.ready);
    var begun := Do(o, capacity, s, TakeReport);
    var answering := RequestsAreAnsweredByStep(o, capacity, begun, responses);
    var answered := begun.(reactor := AllAnswered(o, begun.reactor, report.fd, responses));
    var ended := Do(o, capacity, answered, LeaveReport);
    NoStepsLead(o, capacity, ended);
    LeadsFirst(o, capacity, answered, LeaveReport, [], ended);
    LeadsOn(o, capacity, begun, answering, answered, [LeaveReport] + [], ended);
    LeadsFirst(o, capacity, s, TakeReport, answering + ([LeaveReport] + []), ended);
    steps := [TakeReport] + (answering + ([LeaveReport] + []));
  }
}
