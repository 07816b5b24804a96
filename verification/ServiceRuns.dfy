/**
 The history of the shared store: every request of every connection in the one order in which they took
 the store's mutex, sweeps in between, and the moments at which connections joined.
 */
module ServiceRuns {
  import opened Basics
  import opened StoreModel
  import opened StoreRuns
  import opened CommandParser
  import opened CommandExecutor
  import FrameCodec
  import Sessions

  /** A connection while it lasts: the sub-reactor that has it, and its descriptor there. */
  datatype Client = Client(loop: nat, fd: nat)

  datatype Service =
    | Untouched
    | Admitted(before: Service, who: Client)
    | Served(before: Service, who: Client, now: int, payload: bytes, response: bytes, after: Store)
    | Cleaned(before: Service, now: int, budget: nat, answer: Answer, after: Store)

  function Current(t: Service): Store {
    match t
    case Untouched => EMPTY
    case Admitted(before, _) => Current(before)
    case Served(_, _, _, _, _, after) => after
    case Cleaned(_, _, _, _, after) => after
  }

  /** Nothing in the history is later than `now`. */
  predicate IsPast(t: Service, now: int) {
    match t
    case Untouched => true
    case Admitted(before, _) => IsPast(before, now)
    case Served(_, _, time, _, _, _) => time <= now
    case Cleaned(_, time, _, _, _) => time <= now
  }

  lemma {:induction false} PastLater(t: Service, now: int, later: int)
    requires IsPast(t, now) && now <= later
    ensures IsPast(t, later)
  {
    if t.Admitted? {
      PastLater(t.before, now, later);
    }
  }

  const METRICS := Ascii(",connections_active=")

  /**
   What a connection does with one payload under the store's mutex. After the store's counts the `STATS`
   text goes on with metrics, which are not modelled.
   */
  ghost predicate Handles(s: Store, now: int, payload: bytes, response: bytes, s': Store) {
    var cmd := Parse(payload);
    if cmd.kind == Stats then
      s' == s && PlainText(Stats, |PersistentKeys(s.data)|, |ExpiringKeys(s.data)|) + METRICS <= response
    else Executes(s, now, cmd, response, s')
  }

  ghost predicate IsService(t: Service) {
    match t
    case Untouched => true
    case Admitted(before, _) => IsService(before)
    case Served(before, _, now, payload, response, after) =>
      && IsService(before) && IsPast(before, now)
      && |payload| <= FrameCodec.MAX_FRAME_SIZE
      && Handles(Current(before), now, payload, response, after)
    case Cleaned(before, now, budget, answer, after) =>
      && IsService(before) && IsPast(before, now)
      && answer.Swept? && Sweeps(Current(before), now, budget, answer, after)
  }

  /** What the history holds of one connection, since it joined. */
  function Projection(t: Service, who: Client): seq<Sessions.Exchange> {
    match t
    case Untouched => []
    case Admitted(before, client) => if client == who then [] else Projection(before, who)
    case Served(before, client, _, payload, response, _) =>
      if client == who
      then Projection(before, who) + [Sessions.Exchange(payload, response)]
      else Projection(before, who)
    case Cleaned(before, _, _, _, _) => Projection(before, who)
  }

  /** The store requests behind a history. */
  function TraceOf(t: Service): Trace {
    match t
    case Untouched => Start
    case Admitted(before, _) => TraceOf(before)
    case Served(before, _, now, payload, _, after) =>
      var q := RequestOf(Parse(payload));
      if q.Some?
      then Then(TraceOf(before), now, q.value, AnswerTo(Current(before), now, q.value), after)
      else TraceOf(before)
    case Cleaned(before, now, budget, answer, after) => Then(TraceOf(before), now, Sweep(budget), answer, after)
  }

  lemma {:induction false} ServiceIsAStoreRun(t: Service, later: int)
    requires IsService(t) && IsPast(t, later)
    ensures IsRun(TraceOf(t)) && StoreAfter(TraceOf(t)) == Current(t)
    ensures TraceOf(t).Then? ==> TraceOf(t).now <= later
  {
    hide Parse, RequestOf, Responds, AnswerTo, Sweeps, PlainText;
    match t
    case Untouched =>
    case Admitted(before, _) => ServiceIsAStoreRun(before, later);
    case Served(before, _, now, payload, response, after) =>
      ServiceIsAStoreRun(before, now);
      HandlesIsARequest(Current(before), now, payload, response, after);
    case Cleaned(before, now, _, _, _) => ServiceIsAStoreRun(before, now);
  }

  lemma HandlesIsARequest(s: Store, now: int, payload: bytes, response: bytes, s': Store)
    requires Handles(s, now, payload, response, s')
    ensures
      var q := RequestOf(Parse(payload));
      if q.Some? then
        Responds(s, now, q.value, AnswerTo(s, now, q.value), s') && response == AnswerText(AnswerTo(s, now, q.value))
      else s' == s
  {
    hide Parse, Responds, AnswerTo, AnswerText, PlainText;
  }

  lemma {:induction false} ServiceStaysBounded(t: Service, later: int)
    requires IsService(t) && IsPast(t, later)
    ensures Bounded(Current(t), later)
  {
    hide Parse, Handles, Sweeps, Bounded;
    match t
    case Untouched => NothingIsBounded(later);
    case Admitted(before, _) => ServiceStaysBounded(before, later);
    case Served(before, _, now, payload, response, after) =>
      ServiceStaysBounded(before, now);
      HandledFitsAFrame(Current(before), now, payload, response, after);
      BoundedLater(after, now, later);
    case Cleaned(before, now, budget, answer, after) =>
      ServiceStaysBounded(before, now);
      SweepKeepsBounded(Current(before), now, budget, answer, after);
      BoundedLater(after, now, later);
  }

  lemma NothingIsBounded(now: int)
    ensures Bounded(EMPTY, now)
  {
  }

  lemma SweepKeepsBounded(s: Store, now: int, budget: nat, answer: Answer, s': Store)
    requires Bounded(s, now) && answer.Swept? && Sweeps(s, now, budget, answer, s')
    ensures Bounded(s', now)
  {
    hide Sweeps;
    SweepRemovesOnlyExpired(s, now, budget, answer, s');
  }

  lemma HandledFitsAFrame(s: Store, now: int, payload: bytes, response: bytes, s': Store)
    requires |payload| <= FrameCodec.MAX_FRAME_SIZE && Bounded(s, now) && Handles(s, now, payload, response, s')
    ensures Bounded(s', now)
    ensures Parse(payload).kind != Stats ==> FrameCodec.Encode(response).Success?
  {
    hide Parse, Executes, Bounded;
    if Parse(payload).kind != Stats {
      ResponseFitsAFrame(s, now, payload, response, s');
    }
  }

  /** In every history, encoding the response to anything but `STATS` succeeds. */
  lemma ResponsesAlwaysEncode(t: Service)
    requires IsService(t) && t.Served? && Parse(t.payload).kind != Stats
    ensures FrameCodec.Encode(t.response).Success?
  {
    hide Parse, Handles;
    ServiceStaysBounded(t.before, t.now);
    HandledFitsAFrame(Current(t.before), t.now, t.payload, t.response, t.after);
  }

  // ------------------------------------------------------------ one connection's part

  /** `t'` goes on from `t` with exactly these requests of this connection, in this order and with nothing between. */
  ghost predicate Continues(t: Service, t': Service, who: Client, exchanges: seq<Sessions.Exchange>) {
    if exchanges == [] then t' == t
    else
      && t'.Served? && t'.who == who
      && Sessions.Exchange(t'.payload, t'.response) == exchanges[|exchanges| - 1]
      && Continues(t, t'.before, who, exchanges[..|exchanges| - 1])
  }

  lemma ContinuesOnce(t: Service, t': Service, who: Client, exchanges: seq<Sessions.Exchange>, next: Service)
    requires Continues(t, t', who, exchanges)
    requires next.Served? && next.before == t' && next.who == who
    ensures Continues(t, next, who, exchanges + [Sessions.Exchange(next.payload, next.response)])
  {
    assert (exchanges + [Sessions.Exchange(next.payload, next.response)])[..|exchanges|] == exchanges;
  }

  lemma {:induction false} ContinuingProjects(t: Service, t': Service, who: Client, exchanges: seq<Sessions.Exchange>)
    requires Continues(t, t', who, exchanges)
    ensures Projection(t', who) == Projection(t, who) + exchanges
    decreases |exchanges|
  {
    if exchanges == [] {
      assert Projection(t, who) + [] == Projection(t, who);
    } else {
      var front := exchanges[..|exchanges| - 1];
      ContinuingProjects(t, t'.before, who, front);
      assert Projection(t, who) + front + [exchanges[|exchanges| - 1]] == Projection(t, who) + exchanges;
    }
  }

  // ------------------------------------------------------------ points of a history

  predicate IsPointOf(p: Service, t: Service) {
    p == t || (!t.Untouched? && IsPointOf(p, t.before))
  }

  lemma {:induction false} PointsAreServices(p: Service, t: Service)
    requires IsService(t) && IsPointOf(p, t)
    ensures IsService(p)
  {
    hide Handles, Sweeps;
    if p != t {
      PointsAreServices(p, t.before);
    }
  }

  /** The k-th request of a connection is one point of the history, with exactly k requests of it before. */
  lemma {:induction false} PointOfRequest(t: Service, who: Client, k: nat) returns (p: Service)
    requires k < |Projection(t, who)|
    ensures IsPointOf(p, t) && p.Served? && p.who == who
    ensures Sessions.Exchange(p.payload, p.response) == Projection(t, who)[k]
    ensures Projection(p, who) == Projection(t, who)[..k + 1]
  {
    if t.Served? && t.who == who && k == |Projection(t.before, who)| {
      p := t;
    } else {
      p := PointOfRequest(t.before, who, k);
    }
  }

  function PlainValue(m: Plain, key: bytes, now: int): Option<bytes> {
    if IsPresent(m, key, now) then Some(m[key].value) else None
  }

  function PlainTimeLeft(m: Plain, key: bytes, now: int): Option<int> {
    if IsPresent(m, key, now) && m[key].lease.Some? then Some(Deadline(m[key].lease.value) - now) else None
  }

  /**
   The response, byte for byte: what the command calls for in the plain map, in the state all earlier
   requests of all connections left it in, at that time.
   */
  ghost predicate IsThePlainMaps(p: Service)
    requires p.Served?
  {
    var cmd, m := Parse(p.payload), PlainAfter(TraceOf(p.before));
    if cmd.kind == Stats then
      var data := Current(p.before).data;
      exists census ::
        IsCensus(census, |PersistentKeys(data)|, |ExpiringKeys(data)|)
        && census + Ascii(",connections_active=") <= p.response
    else IsReply(cmd, PlainValue(m, cmd.key, p.now), PlainTimeLeft(m, cmd.key, p.now), p.response)
  }

  lemma AgreeingReplies(s: Store, m: Plain, key: bytes, now: int)
    requires Agree(s, m, now)
    ensures Found(s, key, now) == PlainValue(m, key, now) && TimeLeft(s, key, now) == PlainTimeLeft(m, key, now)
  {
    assert IsLive(s.data, key, now) <==> IsPresent(m, key, now);
  }

  /** What a client reads is the plain map's answer, whatever other connections and the sweeper did in between. */
  lemma ResponsesComeFromThePlainMap(p: Service)
    requires IsService(p) && p.Served?
    ensures IsThePlainMaps(p)
  {
    hide Parse, AnswerText, AnswerTo, PlainAnswer, IsRun, Executes, IsReply, IsCensus, PlainText, Found, TimeLeft,
      PlainValue, PlainTimeLeft, Agree;
    var cmd, s := Parse(p.payload), Current(p.before);
    if cmd.kind == Stats {
      StatsIsCensus(|PersistentKeys(s.data)|, |ExpiringKeys(s.data)|);
    } else {
      ExecutedIsReply(s, p.now, cmd, p.response, p.after);
      ServiceIsAStoreRun(p.before, p.now);
      RunsAgree(TraceOf(p.before), p.now);
      AgreeingReplies(s, PlainAfter(TraceOf(p.before)), cmd.key, p.now);
    }
  }
}
