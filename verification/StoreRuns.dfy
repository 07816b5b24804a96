/**
 Runs of the store under a nondecreasing clock, against the plain map the store
 is meant to behave like: a map whose bindings vanish at their deadline, with no
 heap, no generations, no sweeper and no lazy erasure.
 */
module StoreRuns {
  import opened Basics
  import opened StoreModel

  /** The lease a key got from its last accepted `Expire`. */
  datatype Lease = Lease(start: int, seconds: int)

  datatype Binding = Binding(value: bytes, lease: Option<Lease>)

  type Plain = map<bytes, Binding>

  function Deadline(l: Lease): int {
    l.start + l.seconds * NANOS_PER_SECOND
  }

  predicate IsPresent(p: Plain, key: bytes, now: int) {
    key in p && (p[key].lease.Some? ==> now < Deadline(p[key].lease.value))
  }

  /** The remaining time is the granted seconds less the whole seconds that have passed. */
  function PlainAnswer(p: Plain, now: int, q: Request): Answer
    requires !q.Sweep?
  {
    match q
    case Set(_, _) => Done
    case Get(key) => Value(if IsPresent(p, key, now) then Some(p[key].value) else None)
    case Del(key) => Flag(IsPresent(p, key, now))
    case Expire(key, seconds) => Flag(seconds > 0 && IsPresent(p, key, now))
    case Ttl(key) =>
      if !IsPresent(p, key, now) then Seconds(-2)
      else match p[key].lease
           case None => Seconds(-1)
           case Some(l) => Seconds(l.seconds - (now - l.start) / NANOS_PER_SECOND)
  }

  function PlainNext(p: Plain, now: int, q: Request): Plain {
    match q
    case Set(key, value) => p[key := Binding(value, None)]
    case Del(key) => p - {key}
    case Expire(key, seconds) =>
      if seconds > 0 && IsPresent(p, key, now) then p[key := p[key].(lease := Some(Lease(now, seconds)))] else p
    case _ => p
  }

  /** A history of requests, latest last, each with its time, its answer and the store it left. */
  datatype Trace =
    | Start
    | Then(before: Trace, now: int, request: Request, answer: Answer, after: Store)

  function StoreAfter(t: Trace): Store {
    if t.Start? then EMPTY else t.after
  }

  function PlainAfter(t: Trace): Plain {
    if t.Start? then map[] else PlainNext(PlainAfter(t.before), t.now, t.request)
  }

  /** Any interleaving of requests from the empty store, with a clock that never goes back. */
  ghost predicate IsRun(t: Trace) {
    t.Then? ==>
      && IsRun(t.before)
      && (t.before.Then? ==> t.before.now <= t.now)
      && Next(StoreAfter(t.before), t.now, t.request, t.answer, t.after)
  }

  /** At `now` and at every later time, the store and the plain map show the same live bindings. */
  ghost predicate Agree(s: Store, p: Plain, now: int) {
    forall k ::
      && (IsLive(s.data, k, now) <==> IsPresent(p, k, now))
      && (IsLive(s.data, k, now) ==>
            && s.data[k].value == p[k].value
            && match p[k].lease
               case None => s.data[k].expireAt == None
               case Some(l) => s.data[k].expireAt == Some(Deadline(l)) && l.start <= now && l.seconds > 0)
  }

  lemma AgreeLater(s: Store, p: Plain, now: int, later: int)
    requires Agree(s, p, now) && now <= later
    ensures Agree(s, p, later)
  {
    forall k
      ensures IsLive(s.data, k, later) <==> IsPresent(p, k, later)
    {
      assert IsLive(s.data, k, later) ==> IsLive(s.data, k, now);
      assert IsPresent(p, k, later) ==> IsPresent(p, k, now);
    }
  }

  /** Rounding the remaining time up is the same as counting down the whole seconds elapsed. */
  lemma CeilingCountsDown(l: Lease, now: int)
    requires l.start <= now < Deadline(l)
    ensures CeilSeconds(Deadline(l) - now) == l.seconds - (now - l.start) / NANOS_PER_SECOND
    ensures 1 <= CeilSeconds(Deadline(l) - now) <= l.seconds
  {
    var elapsed := now - l.start;
    var whole, part := elapsed / NANOS_PER_SECOND, elapsed % NANOS_PER_SECOND;
    var remaining := Deadline(l) - now;
    assert remaining == (l.seconds - whole) * NANOS_PER_SECOND - part;
  }

  lemma AnswerAgrees(s: Store, p: Plain, now: int, q: Request)
    requires Agree(s, p, now) && !q.Sweep?
    ensures AnswerTo(s, now, q) == PlainAnswer(p, now, q)
  {
    if q.Ttl? && IsLive(s.data, q.key, now) && p[q.key].lease.Some? {
      CeilingCountsDown(p[q.key].lease.value, now);
    }
  }

  lemma SetAgrees(s: Store, p: Plain, now: int, key: bytes, value: bytes)
    requires Agree(s, p, now)
    ensures Agree(AfterSet(s, key, value), p[key := Binding(value, None)], now)
  {
  }

  lemma TouchAgrees(s: Store, p: Plain, now: int, key: bytes)
    requires Agree(s, p, now)
    ensures Agree(Touch(s, key, now), p, now)
    ensures Agree(Forget(s, key), p - {key}, now)
  {
  }

  lemma GrantAgrees(s: Store, p: Plain, now: int, key: bytes, seconds: int)
    requires Agree(s, p, now) && IsLive(s.data, key, now) && seconds > 0
    ensures Agree(AfterGrant(s, key, now + seconds * NANOS_PER_SECOND),
      p[key := p[key].(lease := Some(Lease(now, seconds)))], now)
  {
    assert Deadline(Lease(now, seconds)) == now + seconds * NANOS_PER_SECOND;
  }

  lemma AfterAgrees(s: Store, p: Plain, now: int, q: Request)
    requires Agree(s, p, now) && !q.Sweep?
    ensures Agree(After(s, now, q), PlainNext(p, now, q), now)
  {
    match q
    case Set(key, value) => SetAgrees(s, p, now, key, value);
    case Get(key) => TouchAgrees(s, p, now, key);
    case Del(key) => TouchAgrees(s, p, now, key);
    case Ttl(key) => TouchAgrees(s, p, now, key);
    case Expire(key, seconds) =>
      if seconds > 0 && IsLive(s.data, key, now) {
        GrantAgrees(s, p, now, key, seconds);
      } else {
        TouchAgrees(s, p, now, key);
      }
  }

  lemma SweepAgrees(s: Store, p: Plain, now: int, budget: nat, a: Answer, s': Store)
    requires Agree(s, p, now) && a.Swept? && Sweeps(s, now, budget, a, s')
    ensures Agree(s', p, now)
  {
    hide Sweeps;
    SweepRemovesOnlyExpired(s, now, budget, a, s');
  }

  lemma NextAgrees(s: Store, p: Plain, now: int, q: Request, a: Answer, s': Store)
    requires Agree(s, p, now) && Next(s, now, q, a, s')
    ensures Agree(s', PlainNext(p, now, q), now)
  {
    hide Agree, AnswerTo, After;
    if q.Sweep? {
      SweepAgrees(s, p, now, q.budget, a, s');
    } else {
      AfterAgrees(s, p, now, q);
    }
  }

  /** The coupling of heap and map holds on every run. */
  lemma {:induction false} RunsStayCoupled(t: Trace)
    requires IsRun(t)
    ensures Coupled(StoreAfter(t))
  {
    if t.Then? {
      RunsStayCoupled(t.before);
      NextKeepsCoupling(StoreAfter(t.before), t.now, t.request, t.answer, t.after);
    }
  }

  lemma {:induction false} RunsAgree(t: Trace, later: int)
    requires IsRun(t) && (t.Then? ==> t.now <= later)
    ensures Agree(StoreAfter(t), PlainAfter(t), later)
  {
    if t.Then? {
      RunsAgree(t.before, t.now);
      NextAgrees(StoreAfter(t.before), PlainAfter(t.before), t.now, t.request, t.answer, t.after);
      AgreeLater(StoreAfter(t), PlainAfter(t), t.now, later);
    }
  }

  /**
   On every run, the latest answer of Set, Get, Del, Expire or Ttl is the plain map's answer, and so
   was every answer before it: lazy erasure, sweep budgets, the order of ties, stale records and heap
   rebuilds cannot be observed.
   */
  lemma RunsRefineThePlainMap(t: Trace)
    requires IsRun(t) && t.Then? && !t.request.Sweep?
    ensures t.answer == PlainAnswer(PlainAfter(t.before), t.now, t.request)
  {
    RunsAgree(t.before, t.now);
    AnswerAgrees(StoreAfter(t.before), PlainAfter(t.before), t.now, t.request);
  }

  /** The last write to `key` in the history was an accepted `Expire` granting `l`. */
  ghost predicate GrantedLast(t: Trace, key: bytes, l: Lease) {
    && t.Then?
    && if t.request.Expire? && t.request.key == key && t.answer == Flag(true) then
         l == Lease(t.now, t.request.seconds)
       else
         && !((t.request.Set? || t.request.Del?) && t.request.key == key)
         && GrantedLast(t.before, key, l)
  }

  lemma {:induction false} LeaseWasGrantedLast(t: Trace, key: bytes)
    requires IsRun(t) && key in PlainAfter(t) && PlainAfter(t)[key].lease.Some?
    ensures GrantedLast(t, key, PlainAfter(t)[key].lease.value)
  {
    if !t.request.Sweep? {
      RunsRefineThePlainMap(t);
    }
    if !(t.request.Expire? && t.request.key == key && t.answer == Flag(true)) {
      LeaseWasGrantedLast(t.before, key);
    }
  }

  /**
   On every run, a non-negative Ttl answer lies between 1 and the seconds of the key's last accepted
   Expire, which nothing has overwritten or deleted since.
   */
  lemma TtlIsWithinTheLastExpire(t: Trace)
    requires IsRun(t) && t.Then? && t.request.Ttl?
    requires t.answer.Seconds? && t.answer.seconds >= 0
    ensures exists l :: GrantedLast(t.before, t.request.key, l) && 1 <= t.answer.seconds <= l.seconds
  {
    RunsRefineThePlainMap(t);
    RunsAgree(t.before, t.now);
    var key, p := t.request.key, PlainAfter(t.before);
    var l := p[key].lease.value;
    LeaseWasGrantedLast(t.before, key);
    CeilingCountsDown(l, t.now);
  }

  // ------------------------------------------------------------ answers read off the history alone

  /** The value of the last `SET` of this key, unless a `DEL` of it came later. */
  function LastValue(t: Trace, key: bytes): Option<bytes> {
    match t
    case Start => None
    case Then(before, _, Set(k, value), _, _) => if k == key then Some(value) else LastValue(before, key)
    case Then(before, _, Del(k), _, _) => if k == key then None else LastValue(before, key)
    case Then(before, _, _, _, _) => LastValue(before, key)
  }

  /** When the lease ends that the last accepted `EXPIRE` of this key gave, unless a `SET` or `DEL` came later. */
  function LastDeadline(t: Trace, key: bytes): Option<int> {
    match t
    case Start => None
    case Then(before, _, Set(k, _), _, _) => if k == key then None else LastDeadline(before, key)
    case Then(before, _, Del(k), _, _) => if k == key then None else LastDeadline(before, key)
    case Then(before, now, Expire(k, seconds), answer, _) =>
      if k == key && answer == Flag(true) then Some(now + seconds * 1_000_000_000) else LastDeadline(before, key)
    case Then(before, _, _, _, _) => LastDeadline(before, key)
  }

  predicate Lives(t: Trace, key: bytes, now: int) {
    LastValue(t, key).Some? && (LastDeadline(t, key).Some? ==> now < LastDeadline(t, key).value)
  }

  lemma {:induction false} PlainIsTheHistory(t: Trace, key: bytes)
    requires IsRun(t)
    ensures key in PlainAfter(t) <==> LastValue(t, key).Some?
    ensures key !in PlainAfter(t) ==> LastDeadline(t, key).None?
    ensures key in PlainAfter(t) ==>
      && PlainAfter(t)[key].value == LastValue(t, key).value
      && (PlainAfter(t)[key].lease.Some? <==> LastDeadline(t, key).Some?)
      && (PlainAfter(t)[key].lease.Some? ==> Deadline(PlainAfter(t)[key].lease.value) == LastDeadline(t, key).value)
  {
    hide Next;
    if t.Then? {
      PlainIsTheHistory(t.before, key);
      if t.request.Expire? {
        ExpireAnswersPlain(t);
      }
    }
  }

  lemma ExpireAnswersPlain(t: Trace)
    requires IsRun(t) && t.Then? && t.request.Expire?
    ensures t.answer == Flag(t.request.seconds > 0 && IsPresent(PlainAfter(t.before), t.request.key, t.now))
  {
    hide IsRun, PlainAfter, IsPresent;
    RunsRefineThePlainMap(t);
  }

  /**
   On every run the answers are those the history of writes calls for: a key has the value of its last
   `SET`, from then until a `DEL` or until exactly the seconds its last accepted `EXPIRE` gave have passed.
   */
  lemma AnswersFollowTheHistory(t: Trace)
    requires IsRun(t) && t.Then? && !t.request.Sweep?
    ensures
      match t.request
      case Set(_, _) => true
      case Get(key) => t.answer == Value(if Lives(t.before, key, t.now) then LastValue(t.before, key) else None)
      case Del(key) => t.answer == Flag(Lives(t.before, key, t.now))
      case Expire(key, seconds) => t.answer == Flag(seconds > 0 && Lives(t.before, key, t.now))
      case Ttl(key) =>
        && t.answer.Seconds?
        && if !Lives(t.before, key, t.now) then t.answer.seconds == -2
           else if LastDeadline(t.before, key).None? then t.answer.seconds == -1
           else
             var due := LastDeadline(t.before, key).value - t.now;
             (t.answer.seconds - 1) * 1_000_000_000 < due <= t.answer.seconds * 1_000_000_000
  {
    hide Next, LastValue, LastDeadline, PlainAfter;
    RunsRefineThePlainMap(t);
    if !t.request.Set? {
      PlainIsTheHistory(t.before, t.request.key);
      if t.request.Ttl? && Lives(t.before, t.request.key, t.now) && LastDeadline(t.before, t.request.key).Some? {
        var l := PlainAfter(t.before)[t.request.key].lease.value;
        LeaseStarted(t, t.request.key);
        CountdownRoundsUp(l, t.now);
      }
    }
  }

  lemma LeaseStarted(t: Trace, key: bytes)
    requires IsRun(t) && t.Then? && key in PlainAfter(t.before) && PlainAfter(t.before)[key].lease.Some?
    requires IsPresent(PlainAfter(t.before), key, t.now)
    ensures PlainAfter(t.before)[key].lease.value.start <= t.now
  {
    hide Next, PlainAfter;
    RunsAgree(t.before, t.now);
  }

  lemma CountdownRoundsUp(l: Lease, now: int)
    requires l.start <= now < Deadline(l)
    ensures
      var left, due := l.seconds - (now - l.start) / NANOS_PER_SECOND, Deadline(l) - now;
      (left - 1) * 1_000_000_000 < due <= left * 1_000_000_000
  {
    var elapsed := now - l.start;
    var whole, part := elapsed / NANOS_PER_SECOND, elapsed % NANOS_PER_SECOND;
    assert Deadline(l) - now == (l.seconds - whole) * NANOS_PER_SECOND - part;
  }

  // ------------------------------------------------------------ what the heap costs

  /** Records pushed by a request: one for an accepted `Expire`. */
  function Pushes(q: Request, a: Answer): nat {
    if q.Expire? && a == Flag(true) then 1 else 0
  }

  /** Records copied by a request: one for every expiring key when a sweep rebuilds the heap. */
  function Copies(a: Answer, s': Store): nat {
    if a.Swept? && a.rebuilt then |ExpiringKeys(s'.data)| else 0
  }

  function Pushed(t: Trace): nat {
    if t.Start? then 0 else Pushed(t.before) + Pushes(t.request, t.answer)
  }

  function Copied(t: Trace): nat {
    if t.Start? then 0 else Copied(t.before) + Copies(t.answer, t.after)
  }

  lemma SweepCost(s: Store, now: int, budget: nat, a: Answer, s': Store)
    requires Coupled(s) && Sweeps(s, now, budget, a, s')
    ensures |s'.heap| + Copies(a, s') <= |s.heap|
  {
    var popped :| SweepPops(s, now, budget, a, s', popped);
    UnsweptIsCoupled(s, now, budget, a, s', popped);
    RecordCount(s'.data);
    if a.rebuilt {
      RebuildPays(Store(s'.data, s.heap - popped, s.nextGeneration));
    }
  }

  lemma NextCost(s: Store, now: int, q: Request, a: Answer, s': Store)
    requires Coupled(s) && Next(s, now, q, a, s')
    ensures |s'.heap| + Copies(a, s') <= |s.heap| + Pushes(q, a)
  {
    if q.Sweep? {
      SweepCost(s, now, q.budget, a, s');
    }
  }

  /** Over any run, rebuilds copy no more records than `Expire` has pushed, even counting those still queued. */
  lemma {:induction false} RebuildsAreAmortised(t: Trace)
    requires IsRun(t)
    ensures Copied(t) + |StoreAfter(t).heap| <= Pushed(t)
  {
    if t.Then? {
      RebuildsAreAmortised(t.before);
      RunsStayCoupled(t.before);
      NextCost(StoreAfter(t.before), t.now, t.request, t.answer, t.after);
    }
  }
}
