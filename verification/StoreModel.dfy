/**
 The key-value store as a value: what each operation does to the data map and
 the expiry heap, and the invariant that couples the two.

 Time points are integer nanoseconds. The expiry priority queue is a bag of
 records whose top is any record with the least expiry time, because the
 queue's comparator looks at the time only.
 */
module StoreModel {
  import opened Basics

  const NANOS_PER_SECOND := 1_000_000_000
  const MIN_STALE_RECORDS_FOR_REBUILD := 1024
  const MIN_HEAP_RECORDS_FOR_REBUILD := 4096

  datatype Entry = Entry(value: bytes, expireAt: Option<int>, generation: nat)

  datatype Record = Record(expireAt: int, key: bytes, generation: nat)

  datatype Store = Store(data: map<bytes, Entry>, heap: multiset<Record>, nextGeneration: nat)

  const EMPTY := Store(map[], multiset{}, 0)

  datatype Request =
    | Set(key: bytes, value: bytes)
    | Get(key: bytes)
    | Del(key: bytes)
    | Expire(key: bytes, seconds: int)
    | Ttl(key: bytes)
    | Sweep(budget: nat)

  datatype Answer =
    | Done
    | Value(value: Option<bytes>)
    | Flag(ok: bool)
    | Seconds(seconds: int)
    | Swept(processed: nat, removed: nat, hasMore: bool, rebuilt: bool)

  // ------------------------------------------------------------ operations

  predicate IsExpired(entry: Entry, now: int) {
    entry.expireAt.Some? && now >= entry.expireAt.value
  }

  predicate IsLive(data: map<bytes, Entry>, key: bytes, now: int) {
    key in data && !IsExpired(data[key], now)
  }

  function RecordOf(key: bytes, entry: Entry): Record
    requires entry.expireAt.Some?
  {
    Record(entry.expireAt.value, key, entry.generation)
  }

  function ExpiringKeys(data: map<bytes, Entry>): set<bytes> {
    set k | k in data && data[k].expireAt.Some?
  }

  function PersistentKeys(data: map<bytes, Entry>): set<bytes> {
    set k | k in data && data[k].expireAt.None?
  }

  /** The heap a rebuild makes: one record for every entry with a deadline. */
  function RecordsOf(data: map<bytes, Entry>): set<Record> {
    set k | k in data && data[k].expireAt.Some? :: RecordOf(k, data[k])
  }

  function Forget(s: Store, key: bytes): Store {
    s.(data := s.data - {key})
  }

  /** Lazy expiry: looking at an expired key erases it. */
  function Touch(s: Store, key: bytes, now: int): Store {
    if key in s.data && IsExpired(s.data[key], now) then Forget(s, key) else s
  }

  /** `std::chrono::ceil<seconds>`: truncate, then round up what was cut off. */
  function CeilSeconds(nanos: nat): nat {
    var whole := nanos / NANOS_PER_SECOND;
    if whole * NANOS_PER_SECOND < nanos then whole + 1 else whole
  }

  function AnswerTo(s: Store, now: int, q: Request): Answer
    requires !q.Sweep?
  {
    match q
    case Set(_, _) => Done
    case Get(key) => Value(if IsLive(s.data, key, now) then Some(s.data[key].value) else None)
    case Del(key) => Flag(IsLive(s.data, key, now))
    case Expire(key, seconds) => Flag(seconds > 0 && IsLive(s.data, key, now))
    case Ttl(key) =>
      if !IsLive(s.data, key, now) then Seconds(-2)
      else if s.data[key].expireAt.None? then Seconds(-1)
      else Seconds(CeilSeconds(s.data[key].expireAt.value - now))
  }

  /** An overwrite bumps the entry's own generation; a new entry restarts it. */
  function OwnGeneration(data: map<bytes, Entry>, key: bytes): nat {
    if key in data then data[key].generation + 1 else 0
  }

  /** `SET` clears the deadline and leaves the heap alone. */
  function AfterSet(s: Store, key: bytes, value: bytes): Store {
    s.(data := s.data[key := Entry(value, None, OwnGeneration(s.data, key))])
  }

  /** `EXPIRE` of a live key: a fresh generation, shared by the entry and its new heap record. */
  function AfterGrant(s: Store, key: bytes, expireAt: int): Store
    requires key in s.data
  {
    var entry := Entry(s.data[key].value, Some(expireAt), s.nextGeneration + 1);
    Store(s.data[key := entry], s.heap + multiset{RecordOf(key, entry)}, s.nextGeneration + 1)
  }

  function After(s: Store, now: int, q: Request): Store
    requires !q.Sweep?
  {
    match q
    case Set(key, value) => AfterSet(s, key, value)
    case Get(key) => Touch(s, key, now)
    case Del(key) => Forget(s, key)
    case Expire(key, seconds) =>
      if seconds <= 0 then s
      else if !IsLive(s.data, key, now) then Touch(s, key, now)
      else AfterGrant(s, key, now + seconds * NANOS_PER_SECOND)
    case Ttl(key) => Touch(s, key, now)
  }

  lemma ExpireGranted(s: Store, key: bytes, seconds: int, now: int)
    requires seconds > 0 && IsLive(s.data, key, now)
    ensures Responds(s, now, Expire(key, seconds), Flag(true), AfterGrant(s, key, now + seconds * NANOS_PER_SECOND))
  {
  }

  lemma ExpireRefused(s: Store, key: bytes, seconds: int, now: int)
    requires seconds <= 0 || !IsLive(s.data, key, now)
    ensures Responds(s, now, Expire(key, seconds), Flag(false), if seconds <= 0 then s else Touch(s, key, now))
  {
  }

  predicate ShouldRebuild(heapSize: nat, expiring: nat) {
    && heapSize != 0
    && (expiring == 0
        || (heapSize >= MIN_HEAP_RECORDS_FOR_REBUILD
            && heapSize - expiring >= MIN_STALE_RECORDS_FOR_REBUILD
            && heapSize - expiring >= expiring))
  }

  /** The data left once every record in `popped` has been acted on. */
  function Reap(data: map<bytes, Entry>, popped: multiset<Record>): map<bytes, Entry> {
    map k | k in data && !(data[k].expireAt.Some? && RecordOf(k, data[k]) in popped) :: data[k]
  }

  /** Popping due records, earliest first, has split the heap into `popped` and `rest`. */
  ghost predicate PopsDue(heap: multiset<Record>, now: int, popped: multiset<Record>, rest: multiset<Record>) {
    && heap == popped + rest
    && (forall r :: r in popped ==> r.expireAt <= now)
    && (forall p, r :: p in popped && r in rest ==> p.expireAt <= r.expireAt)
  }

  /** One locked sweep at `now` that pops exactly `popped`, the earliest records of the heap. */
  ghost predicate SweepPops(s: Store, now: int, budget: nat, a: Answer, s': Store, popped: multiset<Record>) {
    && a.Swept?
    && popped <= s.heap
    && PopsDue(s.heap, now, popped, s.heap - popped)
    && a.processed == |popped| <= budget
    && (a.processed < budget ==> forall r :: r in s.heap - popped ==> r.expireAt > now)
    && s'.data == Reap(s.data, popped)
    && a.removed == |s.data| - |s'.data|
    && a.rebuilt == ShouldRebuild(|s.heap - popped|, |ExpiringKeys(s'.data)|)
    && s'.heap == (if a.rebuilt then multiset(RecordsOf(s'.data)) else s.heap - popped)
    && a.hasMore == (exists r :: r in s'.heap && r.expireAt <= now)
    && s'.nextGeneration == s.nextGeneration
  }

  predicate Responds(s: Store, now: int, q: Request, a: Answer, s': Store)
    requires !q.Sweep?
  {
    a == AnswerTo(s, now, q) && s' == After(s, now, q)
  }

  ghost predicate Sweeps(s: Store, now: int, budget: nat, a: Answer, s': Store) {
    exists popped :: SweepPops(s, now, budget, a, s', popped)
  }

  ghost predicate Next(s: Store, now: int, q: Request, a: Answer, s': Store) {
    if q.Sweep? then Sweeps(s, now, q.budget, a, s') else Responds(s, now, q, a, s')
  }

  // ------------------------------------------------------------ coupling

  /** Heap generations are distinct and issued, and every deadline has its record in the heap. */
  ghost predicate Coupled(s: Store) {
    && (forall r :: r in s.heap ==> s.heap[r] == 1 && 1 <= r.generation <= s.nextGeneration)
    && (forall r, q :: r in s.heap && q in s.heap && r.generation == q.generation ==> r == q)
    && (forall k :: k in s.data && s.data[k].expireAt.Some? ==> RecordOf(k, s.data[k]) in s.heap)
  }

  lemma ForgetKeepsCoupling(s: Store, key: bytes)
    requires Coupled(s)
    ensures Coupled(Forget(s, key))
  {
  }

  lemma SetKeepsCoupling(s: Store, key: bytes, value: bytes)
    requires Coupled(s)
    ensures Coupled(AfterSet(s, key, value))
  {
  }

  lemma GrantKeepsCoupling(s: Store, key: bytes, expireAt: int)
    requires Coupled(s) && key in s.data
    ensures Coupled(AfterGrant(s, key, expireAt))
  {
    assert forall r :: r in s.heap ==> r.generation != s.nextGeneration + 1;
  }

  lemma AfterKeepsCoupling(s: Store, now: int, q: Request)
    requires Coupled(s) && !q.Sweep?
    ensures Coupled(After(s, now, q))
  {
    hide Coupled, AfterSet, AfterGrant, Forget;
    if q.Set? {
      SetKeepsCoupling(s, q.key, q.value);
    } else {
      ForgetKeepsCoupling(s, q.key);
      if AnswerTo(s, now, q) == Flag(true) && q.Expire? {
        GrantKeepsCoupling(s, q.key, now + q.seconds * NANOS_PER_SECOND);
      }
    }
  }

  /** Popping records together with what they erase leaves no deadline without its record. */
  lemma ReapedIsCoupled(s: Store, popped: multiset<Record>)
    requires Coupled(s) && popped <= s.heap
    ensures Coupled(Store(Reap(s.data, popped), s.heap - popped, s.nextGeneration))
  {
    var data := Reap(s.data, popped);
    forall k | k in data && data[k].expireAt.Some?
      ensures RecordOf(k, data[k]) in s.heap - popped
    {
      assert RecordOf(k, s.data[k]) in s.heap;
    }
  }

  lemma RebuiltIsCoupled(s: Store)
    requires Coupled(s)
    ensures Coupled(s.(heap := multiset(RecordsOf(s.data))))
    ensures multiset(RecordsOf(s.data)) <= s.heap
  {
    var heap := multiset(RecordsOf(s.data));
    forall r | r in heap ensures r in s.heap {
      assert r in RecordsOf(s.data);
    }
  }

  lemma SweepKeepsCoupling(s: Store, now: int, budget: nat, a: Answer, s': Store, popped: multiset<Record>)
    requires Coupled(s) && SweepPops(s, now, budget, a, s', popped)
    ensures Coupled(Store(s'.data, s.heap - popped, s.nextGeneration))
    ensures Coupled(s')
  {
    ReapedIsCoupled(s, popped);
    if a.rebuilt {
      RebuiltIsCoupled(Store(s'.data, s.heap - popped, s.nextGeneration));
    }
  }

  lemma NextKeepsCoupling(s: Store, now: int, q: Request, a: Answer, s': Store)
    requires Coupled(s) && Next(s, now, q, a, s')
    ensures Coupled(s')
  {
    if q.Sweep? {
      var popped :| SweepPops(s, now, q.budget, a, s', popped);
      SweepKeepsCoupling(s, now, q.budget, a, s', popped);
    } else {
      AfterKeepsCoupling(s, now, q);
    }
  }

  // ------------------------------------------------------------ what coupling gives

  lemma ExpiringKeysAndRecords(data: map<bytes, Entry>, keys: set<bytes>)
    requires keys <= ExpiringKeys(data)
    ensures |set k | k in keys :: RecordOf(k, data[k])| == |keys|
  {
    if keys != {} {
      var k :| k in keys;
      var rest := keys - {k};
      ExpiringKeysAndRecords(data, rest);
      assert (set j | j in keys :: RecordOf(j, data[j]))
        == (set j | j in rest :: RecordOf(j, data[j])) + {RecordOf(k, data[k])};
      assert RecordOf(k, data[k]) !in (set j | j in rest :: RecordOf(j, data[j]));
    }
  }

  /** A rebuilt heap holds exactly as many records as there are expiring keys. */
  lemma RecordCount(data: map<bytes, Entry>)
    ensures |RecordsOf(data)| == |ExpiringKeys(data)|
  {
    ExpiringKeysAndRecords(data, ExpiringKeys(data));
    assert RecordsOf(data) == (set k | k in ExpiringKeys(data) :: RecordOf(k, data[k]));
  }

  /** The heap is never smaller than the set of expiring keys, so its stale count is never negative. */
  lemma HeapCoversExpiringKeys(s: Store)
    requires Coupled(s)
    ensures |ExpiringKeys(s.data)| <= |s.heap|
  {
    RecordCount(s.data);
    RebuiltIsCoupled(s);
    var records := multiset(RecordsOf(s.data));
    assert s.heap == records + (s.heap - records);
  }

  /** A record is current when it was pushed by the latest `Expire` of its key. */
  predicate IsCurrent(data: map<bytes, Entry>, r: Record) {
    r.key in data && data[r.key].expireAt.Some? && r == RecordOf(r.key, data[r.key])
  }

  /**
   Equal generations alone do not make a record current; having a deadline is the missing half,
   and given both the comparison of expiry times adds nothing.
   */
  lemma GenerationMatchIsCurrentIffExpiring(s: Store, r: Record)
    requires Coupled(s) && r in s.heap
    requires r.key in s.data && s.data[r.key].generation == r.generation
    ensures IsCurrent(s.data, r) <==> s.data[r.key].expireAt.Some?
  {
    if s.data[r.key].expireAt.Some? {
      assert RecordOf(r.key, s.data[r.key]) in s.heap;
    }
  }

  /**
   `EXPIRE; DEL; SET; SET` leaves a persistent entry whose own generation has climbed back to the
   generation of the stale record, so a filter on generations alone would erase it.
   */
  lemma GenerationFilterAloneIsWrong(key: bytes, value: bytes)
    ensures
      var deleted := After(After(After(EMPTY, 0, Set(key, value)), 0, Expire(key, 1)), 0, Del(key));
      var s := After(After(deleted, 0, Set(key, value)), 0, Set(key, value));
      && s.heap == multiset{Record(NANOS_PER_SECOND, key, 1)}
      && s.data == map[key := Entry(value, None, 1)]
  {
    var expiring := After(After(EMPTY, 0, Set(key, value)), 0, Expire(key, 1));
    var r := Record(NANOS_PER_SECOND, key, 1);
    assert expiring.heap == multiset{r};
    assert expiring.data == map[key := Entry(value, Some(NANOS_PER_SECOND), 1)];
    var deleted := After(expiring, 0, Del(key));
    assert deleted.data == map[];
  }

  /** A sweep erases an entry only through its own record, and only once it has expired. */
  lemma SweepErasesOnlyExpired(s: Store, now: int, budget: nat, a: Answer, s': Store, popped: multiset<Record>)
    requires SweepPops(s, now, budget, a, s', popped)
    ensures forall k :: k in s'.data <==> k in s.data && !exists r :: r in popped && r.key == k && IsCurrent(s.data, r)
    ensures forall k :: k in s'.data ==> s'.data[k] == s.data[k]
    ensures forall k :: k in s.data && k !in s'.data ==> IsExpired(s.data[k], now)
  {
    forall k | k in s.data && k !in s'.data
      ensures exists r :: r in popped && r.key == k && IsCurrent(s.data, r)
    {
      assert IsCurrent(s.data, RecordOf(k, s.data[k]));
    }
  }

  /** From `before` to `after`, entries were only removed, and only ones expired by `now`. */
  ghost predicate OnlyExpiredGone(before: map<bytes, Entry>, after: map<bytes, Entry>, now: int) {
    && (forall k :: k in after ==> k in before && after[k] == before[k])
    && (forall k :: k in before && k !in after ==> IsExpired(before[k], now))
  }

  lemma SweepRemovesOnlyExpired(s: Store, now: int, budget: nat, a: Answer, s': Store)
    requires a.Swept? && Sweeps(s, now, budget, a, s')
    ensures OnlyExpiredGone(s.data, s'.data, now)
    ensures a.removed == |s.data| - |s'.data|
  {
    var popped :| SweepPops(s, now, budget, a, s', popped);
    SweepErasesOnlyExpired(s, now, budget, a, s', popped);
  }

  lemma UnsweptIsCoupled(s: Store, now: int, budget: nat, a: Answer, s': Store, popped: multiset<Record>)
    requires Coupled(s) && SweepPops(s, now, budget, a, s', popped)
    ensures Coupled(Store(s'.data, s.heap - popped, s.nextGeneration))
    ensures |s'.heap| <= |s.heap - popped| == |s.heap| - a.processed
    ensures forall r :: r in s'.heap ==> r in s.heap - popped
  {
    var unswept := Store(s'.data, s.heap - popped, s.nextGeneration);
    SweepKeepsCoupling(s, now, budget, a, s', popped);
    assert s.heap == popped + unswept.heap;
    HeapCoversExpiringKeys(unswept);
    RecordCount(s'.data);
    RebuiltIsCoupled(unswept);
  }

  /** `hasMore` is exact: false means every expired entry is gone, true means the budget was spent. */
  lemma SweepIsComplete(s: Store, now: int, budget: nat, a: Answer, s': Store)
    requires Coupled(s) && Sweeps(s, now, budget, a, s')
    ensures !a.hasMore ==> forall k :: k in s'.data <==> IsLive(s.data, k, now)
    ensures a.hasMore ==> a.processed == budget
    ensures |s'.heap| <= |s.heap| - a.processed
  {
    var popped :| SweepPops(s, now, budget, a, s', popped);
    SweepErasesOnlyExpired(s, now, budget, a, s', popped);
    SweepKeepsCoupling(s, now, budget, a, s', popped);
    UnsweptIsCoupled(s, now, budget, a, s', popped);
    if !a.hasMore {
      forall k | k in s'.data ensures IsLive(s.data, k, now) {
        if s'.data[k].expireAt.Some? {
          assert RecordOf(k, s'.data[k]) in s'.heap;
        }
      }
    }
  }

  /** When a sweep rebuilds the heap, and how large it leaves it, whatever was pushed before. */
  lemma SweepBoundsHeap(s: Store, now: int, budget: nat, a: Answer, s': Store)
    requires Coupled(s) && Sweeps(s, now, budget, a, s')
    ensures
      var expiring := |ExpiringKeys(s'.data)|;
      && (expiring == 0 ==> s'.heap == multiset{})
      && (|s'.heap| <= 4095 || |s'.heap| <= expiring + 1023 || |s'.heap| <= 2 * expiring - 1)
    ensures
      var expiring, records := |ExpiringKeys(s'.data)|, |s.heap| - a.processed;
      a.rebuilt
      <==> records > 0 && (expiring == 0 || (records >= 4096 && records - expiring >= 1024 && records >= 2 * expiring))
  {
    var popped :| SweepPops(s, now, budget, a, s', popped);
    UnsweptIsCoupled(s, now, budget, a, s', popped);
    var expiring := |ExpiringKeys(s'.data)|;
    RecordCount(s'.data);
    if expiring == 0 && !a.rebuilt {
      assert |s'.heap| == 0;
    }
  }

  /** A rebuild keeps the coupling, turns its own trigger off, and discards at least what it copies. */
  lemma RebuildPays(s: Store)
    requires Coupled(s) && ShouldRebuild(|s.heap|, |ExpiringKeys(s.data)|)
    ensures
      var s' := s.(heap := multiset(RecordsOf(s.data)));
      && Coupled(s')
      && (forall r :: r in s'.heap <==> IsCurrent(s.data, r))
      && !ShouldRebuild(|s'.heap|, |ExpiringKeys(s.data)|)
      && |s'.heap| <= |s.heap| - |s'.heap|
  {
    RecordCount(s.data);
    HeapCoversExpiringKeys(s);
    RebuiltIsCoupled(s);
    var s' := s.(heap := multiset(RecordsOf(s.data)));
    forall r | r in s'.heap ensures IsCurrent(s.data, r) {
      assert r in RecordsOf(s.data);
    }
    forall r | IsCurrent(s.data, r) ensures r in s'.heap {
      assert r in RecordsOf(s.data);
    }
  }

  /**
   The stored count is documented as the number of valid keys, but lazy erasure leaves expired
   entries behind: it is that number exactly when no stored entry has expired.
   */
  lemma StoredCountIsLiveCountIffNothingExpired(data: map<bytes, Entry>, now: int)
    ensures |PersistentKeys(data)| + |ExpiringKeys(data)| == |data|
    ensures |data| == |set k | k in data && IsLive(data, k, now)|
      <==> forall k :: k in data ==> !IsExpired(data[k], now)
  {
    var live := set k | k in data && IsLive(data, k, now);
    var expired := data.Keys - live;
    assert data.Keys == live + expired;
    assert |data.Keys| == |live| + |expired|;
    assert PersistentKeys(data) + ExpiringKeys(data) == data.Keys;
    assert (forall k :: k in data ==> !IsExpired(data[k], now)) ==> expired == {};
  }

  /** After a sweep that found no more to do, what is stored is what is live, and all that had expired was removed. */
  lemma SweptCountIsLiveCount(s: Store, now: int, budget: nat, a: Answer, s': Store)
    requires Coupled(s) && a.Swept? && Sweeps(s, now, budget, a, s') && !a.hasMore
    ensures
      var live := set k | k in s.data && IsLive(s.data, k, now);
      && |PersistentKeys(s'.data)| + |ExpiringKeys(s'.data)| == |live|
      && a.removed == |s.data| - |live|
  {
    hide Coupled, Sweeps, IsLive, IsExpired, PersistentKeys, ExpiringKeys, OnlyExpiredGone;
    var live := set k | k in s.data && IsLive(s.data, k, now);
    SweepIsComplete(s, now, budget, a, s');
    SweepRemovesOnlyExpired(s, now, budget, a, s');
    assert s'.data.Keys == live;
    StoredCountIsLiveCountIffNothingExpired(s'.data, now);
  }

  /**
   A request touches no entry but its own key's. One that looks at the key leaves no expired entry of it behind;
   only `EXPIRE` of a time that is not positive does not look.
   */
  lemma RequestsTouchOneKey(s: Store, now: int, q: Request)
    requires !q.Sweep?
    ensures
      var s' := After(s, now, q);
      && (forall k :: k != q.key ==> (k in s'.data <==> k in s.data) && (k in s.data ==> s'.data[k] == s.data[k]))
      && (if q.Expire? && q.seconds <= 0 then s' == s else q.key in s'.data ==> IsLive(s'.data, q.key, now))
      && (IsLive(s.data, q.key, now) && !q.Set? && !q.Del? ==>
            q.key in s'.data && s'.data[q.key].value == s.data[q.key].value)
  {
  }

  // ------------------------------------------------------------ counting entries

  lemma CountsAfterErase(data: map<bytes, Entry>, key: bytes)
    ensures |PersistentKeys(data - {key})|
      == |PersistentKeys(data)| - (if key in data && data[key].expireAt.None? then 1 else 0)
    ensures |ExpiringKeys(data - {key})|
      == |ExpiringKeys(data)| - (if key in data && data[key].expireAt.Some? then 1 else 0)
  {
    assert PersistentKeys(data - {key}) == PersistentKeys(data) - {key};
    assert ExpiringKeys(data - {key}) == ExpiringKeys(data) - {key};
  }

  lemma CountsAfterUpdate(data: map<bytes, Entry>, key: bytes, entry: Entry)
    ensures |PersistentKeys(data[key := entry])| ==
              |PersistentKeys(data)| - (if key in data && data[key].expireAt.None? then 1 else 0)
                + (if entry.expireAt.None? then 1 else 0)
    ensures |ExpiringKeys(data[key := entry])| ==
              |ExpiringKeys(data)| - (if key in data && data[key].expireAt.Some? then 1 else 0)
                + (if entry.expireAt.Some? then 1 else 0)
  {
    CountsAfterErase(data, key);
    var erased, updated := data - {key}, data[key := entry];
    if entry.expireAt.Some? {
      assert PersistentKeys(updated) == PersistentKeys(erased);
      assert ExpiringKeys(updated) == ExpiringKeys(erased) + {key};
    } else {
      assert PersistentKeys(updated) == PersistentKeys(erased) + {key};
      assert ExpiringKeys(updated) == ExpiringKeys(erased);
    }
  }
}
