/** The store as the stateful object the server shares between its threads; every method runs under its mutex. */
module KeyValueStore {
  import opened Basics
  import opened StoreModel

  const SWEEP_BUDGET := 1024

  class KVStore {
    var data: map<bytes, Entry>
    var expirations: multiset<Record>
    var nextExpirationGeneration: nat
    var persistentKeys: nat
    var expiringKeys: nat

    function State(): Store
      reads this
    {
      Store(data, expirations, nextExpirationGeneration)
    }

    /** The counters are exact, and the heap is coupled to the map. */
    ghost predicate Valid()
      reads this
    {
      && persistentKeys == |PersistentKeys(data)|
      && expiringKeys == |ExpiringKeys(data)|
      && Coupled(State())
    }

    constructor ()
      ensures Valid() && State() == EMPTY
    {
      data := map[];
      expirations := multiset{};
      nextExpirationGeneration := 0;
      persistentKeys := 0;
      expiringKeys := 0;
    }

    /** Drops one entry and its count; the count is positive because the entry is there to be counted. */
    method EraseEntryLocked(key: bytes)
      requires key in data
      requires persistentKeys == |PersistentKeys(data)| && expiringKeys == |ExpiringKeys(data)|
      modifies this`data, this`persistentKeys, this`expiringKeys
      ensures data == old(data) - {key}
      ensures persistentKeys == |PersistentKeys(data)| && expiringKeys == |ExpiringKeys(data)|
    {
      CountsAfterErase(data, key);
      if data[key].expireAt.Some? {
        expiringKeys := expiringKeys - 1;
      } else {
        persistentKeys := persistentKeys - 1;
      }
      data := data - {key};
    }

    /** Writes one entry and moves its count between the two counters as its kind changes. */
    method PutEntryLocked(key: bytes, entry: Entry)
      requires persistentKeys == |PersistentKeys(data)| && expiringKeys == |ExpiringKeys(data)|
      modifies this`data, this`persistentKeys, this`expiringKeys
      ensures data == old(data)[key := entry]
      ensures persistentKeys == |PersistentKeys(data)| && expiringKeys == |ExpiringKeys(data)|
    {
      CountsAfterUpdate(data, key, entry);
      if key in data {
        if data[key].expireAt.Some? {
          assert key in ExpiringKeys(data);
          expiringKeys := expiringKeys - 1;
        } else {
          assert key in PersistentKeys(data);
          persistentKeys := persistentKeys - 1;
        }
      }
      if entry.expireAt.Some? {
        expiringKeys := expiringKeys + 1;
      } else {
        persistentKeys := persistentKeys + 1;
      }
      data := data[key := entry];
    }

    method Set(key: bytes, value: bytes)
      requires Valid()
      modifies this
      ensures Valid()
      ensures State() == AfterSet(old(State()), key, value)
    {
      SetKeepsCoupling(State(), key, value);
      var generation := 0;
      if key in data {
        generation := data[key].generation + 1;
      }
      assert generation == OwnGeneration(data, key);
      PutEntryLocked(key, Entry(value, None, generation));
    }

    method Get(key: bytes, now: int) returns (value: Option<bytes>)
      requires Valid()
      modifies this
      ensures Valid()
      ensures Responds(old(State()), now, Request.Get(key), Value(value), State())
    {
      ForgetKeepsCoupling(State(), key);
      if key !in data {
        return None;
      }
      if IsExpired(data[key], now) {
        EraseEntryLocked(key);
        return None;
      }
      return Some(data[key].value);
    }

    method Del(key: bytes, now: int) returns (deleted: bool)
      requires Valid()
      modifies this
      ensures Valid()
      ensures Responds(old(State()), now, Request.Del(key), Flag(deleted), State())
    {
      ForgetKeepsCoupling(State(), key);
      if key !in data {
        assert data - {key} == data;
        return false;
      }
      if IsExpired(data[key], now) {
        EraseEntryLocked(key);
        return false;
      }
      EraseEntryLocked(key);
      return true;
    }

    method Expire(key: bytes, seconds: int, now: int) returns (accepted: bool)
      requires Valid()
      modifies this
      ensures Valid()
      ensures Responds(old(State()), now, Request.Expire(key, seconds), Flag(accepted), State())
    {
      hide Coupled, PersistentKeys, ExpiringKeys, Responds, AfterGrant;
      if seconds <= 0 {
        ExpireRefused(State(), key, seconds, now);
        return false;
      }
      if key !in data {
        ExpireRefused(State(), key, seconds, now);
        return false;
      }
      if IsExpired(data[key], now) {
        ExpireRefused(State(), key, seconds, now);
        ForgetKeepsCoupling(State(), key);
        EraseEntryLocked(key);
        return false;
      }
      ExpireGranted(State(), key, seconds, now);
      GrantLease(key, now + seconds * NANOS_PER_SECOND);
      return true;
    }

    /** The part of `Expire` that runs once the key is known to be live. */
    method GrantLease(key: bytes, expireAt: int)
      requires Valid() && key in data
      modifies this
      ensures Valid()
      ensures State() == AfterGrant(old(State()), key, expireAt)
    {
      GrantKeepsCoupling(State(), key, expireAt);
      nextExpirationGeneration := nextExpirationGeneration + 1;
      var entry := Entry(data[key].value, Some(expireAt), nextExpirationGeneration);
      PutEntryLocked(key, entry);
      expirations := expirations + multiset{RecordOf(key, entry)};
    }

    method Ttl(key: bytes, now: int) returns (seconds: int)
      requires Valid()
      modifies this
      ensures Valid()
      ensures Responds(old(State()), now, Request.Ttl(key), Seconds(seconds), State())
    {
      ForgetKeepsCoupling(State(), key);
      if key !in data {
        return -2;
      }
      if IsExpired(data[key], now) {
        EraseEntryLocked(key);
        return -2;
      }
      if data[key].expireAt.None? {
        return -1;
      }
      return CeilSeconds(data[key].expireAt.value - now);
    }

    /** Reads the counters only, so entries that have expired but not been erased are included. */
    method Stats() returns (keys: nat, persistent: nat, expiring: nat)
      requires Valid()
      ensures keys == |data| && persistent == |PersistentKeys(data)| && expiring == |ExpiringKeys(data)|
    {
      StoredCountIsLiveCountIffNothingExpired(data, 0);
      return persistentKeys + expiringKeys, persistentKeys, expiringKeys;
    }

    /** The top of the queue: some record with the least expiry time, the queue choosing among ties. */
    method Top() returns (record: Record)
      requires expirations != multiset{}
      ensures record in expirations
      ensures forall r :: r in expirations ==> record.expireAt <= r.expireAt
    {
      LeastRecordExists(expirations);
      record :| record in expirations && forall r :: r in expirations ==> record.expireAt <= r.expireAt;
    }

    /** Pops a record; a stale one is dropped, a current one erases its entry. */
    method ProcessTop(record: Record) returns (erased: bool)
      requires persistentKeys == |PersistentKeys(data)| && expiringKeys == |ExpiringKeys(data)|
      modifies this`data, this`expirations, this`persistentKeys, this`expiringKeys
      ensures expirations == old(expirations) - multiset{record}
      ensures persistentKeys == |PersistentKeys(data)| && expiringKeys == |ExpiringKeys(data)|
      ensures erased <==> IsCurrent(old(data), record)
      ensures erased ==> data == old(data) - {record.key} && |data| == |old(data)| - 1
      ensures !erased ==> data == old(data)
    {
      expirations := expirations - multiset{record};
      if record.key !in data {
        return false;
      }
      if data[record.key].generation != record.generation {
        return false;
      }
      if data[record.key].expireAt.None? {
        return false;
      }
      if data[record.key].expireAt.value != record.expireAt {
        return false;
      }
      EraseEntryLocked(record.key);
      return true;
    }

    method SweepExpiredLocked(now: int, budget: nat)
      returns (processed: nat, removed: nat, ghost popped: multiset<Record>)
      requires Valid()
      modifies this`data, this`expirations, this`persistentKeys, this`expiringKeys
      ensures Valid()
      ensures PopsDue(old(expirations), now, popped, expirations)
      ensures processed == |popped| <= budget
      ensures processed < budget ==> forall r :: r in expirations ==> r.expireAt > now
      ensures data == Reap(old(data), popped)
      ensures removed == |old(data)| - |data|
    {
      hide PersistentKeys, ExpiringKeys, Coupled, PopsDue, Reap, IsCurrent;
      processed, removed, popped := 0, 0, multiset{};
      NothingPopped(data, expirations, now);
      while expirations != multiset{} && processed < budget
        invariant persistentKeys == |PersistentKeys(data)| && expiringKeys == |ExpiringKeys(data)|
        invariant PopsDue(old(expirations), now, popped, expirations)
        invariant processed == |popped| <= budget
        invariant data == Reap(old(data), popped)
        invariant removed == |old(data)| - |data|
        decreases budget - processed
      {
        var record := Top();
        if record.expireAt > now {
          break;
        }
        PopTop(old(expirations), now, popped, expirations, record);
        ReapOne(old(data), popped, record);
        popped := popped + multiset{record};
        var erased := ProcessTop(record);
        processed, removed := processed + 1, if erased then removed + 1 else removed;
      }
      PopsDueSplits(old(expirations), now, popped, expirations);
      ReapedIsCoupled(old(State()), popped);
    }

    /** Visits the map in whatever order it iterates and lists a record for every deadline. */
    method CollectRecords() returns (records: seq<Record>)
      ensures multiset(records) == multiset(RecordsOf(data))
    {
      hide RecordsOf;
      records := [];
      var unvisited := data.Keys;
      NoRecords(data - unvisited);
      while unvisited != {}
        invariant unvisited <= data.Keys
        invariant multiset(records) == multiset(RecordsOf(data - unvisited))
      {
        var key :| key in unvisited;
        VisitOne(data, unvisited, key);
        unvisited := unvisited - {key};
        if data[key].expireAt.None? {
          continue;
        }
        records := records + [RecordOf(key, data[key])];
      }
      assert data - {} == data;
    }

    /** Rebuilds the queue from the map, one record for every entry that still has a deadline. */
    method RebuildExpirationHeapLocked()
      requires Valid()
      modifies this`expirations
      ensures Valid()
      ensures expirations == multiset(RecordsOf(data))
    {
      hide Coupled, PersistentKeys, ExpiringKeys, RecordsOf;
      RecordCount(data);
      RebuiltIsCoupled(State());
      if expiringKeys == 0 {
        assert multiset(RecordsOf(data)) == multiset{};
        expirations := multiset{};
        return;
      }
      var records := CollectRecords();
      assert |records| == |multiset(records)| == expiringKeys;
      expirations := multiset(records);
    }

    method SweepExpired(budget: nat, now: int) returns (result: Answer)
      requires Valid()
      modifies this
      ensures Valid()
      ensures result.Swept? && Sweeps(old(State()), now, budget, result, State())
    {
      hide PersistentKeys, ExpiringKeys, RecordsOf, Coupled, PopsDue, Reap, SweepPops;
      ghost var before := State();
      var processed, removed;
      ghost var popped;
      processed, removed, popped := SweepExpiredLocked(now, budget);
      ghost var rest := expirations;
      HeapCoversExpiringKeys(State());
      var rebuild := ShouldRebuild(|expirations|, expiringKeys);
      if rebuild {
        RebuildExpirationHeapLocked();
      }
      var hasMore := HasDue(now);
      result := Swept(processed, removed, hasMore, rebuild);
      SweepOutcome(before, now, budget, result, State(), popped, rest);
    }

    method HasDue(now: int) returns (due: bool)
      ensures due <==> exists r :: r in expirations && r.expireAt <= now
    {
      if expirations == multiset{} {
        return false;
      }
      var top := Top();
      return top.expireAt <= now;
    }

    /**
     One wake-up of the sweeper thread with no writer in between: sweeps until nothing is due or a
     stop is seen. `clock(i)` is the time of pass `i` and `stop(i)` what the stop flag reads after it.
     */
    method SweeperPasses(clock: nat -> int, stop: nat -> bool) returns (passes: nat, removed: nat)
      requires Valid()
      requires forall i: nat, j: nat :: i <= j ==> clock(i) <= clock(j)
      modifies this
      ensures Valid()
      ensures 1 <= passes <= |old(expirations)| / 1024 + 1
      ensures removed == |old(data)| - |data|
      ensures OnlyExpiredGone(old(data), data, clock(passes - 1))
      ensures stop(passes - 1) || forall k :: k in data <==> IsLive(old(data), k, clock(passes - 1))
    {
      hide Coupled, PersistentKeys, ExpiringKeys, Sweeps, OnlyExpiredGone;
      passes, removed := 0, 0;
      var again := true;
      NothingGone(data, clock(0));
      while again
        invariant Valid()
        invariant again ==> |expirations| <= |old(expirations)| - SWEEP_BUDGET * passes
        invariant passes <= |old(expirations)| / SWEEP_BUDGET + (if again then 0 else 1)
        invariant passes == 0 ==> again
        invariant removed == |old(data)| - |data|
        invariant OnlyExpiredGone(old(data), data, clock(if passes == 0 then 0 else passes - 1))
        invariant !again ==> stop(passes - 1) || forall k :: k in data <==> IsLive(old(data), k, clock(passes - 1))
        decreases again, |old(expirations)| / SWEEP_BUDGET - passes
      {
        ghost var before := State();
        var result := SweepExpired(SWEEP_BUDGET, clock(passes));
        PassIsProgress(old(data), before, if passes == 0 then clock(0) else clock(passes - 1), clock(passes),
                       result, State());
        removed := removed + result.removed;
        again := result.hasMore && !stop(passes);
        passes := passes + 1;
      }
    }
  }

  lemma NothingGone(data: map<bytes, Entry>, now: int)
    ensures OnlyExpiredGone(data, data, now)
  {
  }

  lemma OnlyExpiredGoneChain(start: map<bytes, Entry>, data: map<bytes, Entry>, data': map<bytes, Entry>,
                             earlier: int, now: int)
    requires OnlyExpiredGone(start, data, earlier) && OnlyExpiredGone(data, data', now) && earlier <= now
    ensures OnlyExpiredGone(start, data', now)
    ensures (forall k :: k in data' <==> IsLive(data, k, now)) ==> forall k :: k in data' <==> IsLive(start, k, now)
  {
  }

  lemma PassIsProgress(start: map<bytes, Entry>, s: Store, earlier: int, now: int, a: Answer, s': Store)
    requires OnlyExpiredGone(start, s.data, earlier) && earlier <= now
    requires Coupled(s) && a.Swept? && Sweeps(s, now, SWEEP_BUDGET, a, s')
    ensures OnlyExpiredGone(start, s'.data, now)
    ensures a.removed == |s.data| - |s'.data|
    ensures !a.hasMore ==> forall k :: k in s'.data <==> IsLive(start, k, now)
    ensures a.hasMore ==> |s'.heap| <= |s.heap| - SWEEP_BUDGET
  {
    hide Sweeps, Coupled;
    SweepRemovesOnlyExpired(s, now, SWEEP_BUDGET, a, s');
    SweepIsComplete(s, now, SWEEP_BUDGET, a, s');
    OnlyExpiredGoneChain(start, s.data, s'.data, earlier, now);
  }

  lemma LeastRecordExists(heap: multiset<Record>)
    requires heap != multiset{}
    ensures exists record :: record in heap && forall r :: r in heap ==> record.expireAt <= r.expireAt
    decreases |heap|
  {
    var first :| first in heap;
    var rest := heap - multiset{first};
    assert forall r :: r in heap ==> r == first || r in rest;
    if rest != multiset{} {
      LeastRecordExists(rest);
      var least :| least in rest && forall r :: r in rest ==> least.expireAt <= r.expireAt;
      var record := if first.expireAt <= least.expireAt then first else least;
      assert record in heap && forall r :: r in heap ==> record.expireAt <= r.expireAt;
    }
  }

  lemma NothingPopped(data: map<bytes, Entry>, heap: multiset<Record>, now: int)
    ensures PopsDue(heap, now, multiset{}, heap) && Reap(data, multiset{}) == data
  {
  }

  lemma PopsDueSplits(heap: multiset<Record>, now: int, popped: multiset<Record>, rest: multiset<Record>)
    requires PopsDue(heap, now, popped, rest)
    ensures popped <= heap && rest == heap - popped
  {
  }

  lemma SweepOutcome(s: Store, now: int, budget: nat, a: Answer, s': Store, popped: multiset<Record>,
                     rest: multiset<Record>)
    requires PopsDue(s.heap, now, popped, rest)
    requires a.Swept? && a.processed == |popped| <= budget
    requires a.processed < budget ==> forall r :: r in rest ==> r.expireAt > now
    requires s'.data == Reap(s.data, popped) && a.removed == |s.data| - |s'.data|
    requires a.rebuilt == ShouldRebuild(|rest|, |ExpiringKeys(s'.data)|)
    requires s'.heap == if a.rebuilt then multiset(RecordsOf(s'.data)) else rest
    requires a.hasMore <==> exists r :: r in s'.heap && r.expireAt <= now
    requires s'.nextGeneration == s.nextGeneration
    ensures Sweeps(s, now, budget, a, s')
  {
    PopsDueSplits(s.heap, now, popped, rest);
    assert SweepPops(s, now, budget, a, s', popped);
  }

  lemma NoRecords(data: map<bytes, Entry>)
    requires data == map[]
    ensures multiset(RecordsOf(data)) == multiset{}
  {
  }

  lemma VisitOne(data: map<bytes, Entry>, unvisited: set<bytes>, key: bytes)
    requires key in unvisited && unvisited <= data.Keys
    ensures multiset(RecordsOf(data - (unvisited - {key}))) ==
              multiset(RecordsOf(data - unvisited))
                + (if data[key].expireAt.Some? then multiset{RecordOf(key, data[key])} else multiset{})
  {
    var before, after := data - unvisited, data - (unvisited - {key});
    assert key !in before && after == before[key := data[key]];
    forall k | k in before ensures after[k] == before[k] {
    }
    if data[key].expireAt.Some? {
      var r := RecordOf(key, data[key]);
      assert r !in RecordsOf(before);
      forall q | q in RecordsOf(before) + {r} ensures q in RecordsOf(after) {
        assert after[q.key] == data[q.key];
      }
      assert RecordsOf(after) == RecordsOf(before) + {r};
    } else {
      forall q | q in RecordsOf(before) ensures q in RecordsOf(after) {
        assert after[q.key] == data[q.key];
      }
      assert RecordsOf(after) == RecordsOf(before);
    }
  }

  lemma PopTop(heap: multiset<Record>, now: int, popped: multiset<Record>, rest: multiset<Record>, top: Record)
    requires PopsDue(heap, now, popped, rest)
    requires top in rest && top.expireAt <= now && forall r :: r in rest ==> top.expireAt <= r.expireAt
    ensures PopsDue(heap, now, popped + multiset{top}, rest - multiset{top})
  {
  }

  lemma ReapOne(data: map<bytes, Entry>, popped: multiset<Record>, record: Record)
    ensures
      var now, next := Reap(data, popped), Reap(data, popped + multiset{record});
      next == if IsCurrent(now, record) then now - {record.key} else now
  {
  }
}
