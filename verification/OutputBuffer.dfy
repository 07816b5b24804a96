/**
 The per-connection output buffer: pending bytes behind a read offset, compacted
 only now and then so that a partial send does not move the bytes that remain.
 */
module OutputBuffers {
  import opened Basics

  const COMPACT_THRESHOLD := 64 * 1024

  datatype Buffer = Buffer(storage: bytes, readPos: nat)

  const EMPTY_BUFFER := Buffer([], 0)

  predicate InRange(b: Buffer) {
    b.readPos <= |b.storage|
  }

  function Pending(b: Buffer): bytes
    requires InRange(b)
  {
    b.storage[b.readPos..]
  }

  function Size(b: Buffer): nat
    requires InRange(b)
  {
    |b.storage| - b.readPos
  }

  predicate NeedsCompaction(b: Buffer) {
    b.readPos >= COMPACT_THRESHOLD && b.readPos >= |b.storage| / 2
  }

  function Compacted(b: Buffer): Buffer
    requires InRange(b)
  {
    if NeedsCompaction(b) then Buffer(b.storage[b.readPos..], 0) else b
  }

  function Appended(b: Buffer, data: bytes): Buffer
    requires InRange(b)
  {
    if data == [] then b else var c := Compacted(b); c.(storage := c.storage + data)
  }

  function Consumed(b: Buffer, n: nat): Buffer
    requires InRange(b) && n <= Size(b)
  {
    if n == Size(b) then EMPTY_BUFFER else Compacted(b.(readPos := b.readPos + n))
  }

  /** Every operation leaves the buffer in range with nothing left to compact. */
  predicate Settled(b: Buffer) {
    InRange(b) && !NeedsCompaction(b)
  }

  lemma SettledBoundsDeadPrefix(b: Buffer)
    requires Settled(b)
    ensures b.readPos < 65536 || b.readPos < Size(b)
  {
  }

  lemma AppendIsEnqueue(b: Buffer, data: bytes)
    requires InRange(b)
    ensures InRange(Appended(b, data)) && Pending(Appended(b, data)) == Pending(b) + data
    ensures Settled(b) ==> Settled(Appended(b, data))
  {
    if Settled(b) && data != [] {
      var c := Appended(b, data);
      assert c.readPos == b.readPos && |c.storage| / 2 >= |b.storage| / 2;
    }
  }

  lemma ConsumeIsDequeue(b: Buffer, n: nat)
    requires InRange(b) && n <= Size(b)
    ensures Settled(Consumed(b, n)) && Pending(Consumed(b, n)) == Pending(b)[n..]
  {
  }

  // ------------------------------------------------------------ runs

  datatype Op = Append(data: bytes) | Consume(count: nat) | Clear

  /** A `Consume` of more than is pending throws and changes nothing. */
  function AfterOp(b: Buffer, op: Op): Buffer
    requires InRange(b)
  {
    match op
    case Append(data) => Appended(b, data)
    case Consume(n) => if n <= Size(b) then Consumed(b, n) else b
    case Clear => EMPTY_BUFFER
  }

  /** The queue a buffer stands for. */
  function QueueAfterOp(q: bytes, op: Op): bytes {
    match op
    case Append(data) => q + data
    case Consume(n) => if n <= |q| then q[n..] else q
    case Clear => []
  }

  /** What compaction costs: how often it ran and how many bytes it moved, against the bytes consumed. */
  datatype Costs = Costs(consumed: nat, compactions: nat, moved: nat)

  function Charge(l: Costs, b: Buffer): Costs
    requires InRange(b)
  {
    if NeedsCompaction(b) then Costs(l.consumed, l.compactions + 1, l.moved + Size(b)) else l
  }

  function Account(l: Costs, b: Buffer, op: Op): Costs
    requires InRange(b)
  {
    match op
    case Append(data) => if data == [] then l else Charge(l, b)
    case Consume(n) =>
      if n > Size(b) then l
      else
        var l' := l.(consumed := l.consumed + n);
        if n == Size(b) then l' else Charge(l', b.(readPos := b.readPos + n))
    case Clear => l
  }

  function BufferAfter(ops: seq<Op>): (b: Buffer)
    ensures Settled(b)
  {
    if ops == [] then EMPTY_BUFFER
    else
      var b, op := BufferAfter(ops[..|ops| - 1]), ops[|ops| - 1];
      if op.Append? then
        AppendIsEnqueue(b, op.data);
        AfterOp(b, op)
      else
        AfterOp(b, op)
  }

  function QueueAfter(ops: seq<Op>): bytes {
    if ops == [] then [] else QueueAfterOp(QueueAfter(ops[..|ops| - 1]), ops[|ops| - 1])
  }

  function CostsAfter(ops: seq<Op>): Costs {
    if ops == [] then Costs(0, 0, 0)
    else Account(CostsAfter(ops[..|ops| - 1]), BufferAfter(ops[..|ops| - 1]), ops[|ops| - 1])
  }

  /** On every run the buffer holds what a first-in-first-out byte queue would hold. */
  lemma {:induction false} BufferIsFifo(ops: seq<Op>)
    ensures Pending(BufferAfter(ops)) == QueueAfter(ops)
  {
    if ops != [] {
      var before, op := ops[..|ops| - 1], ops[|ops| - 1];
      BufferIsFifo(before);
      var b := BufferAfter(before);
      match op
      case Append(data) => AppendIsEnqueue(b, data);
      case Consume(n) => if n <= Size(b) { ConsumeIsDequeue(b, n); }
      case Clear =>
    }
  }

  lemma AccountKeepsBalance(l: Costs, b: Buffer, op: Op)
    requires Settled(b)
    requires l.moved + b.readPos <= l.consumed + l.compactions
    requires COMPACT_THRESHOLD * l.compactions + b.readPos <= l.consumed
    ensures
      var l', b' := Account(l, b, op), AfterOp(b, op);
      && l'.moved + b'.readPos <= l'.consumed + l'.compactions
      && COMPACT_THRESHOLD * l'.compactions + b'.readPos <= l'.consumed
  {
  }

  /**
   Over any run, compaction moves at most one byte per consumed byte plus one per compaction, and
   64 KiB are consumed for each compaction.
   */
  lemma {:induction false} CompactionIsAmortised(ops: seq<Op>)
    ensures
      var l, b := CostsAfter(ops), BufferAfter(ops);
      && l.moved + b.readPos <= l.consumed + l.compactions
      && 65536 * l.compactions + b.readPos <= l.consumed
  {
    if ops != [] {
      var before, op := ops[..|ops| - 1], ops[|ops| - 1];
      CompactionIsAmortised(before);
      AccountKeepsBalance(CostsAfter(before), BufferAfter(before), op);
    }
  }

  /** `Append` tries to compact first, but no run leaves it anything to compact. */
  lemma AppendNeverCompacts(ops: seq<Op>, data: bytes)
    ensures BufferAfter(ops + [Append(data)]) == Buffer(BufferAfter(ops).storage + data, BufferAfter(ops).readPos)
  {
    assert (ops + [Append(data)])[..|ops|] == ops;
    if data == [] {
      assert BufferAfter(ops).storage + data == BufferAfter(ops).storage;
    }
  }

  // ------------------------------------------------------------ the object

  class OutputBuffer {
    var storage: bytes
    var readPos: nat

    function State(): Buffer
      reads this
    {
      Buffer(storage, readPos)
    }

    predicate Valid()
      reads this
    {
      Settled(State())
    }

    constructor ()
      ensures Valid() && State() == EMPTY_BUFFER
    {
      storage, readPos := [], 0;
    }

    method CompactIfNeed()
      requires InRange(State())
      modifies this
      ensures State() == Compacted(old(State()))
    {
      if readPos < COMPACT_THRESHOLD {
        return;
      }
      if readPos < |storage| / 2 {
        return;
      }
      storage := storage[readPos..];
      readPos := 0;
    }

    method Append(data: bytes)
      requires Valid()
      modifies this
      ensures Valid()
      ensures State() == Appended(old(State()), data)
      ensures Pending(State()) == old(Pending(State())) + data
    {
      AppendIsEnqueue(State(), data);
      if data == [] {
        return;
      }
      CompactIfNeed();
      storage := storage + data;
    }

    /** `thrown` stands for the out_of_range exception. */
    method Consume(count: nat) returns (thrown: bool)
      requires Valid()
      modifies this
      ensures Valid()
      ensures thrown <==> count > old(Size(State()))
      ensures thrown ==> State() == old(State())
      ensures !thrown ==> State() == Consumed(old(State()), count) && Pending(State()) == old(Pending(State()))[count..]
    {
      if count > |storage| - readPos {
        return true;
      }
      ConsumeIsDequeue(State(), count);
      readPos := readPos + count;
      if readPos == |storage| {
        Clear();
        return false;
      }
      CompactIfNeed();
      return false;
    }

    method Clear()
      modifies this
      ensures Valid() && State() == EMPTY_BUFFER
    {
      storage, readPos := [], 0;
    }
  }
}
