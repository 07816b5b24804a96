/** Length-prefixed frames: four big-endian header bytes, then the payload. */
module FrameCodec {
  import opened Basics

  const HEADER_SIZE := 4
  const MAX_FRAME_SIZE := 1024 * 1024

  function Header(n: nat): (h: bytes)
    ensures |h| == HEADER_SIZE
  {
    [(n / 0x100_0000 % 0x100) as byte, (n / 0x1_0000 % 0x100) as byte, (n / 0x100 % 0x100) as byte, (n % 0x100) as byte]
  }

  function HeaderValue(b: bytes): nat
    requires |b| >= HEADER_SIZE
  {
    b[0] as int * 0x100_0000 + b[1] as int * 0x1_0000 + b[2] as int * 0x100 + b[3] as int
  }

  function Frame(payload: bytes): bytes {
    Header(|payload|) + payload
  }

  /** Fails on a payload above the limit, where `FrameCodec::Encode` throws. */
  function Encode(payload: bytes): Result<bytes> {
    if |payload| > MAX_FRAME_SIZE then Failure else Success(Frame(payload))
  }

  predicate Fit(payloads: seq<bytes>) {
    forall p :: p in payloads ==> |p| <= MAX_FRAME_SIZE
  }

  function EncodeAll(payloads: seq<bytes>): bytes {
    if payloads == [] then [] else Frame(payloads[0]) + EncodeAll(payloads[1..])
  }

  /** The start of a frame that has not all arrived. */
  predicate Incomplete(b: bytes) {
    |b| < HEADER_SIZE || (HeaderValue(b) <= MAX_FRAME_SIZE && |b| < HEADER_SIZE + HeaderValue(b))
  }

  predicate Oversized(b: bytes) {
    |b| >= HEADER_SIZE && HeaderValue(b) > MAX_FRAME_SIZE
  }

  /** What one decoding pass takes off the front of a buffer; on failure the caller never sees `frames`. */
  datatype Decoded = Decoded(frames: seq<bytes>, rest: bytes, failed: bool)

  function Decode(buffer: bytes): Decoded {
    if |buffer| < HEADER_SIZE then Decoded([], buffer, false)
    else
      var n := HeaderValue(buffer);
      if n > MAX_FRAME_SIZE then Decoded([], buffer, true)
      else if |buffer| < HEADER_SIZE + n then Decoded([], buffer, false)
      else
        var later := Decode(buffer[HEADER_SIZE + n..]);
        Decoded([buffer[HEADER_SIZE..HEADER_SIZE + n]] + later.frames, later.rest, later.failed)
  }

  /** The loop over the caller's buffer, handed back as `rest`; `thrown` loses the frames already removed. */
  method DecodeBuffer(buffer: bytes) returns (thrown: bool, frames: seq<bytes>, rest: bytes)
    ensures thrown == Decode(buffer).failed && rest == Decode(buffer).rest
    ensures frames == if thrown then [] else Decode(buffer).frames
  {
    frames, rest := [], buffer;
    while |rest| >= HEADER_SIZE
      invariant Decode(buffer) == Decoded(frames + Decode(rest).frames, Decode(rest).rest, Decode(rest).failed)
      decreases |rest|
    {
      var payloadLen := HeaderValue(rest);
      if payloadLen > MAX_FRAME_SIZE {
        return true, [], rest;
      }
      var totalSize := HEADER_SIZE + payloadLen;
      if |rest| < totalSize {
        break;
      }
      ghost var later := Decode(rest[totalSize..]).frames;
      assert frames + ([rest[HEADER_SIZE..totalSize]] + later) == (frames + [rest[HEADER_SIZE..totalSize]]) + later;
      frames := frames + [rest[HEADER_SIZE..totalSize]];
      rest := rest[totalSize..];
    }
    thrown := false;
  }

  // ------------------------------------------------------------ encoding and decoding are inverse

  lemma HeaderRoundTrip(n: nat)
    requires n < 0x1_0000_0000
    ensures HeaderValue(Header(n)) == n
  {
    assert n / 0x1_0000 == n / 0x100_0000 * 0x100 + n / 0x1_0000 % 0x100;
    assert n / 0x100 == n / 0x1_0000 * 0x100 + n / 0x100 % 0x100;
  }

  lemma HeaderOfValue(b: bytes)
    requires |b| >= HEADER_SIZE
    ensures Header(HeaderValue(b)) == b[..HEADER_SIZE]
  {
    var n := HeaderValue(b);
    assert n / 0x100 == b[0] as int * 0x1_0000 + b[1] as int * 0x100 + b[2] as int;
    assert n / 0x1_0000 == b[0] as int * 0x100 + b[1] as int;
    assert n / 0x100_0000 == b[0] as int;
  }

  /**
   A header compared byte by byte from the front is its length compared as a number: of two lengths, the
   smaller has the smaller byte where their headers first differ, as network byte order has it.
   */
  lemma HeadersCompareAsLengths(n: nat, m: nat) returns (k: nat)
    requires n < m < 0x1_0000_0000
    ensures k < 4 && Header(n)[..k] == Header(m)[..k] && Header(n)[k] < Header(m)[k]
  {
    hide Header, HeaderValue;
    HeaderRoundTrip(n);
    HeaderRoundTrip(m);
    k := LargerValueIsLarger(Header(n), Header(m));
  }

  lemma LargerValueIsLarger(a: bytes, b: bytes) returns (k: nat)
    requires |a| == |b| == HEADER_SIZE && HeaderValue(a) < HeaderValue(b)
    ensures k < HEADER_SIZE && a[..k] == b[..k] && a[k] < b[k]
  {
    k := if a[0] != b[0] then 0 else if a[1] != b[1] then 1 else if a[2] != b[2] then 2 else 3;
  }

  /** On the wire: four bytes of length, the highest first, up to one mebibyte, then as many bytes. */
  lemma WireFormat(b0: byte, b1: byte, b2: byte, b3: byte, payload: bytes)
    requires |payload| == b0 as int * 16777216 + b1 as int * 65536 + b2 as int * 256 + b3 as int
    ensures Encode(payload) == if |payload| <= 1048576 then Success([b0, b1, b2, b3] + payload) else Failure
    ensures
      forall tail: bytes ::
        if |payload| <= 1048576
        then Decode([b0, b1, b2, b3] + payload + tail).frames == [payload] + Decode(tail).frames
        else Decode([b0, b1, b2, b3] + tail).failed && Decode([b0, b1, b2, b3] + tail).frames == []
  {
    hide Decode;
    var header := [b0, b1, b2, b3];
    HeaderOfValue(header);
    assert header[..HEADER_SIZE] == header;
    forall tail: bytes
      ensures
        if |payload| <= 1048576 then Decode(header + payload + tail).frames == [payload] + Decode(tail).frames
        else Decode(header + tail).failed && Decode(header + tail).frames == []
    {
      if |payload| <= 1048576 {
        DecodeFront(payload, tail);
        assert Frame(payload) + tail == header + payload + tail;
      } else {
        assert Oversized(header + tail);
        DecodeStops(header + tail);
      }
    }
  }

  lemma FrameHeader(payload: bytes, tail: bytes)
    requires |payload| <= MAX_FRAME_SIZE
    ensures HeaderValue(Frame(payload) + tail) == |payload|
  {
    HeaderRoundTrip(|payload|);
  }

  lemma EncodeAllConcat(a: seq<bytes>, b: seq<bytes>)
    ensures EncodeAll(a + b) == EncodeAll(a) + EncodeAll(b)
  {
    if a == [] {
      assert a + b == b;
    } else {
      assert (a + b)[1..] == a[1..] + b;
    }
  }

  lemma HeaderOfPrefix(a: bytes, b: bytes)
    requires |a| >= HEADER_SIZE
    ensures HeaderValue(a + b) == HeaderValue(a)
  {
  }

  /** The loop stops at a rest that is incomplete or oversized. */
  lemma DecodeStops(rest: bytes)
    requires Incomplete(rest) || Oversized(rest)
    ensures Decode(rest) == Decoded([], rest, Oversized(rest))
    ensures EncodeAll([]) + rest == rest
  {
  }

  /** One turn of the loop: a complete frame at the front comes off whole. */
  lemma DecodeFront(payload: bytes, tail: bytes)
    requires |payload| <= MAX_FRAME_SIZE
    ensures Decode(Frame(payload) + tail)
      == Decoded([payload] + Decode(tail).frames, Decode(tail).rest, Decode(tail).failed)
  {
    FrameHeader(payload, tail);
    hide Header, HeaderValue;
    var buffer := Frame(payload) + tail;
    assert buffer[HEADER_SIZE..HEADER_SIZE + |payload|] == payload;
    assert buffer[HEADER_SIZE + |payload|..] == tail;
  }

  /** Nothing received is lost by a pass that succeeds: the buffer is exactly the frames and the rest. */
  lemma {:induction false} DecodeSplits(buffer: bytes)
    ensures
      var d := Decode(buffer);
      && buffer == EncodeAll(d.frames) + d.rest && Fit(d.frames)
      && (d.failed ==> Oversized(d.rest)) && (!d.failed ==> Incomplete(d.rest))
    decreases |buffer|
  {
    hide HeaderValue, Frame, Decode, EncodeAll;
    if Incomplete(buffer) || Oversized(buffer) {
      DecodeStops(buffer);
    } else {
      var n := HeaderValue(buffer);
      var payload, tail := buffer[HEADER_SIZE..HEADER_SIZE + n], buffer[HEADER_SIZE + n..];
      FrontIsFrame(buffer);
      DecodeFront(payload, tail);
      DecodeSplits(tail);
      EncodeAllFront(payload, Decode(tail).frames);
      assert Frame(payload) + tail == EncodeAll(Decode(buffer).frames) + Decode(tail).rest;
    }
  }

  lemma FrontIsFrame(buffer: bytes)
    requires |buffer| >= HEADER_SIZE && |buffer| >= HEADER_SIZE + HeaderValue(buffer)
    ensures
      var n := HeaderValue(buffer);
      buffer == Frame(buffer[HEADER_SIZE..HEADER_SIZE + n]) + buffer[HEADER_SIZE + n..]
  {
    HeaderOfValue(buffer);
  }

  lemma EncodeAllFront(payload: bytes, payloads: seq<bytes>)
    ensures EncodeAll([payload] + payloads) == Frame(payload) + EncodeAll(payloads)
  {
    assert ([payload] + payloads)[1..] == payloads;
  }

  /** There is only one way to split a buffer, so decoding inverts encoding. */
  lemma {:induction false} DecodeIsTheSplit(frames: seq<bytes>, rest: bytes)
    requires Fit(frames) && (Incomplete(rest) || Oversized(rest))
    ensures Decode(EncodeAll(frames) + rest) == Decoded(frames, rest, Oversized(rest))
  {
    hide HeaderValue, Frame, Decode, EncodeAll, Incomplete, Oversized;
    if frames == [] {
      DecodeStops(rest);
    } else {
      assert [frames[0]] + frames[1..] == frames;
      var tail := EncodeAll(frames[1..]) + rest;
      DecodeIsTheSplit(frames[1..], rest);
      DecodeFront(frames[0], tail);
      EncodeAllFront(frames[0], frames[1..]);
      assert EncodeAll(frames) + rest == Frame(frames[0]) + tail;
    }
  }

  // ------------------------------------------------------------ chunks

  function Flatten(chunks: seq<bytes>): bytes {
    if chunks == [] then [] else chunks[0] + Flatten(chunks[1..])
  }

  /** Decoding chunk by chunk, keeping the rest between calls and stopping at the first failure. */
  function Feed(buffer: bytes, chunks: seq<bytes>): Decoded
    decreases |chunks|
  {
    if chunks == [] then Decoded([], buffer, false)
    else
      var d := Decode(buffer + chunks[0]);
      if d.failed then Decoded([], d.rest, true)
      else
        var later := Feed(d.rest, chunks[1..]);
        Decoded(d.frames + later.frames, later.rest, later.failed)
  }

  lemma DecodeConcat(a: bytes, b: bytes)
    requires !Decode(a).failed
    ensures
      var d := Decode(a);
      var e := Decode(d.rest + b);
      Decode(a + b) == Decoded(d.frames + e.frames, e.rest, e.failed)
  {
    hide Header, HeaderValue, Decode, EncodeAll;
    var d := Decode(a);
    var e := Decode(d.rest + b);
    DecodeSplits(a);
    DecodeSplits(d.rest + b);
    EncodeAllConcat(d.frames, e.frames);
    assert a + b == EncodeAll(d.frames) + (d.rest + b) == EncodeAll(d.frames + e.frames) + e.rest;
    assert !(Incomplete(e.rest) && Oversized(e.rest));
    DecodeIsTheSplit(d.frames + e.frames, e.rest);
  }

  lemma DecodeFails(a: bytes, b: bytes)
    requires Decode(a).failed
    ensures Decode(a + b).failed && Decode(a + b).frames == Decode(a).frames
  {
    hide Header, HeaderValue, Decode, EncodeAll;
    var d := Decode(a);
    DecodeSplits(a);
    HeaderOfPrefix(d.rest, b);
    assert a + b == EncodeAll(d.frames) + (d.rest + b);
    assert Oversized(d.rest + b);
    DecodeIsTheSplit(d.frames, d.rest + b);
  }

  /** However the bytes are cut into chunks, the frames, the rest and the verdict are those of one pass. */
  lemma {:induction false} FeedIsDecode(buffer: bytes, chunks: seq<bytes>)
    requires Incomplete(buffer)
    ensures
      var d, f := Decode(buffer + Flatten(chunks)), Feed(buffer, chunks);
      && f.failed == d.failed
      && (!d.failed ==> f == d)
      && (d.failed ==> f.frames <= d.frames)
    decreases |chunks|
  {
    if chunks == [] {
      assert buffer + Flatten(chunks) == buffer;
      DecodeIsTheSplit([], buffer);
      assert EncodeAll([]) + buffer == buffer;
    } else {
      var first, rest := buffer + chunks[0], Flatten(chunks[1..]);
      assert buffer + Flatten(chunks) == first + rest;
      if Decode(first).failed {
        DecodeFails(first, rest);
      } else {
        DecodeSplits(first);
        DecodeConcat(first, rest);
        FeedIsDecode(Decode(first).rest, chunks[1..]);
      }
    }
  }

  /** A prefix of a well-formed stream decodes to the payloads it completes and a proper prefix of the next frame. */
  lemma {:induction false} PrefixDecodes(payloads: seq<bytes>, prefix: bytes) returns (n: nat)
    requires Fit(payloads) && prefix <= EncodeAll(payloads)
    ensures n <= |payloads| && Decode(prefix).frames == payloads[..n] && !Decode(prefix).failed
    ensures prefix == EncodeAll(payloads[..n]) + Decode(prefix).rest
    ensures if n == |payloads| then Decode(prefix).rest == [] else Decode(prefix).rest < Frame(payloads[n])
  {
    hide HeaderValue, Frame, Decode, EncodeAll, Incomplete, Oversized;
    if payloads == [] {
      n := 0;
      NoPayloads();
    } else if |prefix| < |Frame(payloads[0])| {
      n := 0;
      assert payloads == [payloads[0]] + payloads[1..];
      EncodeAllFront(payloads[0], payloads[1..]);
      PartOfFrameIsIncomplete(payloads[0], EncodeAll(payloads[1..]), prefix);
    } else {
      var first := Frame(payloads[0]);
      var tail := prefix[|first|..];
      assert payloads == [payloads[0]] + payloads[1..];
      EncodeAllFront(payloads[0], payloads[1..]);
      assert prefix == first + tail && tail <= EncodeAll(payloads[1..]);
      var m := PrefixDecodes(payloads[1..], tail);
      n := m + 1;
      assert payloads[..n] == [payloads[0]] + payloads[1..][..m];
      DecodeFront(payloads[0], tail);
      EncodeAllFront(payloads[0], payloads[1..][..m]);
      assert prefix == EncodeAll(payloads[..n]) + Decode(prefix).rest;
    }
  }

  lemma NoPayloads()
    ensures EncodeAll([]) == [] && Decode([]) == Decoded([], [], false)
  {
  }

  lemma PartOfFrameIsIncomplete(payload: bytes, tail: bytes, prefix: bytes)
    requires |payload| <= MAX_FRAME_SIZE && prefix <= Frame(payload) + tail && |prefix| < |Frame(payload)|
    ensures prefix < Frame(payload)
    ensures Decode(prefix) == Decoded([], prefix, false) && EncodeAll([]) + prefix == prefix
  {
    hide HeaderValue, Decode, EncodeAll;
    var left := Frame(payload)[|prefix|..];
    assert Frame(payload) == prefix + left;
    if |prefix| >= HEADER_SIZE {
      FrameHeader(payload, []);
      HeaderOfPrefix(prefix, left + []);
      assert prefix + (left + []) == Frame(payload) + [];
    }
    DecodeStops(prefix);
  }

  /**
   Round trip through any chunking: whatever part of the encoded payloads has arrived, exactly the
   completed payloads have been delivered, and the buffer holds a proper prefix of the next frame.
   */
  lemma ChunksDeliverPayloads(payloads: seq<bytes>, chunks: seq<bytes>) returns (n: nat)
    requires Fit(payloads) && Flatten(chunks) <= EncodeAll(payloads)
    ensures n <= |payloads| && Feed([], chunks).frames == payloads[..n] && !Feed([], chunks).failed
    ensures Flatten(chunks) == EncodeAll(payloads[..n]) + Feed([], chunks).rest
    ensures if n == |payloads| then Feed([], chunks).rest == [] else Feed([], chunks).rest < Frame(payloads[n])
    ensures Flatten(chunks) == EncodeAll(payloads) ==> n == |payloads|
  {
    hide HeaderValue, Frame, Decode, Feed, EncodeAll, Flatten;
    var stream := Flatten(chunks);
    FeedIsDecode([], chunks);
    assert [] + stream == stream;
    n := PrefixDecodes(payloads, stream);
    if n < |payloads| {
      PrefixIsShorter(payloads, n, Decode(stream).rest);
    } else {
      assert payloads[..n] == payloads;
    }
  }

  lemma PrefixIsShorter(payloads: seq<bytes>, n: nat, rest: bytes)
    requires n < |payloads| && |rest| < |Frame(payloads[n])|
    ensures |EncodeAll(payloads[..n]) + rest| < |EncodeAll(payloads)|
  {
    hide Frame, EncodeAll;
    assert payloads == payloads[..n] + ([payloads[n]] + payloads[n + 1..]);
    EncodeAllConcat(payloads[..n], [payloads[n]] + payloads[n + 1..]);
    EncodeAllFront(payloads[n], payloads[n + 1..]);
  }

  lemma FeedWhole(stream: bytes)
    ensures Flatten([stream]) == stream
    ensures Feed([], [stream]).frames == (if Decode(stream).failed then [] else Decode(stream).frames)
  {
    hide Decode;
    assert [] + stream == stream;
    assert [stream][1..] == [];
    assert Feed(Decode(stream).rest, []).frames == [];
  }

  /** The chunking that keeps every frame of a failing stream: cut it just before the oversized header. */
  lemma FeedCutBeforeFailure(stream: bytes)
    requires Decode(stream).failed
    ensures
      var chunks := [EncodeAll(Decode(stream).frames), Decode(stream).rest];
      Flatten(chunks) == stream && Feed([], chunks).frames == Decode(stream).frames
  {
    hide Header, HeaderValue, Frame, Decode, EncodeAll;
    var frames, rest := Decode(stream).frames, Decode(stream).rest;
    var head := EncodeAll(frames);
    DecodeSplits(stream);
    DecodeIsTheSplit(frames, []);
    DecodeStops(rest);
    assert head + [] == head && [] + head == head && [] + rest == rest;
    assert [head, rest][1..] == [rest] && [rest][1..] == [];
    assert Flatten([rest]) == rest + Flatten([]);
    assert Feed([], [rest]) == Decoded([], rest, true);
    assert Feed([], [head, rest]).frames == frames + [];
  }

  /**
   A failing pass throws away the frames it had already removed, so what is delivered can depend on
   the chunking; it does so exactly on streams with a complete frame before their oversized header.
   */
  lemma ChunkingMattersIffFramesPrecedeFailure(stream: bytes)
    ensures (forall chunks :: Flatten(chunks) == stream ==> Feed([], chunks).frames == Feed([], [stream]).frames)
            <==> !(Decode(stream).failed && Decode(stream).frames != [])
  {
    hide HeaderValue, Decode, Feed, Flatten;
    FeedWhole(stream);
    if Decode(stream).failed {
      FeedCutBeforeFailure(stream);
    }
    forall chunks | Flatten(chunks) == stream && !(Decode(stream).failed && Decode(stream).frames != [])
      ensures Feed([], chunks).frames == Feed([], [stream]).frames
    {
      FeedIsDecode([], chunks);
      assert [] + stream == stream;
    }
  }
}
