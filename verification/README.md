# TinyKVCache verification

TinyKVCache is a TCP key-value cache: frames with a four-byte length carry text commands, a main
reactor accepts connections and deals them out to sub-reactors, and all of them share one store whose
keys can expire. This project models that server and proves what it keeps in every run.

The model has three layers, each built on the one before.

* **The store.** `StoreModel` is the store as a value: the data map, the expiry heap as a bag of records,
  and what each request does to them. `KeyValueStore` is the class with the fields the program has, each
  method proved to leave the state `StoreModel` gives. `StoreRuns` compares whole runs with a plain map
  of values and deadlines.
* **A connection.** `FrameCodec`, `CommandParser`, `CommandExecutor` and `OutputBuffers` are the stages of
  the pipeline, loops and buffers as the program has them. `Sessions` says what each handler does to a
  connection and keeps a log of what passed; `SessionRuns` has the invariant, `SessionTheorems` reads
  the guarantees off it, and `SessionReports` says what one report of the poller does and when it ends a
  connection. `ServiceRuns` is the history of the shared store: the requests of all connections
  in the order they took its mutex. `Connections` is the connection as an object updated in place, running
  its requests on a real `KVStore` and adding exactly these to that history.
* **The server.** `Reactors` is one sub-reactor as its thread sees it; `SubReactors` is that as a class
  over a table of connection objects. `EventLoops` runs it beside other threads, step by step: critical
  sections, single reads and writes of the wakeup channel, single requests, and work on the loop's own
  state; `LoopRefinements` shows that the class does what the steps do. `Servers` adds the main reactor,
  the one store, the sweeper and any number of outside threads; `ServerRuns`, `ServerLedger`,
  `ServerHistories` and `ServerTheorems` prove what every interleaving keeps, `ServerShutdowns` that the
  grace period is kept, `LoopProgress` and `ServerProgress` that the server can always finish, and
  `ServerTurns` what a turn of the main reactor hears and that a client can always join.

Conventions. A byte string is a sequence of bytes. Time is an integer count of nanoseconds, given to each
operation by its environment and never going back. Integers are unbounded except where the program's
width matters, and there a lemma says that it suffices. The environment decides what `recv`, `send`,
`accept`, the poller and the clock report. A connection's `todo` is what is left of the list of decoded
frames its batch loop goes through. The server's `history` is the store: its contents are what the history
leads to. The `log` of a connection, `unseen` in an event loop, `sawStop` in the main reactor, and the bags
of accepted and closed descriptors exist only to state properties.

## What the program does and its documentation does not say

* Filtering heap records by generation alone would be wrong: after a delete, a key's own generation
  restarts and can climb back to that of a stale record. What saves the sweep is the test that the
  entry has a deadline at all (`GenerationFilterAloneIsWrong`, `GenerationMatchIsCurrentIffExpiring`).
* `Size` and `Stats` count stored keys, expired ones included until something erases them
  (`StoredCountIsLiveCountIffNothingExpired`), as a complete sweep does (`SweptCountIsLiveCount`).
* A `GET` of a key whose value is the three letters `nil` answers as if the key were absent
  (`NilMeansAbsentOrTheValueNil`).
* At end of stream the connection is closed first, so the code after it, which would let pending output
  drain, has nothing left to do (`EndOfStreamDropsPending`).
* A decoding failure loses complete frames decoded in the same call
  (`ChunkingMattersIffFramesPrecedeFailure`).
* Equal watermarks are allowed, and while the pending output is exactly at them the pause flag flips at
  every update (`PressureSettlesIff`); a high watermark of zero is allowed and makes an idle connection
  lose all interest and close (`NoInterestBranchIff`).
* The rejection of an oversized read buffer is dead code in the default configuration, because an open
  connection's buffer is always shorter than the largest frame (`OversizedRejectionIsReachableIff`).
* A sub-reactor forced to stop goes from running to stopped without draining.
* The branch in which a sub-reactor rejects an accepted client is never taken (`EveryOfferIsTaken`).

## Model

| member | source | states |
|---|---|---|
| StoreRuns.RunsRefineThePlainMap | src/core/kv_store.cpp:70-190 | On every interleaving of Set, Get, Del, Expire, Ttl and sweeps with a clock that never goes back, every answer is that of a plain map whose keys vanish at their deadline; lazy erasure, budgets, tie order, stale records and rebuilds cannot be observed |
| StoreRuns.RunsAgree | src/core/kv_store.cpp:11-274 | At the time of the last request and at every later time, the store and the plain map show the same live keys, values and deadlines |
| StoreRuns.RunsStayCoupled | src/core/kv_store.cpp:152-164 | On every run heap generations are pairwise distinct and already issued, and every deadline has exactly its own record in the heap |
| StoreRuns.TtlIsWithinTheLastExpire | src/core/kv_store.cpp:169-190 | A non-negative Ttl answer lies between 1 and the seconds of the last accepted Expire of the key, with no Set or Del of it in between |
| StoreRuns.AnswersFollowTheHistory | src/core/kv_store.cpp:70-190 | Every answer on every run read off the history of writes alone: a key has the value of its last SET until a DEL, or until exactly seconds times 10^9 nanoseconds after its last accepted EXPIRE, and TTL is the time left rounded up to seconds |
| StoreRuns.LeaseWasGrantedLast | src/core/kv_store.cpp:133-167 | A deadline the plain map holds was granted by the last accepted Expire in the history of that key |
| StoreRuns.CeilingCountsDown | src/core/kv_store.cpp:188-189 | Rounding the remaining time up to seconds is the granted seconds less the whole seconds elapsed, and stays within 1 and what was granted |
| StoreRuns.RebuildsAreAmortised | src/core/kv_store.cpp:226-274 | Over any run, the records copied by heap rebuilds and those still queued are together at most the accepted Expire calls |
| StoreRuns.NextCost | src/core/kv_store.cpp:210-274 | One request: heap size after it plus records copied is at most heap size before it plus records pushed |
| StoreModel.NextKeepsCoupling | src/core/kv_store.cpp:33-274 | Every request, a sweep with any tie order and a rebuild included, keeps heap and map coupled |
| StoreModel.GrantKeepsCoupling | src/core/kv_store.cpp:158-164 | Expire, with a fresh global generation shared by entry and record, keeps the coupling |
| StoreModel.SetKeepsCoupling | src/core/kv_store.cpp:74-92 | Set, with its entry-local generation and its untouched stale records, keeps the coupling |
| StoreModel.SweepErasesOnlyExpired | src/core/kv_store.cpp:46-63 | A sweep erases exactly the entries whose own current record it popped, leaves the rest unchanged, and whatever it erased had expired |
| StoreModel.GenerationMatchIsCurrentIffExpiring | src/core/kv_store.cpp:52-60 | For a heap record whose generation equals its entry's: it is the record of the latest Expire if and only if the entry has a deadline |
| StoreModel.GenerationFilterAloneIsWrong | src/core/kv_store.cpp:46-63 | A concrete history (set, expire, delete, set, set) after which a stale record and a persistent entry carry the same generation |
| StoreModel.SweepIsComplete | src/core/kv_store.cpp:33-68 | No more due means exactly the live entries remain; more due means the whole budget was popped; also across a rebuild |
| StoreModel.SweepBoundsHeap | src/core/kv_store.cpp:226-246 | A sweep rebuilds the heap exactly if records remain and either no key expires or there are 4096 of them, 1024 of them stale and half of them stale; after it the heap is empty without expiring keys, and otherwise within one of the three bounds 4095, E+1023, 2E-1 |
| StoreModel.RequestsTouchOneKey | src/core/kv_store.cpp:70-190 | A request touches no entry but its own key's, and one that looks at the key leaves no expired entry of it behind |
| StoreModel.RebuildPays | src/core/kv_store.cpp:226-274 | A rebuild keeps exactly the current records, turns its own trigger off and discards at least as many records as it copies |
| StoreModel.RecordCount | src/core/kv_store.cpp:256-270 | A rebuilt heap has exactly as many records as there are expiring keys |
| StoreModel.HeapCoversExpiringKeys | src/core/kv_store.cpp:241-243 | The heap is never smaller than the number of expiring keys, so the stale count does not underflow |
| StoreModel.StoredCountIsLiveCountIffNothingExpired | include/tinykv/core/kv_store.h:101-114 | The stored count, documented as the number of valid keys, is that number if and only if no stored entry has expired |
| StoreModel.SweptCountIsLiveCount | src/core/kv_store.cpp:192-224 | After a sweep that reports no more to do, the stored count is the number of keys live before it and at its time, and it removed all the others |
| StoreModel.CountsAfterUpdate | include/tinykv/core/kv_store.h:6-16 | How the persistent and expiring counts move when an entry is written, for every previous state of the key |
| StoreModel.CountsAfterErase | src/core/kv_store.cpp:20-31 | How the two counts move when an entry is erased |
| KeyValueStore.KVStore.constructor | include/tinykv/core/kv_store.h:53-53 | A new store is empty and its counters and coupling hold |
| KeyValueStore.KVStore.EraseEntryLocked | src/core/kv_store.cpp:20-31 | Erases one entry and keeps both counters exact, so neither decrement underflows |
| KeyValueStore.KVStore.PutEntryLocked | src/core/kv_store.cpp:74-92 | Writes one entry and keeps both counters exact for every change of kind |
| KeyValueStore.KVStore.Set | src/core/kv_store.cpp:70-93 | New state: the value, no deadline, the next entry-local generation, heap untouched |
| KeyValueStore.KVStore.Get | src/core/kv_store.cpp:95-112 | The value exactly when live; an expired entry is erased |
| KeyValueStore.KVStore.Del | src/core/kv_store.cpp:114-131 | True exactly when the key was live; the entry is gone either way |
| KeyValueStore.KVStore.Expire | src/core/kv_store.cpp:133-167 | Accepts exactly a positive number of seconds for a live key, with all three refusals |
| KeyValueStore.KVStore.GrantLease | src/core/kv_store.cpp:152-164 | The accepting part of Expire: deadline, fresh generation and pushed record agree |
| KeyValueStore.KVStore.Ttl | src/core/kv_store.cpp:169-190 | -2, -1 or the remaining seconds rounded up; an expired entry is erased |
| KeyValueStore.KVStore.Stats | src/core/kv_store.cpp:192-208 | The counters are the true numbers of stored entries of each kind |
| KeyValueStore.KVStore.Top | include/tinykv/core/kv_store.h:122-122 | Some record of least expiry time, any one among ties |
| KeyValueStore.KVStore.ProcessTop | src/core/kv_store.cpp:43-63 | Pops one record and erases an entry if and only if the record is the one of its latest Expire |
| KeyValueStore.KVStore.SweepExpiredLocked | src/core/kv_store.cpp:33-68 | What the loop popped are the earliest records, all due, at most the budget, and fewer only if none is left due; the data is what those records leave |
| KeyValueStore.KVStore.CollectRecords | src/core/kv_store.cpp:256-268 | Visiting the map in any order lists exactly one record for every deadline |
| KeyValueStore.KVStore.RebuildExpirationHeapLocked | src/core/kv_store.cpp:248-274 | The new heap is exactly the records of the entries with a deadline |
| KeyValueStore.KVStore.HasDue | src/core/kv_store.cpp:66-66 | True if and only if some record is due |
| KeyValueStore.KVStore.SweepExpired | src/core/kv_store.cpp:210-224 | The whole locked sweep meets the sweep relation, with more-due recomputed after a rebuild |
| KeyValueStore.KVStore.SweeperPasses | src/net/tcp_server.cpp:423-431 | With no writer in between, the sweeper ends within floor(heap/1024)+1 passes having removed only expired keys, and exactly those unless it was told to stop |
| OutputBuffers.BufferIsFifo | src/net/output_buffer.cpp:7-68 | On every run of Append, Consume and Clear the pending bytes are those of a first-in-first-out byte queue |
| OutputBuffers.CompactionIsAmortised | src/net/output_buffer.cpp:34-68 | Bytes moved by compaction are at most bytes consumed plus the number of compactions, and each compaction is paid for by 65536 consumed bytes |
| OutputBuffers.SettledBoundsDeadPrefix | src/net/output_buffer.cpp:55-68 | The dead prefix is below 65536 or below the number of pending bytes |
| OutputBuffers.AppendNeverCompacts | src/net/output_buffer.cpp:13-16 | On no run does the compaction attempt inside Append find anything to do |
| OutputBuffers.AppendIsEnqueue | src/net/output_buffer.cpp:7-17 | Append adds its bytes behind the pending ones and leaves the buffer settled |
| OutputBuffers.ConsumeIsDequeue | src/net/output_buffer.cpp:34-47 | Consume drops exactly the first pending bytes and leaves the buffer settled |
| OutputBuffers.OutputBuffer.Append | src/net/output_buffer.cpp:7-17 | In place: pending bytes become the old ones followed by the data |
| OutputBuffers.OutputBuffer.Consume | src/net/output_buffer.cpp:34-47 | Throws exactly on more than is pending, changing nothing; otherwise drops the first bytes |
| OutputBuffers.OutputBuffer.CompactIfNeed | src/net/output_buffer.cpp:55-68 | Moves the pending bytes to the front exactly when both thresholds are met |
| OutputBuffers.OutputBuffer.Clear | src/net/output_buffer.cpp:49-53 | Leaves the empty buffer |
| FrameCodec.DecodeIsTheSplit | src/core/frame_codec.cpp:74-103 | Decoding the encodings of any list of payloads within the limit, followed by an unfinished or oversized rest, gives back exactly the list, the rest and the verdict |
| FrameCodec.DecodeSplits | src/core/frame_codec.cpp:74-103 | A buffer is exactly the encodings of the decoded payloads followed by the rest, and a pass fails if and only if the rest is oversized |
| FrameCodec.FeedIsDecode | src/core/frame_codec.cpp:56-103 | Decoding chunk by chunk gives the frames, the rest and the verdict of one pass, up to frames lost to a failure |
| FrameCodec.ChunksDeliverPayloads | src/core/frame_codec.cpp:26-103 | For any payloads within the limit and any chunking of any prefix of their encodings, exactly the completed payloads are delivered and the buffer is a proper prefix of the next frame |
| FrameCodec.ChunkingMattersIffFramesPrecedeFailure | src/core/frame_codec.cpp:84-100 | What is delivered depends on the chunking if and only if complete frames precede an oversized header |
| FrameCodec.FeedCutBeforeFailure | src/core/frame_codec.cpp:84-100 | A chunking that delivers every frame of a failing stream |
| FrameCodec.PrefixDecodes | src/core/frame_codec.cpp:78-103 | A prefix of a well-formed stream decodes to the payloads it completes |
| FrameCodec.DecodeConcat | src/core/frame_codec.cpp:56-68 | Decoding a concatenation is decoding the first part and then its rest with the second part |
| FrameCodec.HeadersCompareAsLengths | src/core/frame_codec.cpp:38-39 | Of two 32-bit lengths the smaller has the smaller byte where their headers first differ, so headers are in network byte order |
| FrameCodec.WireFormat | src/core/frame_codec.cpp:26-103 | Four bytes of length, the highest first, up to 1048576, then as many bytes: exactly this is encoded and decoded; a larger length fails |
| FrameCodec.HeaderRoundTrip | src/core/frame_codec.cpp:38-39 | The four header bytes read back as the length, for every 32-bit length |
| FrameCodec.HeaderOfValue | src/core/frame_codec.cpp:82-84 | Any four bytes are the header of the length they read as |
| FrameCodec.DecodeBuffer | src/core/frame_codec.cpp:74-103 | The decoding loop returns the frames and the rest of the specification, and loses the frames when it throws; it ends because each frame takes at least four bytes |
| CommandParser.ParserMeetsItsGrammar | src/core/command_parser.cpp:128-202 | A line parses to a command if and only if it lays out its fields with any white space around them: for each command its own number of fields and its own word, letter by letter in either case, the key a word, a SET value kept byte for byte, EXPIRE seconds a decimal numeral of 1 to 2147483647 |
| CommandParser.OtherLinesAreUnknown | src/core/command_parser.cpp:128-202 | Every line that spells no command is unknown, kept as it came |
| CommandParser.SixBytesSeparateWords | src/core/command_parser.cpp:24-58 | A byte between two words separates them if and only if it is one of the six white-space bytes |
| CommandParser.PositiveIntIsNumeral | src/core/command_parser.cpp:91-115 | The numbers accepted are exactly the decimal numerals, each digit weighted by its place, of 1 to 2147483647 |
| CommandParser.RestHasTheRemainingWords | src/core/command_parser.cpp:60-89 | The text after n words has exactly the remaining words, so the empty-value branch after three words is never taken |
| CommandParser.WordsOfJoined | src/core/command_parser.cpp:47-58 | Splitting words laid out with any white space gives back the words |
| CommandParser.JoinedOfWords | src/core/command_parser.cpp:47-58 | Every text is its own words laid out with some white space |
| CommandParser.SetValueIsShorterThanItsLine | src/core/command_parser.cpp:170-183 | A SET line has at least six bytes besides its value |
| CommandParser.PositiveIntReadsDecimal | src/core/command_parser.cpp:91-115 | Printing any positive int and parsing it gives it back |
| CommandParser.ExpireSecondsFit | src/core/command_parser.cpp:187-198 | The seconds of a parsed EXPIRE lie between 1 and the largest int |
| CommandParser.TrimText | src/core/command_parser.cpp:24-37 | The two scanning loops compute the trimmed text |
| CommandParser.SplitWords | src/core/command_parser.cpp:47-58 | The extraction loop computes the maximal runs of non-space bytes |
| CommandParser.RestAfterNWords | src/core/command_parser.cpp:60-89 | The scanning loops compute the trimmed text after n words, or nothing |
| CommandParser.ParsePositiveInt | src/core/command_parser.cpp:91-115 | Accepts exactly digit strings of value 1 to the largest int, and the 64-bit accumulator never overflows |
| CommandParser.ParseCommand | src/core/command_parser.cpp:128-202 | The case analysis computes, for every line, the command whose grammar ParserMeetsItsGrammar gives |
| CommandExecutor.Execute | src/core/command_executor.cpp:5-64 | New store and response for every command type, the response also byte for byte |
| CommandExecutor.ExecutedIsReply | src/core/command_executor.cpp:5-64 | The bytes of every response but that of STATS: +OK or $nil for DEL exactly as the key was live or not, for EXPIRE exactly as it was live and the seconds positive; the value behind $; $-2, $-1 or $ and the seconds left rounded up; and the fixed texts |
| CommandExecutor.StatsIsCensus | src/core/command_executor.cpp:47-52 | The STATS text is the three counts in decimal, each behind its own name, the first the sum of the others |
| CommandExecutor.NilMeansAbsentOrTheValueNil | src/core/command_executor.cpp:13-20 | A GET response is the text for absence if and only if the key is absent or its value spells that text |
| CommandExecutor.ResponseFitsAFrame | src/net/sub_reactor.cpp:567-575 | For any payload that fitted a frame, values stay below the frame limit and every response except that of STATS can be encoded |
| CommandExecutor.AfterIsBounded | src/core/command_parser.cpp:170-183 | Stored values stay at most the frame limit less six bytes, and deadlines within an int of seconds |
| CommandExecutor.TtlFitsInt | src/core/kv_store.cpp:188-189 | The cast of the remaining seconds to int never truncates |
| ServiceRuns.ServiceIsAStoreRun | src/core/command_executor.cpp:5-64 | A history of the store, payloads of any number of connections in the order they took its mutex with sweeps between them, is a run of the store that ends in its contents |
| ServiceRuns.ResponsesComeFromThePlainMap | src/core/command_executor.cpp:5-64 | In every history each response is, byte for byte, what its command calls for in the plain map after all earlier requests of all connections; for STATS the true counts, followed by metrics |
| ServiceRuns.PointOfRequest | src/net/sub_reactor.cpp:443-478 | The k-th exchange of a connection is one point of the history, with exactly its first k before it |
| ServiceRuns.ContinuingProjects | src/net/sub_reactor.cpp:353-357 | A history that goes on by some requests of one connection goes on, as seen by that connection, by exactly those |
| ServiceRuns.ServiceStaysBounded | src/core/command_parser.cpp:170-183 | In every history every stored value is at most the frame limit less six bytes |
| ServiceRuns.ResponsesAlwaysEncode | src/core/frame_codec.cpp:26-32 | In every history encoding the response to anything but STATS succeeds |
| SessionTheorems.EndToEndStream | src/net/sub_reactor.cpp:297-478 | For every chunking of reads and every size of sends: frames executed are the first frames received, in order, QUIT only last; sent plus pending is exactly the encoded responses, ended by at most one error frame or the farewell; once closed, what was sent is a prefix of that. What the responses are is the subject of EveryClientIsServed |
| SessionTheorems.ClosingIsFinal | src/net/sub_reactor.cpp:297-412 | A closing connection reads and queues nothing ever again and owes no more bytes; a closed one also sends nothing |
| SessionTheorems.EndOfStreamDropsPending | src/net/sub_reactor.cpp:319-327 | End of stream closes at once: the client got everything queued for it if and only if nothing was pending |
| SessionTheorems.BuffersStayBounded | src/net/sub_reactor.cpp:303-310 | On every run the read buffer and the pending output stay within their limits, and a closed connection holds no bytes |
| SessionTheorems.OpenReadBufferIsPartOfAFrame | src/core/frame_codec.cpp:89-93 | On every run an open connection's read buffer holds less than one frame |
| SessionTheorems.OversizedRejectionIsReachableIff | src/net/sub_reactor.cpp:303-306 | Under a poller that reports only what it was asked for, the rejection of an oversized read buffer can happen if and only if the high watermark is not zero and the buffer limit is below four bytes plus the frame limit |
| SessionTheorems.FillReadBuffer | src/net/sub_reactor.cpp:309-310 | A client that fills the read buffer byte by byte with the start of one frame, to any size below a frame |
| SessionTheorems.HysteresisHolds | src/net/sub_reactor.cpp:414-441 | After an update a connection is paused from the high watermark on, not paused down to the low one, and unchanged strictly between them; only where the marks are equal and met exactly does the flag flip; nothing else ever changes |
| SessionTheorems.PressureSettlesIff | src/net/sub_reactor.cpp:414-441 | A second update changes nothing if and only if it is not the case that both watermarks equal the pending size |
| SessionTheorems.PausesAndResumesAlternate | src/net/sub_reactor.cpp:422-440 | On every run the pause and resume events of a connection alternate, a pause first |
| SessionTheorems.RefreshSettles | src/net/sub_reactor.cpp:696-721 | With a high watermark above zero a refreshed connection is closed, or registered for reading exactly if it is neither paused nor closing, for writing exactly if bytes are pending, and for one of the two |
| SessionTheorems.RefusalsAndErrorsHaveCause | src/net/sub_reactor.cpp:340-367 | On every run a refused response was above 1048576 bytes or would have taken the pending output past its hard limit; an error frame says protocol error exactly if the undecoded bytes start an oversized frame, and otherwise that they fill the read buffer |
| SessionReports.ReportReads | src/net/sub_reactor.cpp:297-358 | A report takes in exactly what recv delivers, at most 16384 bytes and the room left, and only into a connection that is open, not paused and has room |
| SessionReports.ReportSends | src/net/sub_reactor.cpp:369-412 | A report sends exactly the first pending bytes, as many as send and the limit per event allow, and only if it allows writing |
| SessionReports.ResponseIsQueuedIff | src/net/sub_reactor.cpp:567-595 | A response is queued and the connection stays if and only if it is at most 1048576 bytes and the pending output plus its frame is within the hard limit; then the output grows by exactly that frame |
| SessionReports.ReportEndsIff | src/net/sub_reactor.cpp:145-171 | An open connection stops being open if and only if the report brings an error or a hangup, a failed read or write, the end of the stream, malformed or excess input, a refused response, a QUIT, or, with a high watermark of zero, nothing to wait for |
| SessionReports.ClosingEndsIff | src/net/sub_reactor.cpp:156-168 | A closing connection closes if and only if all it owes is sent, the report brings an error, or a write fails |
| SessionReports.WouldBlockChangesNothing | src/net/sub_reactor.cpp:329-335 | A recv and a send that would block change nothing but the pause flag and the registered interest |
| SessionTheorems.NoInterestBranchIff | src/net/sub_reactor.cpp:709-713 | The branch that closes a connection with no interest is taken if and only if the connection is open, unpaused and owes nothing while the high watermark is zero |
| SessionRuns.SessionsAreSound | src/net/sub_reactor.cpp:297-738 | The whole connection invariant on every run of poller reports, graceful stops and forced closes |
| SessionRuns.AnsweringIsSound | src/net/sub_reactor.cpp:353-357 | A batch of requests, stopped by a close or a QUIT but not by a pause, keeps the invariant whatever the responses |
| SessionRuns.PayloadIsSound | src/net/sub_reactor.cpp:460-478 | One response, queued or refused, keeps the invariant, and exactly this request and this response are logged as executed |
| SessionRuns.EndExecutesNothing | src/net/sub_reactor.cpp:156-171 | Writing, hanging up and refreshing the interest execute no request |
| SessionRuns.ReceiveIsSound | src/net/sub_reactor.cpp:337-358 | Receiving any bytes keeps the invariant, also when decoding fails |
| SessionRuns.WriteIsSound | src/net/sub_reactor.cpp:369-412 | A send of any size, a refusal or an error keeps the invariant |
| SessionRuns.ReadyIsSound | src/net/sub_reactor.cpp:150-171 | Everything one poller report leads to keeps the invariant |
| SessionRuns.DrainIsSound | src/net/sub_reactor.cpp:678-688 | Graceful shutdown of one connection keeps the invariant |
| Connections.Connection.MarkClosed | src/net/sub_reactor.cpp:597-606 | Closes and clears both buffers and both flags |
| Connections.Connection.UpdateReadBackPressure | src/net/sub_reactor.cpp:414-441 | Pauses and resumes exactly at the watermarks, and only while open |
| Connections.Connection.QueueResponse | src/net/sub_reactor.cpp:567-595 | Queues the frame, and leaves an open connection open, if and only if the response is at most 1048576 bytes and fits the hard limit with what is pending; else closes |
| Connections.Connection.QueueFinalError | src/net/sub_reactor.cpp:343-350 | Queues an error frame after which the connection only writes |
| Connections.Connection.RejectOversizedReadBuffer | src/net/sub_reactor.cpp:360-367 | Queues the rejection or is closed |
| Connections.Connection.ProcessPayload | src/net/sub_reactor.cpp:443-478 | Executes the payload on the given store, whose history goes on by exactly this exchange, and leaves the session that its response leads to; says whether the batch goes on |
| Connections.Connection.ProcessPayloads | src/net/sub_reactor.cpp:353-357 | The batch loop handles exactly the payloads the specification does; the store's history goes on by exactly these exchanges, in order |
| Connections.Connection.TakeIn | src/net/sub_reactor.cpp:340-358 | Decodes what recv delivered and executes the frames on the given store, one history for all of them; a failure queues the protocol error |
| Connections.Connection.HandleClientRead | src/net/sub_reactor.cpp:297-358 | One recv of any outcome leaves exactly the specified session, and the store's history goes on by exactly the exchanges the log goes on by |
| Connections.Connection.HandleClientWrite | src/net/sub_reactor.cpp:369-412 | One send of any outcome leaves exactly the specified session |
| Connections.Connection.FinishWriting | src/net/sub_reactor.cpp:162-168 | Stops reading and closes now or once everything is written |
| Connections.Connection.RefreshInterest | src/net/sub_reactor.cpp:696-738 | Registers the wanted interest, and reports a change exactly when there is one |
| Connections.Connection.HandleReady | src/net/sub_reactor.cpp:150-171 | Error, read, write, hangup and refresh in order leave exactly the specified session and history of the store |
| Connections.Connection.Drain | src/net/sub_reactor.cpp:678-688 | Graceful shutdown of one client |
| Connections.Respond | src/net/sub_reactor.cpp:443-458 | Parses and executes one payload on the given store: its history goes on by this client, time, payload, response and the contents the store now has |
| Connections.ExtendingProjects | src/net/sub_reactor.cpp:353-357 | If a log was its connection's part of the history before a method, it is so after it |
| Reactors.BeginReportKeepsHealthy | src/net/sub_reactor.cpp:140-155 | Taking up a report keeps every client sound and the table, the poller and the metrics in agreement |
| Reactors.AnswerKeepsHealthy | src/net/sub_reactor.cpp:353-357 | So does each answered request of it, while other threads run in between |
| Reactors.EndReportKeepsHealthy | src/net/sub_reactor.cpp:156-172 | So does the rest of the report |
| Reactors.CleanupKeepsMatched | src/net/sub_reactor.cpp:608-634 | Cleanup keeps the poller holding exactly the table, and accepted minus closed equal to its size |
| Reactors.BeginKeepsHealthy | src/net/sub_reactor.cpp:667-694 | Starting to shut down keeps the reactor healthy and leaves only closing clients |
| Reactors.FinishKeepsHealthy | src/net/sub_reactor.cpp:173-174 | The end of a turn keeps the reactor healthy |
| Reactors.BeginDropsNoOutput | src/net/sub_reactor.cpp:667-694 | Starting to shut down closes and counts exactly the clients owed nothing, keeps every owed byte of the others, takes over the deadline, and stops at once if and only if none is left |
| Reactors.DeadlineStops | src/net/sub_reactor.cpp:636-665 | A turn of a draining reactor that ends at or after the deadline ends stopped with an empty table, every client closed and counted once, those not closed before as forced |
| Reactors.RunningTurnOnlyCleans | src/net/sub_reactor.cpp:608-640 | The end of a turn of a running reactor removes exactly the closed clients, counts each, changes no other, and does not stop |
| Reactors.DrainedStops | src/net/sub_reactor.cpp:636-651 | Before the deadline a turn stops a draining reactor if and only if every client has closed, and forces none |
| Reactors.ReportOnlyEmpties | src/net/sub_reactor.cpp:156-168 | While draining, a report makes no client read or queue, and the total of bytes owed never grows |
| Reactors.FinishRests | src/net/sub_reactor.cpp:173-174 | After a turn every client is open, registered for what it wants, and wants something |
| Reactors.WaitEndsByTheDeadline | src/net/sub_reactor.cpp:197-222 | While shutting down, a reactor that has sent no forced stop does not block with zero timeout before the deadline, sleeps at most 100 ms, and otherwise to within a millisecond of the deadline; 500 ms while running, 10 ms once forced stops are sent |
| SubReactors.SubReactor.EnqueClient | src/net/sub_reactor.cpp:51-69 | Takes the descriptor exactly if no stop was requested, at the end of the queue |
| SubReactors.SubReactor.Stop | src/net/sub_reactor.cpp:71-82 | Records the stop and keeps the earlier of two deadlines |
| SubReactors.SubReactor.ForceStop | src/net/sub_reactor.cpp:84-92 | Records the forced stop and nothing else |
| SubReactors.SubReactor.AddClientInLoop | src/net/sub_reactor.cpp:263-288 | A new client enters table, poller and metric together, or its descriptor is closed |
| SubReactors.SubReactor.HandleReport | src/net/sub_reactor.cpp:145-171 | In place over the table of connection objects: one report leaves exactly the specified reactor, and the history of the given store goes on by exactly the exchanges that client's log goes on by |
| SubReactors.SubReactor.CleanupClosedConnections | src/net/sub_reactor.cpp:608-634 | The loop removes exactly the closed clients from table and poller and counts each once |
| SubReactors.SubReactor.MarkAllClosed | src/net/sub_reactor.cpp:660-662 | The loop closes every client |
| SubReactors.SubReactor.ForceCloseAllConnections | src/net/sub_reactor.cpp:653-665 | Every client is closed, counted as forced and removed |
| SubReactors.SubReactor.DrainAll | src/net/sub_reactor.cpp:678-688 | The loop drains every client and tells the poller of each changed interest |
| SubReactors.SubReactor.BeginGracefulShutdown | src/net/sub_reactor.cpp:667-694 | Only from running: sets the deadline, drains all, cleans up, stops if nothing is left |
| SubReactors.SubReactor.CheckShutdownProgress | src/net/sub_reactor.cpp:636-651 | Stops a draining reactor when its table is empty or its deadline has passed |
| SubReactors.SubReactor.ProcessControlRequests | src/net/sub_reactor.cpp:224-261 | Takes the whole queue; a forced stop wins over a stop, which wins over new clients |
| SubReactors.SubReactor.Terminate | src/net/sub_reactor.cpp:176-195 | An exception empties the table without the closed metric and marks the reactor failed |
| EventLoops.StepsKeepWakeups | src/net/wakeup/wakeup_channel.cpp:55-114 | Every step of the loop and of any number of other threads keeps: what is recorded and not yet taken has a byte in the channel, a notify on its way, or a loop about to look; a full channel included |
| EventLoops.StepsKeepSeen | src/net/sub_reactor.cpp:224-261 | What has been taken has been acted on or is being acted on, and a loop drains only because it was told to |
| EventLoops.StepsStaySteady | src/net/sub_reactor.cpp:116-195 | Every step keeps the reactor healthy, the wakeup protocol and the state in step |
| EventLoops.StepsStayAttended | src/net/sub_reactor.cpp:116-195 | With a high watermark above zero, every step keeps all clients settled with the poller between turns, and closed or settled during one |
| EventLoops.StepsConserve | src/net/sub_reactor.cpp:224-288 | No step loses or duplicates a descriptor |
| EventLoops.StepsHold | src/net/sub_reactor.cpp:224-288 | Except for what is handed to it, a loop only ever owns fewer descriptors |
| EventLoops.StepsAdvance | src/net/sub_reactor.cpp:291-295 | No step moves a reactor back: running, draining, stopped |
| EventLoops.StepsFreeze | src/net/sub_reactor.cpp:636-694 | While draining, no step reads, queues or admits anything, and the bytes owed never grow |
| EventLoops.EarliestDeadlineWins | src/net/sub_reactor.cpp:71-82 | After any number of stop requests the deadline kept is the earliest that was given |
| ServerTheorems.NoWakeupIsLost | src/net/sub_reactor.cpp:51-92 | In every reachable interleaving, for every sub-reactor: something recorded and not yet taken means a byte in its channel, the main reactor about to notify it, the loop between drain and swap, or the loop gone |
| ServerTheorems.BlockedLoopsAreWoken | src/net/sub_reactor.cpp:118-133 | A loop blocked with a request pending can be woken at once, unless the main reactor is just about to notify someone |
| ServerTheorems.ShutdownReachesEveryLoop | src/net/tcp_server.cpp:155-176 | Once the main reactor is draining and has told everyone, each loop has the stop and the deadline of DeadlineIsTheGracePeriod, and has begun to stop, is acting on it, or has still to look |
| ServerTheorems.ForceReachesEveryLoop | src/net/tcp_server.cpp:195-203 | Once the deadline has passed or the main reactor has failed, each loop has stopped, or has the forced stop and is acting on it or has still to look |
| ServerTheorems.StoppedMeansEveryLoopStopped | src/net/tcp_server.cpp:178-204 | The server is stopped only when every sub-reactor is, on the exception path too, and a stopped sub-reactor has an empty table |
| ServerTheorems.StatesOnlyAdvance | src/net/tcp_server.cpp:93-136 | No move takes the server or any sub-reactor back to an earlier state |
| ServerTheorems.DrainingLoopsOnlyEmpty | src/net/sub_reactor.cpp:156-158 | While a sub-reactor drains, no move by anyone makes it read, queue or admit, or owe more bytes |
| ServerTheorems.DeadlineEndsTheDrain | src/net/sub_reactor.cpp:636-651 | A draining sub-reactor keeps the deadline of DeadlineIsTheGracePeriod, and a turn that ends at or after it ends stopped with an empty table |
| ServerShutdowns.DeadlineIsTheGracePeriod | src/net/tcp_server.cpp:155-176 | In every reachable state the deadline of a draining server, of every loop told to stop and of every draining loop is the time at which the shutdown began plus the configured grace |
| ServerShutdowns.NobodyIsForcedInGrace | src/net/tcp_server.cpp:195-203 | On every run, if a client was forced off or anyone was asked to force, the grace period was over, or the main reactor had failed |
| ServerShutdowns.TurnsInGraceForceNobody | src/net/sub_reactor.cpp:636-651 | No turn of a loop that ends within the grace period forces a client |
| ServerShutdowns.LoopsServeUntilTold | src/net/sub_reactor.cpp:116-175 | A sub-reactor goes on running until the server shuts down, the main reactor fails, or it fails itself |
| ServerTurns.StopEndsService | src/net/tcp_server.cpp:94-107 | A stop asked for before Wait returned ends service at the next decision of that turn |
| ServerTurns.FailureEndsService | src/net/tcp_server.cpp:109-111 | A turn that begins after a sub-reactor has failed accepts nobody: from the inspection of that sub-reactor on the server drains, has stopped or has failed |
| ServerTurns.MainForcesAtTheDeadline | src/net/tcp_server.cpp:178-204 | While draining, the main reactor goes back to Wait only having forced everyone, or after a check within the grace period |
| ServerTurns.EveryOfferIsTaken | src/net/tcp_server.cpp:321-328 | In no reachable state is an accepted client refused: it goes to the end of the queue of the loop whose turn it is, and that loop is notified |
| ServerTurns.EveryClientEnters | src/net/sub_reactor.cpp:263-288 | A client taken from the queue of a serving loop enters its table, poller and count together, new and registered for reading, unless the poller refuses it, and disturbs no other |
| ServerTurns.ClientsCanAlwaysJoin | src/net/tcp_server.cpp:93-124 | From every reachable state in which the server waits, runs, has no stop and no failed sub-reactor, moves without a failure take a connecting client into the queue of the loop whose turn it is, and the main reactor back to Wait |
| ServerTheorems.EveryDescriptorHasOnePlace | src/net/tcp_server.cpp:292-329 | Every accepted descriptor is closed or in exactly one place: in hand, in one queue, taken from one, or in one table |
| ServerTheorems.ClientsNeverCollide | src/net/sub_reactor.cpp:267-270 | A new client never finds its descriptor already in the table |
| ServerTheorems.NothingLeaks | src/net/tcp_server.cpp:331-350 | Once the server is gone, every connection it accepted has been closed |
| ServerTheorems.OffersAreEven | src/net/tcp_server.cpp:321-324 | The numbers of connections offered to any two sub-reactors differ by at most one |
| ServerTheorems.ConnectionMetricsAddUp | src/net/sub_reactor.cpp:282-283 | Unless a sub-reactor has failed, accepted minus closed is the total size of the tables |
| ServerTheorems.BlockedLoopsAreAttended | src/net/sub_reactor.cpp:677-738 | With a high watermark above zero, whenever a loop is in Wait no client of it is closed, and the poller waits for reading from exactly those neither paused nor closing and for writing to exactly those owed bytes, so for something from each |
| ServerTheorems.LogsArePartsOfOneHistory | src/net/tcp_server.cpp:62-91 | In every reachable server all requests and all sweeps form one run of the one store, and the log of every client in any table is exactly its part of that run since it joined |
| ServerTheorems.EveryClientIsServed | src/net/sub_reactor.cpp:297-478 | Every client in any table of any reachable server satisfies the connection invariant, and each of its responses has a point in the one history at which it is the plain map's answer after all earlier requests of all clients; its own earlier requests come before it in order |
| ServerTheorems.OnlySlowClientsAreRefused | src/net/sub_reactor.cpp:567-588 | In every reachable server a client was refused a response, other than that of STATS, only because with what it was already owed it would have passed the hard limit |
| ServerHistories.MovesKeepRecorded | src/net/sub_reactor.cpp:443-478 | Every move keeps each log its connection's part of the history: an execution adds to one client's log and to the history alike, and no other move adds to any log |
| ServerTheorems.ServersStayGood | src/net/tcp_server.cpp:93-124 | All server invariants hold in every reachable state |
| ServerTheorems.StopComesBeforeAccepting | src/net/tcp_server.cpp:94-122 | In no reachable state is the main reactor accepting in a turn whose Wait returned after a stop was asked for, and no turn accepts more than its limit |
| ServerProgress.ShutdownCanAlwaysFinish | src/net/tcp_server.cpp:93-136 | From every reachable state in which the server is shutting down or its main reactor has failed, at any time from the deadline on, a finite sequence of moves without a failure ends it: no loop, channel, queue, poller or join holds up another for ever |
| ServerProgress.MainComesToWait | src/net/tcp_server.cpp:155-204 | From any such state the main reactor, whatever it was in the middle of, can by itself get to where it waits for the loops, having told every one |
| ServerProgress.LoopComesToExit | src/net/sub_reactor.cpp:116-195 | From there each loop, whatever it was in the middle of and whatever is left to answer, can exit |
| LoopRefinements.ControlIsObeyedByStep | src/net/sub_reactor.cpp:224-261 | Taking a control record and acting on it step by step leaves exactly what SubReactor.ProcessControlRequests leaves |
| LoopRefinements.ReportIsHandledByStep | src/net/sub_reactor.cpp:145-171 | Handling a report step by step, one request at a time, leaves exactly what SubReactor.HandleReport leaves |
| SubReactors.ReportIsOneClients | src/net/sub_reactor.cpp:145-171 | A report changes one client, as the handlers in order do, the poller exactly if its interest changed, and nothing else |
| ServerRuns.MovesKeepNotifiers | src/net/tcp_server.cpp:173-175 | A sub-reactor has a notify on its way exactly when the main reactor is between recording and notifying it |
| ServerRuns.MovesKeepTold | src/net/tcp_server.cpp:155-176 | While running nobody has been told to stop, and once told everyone has the one deadline |
| ServerRuns.MovesKeepStopsKnown | src/net/tcp_server.cpp:184-193 | What the main reactor has found stopped one by one is still stopped when it concludes |
| ServerRuns.MovesKeepForces | src/net/tcp_server.cpp:259-273 | Every loop the main reactor has come past in forcing has the forced stop recorded or has exited |
| ServerLedger.MovesKeepAccounts | src/net/tcp_server.cpp:292-329 | Every move keeps the account of accepted, held and closed descriptors |
| ServerLedger.MovesKeepDistinct | src/net/tcp_server.cpp:292-329 | Every move keeps descriptors in at most one place, given that accept returns none that is open |
| ServerLedger.MovesKeepFair | src/net/tcp_server.cpp:322-323 | Every move keeps the round robin: full rounds for all, one more for those before the next |

## Left out

- FrameCodec.Encode: the narrowing of the payload length to 32 bits before the limit is compared, so payloads of 2^32 bytes or more; every payload the server encodes is covered by `ResponseFitsAFrame` except the text of STATS.
- FrameCodec.DecodeBuffer: the caller's buffer is handed in and its rest handed back, instead of being erased in place.
- Connections.Respond: the metrics that follow the store's counts in the STATS text, with its averages and percentiles, are an unconstrained tail, because they are floating-point formatting.
- ServerTheorems.NoWakeupIsLost: a write to the wakeup channel that fails for a reason other than a full channel, which the program ignores.
- ServerTheorems.ConnectionMetricsAddUp: a reactor that failed, because its exception path drops the table without counting.
- ServerTheorems.BlockedLoopsAreAttended: a poller that refuses a change of interest; such a refusal is the failure step of the event loop. A poller that refuses to remove a descriptor is taken to have removed it.
- ServerTheorems.EveryClientIsServed: a client that has left its table; its log was its part of the history for as long as it was there. A request is one step, as it is under the store's mutex.
- ServerProgress.ShutdownCanAlwaysFinish: that the sequence of moves is the one the scheduler takes; it is shown to exist from every such state.
- SessionReports.WouldBlockChangesNothing: a high watermark of zero, with which an idle connection may close (`NoInterestBranchIff`).
- EventLoops: what a report leads to before its first request and after its last, a clean-up and a forced close are single steps, since no other thread can see the table; other threads could see the metrics part-way through one.
- SubReactors.SubReactor: the `while` of the event loop itself and the wakeup channel, which are the steps of `EventLoops`.
- Servers: the main reactor as an object; its loops are the program counters of `Servers`. Starting up, thread creation and its roll-back are not part of the model: a run begins with every loop started.
- Servers: bounds on how long anything takes to happen, and fairness of the scheduler.
- KeyValueStore.KVStore: generations and time are unbounded; wrap-around of 64-bit counters and of the clock is not modelled.
- KeyValueStore.KVStore.SweeperPasses: the condition variable and the mutex the sweeper waits on, and writers between two passes; sweeps interleaved with writers are covered by `StoreRuns`.
- The poller back-ends, sockets, descriptor flags, signals and retries after an interrupt are the environment.
- Configuration, command line, logging, the latency histogram and the client program.
