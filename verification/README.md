# HurriCache Go client: a verified model

This project models the parts of the HurriCache Go client whose correctness depends on many steps or
many functions at once, and proves properties of them in Dafny 4.11. `dafny verify dfyconfig.toml`
checks everything.

* **Smart backend** (`smart.go`). `Lifecycle` is a transition system on values: every critical section of
  the mutex, and every result of the connection factory, is one step, so that any interleaving of any
  number of calls, refreshes and Close is a sequence of steps. Its invariant is inductive. `Executions`
  draws the consequences for whole runs. `SmartBackends` is the backend as a class with heap endpoints;
  every critical section is a method that does to the state exactly what its step does. `Discovery` and
  `Refreshing` are discovery, publication and refresh, composed of these methods with any steps of other
  threads in between (`Interfere`). `Rounds`, `Routing` and `Closing` are shard selection, `run` and Close.
* **Chunked operations** (`collections.go`, `client.go`). `Wire` and `Messages` are the protobuf encoding
  (the sections "Base 128 Varints" and "Length-Delimited Records" of the Protocol Buffers encoding guide)
  and the messages, and `Readback` reads every request back from its bytes, so that `proto.Size` is the length of
  real bytes from which nothing is missing. `Packing` is `split` with its binary
  search, `Sending` and `Progress` the loops that send chunks and account for them, `Mutations`, `Reserve`
  and `Creation` are `add`, `RemoveFromContainer` and `CreateContainer`. `Lists` is the server's list as far
  as the client relies on it, `Limits` says which limits make a before-insertion go wrong, and `ServerLists`
  puts all of this together: what an `add` or a creation leaves on the server.
* **Encoding of collections** (`codec.go`, `collections.go`). `Codec`, `Batches`, `RoundTrips` and `Reading`
  go from data to items, to parallel arrays, and back through decoding and accumulation. `Contents` says, in the
  terms of the caller's arguments, what every call of an operation asks the server for.
* **One attempt and its routing**. `Networks` records every RPC; `Operations` is one attempt of any operation;
  `Routing.Run` composes it with the life cycle, and `Delivery` says what all attempts of a routed `add`
  leave on the server's list, so that "nothing acknowledged is replayed" is a statement
  about the calls actually made.
* **Policy resolution** (`tools/parity.py`). `Parity` is the depth-first search over method bodies and the
  search for the closing brace of a body.

What the network, the server, the coordinators, the connection factory, the context and the scheduler do is
nondeterministic, but no failure comes from nowhere: what they answer is recorded, and parameters say whether a
context may end (`mayEnd`, `Risks.cancel`) and whether the factory may fail (`Risks.factory`). So the contracts
promise success, not only an account of failures: a calm `Publish` accepts exactly the publishable topologies,
and an `add` that the server accepts completes. Where the source waits (for the gate, for the first topology, in
Close), other threads take any steps first; then those it waits for leave.

An endpoint that other threads can reach is on the heap; snapshots, messages and plans are values, as in the
source, which never changes them after they are built.

## What is false, and exactly when it holds

* **Before-insertion in chunks** (`Limits.BeforeExactlyByLimit`). Splitting an insertion before a pivot into several
  requests leaves the list of the single request, whatever the request limit, if and only if nothing but the pivot
  follows the first inserted item that equals the pivot. When something does follow, `Limits.SomeLimitDiffers` gives
  a limit for which nothing that `split` returns leaves that list. `Limits.TwoItemsServed` is the failure for two
  payloads and the limit of the larger one, from the session to the server's list; `Lists.BeforeCounterexample` is it
  in numbers.
* **Reported insertions** (`ServerLists.AddIsOneInsertion`). After an `add` the server's list is the old one with one
  insertion of exactly the payloads that are reported, for the kinds that take a zero count as a rejection always, and
  for those that only add counts up if and only if no request was acknowledged with the count 0. Otherwise
  `ServerLists.IgnoredIsShorter` says that the list is too short for the report.
* **Round robin** (`Rounds.RoundRobin`). A window of as many consecutive ticks as there are shards selects
  every shard once if and only if it does not cross a multiple of 2^31 or the shard count divides 2^31.
* **Payload round trip** (`Codec.PayloadRoundTrip`). An encoded payload decodes to itself if and only if its
  sizes fit the 32-bit metadata. `Codec.PayloadCounterexample` is the failure for 2^32 bytes;
  `RoundTrips.LimitSuffices` says when the client's own limits ensure the sizes.

## Where the documentation differs

* `README.md:327` says that a rejected boolean chunk can count as acknowledged without adding items. The code
  does not count it: `collections.go:319-320` reports the chunks before it (`Sending.Rejected`). A chunk
  whose count overflows is counted, with its items (`collections.go:312-313`, `Sending.Overflowed`).

## Model

| member | source | states |
|---|---|---|
| Wire.RoundTrip | proto/cache.proto:210-257 | The bytes of a message determine its fields, for any message of the model: the size model is the length of a real, readable encoding. |
| Wire.VarintFormat | client.go:268-270 | A varint is the number in groups of seven bits, the least significant first, with the high bit on all bytes but the last and no superfluous byte, as the section "Base 128 Varints" of the encoding guide has it. |
| Wire.FieldFormat | client.go:268-270 | A record is a tag of field number and wire type, and a varint: the value or the number of bytes that follow, as in the sections "Message Structure" and "Length-Delimited Records". |
| Wire.VarintStep | collections.go:249-260 | A varint grows by at most one byte when its value grows by one, which is what moving the start of a positional request costs. |
| Readback.RequestBack | proto/cache.proto:15-80 | A reader that knows only the schema gets every request back from its bytes, field by field, and the number of these bytes is the size that is checked: nothing of a request is left out of its size. |
| Readback.BytesDetermine | proto/cache.proto:209-268 | So the bytes of a request determine it. |
| Readback.PayloadsFit | collections.go:101-122 | A request is at least as large as all the payloads of keys and values in it together. |
| Readback.SentPayloadsFit | client.go:268-270 | No call of a chunked operation carries more payload bytes than `MaxRequestBytes`. |
| Messages.BuildArrays | collections.go:101-118 | The loop builds the parallel arrays of the items, each present part appended in item order. |
| Messages.ArraysConcat | collections.go:101-118 | The arrays of a concatenation are the concatenations of the arrays. |
| Packing.SizeOfBuild | collections.go:101-122 | The size on the wire of every kind of request is the size of its header plus the size that its items add. |
| Packing.ItemAddsTwo | collections.go:124-128 | An item adds at least two bytes to a request of any kind that sends something of it, and otherwise nothing. |
| Packing.HeaderStep | collections.go:249-260 | Starting a request one item later makes its header at most one byte longer, also when the position wraps. |
| Packing.SmallerFromLeft | collections.go:143-153 | Dropping leading items never makes a request larger, although its position may become longer. |
| Packing.SmallerFromRight | collections.go:143-153 | Dropping trailing items never makes a request larger; so binary search is sound. |
| Packing.Longest | collections.go:142-151 | The binary search finds the longest span from a start whose request fits: it fits and no longer one does. |
| Packing.Split | collections.go:124-156 | Unless its context may end, it succeeds exactly when the header and every single item fit. Success gives non-empty adjacent spans that cover all items, each fitting and maximal; it fails with the header exactly when the header is too large, with an item only for the first item that does not fit alone, and with cancellation only when the context may end. |
| Packing.StaysAhead | collections.go:124-156 | After any number of requests the greedy spans have reached at least as far as any other spans that fit. |
| Packing.SplitIsOptimal | collections.go:124-156 | No contiguous partition whose requests all fit has fewer requests. |
| Packing.PositionsExact | collections.go:239-260 | The chunk that starts at any item of a positional insertion has the base plus that start as position, never wrapped and never 2^32-1, and larger than that of every earlier chunk. |
| Lists.NextChunk | collections.go:274-276 | Inserting one part and then, where `add` sends it, the next is inserting both in one request. |
| Lists.ForwardChunks | collections.go:249-298 | Forward chunks up to any point leave the list of one request with exactly those items, for head, tail, position and before. |
| Lists.BackwardChunks | collections.go:274-279 | Chunks sent last to first leave the list of one after-insertion with exactly the items sent. |
| Lists.ChunkedRefinesSingle | collections.go:249-308 | Chunked insertion, in the order `add` uses, leaves the list of one unsplit request, for every kind and every split. |
| Lists.BeforeExactly | collections.go:274-298 | Over all contiguous splits: each gives the list of the single request if and only if only pivots follow the first inserted pivot. |
| Limits.AroundPivot | collections.go:274-298 | Up to the first inserted pivot chunked before-insertion is one insertion; afterwards the place of that pivot is taken for good by the first chunk that starts with another element. |
| Limits.RunGrows | collections.go:274-298 | If a first chunk reaches beyond the first inserted pivot and the next other element, and only pivots follow the chunk, all these pivots end up together at the place of the first one. |
| Limits.TellingPlace | collections.go:142-153 | There always is an item at or after the first other element where a first request can be made to end, by a limit that every item meets, so that the next request starts with another element or only pivots are left. |
| Limits.TellingSplit | collections.go:129-156 | With that limit nothing that `split` returns leaves the list of one insertion. |
| Limits.SomeLimitDiffers | collections.go:129-156 | If another element follows the first inserted pivot, there is a limit that every item meets, for which `split` can return spans and no spans that it returns leave the list of one insertion. |
| Limits.BeforeExactlyByLimit | collections.go:249-298 | For any payloads, with any expiry and lock: for every limit the spans of `split` leave the list of one insertion, if and only if only pivots follow the first inserted pivot. |
| Limits.TwoItemsSplit | collections.go:129-156 | With the larger of the two single requests as limit, two payloads can be added before a pivot, and the only spans `split` can return are one for each. |
| Limits.TwoItemsServed | collections.go:233-329 | Then, with every request acknowledged and success reported, inserting the pivot's value and another one leaves a list on the server that differs from one insertion. |
| Lists.BeforeCounterexample | collections.go:274-298 | Numbers for it: inserting 0 and 1 before 0 into the list of 0, in two requests, is not one insertion. |
| Codec.PayloadRoundTrip | codec.go:51-121 | With a compressor whose expansion inverts compression, an encoded payload decodes to itself if and only if its sizes fit 32 bits. |
| Codec.PayloadCounterexample | codec.go:51-121 | The failing input: 2^32 uncompressed bytes within the decoding limit are sent with the length 0 and do not decode. |
| Codec.EncodesExactly | codec.go:51-86 | What is sent for which payload: refused exactly when it exceeds the limit, or when LZ4 returns nothing for it; compressed exactly when its kind is and it is longer than the threshold (1024 by default), with its raw size. |
| Codec.DecodesExactly | codec.go:87-121 | Exactly what is described as it was sent is decoded: the right size, and uncompressed within the limit, or a positive raw size within the limit that the expanded data have. Everything else is DataLoss, except what is well described but too large. |
| Codec.DecodedBounded | codec.go:87-121 | Decoding never returns more than `MaxDecodedBytes` bytes. |
| Codec.DecodingFails | codec.go:159-181 | A value or key without a payload is DataLoss; with one, its decoding fails only as the payload does. |
| Batches.EncodeEach | collections.go:38-98 | One element loop: all encodings in order, or the first error, or a context error. |
| Batches.EncodeItems | collections.go:23-100 | An unsupported type or data of another kind is InvalidArgument; otherwise the result is the encoding of all elements in order, or its first error, or a context error. |
| Batches.MatchesExactly | collections.go:24-32 | The data are accepted for a type exactly when all their elements are of the kind that it holds. |
| Batches.DecodeUnordered | collections.go:400-427 | The loop over values yields entries, ordered entries or values, pairing each value with the key of its index, or the first error. |
| Batches.DecodeBatch | collections.go:391-439 | Mixed key kinds, unequal counts and ordered values beside keys are DataLoss; otherwise everything is decoded in order, or the first error returned. |
| Batches.DecodedExactly | collections.go:391-439 | A batch is decoded to some data exactly when it does not mix both kinds of keys, has as many values as keys if there are keys, and then no ordered values, and the data are its elements in order, each pair made of the key and the value of one index; a batch of any other form is DataLoss. |
| Batches.Collect | collections.go:463-483 | The data are exactly the decoding of the first batches, as many as the error reports, and of all batches when there is no error. |
| RoundTrips.ValueBack | codec.go:135-171 | A value comes back with its bytes and lock; with its own expiry if it has one and else with that of the creation; and marked as compressed exactly when it was. |
| RoundTrips.OrderedItemBack | codec.go:145-181 | If a weighted value is encoded, it comes back the same way, with its weight `w` as `w`, an absent weight as 0. |
| RoundTrips.EntryBack | collections.go:58-75 | If a map entry is encoded, it comes back with its key bytes and hint, its own client ID if it has one and else the operation's, and its value. |
| RoundTrips.OrderedEntryBack | collections.go:76-98 | The same for ordered map entries, with the weight and compressed key and value. |
| RoundTrips.UniformArrays | collections.go:101-118 | The arrays of items of one shape are parallel: each array that the shape has is the image of the items in order, the others are empty. |
| RoundTrips.EachBack | collections.go:391-439 | If every element comes back, so do all elements of a message, in order, for any encoder, decoder and shape of items. |
| RoundTrips.OneMessage | collections.go:391-439 | Decoding the arrays of any encoded collection returns its elements in order: `SameData` says so field by field, without the functions that encode. |
| RoundTrips.CollectionRoundTrip | collections.go:23-118 | For data that match the type and any split into spans, decoding the message of each span and concatenating returns every element in order (`SameData`): same bytes, lock, hint and weight, and own or shared expiry and client ID. |
| RoundTrips.CollectedBack | collections.go:463-483 | So when a stream delivers these messages and ends normally, the collecting loop reports no error, all messages, and exactly the stored data, in the sense of `SameData`. |
| RoundTrips.EncodedCarry | collections.go:38-98 | Every encoded item carries something, as optimal packing needs. |
| RoundTrips.LimitSuffices | codec.go:51-62 | With a decoding limit below 2^32, and payloads within it that stay below 2^32 when compressed, all encoded data can be described, so they come back. |
| Networks.Network.Unary | client.go:264-277 | Exactly one call is recorded, with its reply, and only for a request within the limit; no call means that the context may end and has, or that the request is larger than the limit. |
| Networks.Network.Receive | collections.go:445-471 | One recorded stream: refused, or batches and an optional server error at the end. |
| Sending.SendAll | collections.go:280-327 | The calls are a prefix of the wanted messages in order, each within the limit, and the outcome accounts for them: complete success with the true sum, a rejected first chunk, or a failure after exactly the reported chunks and items; a context error only if the context may end. |
| Progress.Completes | collections.go:280-327 | When the context can not end and the server accepts every request, all chunks are sent and the count is their sum. |
| Progress.NotPartialNothingDone | client.go:278-286 | An error that is not partial means that the server acknowledged none of the calls. |
| Progress.NoSizeFailure | client.go:268-270 | No chunked operation that has started to send ends with the client's size error. |
| Progress.CountIsTrue | collections.go:312-315 | The returned count is the true sum of the acknowledged counts, except that on overflow it is the sum before the chunk that overflows. |
| Progress.CompletedIsContiguous | collections.go:309-325 | The chunks of a partial error are the first in sending order, all acknowledged, and its items are exactly a prefix of the input, or a suffix for after-insertion. |
| Progress.ChunksAreOneRequest | collections.go:274-281 | Any number of chunks in sending order leave the list of one request with exactly their items. |
| Progress.PartialIsOneRequest | collections.go:309-325 | After a partial failure the completed chunks have left the list of one request with exactly the reported items. |
| Reserve.KeyShorter | collections.go:166-168 | A key with any hint, or none, is no larger than the key with the reserved hint. |
| Reserve.ReservedSuffices | collections.go:166-180 | If the creation with the reserved key fits, so do the creation and the continuation of the same items with any hint. |
| Mutations.SplitPlan | collections.go:129-156 | A size error means that the header or an item does not fit alone; success means that all do; a context error means that the context may end. |
| Mutations.Add | collections.go:233-329 | Refused input sends nothing and gets the first applicable error; otherwise the requests of a greedy plan for exactly the encoded items go out in order, each within the limit, and the outcome accounts for every reply. A context error needs a context that may end. |
| Mutations.ZeroRejects | collections.go:316-324 | For the six kinds whose methods return a boolean, without `countOnly`: a zero count ends the operation, with false for the first chunk and with a partial Aborted error after it. |
| Mutations.CountsOnly | collections.go:312-327 | The other kinds, and all kinds with `countOnly`, never take a count as a rejection. |
| Mutations.AddCompletes | collections.go:233-329 | An `add` whose input can be sent, whose context can not end and whose requests the server accepts (with positive counts, for the six boolean kinds) sends all of them and returns their sum. |
| Mutations.AddIsOptimal | collections.go:124-156 | The requests of an `add` are the fewest into which its items can be split. |
| Contents.AddCalls | collections.go:246-308 | Every call of an `add`: the RPC of its kind, the key, the type for maps only, the position of the kind, the encoded pivot with its flag, and the arrays of its chunk, last chunk first for after-insertion. |
| Contents.AddCarries | collections.go:23-118 | The arrays of its chunks, decoded in item order, are the caller's elements, with their own expiries only. |
| Contents.EncodedExactly | collections.go:38-98 | A collection can be encoded exactly when every payload is within the limit, and LZ4 can compress those that are compressed: weighted elements, and keys and values of ordered maps. |
| Contents.AddAccepts | collections.go:234-249 | An `add` gets as far as checking its sizes exactly when the type is supported, the data are of its kind and can be encoded, a position does not overflow, and the pivot of a relative insertion can be encoded. |
| Contents.AddRefusal | collections.go:234-249 | The error of a refused `add` is that of the first check that fails: InvalidArgument exactly for an unsupported type or data of another kind, then a payload that can not be encoded, OutOfRange exactly for an overflowing position, then the pivot, then ResourceExhausted for a size. |
| Contents.SendableExactly | collections.go:129-141 | Then it can be sent exactly when the header and each item alone make requests within the limit. |
| Mutations.RemoveFromContainer | collections.go:331-382 | The same for removal of values and then keys, with the sum of the server's counts. |
| Contents.RemoveCalls | collections.go:337-366 | Every call of a removal names, in order, exactly the values and then the keys of its chunk: values uncompressed, keys with their hints, compressed like the client's own, and with the client ID of the operation. |
| Contents.RemoveRefusal | collections.go:331-366 | The error of a refused removal: InvalidArgument exactly for an unsupported type, then a payload that can not be encoded, then ResourceExhausted for a size. |
| Creation.Preflight | collections.go:176-180 | The explicit check of the continuations never fails after a successful split with the reserved key. |
| Creation.Continue | collections.go:191-211 | The continuations go out in order; an error reports exactly the acknowledged chunks and the items before them, and a zero count of a list type is a rejection. |
| Creation.CreateContainer | collections.go:158-213 | Refused input sends nothing; otherwise one creation and then the continuations with the returned hint go out in order, every one of them within the limit, and errors report exactly the acknowledged prefix. A context error needs a context that may end. |
| Contents.CreateCall | collections.go:182-187 | The creation request has the key, type and TTL of the operation and the items of the first chunk, or none. |
| Contents.CreateRefusal | collections.go:158-181 | The error of a refused creation, in the same order. |
| Contents.ContinuationCalls | collections.go:187-207 | Every continuation has the items of its chunk, the type, no position, the key with the returned hint if there is one, and the RPC that appends for lists, vectors and queues and adds for the rest. |
| Contents.CreateCarries | collections.go:33-118 | The arrays of a creation and its continuations, decoded in order, are the caller's elements; only maps, ordered maps and ordered sets pass the TTL of the creation on to elements without an expiry. |
| Contents.ContinuationRejected | collections.go:191-203 | A continuation that counts nothing is a rejection for lists, vectors and queues, and for no other type. |
| Creation.CreateCompletes | collections.go:158-213 | A creation whose input can be sent, whose context can not end and whose requests the server accepts sends all its chunks. |
| Creation.NoSizeFailureAfterCreation | collections.go:166-210 | Once the creation was sent no size error follows, whatever hint came back; an error without progress means that nothing was acknowledged. |
| Creation.CreatedPrefix | collections.go:187-211 | The items of a partial creation are exactly the first items, covered by exactly the reported number of chunks. |
| Reading.Read | collections.go:440-484 | An invalid range or a request that is too large sends nothing; a refused stream is its error; otherwise the data and progress are those of the batches delivered. |
| Contents.ReadCall | collections.go:445-458 | The call of a read: all of the container, or the range with the type, start, end and direction given; none, with InvalidArgument, exactly when the range ends before it starts, and with ResourceExhausted exactly when the request is too large. |
| Reading.NothingCollected | collections.go:470-476 | A read error without progress means that not even the first batch could be decoded. |
| Operations.Perform | client.go:256-262 | One attempt of any operation calls one node only, does what the report of its kind says, and leaves no acknowledged work behind when its error is not partial. |
| ServerLists.AsksForItsItems | collections.go:249-269 | Each request asks the server for exactly the payloads of its span, at the place where the insertion has moved to. |
| ServerLists.ServedIsChunked | collections.go:282-311 | The accepted requests, applied one after the other, are the chunked insertion of the caller's payloads. |
| ServerLists.AcceptedExactly | collections.go:309-325 | The chunks the outcome reports as completed are exactly those that the server acknowledged, and for the kinds that reject on a zero count exactly those that it carried out. |
| ServerLists.AddIsOneInsertion | collections.go:233-329 | For every kind, split and outcome, the list after an `add` is the old list with one insertion of exactly the payloads that the caller is told were inserted; for the kinds that only add counts up, if and only if no acknowledgement counted nothing. |
| ServerLists.IgnoredIsShorter | collections.go:312-324 | If such a kind gets an acknowledgement that counts nothing, the list is shorter than what is reported. |
| ServerLists.ServedContinuations | collections.go:191-211 | The accepted continuations of a list creation extend the server's list span by span. |
| ServerLists.CreateIsOneList | collections.go:158-213 | For list types, after an acknowledged creation the server's list is exactly the payloads that the caller is told it holds: all of them, or the first ones that a partial error reports. |
| Lifecycle.InitialInv | smart.go:96-109 | A new backend satisfies the invariant. |
| Lifecycle.RetireRestores | smart.go:362-372 | Retiring idle endpoints restores the invariant: none of a snapshot or a run is removed, and the ledger of Close callbacks stays exact. |
| Lifecycle.RunBeginKeeps | smart.go:377-387 | Capturing and pinning a snapshot keeps the invariant. |
| Lifecycle.RunEndKeeps | smart.go:388-395 | Unpinning a run and retiring keeps the invariant. |
| Lifecycle.DialedKeeps | smart.go:224-235 | A coordinator connection, usable or nil, keeps the invariant. |
| Lifecycle.StoreKeeps | smart.go:236-246 | Storing it, or closing it when the client was closed meanwhile, keeps the invariant. |
| Lifecycle.LookupKeeps | smart.go:304-312 | Looking up and pinning a known target keeps the invariant. |
| Lifecycle.CreatedKeeps | smart.go:313-329 | Adding a new endpoint to the draft keeps the invariant. |
| Lifecycle.RefusedKeeps | smart.go:319-325 | Closing an unusable factory result keeps the invariant. |
| Lifecycle.RouteKeeps | smart.go:331-338 | Adding a route to the draft keeps the invariant. |
| Lifecycle.CommitTable | smart.go:350-356 | The commit never overwrites another endpoint in the table: the union with the draft stays injective. |
| Lifecycle.CommitKeeps | smart.go:344-361 | Publishing a draft keeps the invariant. |
| Lifecycle.AbortKeeps | smart.go:291-298 | Closing what a failed publication has created keeps the invariant. |
| Lifecycle.UnpinKeeps | smart.go:281-289 | The deferred unpin keeps the invariant. |
| Lifecycle.CloseFinishKeeps | smart.go:471-489 | Closing the table and the coordinator connections keeps the invariant. |
| Lifecycle.ControlKeeps | smart.go:168-188 | Entering, waiting for, taking and leaving the gate, and starting Close, keep the invariant. |
| Lifecycle.StepKeeps | smart.go:168-490 | The invariant is inductive over all steps: table, snapshot, runs, exact reference counts, exact active flags, no idle endpoint, exact ledger of closes. |
| Executions.AlwaysInv | smart.go:168-490 | The invariant holds after every sequence of steps from a new backend. |
| Executions.RunKeepsItsSnapshot | smart.go:382-395 | From its start to its end a run keeps the snapshot it captured. |
| Executions.PinnedUntilRunEnds | smart.go:362-395 | Every endpoint of a run's snapshot stays in the table under its target, with a positive count and an open connection, until the run ends or Close has finished. |
| Executions.ClosedAtMostOnce | smart.go:362-372 | No connection's Close callback is ever invoked twice, nor one that is not owned, on any run. |
| Executions.LedgerBounds | smart.go:219-246 | In any state within the invariant the number of closes of a connection is 0 or 1, and after Close exactly 1 for every owned one. |
| Executions.ClosedExactlyOnceAtTheEnd | smart.go:464-490 | When Close has finished, every owned connection the factory ever returned was closed exactly once, through all failure paths. |
| Executions.SameEndpointWhileHeld | smart.go:304-330 | A target that is in the current snapshot and in an unfinished run's snapshot has the same endpoint in both. |
| Executions.CommitOverwritesNothing | smart.go:353-356 | At every commit a target that is in the table gets the endpoint it has. |
| Executions.ReferenceCounts | smart.go:281-289 | At every point a count is the number of in-flight runs that hold the endpoint, plus one if the publisher pins it. |
| Executions.TableIsJustified | smart.go:350-372 | At every point an endpoint is in the table only if it is active or its count is positive, and it is active exactly when the current snapshot maps its target to it. |
| Executions.QuiescentTable | smart.go:350-372 | With no call and no refresh in flight the table is exactly the snapshot's target table. |
| Executions.LastGoodSnapshotStays | smart.go:299-360 | Until the next commit the snapshot does not change. |
| SmartBackends.SmartBackend.constructor | smart.go:96-109 | The new object is in the initial state. |
| SmartBackends.SmartBackend.RetireLocked | smart.go:362-372 | The loop over the table, in any order, does what the retire function says to table, flags and closes. |
| SmartBackends.SmartBackend.RunBegin | smart.go:377-387 | Refuses when closed or without a snapshot, and otherwise does exactly the step that pins it. |
| SmartBackends.SmartBackend.RunEnd | smart.go:388-395 | Does exactly the step that unpins the run's snapshot and retires. |
| SmartBackends.SmartBackend.Tick | smart.go:400-400 | Advances the shared counter by one modulo 2^32 and changes nothing else. |
| SmartBackends.SmartBackend.Enter | smart.go:169-176 | Registers a refresh unless the client is closed. |
| SmartBackends.SmartBackend.TakeGate | smart.go:181-183 | Takes the free one-slot gate. |
| SmartBackends.SmartBackend.Dialed | smart.go:224-235 | Does exactly the step for a coordinator connection that the factory returned. |
| SmartBackends.SmartBackend.StoreCoordinator | smart.go:236-246 | Stores the connection, or closes it when the client is closed. |
| SmartBackends.SmartBackend.Lookup | smart.go:304-312 | Reuses and pins the endpoint of a known target, and otherwise records the miss. |
| SmartBackends.SmartBackend.CreateNode | smart.go:314-329 | Allocates a fresh endpoint for the missed target and enters it in the draft. |
| SmartBackends.SmartBackend.RefuseNode | smart.go:319-325 | Closes an unusable factory result and keeps it out of the draft. |
| SmartBackends.SmartBackend.AddRoute | smart.go:331-338 | Routes a shard and role to the endpoint that the draft has for the target. |
| SmartBackends.SmartBackend.CommitDraft | smart.go:344-361 | Commits unless closed or cancelled: flags, table, snapshot and retirement in one step. |
| SmartBackends.SmartBackend.FlagActive | smart.go:350-356 | The two loops leave exactly the new snapshot's endpoints of the table active. |
| SmartBackends.SmartBackend.InstallDraft | smart.go:350-358 | The draft becomes the snapshot: flags, table and snapshot change together, as in the step before it retires. |
| SmartBackends.SmartBackend.AbortPublish | smart.go:291-298 | Closes every created endpoint's owned connection once. |
| SmartBackends.SmartBackend.UnpinAll | smart.go:281-289 | Releases all pins of the publication and retires. |
| SmartBackends.SmartBackend.CloseBegin | smart.go:464-468 | Marks the client closed. |
| SmartBackends.SmartBackend.CloseFinish | smart.go:471-489 | Closes every open endpoint and every coordinator connection once and marks the endpoints closed. |
| Discovery.Consume | smart.go:247-278 | Accepts exactly a complete stream with one positive shard count, some peers, non-empty targets, known roles and shards below the count; loses no peer; and returns the error of the first check that fails. |
| Discovery.PeerMember | smart.go:249-264 | The peers of an answer are exactly those of all its messages: none is lost and none made up. |
| Discovery.SoundExactly | smart.go:252-278 | An answer is accepted exactly when its stream ends normally, all messages have the same positive shard count, there is some peer, and no peer has an empty target, another role than master or backup, or a shard that is not below the count. |
| Discovery.PublishableExactly | smart.go:268-340 | An answer can be published exactly when moreover its messages claim some target for some shard and role, and never two targets for the same. |
| Discovery.RelationMember | smart.go:331-338 | A claim is in the announced relation exactly when some peer announces it. |
| Discovery.OrderIrrelevant | smart.go:299-340 | The relation and the targets do not depend on the order or repetition of peers. |
| Discovery.ShardsBelowCount | smart.go:268-277 | Every claimed shard is below the announced count, with a known role and a non-empty target. |
| Discovery.DrawnIsFunctional | smart.go:331-338 | Routes to distinct endpoints can only draw a functional relation. |
| Discovery.DrawnRoutes | smart.go:299-340 | Read as targets, the routes of a snapshot are exactly the announced relation. |
| Discovery.RelationOfStream | smart.go:249-264 | A claim is in the announced relation exactly when some peer of some message makes it. |
| Discovery.DrawnMirrors | smart.go:299-360 | A snapshot that draws an answer mirrors its messages: every shard, role and target of every peer of every message is routed to the endpoint of that target, there is no other route and no other target, and the shard count is that of all messages. |
| Refreshing.Interfere | smart.go:168-490 | Any number of steps of other threads keep the invariant, whether the runs of this thread have begun and what they hold, and, for the holder of the gate, everything of the refresher and every factory result. |
| Refreshing.EndpointFor | smart.go:304-330 | Each target gets exactly one endpoint in the draft: the one it has there, the one in the table, or a new one. |
| Refreshing.AddRoutes | smart.go:331-338 | Adds all routes of a peer, or reports a conflict only when the relation is not functional. |
| Refreshing.BuildDraft | smart.go:290-340 | Without a failure the draft draws exactly the announced relation and targets; a conflict means that the relation is not functional, and the other failures have their cause outside. |
| Refreshing.Publish | smart.go:280-361 | When the context can not end, the factory does not fail and the client is open, it accepts exactly the functional non-empty relations. Acceptance publishes exactly the relation; every failure has its cause and leaves the last good snapshot. |
| Refreshing.DialCoordinator | smart.go:224-246 | One factory result at most; success keeps exactly it as the connection of the coordinator, failure keeps none, and every failure has its cause. |
| Refreshing.Discover | smart.go:219-278 | A known connection is reused and nothing dialed; otherwise the one dialed is kept. The result is exactly what the recorded answer of the coordinator announces, and an error exactly when that answer is not sound or the dialing failed. |
| Refreshing.PublishedIsUsable | smart.go:268-277 | A published answer has routes, all of them for shards below its count. |
| Refreshing.Attempt | smart.go:195-203 | When nothing outside goes wrong the coordinator answers, and its answer becomes the snapshot exactly when it is publishable. Success means that the snapshot mirrors the messages of the answer. |
| Refreshing.RefreshHoldingGate | smart.go:187-211 | Tries the coordinators in rotation from the active one, each at most once. Success publishes the last recorded answer, all its messages (`Mirrors`), and makes its coordinator the active one; failure leaves snapshot and active coordinator. When nothing outside goes wrong, every coordinator tried has answered and exactly the first publishable answer ends the rotation. |
| Refreshing.Refresh | smart.go:168-212 | The same through the gate: success means that the snapshot mirrors all messages of the last recorded answer; when nothing outside goes wrong, failure means that all coordinators were asked and none gave a publishable answer; a closed client asks nobody. |
| Rounds.AfterTicks | smart.go:396-401 | After any number of ticks the 32-bit counter is the start plus that number, modulo 2^32. |
| Rounds.FairWindow | smart.go:396-401 | A window of `shards` consecutive tick numbers visits no shard twice, and then all, if and only if it does not cross a multiple of 2^31 or the shard count divides 2^31. |
| Rounds.RoundRobin | smart.go:396-401 | For the values that the next `shards` ticks of the counter return, from any value and across its wrap-around: they select no shard twice, and then all, if and only if they do not cross a multiple of 2^31 or the shard count divides 2^31. |
| Rounds.StraddlingCollides | smart.go:396-401 | Otherwise two ticks of the window select the same shard. |
| Routing.Choose | smart.go:413-432 | The endpoints of a shard in the order of the mode; a missing role leaves the other one and no fallback. |
| Routing.RetryTarget | smart.go:436-459 | A retry is never after a partial failure, never at the same endpoint, only after FailedPrecondition or Unavailable, and only at the fallback or a snapshot target. |
| Routing.Next | smart.go:436-459 | The branches after the first attempt choose exactly that target. |
| Routing.RetriesAsTheErrorSays | smart.go:436-459 | Stated on the errors themselves: after Unavailable there is a second attempt exactly if the context lasts and the other endpoint of the shard is another one, and it goes there; after FailedPrecondition exactly if the first route names another endpoint of the snapshot, and it goes there; after anything else there is none. |
| Routing.StartsAsTheOptionsSay | smart.go:396-432 | Stated on the options themselves: the weak hash or else the low 31 bits of the counter select the shard; with both roles routed, the mode of the call, or else master first for a write and the configured mode for a read, decides who is tried first and second; a missing role leaves the other one alone. |
| Routing.UnroutedMeans | smart.go:402-405 | No attempt for lack of a route means that neither role is routed for the selected shard. |
| Routing.SelectShard | smart.go:396-401 | The shard of the hint, or of the next value of the counter, which only a call without a hint advances. |
| Routing.RoutesInSnapshot | smart.go:402-432 | The chosen endpoints are targets of the pinned snapshot. |
| Routing.OtherConnection | smart.go:448-457 | Different endpoints of a snapshot have different connections. |
| Routing.CallNode | smart.go:436-436 | Only a pinned endpoint is called, and it is still pinned and open when the attempt ends. |
| Routing.NoReplayAfterProgress | smart.go:436-459 | If any call of the first attempt was acknowledged there is no second attempt. |
| Routing.WaitReady | smart.go:130-146 | With other threads going on, it ends with a topology, or with a context error that has its cause: the context, Close, or a ready timeout, which can only end a call that found no topology, unless it is so short that it may be over when the call looks. |
| Routing.Run | smart.go:373-460 | At most two attempts, on different connections of the snapshot that is current in the state in which its locked section runs. Which endpoint comes first and second is what the options, the roles and the error of the first attempt say (`ChosenRight`, `RetriesRight`); the answer is that of the last attempt, which did what its report says; nothing stays pinned. It makes no attempt only for one of four causes: context, Close, the ready timeout, no route for the selected shard. |
| Delivery.RefusedAdd | collections.go:234-249 | An `add` of a list that is refused before anything is sent has a local error, which reports no progress. |
| Delivery.OnlyTheLastCounts | smart.go:436-459 | The calls of a first attempt that is followed by a second leave the list: only those of the last attempt count. |
| Delivery.RunIsOneInsertion | smart.go:373-460 | After a whole run of an `add`, with one attempt or two, the list that the nodes share is the old one with one insertion of exactly the payloads that the answer reports, under the same exact condition. |
| Delivery.RunAdds | smart.go:373-460 | Through the router too: every call of every attempt of an `add` goes to the endpoint of the attempt, with the caller's key, and is the call for one chunk of the caller's elements. |
| Delivery.RunRemoves | smart.go:373-460 | The same for a removal of the caller's values and keys. |
| Delivery.RunCreates | smart.go:373-460 | The same for a creation: the first call creates with the caller's key, type and TTL, the others continue with the hint that the answer reports. |
| Delivery.RunReads | smart.go:373-460 | The same for a read: one call, for the caller's key and range. |
| Closing.Drain | smart.go:468-470 | Once the client is closed the refreshes that wait give up and the one that holds the gate leaves it. |
| Closing.Close | client.go:188-192 | Refuses new work, lets the refreshes in flight end, and then has closed every owned connection exactly once; a second Close changes nothing. |
| Parity.CutAtLast | tools/parity.py:49-63 | A walk that comes back to its start can be cut there, so it goes through one body and then avoids the start. |
| Parity.OneStep | tools/parity.py:49-63 | What is reachable outside the current path is what its bodies end in or reach outside the path with the name added. |
| Parity.ResolvePolicy | tools/parity.py:49-63 | Terminates on every call graph and finds exactly the policies at the end of walks that avoid the current path: master first where a body calls `executeWrite`, the configured mode where it calls `execute` only. |
| Parity.PoliciesOf | tools/parity.py:49-63 | From an empty path: exactly the policies of terminal bodies reachable by any walk, in a possibly cyclic graph. |
| Parity.MatchBrace | tools/parity.py:37-46 | Finds the closing brace of a body, or reports that the text ends inside it. |
| Parity.ClosesOnce | tools/parity.py:37-46 | A body has at most one closing brace, and then the text does not stay open. |

## Left out

- gRPC, TLS and dialing: an RPC is a nondeterministic acknowledgement, refusal with an optional route trailer, or stream.
- Contexts, timeouts and tickers: a cancellation or deadline that may come at any check. The refresh loop, its wake channel and `requestRefresh` only decide when a refresh happens.
- Option checks, key encoding and the TTL computation of `perform`: the key, expiry and limits of a session are inputs.
- GZIP and LZ4: any pair of functions whose expansion inverts compression; a compressor error is not modelled, except LZ4 returning no data.
- `rand.IntN` of the LBSmart mode: a nondeterministic choice.
- The errors that Close callbacks return, and with them the result of Close.
- Blocking or re-entrant callbacks, and scheduling: that the threads that a refresh or Close waits for do make their steps.
- Nil elements of protobuf arrays, which decoding a real message never produces.
- Unknown fields, and fields that these operations never set (`lock_info` of a creation, the TTL of additions).
- The unary operations of `operations.go` and the wrappers in `convenience.go` and `interface.go`: one request each, so they add only easy members.
- `directBackend`, `normalizeConfig`, `atomicGo`, `decodeResult` and `decodeUpdate`: single-step code.
- The server beyond the effect of accepted insertions on one list with one writer: no replication, expiry, or execution of a request whose RPC failed. An acknowledgement with the count 0 inserts nothing, which is how the client's own rejection test reads it.
- Regular expressions, git and table output of `tools/parity.py`: the call graph and the text after an opening brace are inputs.
