/**
 What the calls of each operation ask the server for, in the terms of the caller's arguments
 (collections.go:23-118, 158-382, 440-458): the RPC, every field, and the elements that the arrays carry.
 */
module Contents {
  import opened Wrappers
  import opened Wire
  import opened Messages
  import opened Errors
  import opened Codec
  import opened Sequences
  import opened Packing
  import opened Lists
  import opened Batches
  import opened Networks
  import opened Sending
  import opened Mutations
  import opened Creation
  import opened Reading
  import opened RoundTrips
  import opened Readback

  /** `v` is `p`, uncompressed, without an expiry of its own when it has none. */
  predicate PlainlySent(p: Payload, v: Value) {
    && v.blob == Some(Blob(p.data, |p.data| % 0x1_0000_0000)) && v.compression == None
    && v.ttl == p.expires && v.lock == p.lock
  }

  lemma PlainValue(p: Payload, c: Config)
    requires EncodeValue(p, None, c, false).Ok?
    ensures PlainlySent(p, EncodeValue(p, None, c, false).value)
  {
  }

  // ---- add

  /** The call for one chunk of an `add`. */
  predicate Adds(m: Message, key: Key, t: ContainerType, kind: AddKind, pos: uint32, pivot: Value, start: nat,
                 items: Arrays)
  {
    var typ := if t == Map || t == OrderedMap then Some(t) else None;
    match kind
    case Generic => m == Message(AddElement, AddTo(key, typ, None, items))
    case Head => m == Message(AddToHead, AddTo(key, typ, None, items))
    case Tail => m == Message(AddToTail, AddTo(key, typ, None, items))
    case Position => m == Message(AddElement, AddTo(key, typ, Some((pos + start) % 0x1_0000_0000), items))
    case Bool => m == Message(AddElement, AddTo(key, typ, Some(0xFFFF_FFFF), items))
    case OrderedBool => m == Message(AddElement, AddTo(key, typ, Some(start % 0x1_0000_0000), items))
    case Before => m == Message(AddByValue, AddToVal(key, true, pivot, items.values))
    case After => m == Message(AddByValue, AddToVal(key, false, pivot, items.values))
  }

  lemma BuildAdds(p: Plan, i: nat, j: nat)
    requires p.AddPlan? && i <= j <= |p.items|
    ensures var m := Message(RpcOf(p.kind), Build(p, i, j));
            Adds(m, p.key, p.typ, p.kind, p.pos, p.pivot, i, ArraysOf(p.items[i..j])) && Suits(m)
  {
    hide ArraysOf;
  }

  /** The chunk that is sent as number `i`: after-insertion sends the last one first. */
  function Chunk(parts: seq<Span>, reversed: bool, i: nat): Span
    requires i < |parts|
  {
    if reversed then parts[|parts| - 1 - i] else parts[i]
  }

  lemma SentCall(s: Session, p: Plan, rpc: Rpc, order: seq<Span>, log: seq<Call>, i: nat)
    requires InRange(order, |p.items|) && Sent(s, Wanted(p, rpc, order), log) && i < |log|
    ensures i < |order| && order[i].start <= order[i].end <= |p.items|
    ensures log[i].node == s.node && log[i].message == Message(rpc, Build(p, order[i].start, order[i].end))
  {
    hide Build, RequestSize;
  }

  /** Every call of an `add`. */
  lemma AddCalls(s: Session, t: ContainerType, d: ContainerData, kind: AddKind, pos: uint32, pivot: Payload,
                 countOnly: bool, r: Outcome, log: seq<Call>, job: Job, i: nat)
    requires AddReport(s, t, d, kind, pos, pivot, countOnly, r, log, Some(job)) && i < |log|
    ensures i < |job.parts| && log[i].node == s.node && Suits(log[i].message)
    ensures var part := Chunk(job.parts, kind == After, i);
            && part.start <= part.end <= |job.plan.items| && job.plan.AddPlan?
            && Adds(log[i].message, s.key, t, kind, pos, job.plan.pivot, part.start,
                    ArraysOf(job.plan.items[part.start..part.end]))
    ensures kind == Before || kind == After ==> PlainlySent(pivot, job.plan.pivot)
  {
    hide AddPlanFor, Adds, Suits, Accounts, Covers, Build, ArraysOf, Matches, Encoded, AllFit, Greedy, PlainlySent,
      Sent, Wanted, InRange, RpcOf, Reverse;
    AddPlanIs(s, t, d, kind, pos, pivot);
    var order := Order(job);
    SentCall(s, job.plan, RpcOf(kind), order, log, i);
    if kind == After {
      ReverseAt(job.parts, i);
    }
    BuildAdds(job.plan, order[i].start, order[i].end);
  }

  lemma AddPlanIs(s: Session, t: ContainerType, d: ContainerData, kind: AddKind, pos: uint32, pivot: Payload)
    ensures var r := AddPlanFor(s, t, d, kind, pos, pivot);
            r.Ok? ==>
              && r.value.AddPlan? && r.value.key == s.key && r.value.typ == t
              && r.value.kind == kind && r.value.pos == pos
              && (kind == Before || kind == After ==> PlainlySent(pivot, r.value.pivot))
              && Matches(t, d) && Encoded(t, d, Env(s.key.clientId, None, s.config)) == Ok(r.value.items)
  {
    hide Encoded, Matches, Sendable;
  }

  /** Decoding the arrays of these chunks, in item order, returns the elements of `d`. */
  predicate BringBack(items: seq<Item>, parts: seq<Span>, d: ContainerData, env: Env) {
    && InRange(parts, |items|)
    && var back := Traverse(BatchDecoder(env.config), Requests(items, parts));
       back.Ok? && SameData(d, Joined(back.value), env)
  }

  lemma EncodedComeBack(t: ContainerType, d: ContainerData, env: Env, parts: seq<Span>)
    requires Matches(t, d) && Encoded(t, d, env).Ok?
    requires Lawful(env.config.compressor) && AllDescribable(d, env.config)
    requires Covers(parts, |Encoded(t, d, env).value|)
    ensures BringBack(Encoded(t, d, env).value, parts, d, env)
  {
    hide Encoded, Matches, Lawful, AllDescribable, SameData, Traverse, Joined, Requests, Covers;
    CollectionRoundTrip(t, d, env, parts);
  }

  /** The arrays of an `add`, decoded in item order, are the caller's elements. */
  lemma AddCarries(s: Session, t: ContainerType, d: ContainerData, kind: AddKind, pos: uint32, pivot: Payload,
                   countOnly: bool, r: Outcome, log: seq<Call>, job: Job)
    requires AddReport(s, t, d, kind, pos, pivot, countOnly, r, log, Some(job))
    requires Lawful(s.config.compressor) && AllDescribable(d, s.config)
    ensures BringBack(job.plan.items, job.parts, d, Env(s.key.clientId, None, s.config))
  {
    hide AddPlanFor, Accounts, Sent, Encoded, Matches, Lawful, AllDescribable, BringBack, PlainlySent, Covers, AllFit,
      Greedy;
    AddPlanIs(s, t, d, kind, pos, pivot);
    EncodedComeBack(t, d, Env(s.key.clientId, None, s.config), job.parts);
  }

  // ---- what is refused

  /** The payload is within the decoding limit, and a block compressor can compress it, if it is compressed. */
  predicate Encodable(data: seq<byte>, compress: bool, c: Config) {
    && |data| <= c.maxDecodedBytes
    && (c.lz4 && compress && |data| > (match c.threshold { case Some(n) => n case None => 1024 }) ==>
          c.compressor.compress(data) != [])
  }

  /** Every payload of the collection can be encoded. Only weighted elements and ordered maps are compressed. */
  predicate AllEncodable(t: ContainerType, d: ContainerData, c: Config) {
    match t
    case Map => forall p :: p in d.entries ==> Encodable(p.key.data, false, c) && Encodable(p.value.data, false, c)
    case OrderedMap =>
      forall p :: p in d.orderedEntries ==> Encodable(p.key.payload.data, true, c) && Encodable(p.value.data, true, c)
    case OrderedSet => forall p :: p in d.orderedValues ==> Encodable(p.payload.data, true, c)
    case _ => forall p :: p in d.values ==> Encodable(p.data, false, c)
  }

  lemma EncodableExactly(data: seq<byte>, compress: bool, c: Config)
    ensures EncodePayload(data, compress, c).Ok? <==> Encodable(data, compress, c)
  {
    EncodesExactly(data, compress, c);
  }

  lemma ValuesEncodable(d: ContainerData, env: Env)
    ensures Traverse(ValueItem(env), d.values).Ok? <==>
            forall p :: p in d.values ==> Encodable(p.data, false, env.config)
    ensures Traverse(OrderedItem(env), d.orderedValues).Ok? <==>
            forall p :: p in d.orderedValues ==> Encodable(p.payload.data, true, env.config)
  {
    TraverseAt(ValueItem(env), d.values);
    TraverseAt(OrderedItem(env), d.orderedValues);
    hide Traverse, EncodePayload, Encodable;
    forall p: Payload
      ensures ValueItem(env)(p).Ok? <==> Encodable(p.data, false, env.config)
    {
      EncodableExactly(p.data, false, env.config);
    }
    forall p: OrderedPayload
      ensures OrderedItem(env)(p).Ok? <==> Encodable(p.payload.data, true, env.config)
    {
      EncodableExactly(p.payload.data, true, env.config);
    }
  }

  lemma EntriesEncodable(d: ContainerData, env: Env)
    ensures Traverse(EntryItem(env), d.entries).Ok? <==>
            forall p :: p in d.entries ==>
              Encodable(p.key.data, false, env.config) && Encodable(p.value.data, false, env.config)
    ensures Traverse(OrderedEntryItem(env), d.orderedEntries).Ok? <==>
            forall p :: p in d.orderedEntries ==>
              Encodable(p.key.payload.data, true, env.config) && Encodable(p.value.data, true, env.config)
  {
    TraverseAt(EntryItem(env), d.entries);
    TraverseAt(OrderedEntryItem(env), d.orderedEntries);
    hide Traverse, EncodePayload, Encodable;
    forall p: Entry
      ensures EntryItem(env)(p).Ok? <==>
              Encodable(p.key.data, false, env.config) && Encodable(p.value.data, false, env.config)
    {
      EncodableExactly(p.key.data, false, env.config);
      EncodableExactly(p.value.data, false, env.config);
    }
    forall p: OrderedEntry
      ensures OrderedEntryItem(env)(p).Ok? <==>
              Encodable(p.key.payload.data, true, env.config) && Encodable(p.value.data, true, env.config)
    {
      EncodableExactly(p.key.payload.data, true, env.config);
      EncodableExactly(p.value.data, true, env.config);
    }
  }

  lemma EncodedExactly(t: ContainerType, d: ContainerData, env: Env)
    ensures Encoded(t, d, env).Ok? <==> AllEncodable(t, d, env.config)
  {
    ValuesEncodable(d, env);
    EntriesEncodable(d, env);
    hide Traverse, Encodable, ValueItem, OrderedItem, EntryItem, OrderedEntryItem;
  }

  /** All elements are of the kind that the type holds. */
  predicate Holder(t: ContainerType, d: ContainerData) {
    Count(d) == match t
                case Map => |d.entries|
                case OrderedMap => |d.orderedEntries|
                case OrderedSet => |d.orderedValues|
                case _ => |d.values|
  }

  /** The data are elements of the kind that the type holds, and all of them can be encoded. */
  predicate Accepts(t: ContainerType, d: ContainerData, c: Config) {
    t != Undefined && Holder(t, d) && AllEncodable(t, d, c)
  }

  /** An `add` of this input gets as far as checking its sizes exactly in this case. */
  lemma AddAccepts(s: Session, t: ContainerType, d: ContainerData, kind: AddKind, pos: uint32, pivot: Payload)
    ensures AddPlanOf(s, t, d, kind, pos, pivot).Ok? <==>
            && Accepts(t, d, s.config)
            && (kind == AddKind.Position ==> pos + Count(d) <= 0xFFFF_FFFF)
            && (kind == Before || kind == After ==> Encodable(pivot.data, false, s.config))
  {
    var env := Env(s.key.clientId, None, s.config);
    EncodedExactly(t, d, env);
    MatchesExactly(t, d);
    EncodableExactly(pivot.data, false, s.config);
    hide AllEncodable, Encodable, EncodePayload;
    if Matches(t, d) && Encoded(t, d, env).Ok? {
      EncodedSlice(t, d, env, Encoded(t, d, env).value, 0, Count(d));
    }
    hide Encoded, Matches;
  }

  /** The errors of payloads that can not be encoded. */
  predicate EncodingError(e: Error) {
    e == Local(ResourceExhausted) || e == Local(Internal)
  }

  lemma {:induction false} TraverseError<A>(f: A -> Result<Item, Error>, xs: seq<A>)
    requires Traverse(f, xs).Err? && forall x :: f(x).Err? ==> EncodingError(f(x).error)
    ensures EncodingError(Traverse(f, xs).error)
  {
    if xs != [] && Traverse(f, xs[..|xs| - 1]).Err? {
      TraverseError(f, xs[..|xs| - 1]);
    }
  }

  lemma EncodedError(t: ContainerType, d: ContainerData, env: Env)
    requires Encoded(t, d, env).Err?
    ensures EncodingError(Encoded(t, d, env).error)
  {
    hide Traverse;
    match t
    case Map => TraverseError(EntryItem(env), d.entries);
    case OrderedMap => TraverseError(OrderedEntryItem(env), d.orderedEntries);
    case OrderedSet => TraverseError(OrderedItem(env), d.orderedValues);
    case _ => TraverseError(ValueItem(env), d.values);
  }

  /** The error of a refused `add`: the first of the source's checks that fails. */
  lemma AddRefusal(s: Session, t: ContainerType, d: ContainerData, kind: AddKind, pos: uint32, pivot: Payload)
    requires AddPlanFor(s, t, d, kind, pos, pivot).Err?
    ensures var e, kindOk := AddPlanFor(s, t, d, kind, pos, pivot).error, t != Undefined && Holder(t, d);
            && (!kindOk <==> e == Local(InvalidArgument))
            && (kindOk && !AllEncodable(t, d, s.config) ==> EncodingError(e))
            && (kindOk && AllEncodable(t, d, s.config) && kind == AddKind.Position && pos + Count(d) > 0xFFFF_FFFF <==>
                  e == Local(OutOfRange))
            && (Accepts(t, d, s.config) && e != Local(OutOfRange) ==>
                  e == Local(ResourceExhausted) || (EncodingError(e) && !Encodable(pivot.data, false, s.config)))
  {
    var env := Env(s.key.clientId, None, s.config);
    EncodedExactly(t, d, env);
    MatchesExactly(t, d);
    hide AllEncodable, EncodePayload, Sendable;
    EncodableExactly(pivot.data, false, s.config);
    EncodesExactly(pivot.data, false, s.config);
    hide Encodable;
    if Encoded(t, d, env).Err? {
      EncodedError(t, d, env);
    } else if Matches(t, d) {
      EncodedSlice(t, d, env, Encoded(t, d, env).value, 0, Count(d));
    }
    hide Encoded, Matches;
  }

  /** Then the header and each item must fit into a request. */
  lemma SendableExactly(p: Plan, limit: nat)
    ensures Sendable(p, limit) <==>
            && RequestSize(Build(p, 0, 0)) <= limit
            && forall i, j :: 0 <= i < |p.items| && j == i + 1 ==> RequestSize(Build(p, i, j)) <= limit
  {
    hide RequestSize, Build;
    if forall i, j :: 0 <= i < |p.items| && j == i + 1 ==> RequestSize(Build(p, i, j)) <= limit {
      forall i | 0 <= i < |p.items|
        ensures FitsAlone(p, limit, i)
      {
        assert RequestSize(Build(p, i, i + 1)) <= limit;
      }
    } else {
      var i, j :| 0 <= i < |p.items| && j == i + 1 && RequestSize(Build(p, i, j)) > limit;
      assert !FitsAlone(p, limit, i);
    }
  }

  // ---- create

  /** The key of the continuations: with the returned hint, if there is one. */
  predicate Rehinted(key: Key, hint: Option<KeyHint>, k: Key) {
    && k.payload == key.payload && k.compression == key.compression && k.clientId == key.clientId
    && OwnOr(hint, key.hint, k.hint)
  }

  /** A continuation appends to the lists, and adds to the other containers, whose type it names. */
  predicate Continues(m: Message, key: Key, hint: Option<KeyHint>, t: ContainerType, items: Arrays) {
    && m.rpc == (if t in {Vector, List, Queue} then AddToTail else AddElement)
    && m.request.AddTo? && Rehinted(key, hint, m.request.key)
    && m.request.typ == Some(t) && m.request.pos == None && m.request.items == items
  }

  lemma CreatePlanIs(s: Session, t: ContainerType, d: ContainerData)
    ensures var r := CreatePlanFor(s, t, d);
            r.Ok? ==>
              && r.value.CreatePlan? && r.value.typ == t && r.value.ttl == s.ttl && Matches(t, d)
              && Encoded(t, d,
                         Env(s.key.clientId, if t in {Map, OrderedMap, OrderedSet} then s.ttl else None, s.config))
                 == Ok(r.value.items)
  {
    hide Encoded, Matches, Sendable;
  }

  /** The error of a refused creation. */
  lemma CreateRefusal(s: Session, t: ContainerType, d: ContainerData)
    ensures var r, kindOk := CreatePlanFor(s, t, d), t != Undefined && Holder(t, d);
            && (r == Err(Local(InvalidArgument)) <==> !kindOk)
            && (kindOk && !AllEncodable(t, d, s.config) ==> r.Err? && EncodingError(r.error))
            && (r.Err? && Accepts(t, d, s.config) ==> r.error == Local(ResourceExhausted))
            && (r.Ok? ==> Accepts(t, d, s.config))
  {
    var env := Env(s.key.clientId, ItemTtl(t, s.ttl, true), s.config);
    EncodedExactly(t, d, env);
    MatchesExactly(t, d);
    if Encoded(t, d, env).Err? {
      EncodedError(t, d, env);
    }
    hide Encoded, Matches, AllEncodable, Sendable;
  }

  /** The call that creates the container. */
  lemma CreateCall(s: Session, t: ContainerType, d: ContainerData, hint: Option<KeyHint>, err: Option<Error>,
                   first: Option<Call>, rest: seq<Call>, job: Job)
    requires CreateReport(s, t, d, hint, err, first, rest, Some(job)) && first.Some?
    ensures var end := if job.parts == [] then 0 else job.parts[0].end;
            && end <= |job.plan.items| && first.value.node == s.node
            && first.value.message == Message(CreateWhole, Create(s.key, t, s.ttl, ArraysOf(job.plan.items[0..end])))
            && Suits(first.value.message)
    ensures hint == if first.value.reply.Ack? then first.value.reply.hint else None
  {
    hide CreatePlanFor, Sent, Wanted, Continued, Encoded, Matches, ArraysOf, RequestSize, Greedy, AllFit;
    CreatePlanIs(s, t, d);
    if job.parts != [] {
      CoversAt(job.parts, |job.plan.items|, 0);
    }
  }

  /** The calls that follow it, one for each of the other chunks. */
  lemma ContinuationCalls(s: Session, t: ContainerType, d: ContainerData, hint: Option<KeyHint>, err: Option<Error>,
                          first: Option<Call>, rest: seq<Call>, job: Job, k: nat)
    requires CreateReport(s, t, d, hint, err, first, rest, Some(job)) && k < |rest|
    ensures k + 1 < |job.parts| && rest[k].node == s.node && Suits(rest[k].message)
    ensures var part := job.parts[k + 1];
            && part.start <= part.end <= |job.plan.items|
            && Continues(rest[k].message, s.key, hint, t, ArraysOf(job.plan.items[part.start..part.end]))
  {
    hide CreatePlanFor, Continued, Encoded, Matches, ArraysOf, RequestSize, Greedy, AllFit, Covers, FirstMessage, Sent,
      Wanted, InRange;
    CreatePlanIs(s, t, d);
    var spans := Spans(job.parts);
    SentCall(s, Continuation(s, t, hint, job.plan.items), ContinueRpc(t), spans[1..], rest, k);
    assert spans[1..][k] == spans[k + 1];
  }

  /** The arrays of a creation and its continuations, decoded in order, are the caller's elements. Only maps and
      ordered sets give the expiry of the creation to their elements. */
  lemma CreateCarries(s: Session, t: ContainerType, d: ContainerData, hint: Option<KeyHint>, err: Option<Error>,
                      first: Option<Call>, rest: seq<Call>, job: Job)
    requires CreateReport(s, t, d, hint, err, first, rest, Some(job))
    requires Lawful(s.config.compressor) && AllDescribable(d, s.config)
    ensures var ttl := if t in {Map, OrderedMap, OrderedSet} then s.ttl else None;
            BringBack(job.plan.items, job.parts, d, Env(s.key.clientId, ttl, s.config))
  {
    hide CreatePlanFor, Created, Encoded, Matches, Lawful, AllDescribable, BringBack, Covers, AllFit, Greedy;
    CreatePlanIs(s, t, d);
    var ttl := if t in {Map, OrderedMap, OrderedSet} then s.ttl else None;
    EncodedComeBack(t, d, Env(s.key.clientId, ttl, s.config), job.parts);
  }

  /** A continuation that counts nothing is a rejection for the lists, and for no other type. */
  lemma ContinuationRejected(s: Session, t: ContainerType, d: ContainerData, hint: Option<KeyHint>, err: Option<Error>,
                             first: Option<Call>, rest: seq<Call>, job: Job)
    requires CreateReport(s, t, d, hint, err, first, rest, Some(job))
    ensures t in {Vector, List, Queue} ==>
              forall k :: 0 <= k < |rest| && rest[k].reply.Ack? && rest[k].reply.size == 0 ==>
                k == |rest| - 1 && err.Some? && err.value.Partial? && err.value.cause == Local(Aborted)
    ensures t !in {Vector, List, Queue} ==> err.Some? ==> Cause(err.value) != Local(Aborted)
  {
    CreatePlanIs(s, t, d);
    hide Encoded, Matches, Sent, Wanted, ArraysOf, RequestSize, Packed, FirstMessage;
    CauseOnce(err);
  }

  // ---- remove

  const KEYS := Shape(true, false, false, false)

  /** `k` names the key `p` of the caller, as the client's own: compressed like it, and with its client ID. */
  predicate NamesKey(p: Payload, k: Key, clientId: Option<uint32>, c: Config) {
    && k.clientId == clientId && k.hint == p.hint && Travelled(p.data, true, c, k.compression)
    && DecodeKey(k, c).Ok? && DecodeKey(k, c).value.data == p.data
  }

  lemma RemovedKeyNames(s: Session, p: Payload)
    requires RemovedKey(s)(p).Ok? && Lawful(s.config.compressor) && Describable(p.data, true, s.config)
    ensures var it := RemovedKey(s)(p).value;
            HasShape(it, KEYS) && NamesKey(p, KeyOf(it), s.key.clientId, s.config)
  {
    PayloadRoundTrip(p.data, true, s.config);
  }

  lemma RemovedValueNames(s: Session, p: Payload)
    requires RemovedValue(s)(p).Ok?
    ensures var it := RemovedValue(s)(p).value;
            HasShape(it, VALUES) && PlainlySent(p, ValueOf(it))
  {
  }

  /** The items of a removal: first the values, then the keys. */
  predicate RemovalItems(items: seq<Item>, s: Session, values: seq<Payload>, keys: seq<Payload>) {
    && |items| == |values| + |keys|
    && (forall i :: 0 <= i < |values| ==> HasShape(items[i], VALUES) && PlainlySent(values[i], ValueOf(items[i])))
    && (forall i :: |values| <= i < |items| ==>
          HasShape(items[i], KEYS) && NamesKey(keys[i - |values|], KeyOf(items[i]), s.key.clientId, s.config))
  }

  lemma RemovePlanIs(s: Session, t: ContainerType, values: seq<Payload>, keys: seq<Payload>)
    requires Lawful(s.config.compressor) && forall p :: p in keys ==> Describable(p.data, true, s.config)
    ensures var r := RemovePlanFor(s, t, values, keys);
            r.Ok? ==>
              && r.value.RemovePlan? && r.value.key == s.key && r.value.typ == t
              && RemovalItems(r.value.items, s, values, keys)
  {
    hide Sendable, HasShape, PlainlySent, NamesKey, Lawful, Describable, RemovedValue, RemovedKey;
    TraverseAt(RemovedValue(s), values);
    TraverseAt(RemovedKey(s), keys);
    hide Traverse;
    forall i | 0 <= i < |values| && RemovedValue(s)(values[i]).Ok?
      ensures HasShape(RemovedValue(s)(values[i]).value, VALUES)
      ensures PlainlySent(values[i], ValueOf(RemovedValue(s)(values[i]).value))
    {
      RemovedValueNames(s, values[i]);
    }
    forall i | 0 <= i < |keys| && RemovedKey(s)(keys[i]).Ok?
      ensures HasShape(RemovedKey(s)(keys[i]).value, KEYS)
      ensures NamesKey(keys[i], KeyOf(RemovedKey(s)(keys[i]).value), s.key.clientId, s.config)
    {
      RemovedKeyNames(s, keys[i]);
    }
  }

  /** The part of a chunk that lies before `n`. */
  function AtMost(i: nat, n: nat): nat {
    if i <= n then i else n
  }

  lemma ValueOfRemoval(items: seq<Item>, s: Session, values: seq<Payload>, keys: seq<Payload>, i: nat)
    requires RemovalItems(items, s, values, keys) && i < |values|
    ensures HasShape(items[i], VALUES) && PlainlySent(values[i], ValueOf(items[i]))
  {
  }

  lemma KeyOfRemoval(items: seq<Item>, s: Session, values: seq<Payload>, keys: seq<Payload>, i: nat)
    requires RemovalItems(items, s, values, keys) && i < |keys|
    ensures |items| == |values| + |keys| && HasShape(items[|values| + i], KEYS)
    ensures NamesKey(keys[i], KeyOf(items[|values| + i]), s.key.clientId, s.config)
  {
  }

  /** The values are exactly these, in order. */
  predicate PlainlySentAll(values: seq<Payload>, vs: seq<Value>) {
    |vs| == |values| && forall i :: 0 <= i < |vs| ==> PlainlySent(values[i], vs[i])
  }

  /** The keys are exactly these, in order. */
  predicate NamesKeys(keys: seq<Payload>, ks: seq<Key>, clientId: Option<uint32>, c: Config) {
    |ks| == |keys| && forall i :: 0 <= i < |ks| ==> NamesKey(keys[i], ks[i], clientId, c)
  }

  lemma ValuesOfRemoval(items: seq<Item>, s: Session, values: seq<Payload>, keys: seq<Payload>, i: nat, j: nat)
    requires RemovalItems(items, s, values, keys) && i <= j <= |values| <= |items|
    ensures ArraysOf(items[i..j]) == Arrays([], [], Mapped(ValueOf, items[i..j]), [])
    ensures PlainlySentAll(values[i..j], Mapped(ValueOf, items[i..j]))
  {
    var part := items[i..j];
    hide ArraysOf, HasShape, PlainlySent, RemovalItems;
    forall k | 0 <= k < |part|
      ensures HasShape(part[k], VALUES) && PlainlySent(values[i..j][k], Mapped(ValueOf, part)[k])
    {
      ValueOfRemoval(items, s, values, keys, i + k);
    }
    UniformArrays(part, VALUES);
  }

  lemma KeysOfRemoval(items: seq<Item>, s: Session, values: seq<Payload>, keys: seq<Payload>, i: nat, j: nat)
    requires RemovalItems(items, s, values, keys) && i <= j <= |keys| && |items| == |values| + |keys|
    ensures var part := items[|values| + i..|values| + j];
            && ArraysOf(part) == Arrays(Mapped(KeyOf, part), [], [], [])
            && NamesKeys(keys[i..j], Mapped(KeyOf, part), s.key.clientId, s.config)
  {
    var part := items[|values| + i..|values| + j];
    hide ArraysOf, HasShape, NamesKey, RemovalItems;
    forall k | 0 <= k < |part|
      ensures HasShape(part[k], KEYS) && NamesKey(keys[i..j][k], Mapped(KeyOf, part)[k], s.key.clientId, s.config)
    {
      KeyOfRemoval(items, s, values, keys, i + k);
      assert part[k] == items[|values| + (i + k)];
    }
    UniformArrays(part, KEYS);
  }

  lemma TwoRanges(items: seq<Item>, i: nat, j: nat, n: nat)
    requires i <= j <= |items| && n <= |items|
    ensures items[i..j] == items[AtMost(i, n)..AtMost(j, n)]
                           + items[n + (i - AtMost(i, n))..n + (j - AtMost(j, n))]
  {
  }

  /** The arrays of one chunk of a removal. */
  lemma RemovalArrays(items: seq<Item>, s: Session, values: seq<Payload>, keys: seq<Payload>, i: nat, j: nat)
    requires RemovalItems(items, s, values, keys) && i <= j <= |items| && |items| == |values| + |keys|
    ensures var a, n := ArraysOf(items[i..j]), |values|;
            && PlainlySentAll(values[AtMost(i, n)..AtMost(j, n)], a.values)
            && NamesKeys(keys[i - AtMost(i, n)..j - AtMost(j, n)], a.keys, s.key.clientId, s.config)
  {
    hide RemovalItems, ArraysOf, PlainlySentAll, NamesKeys, Mapped;
    var n := |values|;
    var v, w, k, l := AtMost(i, n), AtMost(j, n), i - AtMost(i, n), j - AtMost(j, n);
    TwoRanges(items, i, j, n);
    ValuesOfRemoval(items, s, values, keys, v, w);
    KeysOfRemoval(items, s, values, keys, k, l);
    JoinArrays(items[v..w], items[n + k..n + l], Mapped(ValueOf, items[v..w]), Mapped(KeyOf, items[n + k..n + l]));
  }

  lemma JoinArrays(front: seq<Item>, back: seq<Item>, vs: seq<Value>, ks: seq<Key>)
    requires ArraysOf(front) == Arrays([], [], vs, []) && ArraysOf(back) == Arrays(ks, [], [], [])
    ensures ArraysOf(front + back) == Arrays(ks, [], vs, [])
  {
    ArraysConcat(front, back);
    hide ArraysOf;
    assert [] + ks == ks && vs + [] == vs;
  }

  /** The message removes, from the values followed by the keys, exactly those of this chunk. */
  predicate Removes(m: Message, s: Session, t: ContainerType, values: seq<Payload>, keys: seq<Payload>, part: Span) {
    var i, j, n := part.start, part.end, |values|;
    && m.rpc == RemoveByKeyValue && m.request.Remove? && m.request.key == s.key && m.request.removeType == t
    && i <= j <= n + |keys|
    && PlainlySentAll(values[AtMost(i, n)..AtMost(j, n)], m.request.values)
    && NamesKeys(keys[i - AtMost(i, n)..j - AtMost(j, n)], m.request.keys, s.key.clientId, s.config)
  }

  /** Every call of a removal names the values and keys of its chunk. */
  lemma RemoveCalls(s: Session, t: ContainerType, values: seq<Payload>, keys: seq<Payload>, r: Outcome, log: seq<Call>,
                    job: Job, i: nat)
    requires RemoveReport(s, t, values, keys, r, log, Some(job)) && i < |log|
    requires Lawful(s.config.compressor) && forall p :: p in keys ==> Describable(p.data, true, s.config)
    ensures Covers(job.parts, |values| + |keys|)
    ensures i < |job.parts| && log[i].node == s.node && Suits(log[i].message)
    ensures Removes(log[i].message, s, t, values, keys, job.parts[i])
  {
    hide RemovePlanFor, Accounts, AllFit, Greedy, Covers, ArraysOf, PlainlySentAll, NamesKeys, Sent, Wanted, InRange,
      Lawful, Describable;
    RemovePlanIs(s, t, values, keys);
    SentCall(s, job.plan, RemoveByKeyValue, job.parts, log, i);
    var part := job.parts[i];
    RemovalLength(job.plan.items, s, values, keys);
    RemovalArrays(job.plan.items, s, values, keys, part.start, part.end);
    hide RemovalItems;
  }

  lemma RemovalLength(items: seq<Item>, s: Session, values: seq<Payload>, keys: seq<Payload>)
    requires RemovalItems(items, s, values, keys)
    ensures |items| == |values| + |keys|
  {
  }

  /** The error of a refused removal. */
  lemma RemoveRefusal(s: Session, t: ContainerType, values: seq<Payload>, keys: seq<Payload>)
    ensures var r := RemovePlanFor(s, t, values, keys);
            var encodable := && (forall p :: p in values ==> Encodable(p.data, false, s.config))
                             && (forall p :: p in keys ==> Encodable(p.data, true, s.config));
            && (r == Err(Local(InvalidArgument)) <==> t == Undefined)
            && (t != Undefined && !encodable ==> r.Err? && EncodingError(r.error))
            && (t != Undefined && encodable && r.Err? ==> r.error == Local(ResourceExhausted))
  {
    RemovalEncodable(s, values, keys);
    if Traverse(RemovedValue(s), values).Err? {
      TraverseError(RemovedValue(s), values);
    }
    if Traverse(RemovedKey(s), keys).Err? {
      TraverseError(RemovedKey(s), keys);
    }
    hide Traverse, Encodable, Sendable, RemovedValue, RemovedKey;
  }

  lemma RemovalEncodable(s: Session, values: seq<Payload>, keys: seq<Payload>)
    ensures Traverse(RemovedValue(s), values).Ok? <==> forall p :: p in values ==> Encodable(p.data, false, s.config)
    ensures Traverse(RemovedKey(s), keys).Ok? <==> forall p :: p in keys ==> Encodable(p.data, true, s.config)
  {
    TraverseAt(RemovedValue(s), values);
    TraverseAt(RemovedKey(s), keys);
    hide Traverse, EncodePayload, Encodable;
    forall p: Payload
      ensures RemovedValue(s)(p).Ok? <==> Encodable(p.data, false, s.config)
      ensures RemovedKey(s)(p).Ok? <==> Encodable(p.data, true, s.config)
    {
      EncodableExactly(p.data, false, s.config);
      EncodableExactly(p.data, true, s.config);
    }
  }

  // ---- read

  /** The call of a read, or why there is none. */
  lemma ReadCall(s: Session, range: Option<Position>, data: ContainerData, err: Option<Error>, call: Option<Call>,
                 chunks: nat)
    requires ReadReport(s, range, data, err, call, chunks)
    ensures var m := match range
                     case None => Message(ReadAll, Get(s.key))
                     case Some(Position(typ, start, end, reverse)) =>
                       Message(ReadRange, Range(s.key, typ, start, end, reverse));
            var backwards := match range
                             case Some(Position(_, start, Some(end), _)) => end < start
                             case _ => false;
            && Suits(m)
            && (backwards ==> call == None && err == Some(Local(InvalidArgument)))
            && (!backwards && RequestSize(m.request) > s.config.maxRequestBytes ==>
                  call == None && err == Some(Local(ResourceExhausted)))
            && (!backwards && RequestSize(m.request) <= s.config.maxRequestBytes ==>
                  call.Some? && call.value.node == s.node && call.value.message == m)
  {
    hide Collected, RequestSize;
  }
}
