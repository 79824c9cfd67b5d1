/**
 `add` from end to end: what the requests that the server accepted do to its list (collections.go:233-329,
 cache.proto:646-656), against one insertion of the caller's payloads.
 */
module ServerLists {
  import opened Wrappers
  import opened Wire
  import opened Messages
  import opened Errors
  import opened Codec
  import opened Packing
  import opened Lists
  import opened Batches
  import opened Networks
  import opened Sending
  import opened Progress
  import opened Mutations
  import opened Creation
  import opened RoundTrips

  /** An element of a list or vector: its bytes on the wire. */
  type Element = seq<byte>

  function Data(v: Value): Element {
    if v.blob.Some? then v.blob.value.payload else []
  }

  function Datas(vs: seq<Value>): seq<Element> {
    seq(|vs|, i requires 0 <= i < |vs| => Data(vs[i]))
  }

  /** What a request asks the server to insert, and where. */
  function Asked(m: Message): Option<(Insertion<Element>, seq<Element>)> {
    match m.request
    case AddTo(_, _, pos, items) =>
      if m.rpc == AddToHead then Some((AtHead, Datas(items.values)))
      else if m.rpc == AddToTail then Some((AtTail, Datas(items.values)))
      else if m.rpc == AddElement && pos.Some? then Some((AtPosition(pos.value), Datas(items.values)))
      else None
    case AddToVal(_, isBefore, pivot, values) =>
      if m.rpc == AddByValue
      then Some((if isBefore then BeforePivot(Data(pivot)) else AfterPivot(Data(pivot)), Datas(values)))
      else None
    case _ => None
  }

  /** The server's list after one request. */
  function Serve(list: seq<Element>, m: Message): seq<Element> {
    match Asked(m)
    case None => list
    case Some((ins, items)) => if Placeable(list, ins) then Insert(list, ins, items) else list
  }

  /** The server has carried the request out: it acknowledged it, and not with the count 0. */
  predicate Accepted(c: Call) {
    c.reply.Ack? && c.reply.size > 0
  }

  /** No acknowledgement counts nothing. The kinds that only add counts up report such a chunk as done. */
  predicate NoneIgnored(log: seq<Call>) {
    forall i :: 0 <= i < |log| && log[i].reply.Ack? ==> log[i].reply.size > 0
  }

  /** The server's list after the accepted requests of these calls. */
  function Served(list: seq<Element>, log: seq<Call>): seq<Element> {
    if log == [] then list
    else
      var before, last := Served(list, log[..|log| - 1]), log[|log| - 1];
      if Accepted(last) then Serve(before, last.message) else before
  }

  predicate ListKind(kind: AddKind) {
    kind == Head || kind == Tail || kind == Position || kind == Before || kind == After
  }

  predicate ListType(t: ContainerType) {
    t != Undefined && t != Map && t != OrderedMap && t != OrderedSet
  }

  /** The insertion that an `add` of this kind means. */
  function Meant(kind: AddKind, pos: uint32, pivot: Element): Insertion<Element>
    requires ListKind(kind)
  {
    match kind
    case Head => AtHead
    case Tail => AtTail
    case Position => AtPosition(pos)
    case Before => BeforePivot(pivot)
    case After => AfterPivot(pivot)
  }

  function Payloads(ps: seq<Payload>): seq<Element> {
    seq(|ps|, i requires 0 <= i < |ps| => ps[i].data)
  }

  // ---- the requests carry the caller's payloads

  /** Each item is just a value with these bytes. */
  predicate Carry(items: seq<Item>, elements: seq<Element>) {
    && |items| == |elements| && Uniform(items, VALUES)
    && forall i :: 0 <= i < |items| ==> items[i].value.Some? && Data(items[i].value.value) == elements[i]
  }

  lemma EncodedCarriesData(ps: seq<Payload>, env: Env, items: seq<Item>)
    requires Traverse(ValueItem(env), ps) == Ok(items)
    ensures Carry(items, Payloads(ps))
  {
    TraverseAt(ValueItem(env), ps);
    forall i | 0 <= i < |items|
      ensures ValueItem(env)(ps[i]) == Ok(items[i])
    {
    }
  }

  lemma CarriedAt(items: seq<Item>, elements: seq<Element>, i: nat)
    requires Carry(items, elements) && i < |items|
    ensures i < |elements| && Data(ValueOf(items[i])) == elements[i]
  {
  }

  lemma SliceUniform(items: seq<Item>, elements: seq<Element>, i: nat, j: nat)
    requires Carry(items, elements) && i <= j <= |items|
    ensures |items| == |elements| && Uniform(items[i..j], VALUES)
  {
    hide HasShape, Data;
    assert forall k :: 0 <= k < j - i ==> items[i..j][k] == items[i + k];
  }

  lemma SliceCarries(items: seq<Item>, elements: seq<Element>, i: nat, j: nat)
    requires Carry(items, elements) && i <= j <= |items|
    ensures Datas(ArraysOf(items[i..j]).values) == elements[i..j]
  {
    hide ArraysOf, Data, Carry, Uniform;
    var part := items[i..j];
    SliceUniform(items, elements, i, j);
    UniformArrays(part, VALUES);
    forall k | 0 <= k < |part|
      ensures Datas(ArraysOf(part).values)[k] == elements[i..j][k]
    {
      CarriedAt(items, elements, i + k);
    }
  }

  /** The plan is for this insertion of these elements. */
  predicate PlansFor(p: Plan, ins: Insertion<Element>, elements: seq<Element>) {
    && p.AddPlan? && ListKind(p.kind) && ListType(p.typ) && Carry(p.items, elements)
    && ins == Meant(p.kind, p.pos, Data(p.pivot))
    && (p.kind == Position ==> p.pos + |p.items| <= MAX_UINT32)
  }

  /** A request asks for its items, at the place that the insertion has moved to. */
  lemma AsksForItsItems(p: Plan, ins: Insertion<Element>, elements: seq<Element>, part: Span)
    requires PlansFor(p, ins, elements) && part.start <= part.end <= |p.items|
    ensures Asked(Message(RpcOf(p.kind), Build(p, part.start, part.end))) ==
            Some((Shifted(ins, part.start), elements[part.start..part.end]))
  {
    hide ArraysOf, Carry, Datas, Data, PositionAt;
    SliceCarries(p.items, elements, part.start, part.end);
    Place(p, part.start);
  }

  lemma Place(p: Plan, start: nat)
    requires p.AddPlan? && ListKind(p.kind) && start <= |p.items|
    requires p.kind == Position ==> p.pos + |p.items| <= MAX_UINT32
    ensures PositionAt(p, start) == if p.kind == Position then Some(p.pos + start) else None
  {
  }

  lemma ServedStep(list: seq<Element>, log: seq<Call>, k: nat)
    requires 0 < k <= |log|
    ensures var before := Served(list, log[..k - 1]);
            Served(list, log[..k]) == if Accepted(log[k - 1]) then Serve(before, log[k - 1].message) else before
  {
    assert log[..k][..k - 1] == log[..k - 1] && log[..k][k - 1] == log[k - 1];
  }

  /** One more chunk of the reference insertion. */
  function OneChunk(list: seq<Element>, ins: Insertion<Element>, elements: seq<Element>, part: Span): seq<Element>
    requires part.start <= part.end <= |elements|
  {
    var here := Shifted(ins, part.start);
    if Placeable(list, here) then Insert(list, here, elements[part.start..part.end]) else list
  }

  lemma ChunkedStep(list: seq<Element>, ins: Insertion<Element>, elements: seq<Element>, order: seq<Span>, k: nat)
    requires InRange(order, |elements|) && 0 < k <= |order|
    ensures InRange(order[..k], |elements|) && InRange(order[..k - 1], |elements|)
    ensures Chunked(list, ins, elements, order[..k]) ==
            OneChunk(Chunked(list, ins, elements, order[..k - 1]), ins, elements, order[k - 1])
  {
    hide Insert, Placeable;
    assert order[..k][..k - 1] == order[..k - 1] && order[..k][k - 1] == order[k - 1];
  }

  lemma ServesOneChunk(list: seq<Element>, p: Plan, ins: Insertion<Element>, elements: seq<Element>, part: Span)
    requires PlansFor(p, ins, elements) && |p.items| == |elements| && part.start <= part.end <= |p.items|
    ensures Serve(list, Message(RpcOf(p.kind), Build(p, part.start, part.end))) == OneChunk(list, ins, elements, part)
  {
    AsksForItsItems(p, ins, elements, part);
    hide PlansFor, Asked, Build, Insert, Placeable, Shifted;
  }

  /** So the accepted requests are the chunked insertion. */
  lemma {:induction false} ServedIsChunked(list: seq<Element>, p: Plan, ins: Insertion<Element>, elements: seq<Element>,
                                           order: seq<Span>, s: Session, log: seq<Call>, k: nat)
    requires PlansFor(p, ins, elements) && InRange(order, |elements|) && |p.items| == |elements|
    requires Sent(s, Wanted(p, RpcOf(p.kind), order), log) && k <= |log|
    requires forall i :: 0 <= i < k ==> Accepted(log[i])
    ensures InRange(order[..k], |elements|)
    ensures Served(list, log[..k]) == Chunked(list, ins, elements, order[..k])
  {
    if k > 0 {
      SentMessage(s, p, RpcOf(p.kind), order, log, k - 1);
      hide PlansFor, Sent, Wanted, Served, Chunked, Serve, Accepted, Build, RpcOf;
      ServedIsChunked(list, p, ins, elements, order, s, log, k - 1);
      ServedStep(list, log, k);
      ChunkedStep(list, ins, elements, order, k);
      ServesOneChunk(Served(list, log[..k - 1]), p, ins, elements, order[k - 1]);
    } else {
      assert log[..0] == [] && order[..0] == [];
    }
  }

  lemma SentMessage(s: Session, p: Plan, rpc: Rpc, order: seq<Span>, log: seq<Call>, i: nat)
    requires InRange(order, |p.items|) && Sent(s, Wanted(p, rpc, order), log) && i < |log|
    ensures i < |order| && order[i].start <= order[i].end <= |p.items|
    ensures log[i].message == Message(rpc, Build(p, order[i].start, order[i].end))
  {
    hide Build;
  }

  /** The number of chunks that were completed: all of them, or those before the failure. */
  function CompletedChunks(order: seq<Span>, r: Outcome): nat {
    if r.err.None? && r.ok then |order| else Completed(r.err)
  }

  /** The number of items that the caller is told were inserted. */
  function ReportedItems(r: Outcome, n: nat): nat {
    if r.err.None? && r.ok then n else if r.err.Some? && r.err.value.Partial? then r.err.value.items else 0
  }

  /** The completed chunks are those that the server has acknowledged, and for a boolean kind not with the
      count 0. */
  lemma AcceptedExactly(order: seq<Span>, boolean: bool, log: seq<Call>, r: Outcome)
    requires Accounts(order, boolean, log, r)
    ensures CompletedChunks(order, r) <= |log| && CompletedChunks(order, r) <= |order|
    ensures forall i :: 0 <= i < |log| ==>
              (i < CompletedChunks(order, r) <==> if boolean then Accepted(log[i]) else log[i].reply.Ack?)
  {
    var k := CompletedChunks(order, r);
    if r.err.None? && !r.ok {
      assert log == [] + [log[0]] && log[..0] == [];
    } else if r.err.Some? {
      assert forall i :: 0 <= i < k ==> log[..k][i] == log[i];
    }
  }

  lemma {:induction false} ServedPrefix(list: seq<Element>, log: seq<Call>, k: nat)
    requires k <= |log| && forall i :: k <= i < |log| ==> !Accepted(log[i])
    ensures Served(list, log) == Served(list, log[..k])
  {
    if k == |log| {
      assert log[..k] == log;
    } else {
      var front := log[..|log| - 1];
      ServedPrefix(list, front, k);
      assert front[..k] == log[..k];
    }
  }

  /** The reported items are those of the completed chunks. */
  lemma ReportedExactly(reversed: bool, parts: seq<Span>, n: nat, boolean: bool, log: seq<Call>, r: Outcome)
    requires Covers(parts, n) && Accounts(SendOrder(reversed, parts), boolean, log, r)
    ensures var k := CompletedChunks(SendOrder(reversed, parts), r);
            && k <= |parts| && ReportedItems(r, n) == ItemsOf(reversed, parts, n, k)
  {
    var k := CompletedChunks(SendOrder(reversed, parts), r);
    AcceptedExactly(SendOrder(reversed, parts), boolean, log, r);
    CoversPrefix(parts, n, |parts| - k);
    CoversEnd(parts, n);
    hide Covers;
    if r.err.Some? && r.err.value.Partial? {
      CompletedIsContiguous(reversed, parts, n, boolean, log, r);
    }
  }

  /** What was accepted is one insertion of the reported items. */
  lemma CompletedIsOneInsertion(list: seq<Element>, ins: Insertion<Element>, elements: seq<Element>, parts: seq<Span>,
                                boolean: bool, log: seq<Call>, r: Outcome)
    requires Covers(parts, |elements|) && Placeable(list, ins) && ForwardSafe(ins, elements)
    requires Accounts(SendOrder(ins.AfterPivot?, parts), boolean, log, r)
    ensures var order := SendOrder(ins.AfterPivot?, parts);
            var k := CompletedChunks(order, r);
            && k <= |order| && ReportedItems(r, |elements|) <= |elements| && InRange(order[..k], |elements|)
            && Chunked(list, ins, elements, order[..k]) ==
               Insert(list, ins, DoneItems(ins.AfterPivot?, elements, ReportedItems(r, |elements|)))
  {
    var k := CompletedChunks(SendOrder(ins.AfterPivot?, parts), r);
    ReportedExactly(ins.AfterPivot?, parts, |elements|, boolean, log, r);
    hide *;
    ChunksAreOneRequest(list, ins, elements, parts, k, ReportedItems(r, |elements|));
  }

  lemma PlanForAdd(s: Session, t: ContainerType, d: ContainerData, kind: AddKind, pos: uint32, pivot: Payload, p: Plan)
    requires ListKind(kind) && ListType(t) && AddPlanFor(s, t, d, kind, pos, pivot) == Ok(p)
    ensures PlansFor(p, Meant(kind, pos, pivot.data), Payloads(d.values)) && p.kind == kind
  {
    hide Sendable, Traverse, Carry;
    EncodedCarriesData(d.values, Env(s.key.clientId, None, s.config), p.items);
  }

  /**
   End to end, for every kind of insertion, every way the sizes split it and every outcome: the list of
   the server is the old one with one insertion of the payloads that the caller is told were inserted,
   provided that the place exists and that no inserted value attracts the later chunks. For the kinds that
   only add counts up this holds if and only if no acknowledgement counted nothing.
   */
  lemma AddIsOneInsertion(list: seq<Element>, s: Session, t: ContainerType, d: ContainerData, kind: AddKind,
                          pos: uint32, pivot: Payload, countOnly: bool, job: Job, log: seq<Call>, r: Outcome)
    requires ListKind(kind) && ListType(t)
    requires AddReport(s, t, d, kind, pos, pivot, countOnly, r, log, Some(job))
    requires Placeable(list, Meant(kind, pos, pivot.data))
    requires ForwardSafe(Meant(kind, pos, pivot.data), Payloads(d.values))
    ensures ReportedItems(r, |d.values|) <= |d.values|
    ensures (!countOnly && kind != Position) || NoneIgnored(log) <==>
            Served(list, log) == Insert(list, Meant(kind, pos, pivot.data),
                                        DoneItems(kind == After, Payloads(d.values), ReportedItems(r, |d.values|)))
  {
    var ins, elements := Meant(kind, pos, pivot.data), Payloads(d.values);
    PlanForAdd(s, t, d, kind, pos, pivot, job.plan);
    PlanIsAdd(job.plan, ins, elements);
    hide AddPlanFor, PlansFor, Insert, Placeable, Served, Covers, Accounts, Wanted, Sent, ForwardSafe, AllFit, Greedy,
      InRange, RpcOf, DoneItems, NoneIgnored;
    ReportedBound(job.parts, elements, ins.AfterPivot?, Boolean(kind, countOnly), log, r);
    if Boolean(kind, countOnly) || NoneIgnored(log) {
      SentIsOneInsertion(list, job.plan, ins, elements, job.parts, s, log, Boolean(kind, countOnly), r);
    } else {
      IgnoredIsShorter(list, s, t, d, kind, pos, pivot, countOnly, job, log, r);
      InsertLength(list, ins, DoneItems(kind == After, elements, ReportedItems(r, |elements|)));
      DoneLength(kind == After, elements, ReportedItems(r, |elements|));
    }
  }

  lemma ReportedBound(parts: seq<Span>, elements: seq<Element>, reversed: bool, boolean: bool, log: seq<Call>,
                      r: Outcome)
    requires Covers(parts, |elements|) && Accounts(SendOrder(reversed, parts), boolean, log, r)
    ensures ReportedItems(r, |elements|) <= |elements|
  {
    ReportedExactly(reversed, parts, |elements|, boolean, log, r);
    CoversPrefix(parts, |elements|, CompletedChunks(SendOrder(reversed, parts), r));
  }

  lemma InsertLength(list: seq<Element>, ins: Insertion<Element>, items: seq<Element>)
    requires Placeable(list, ins)
    ensures |Insert(list, ins, items)| == |list| + |items|
  {
  }

  lemma DoneLength(reversed: bool, elements: seq<Element>, n: nat)
    requires n <= |elements|
    ensures |DoneItems(reversed, elements, n)| == n
  {
  }

  lemma SentIsOneInsertion(list: seq<Element>, p: Plan, ins: Insertion<Element>, elements: seq<Element>,
                           parts: seq<Span>, s: Session, log: seq<Call>, boolean: bool, r: Outcome)
    requires PlansFor(p, ins, elements) && Covers(parts, |elements|) && |p.items| == |elements|
    requires InRange(SendOrder(ins.AfterPivot?, parts), |elements|)
    requires Sent(s, Wanted(p, RpcOf(p.kind), SendOrder(ins.AfterPivot?, parts)), log)
    requires Accounts(SendOrder(ins.AfterPivot?, parts), boolean, log, r) && (boolean || NoneIgnored(log))
    requires Placeable(list, ins) && ForwardSafe(ins, elements)
    ensures ReportedItems(r, |elements|) <= |elements|
    ensures Served(list, log) == Insert(list, ins, DoneItems(ins.AfterPivot?, elements, ReportedItems(r, |elements|)))
  {
    PlanIsAdd(p, ins, elements);
    hide PlansFor, Insert, Placeable, Served, Chunked, Covers, Accounts, Wanted, ForwardSafe, RpcOf, InRange, DoneItems,
      CompletedChunks, ReportedItems, Sent;
    var order := SendOrder(ins.AfterPivot?, parts);
    var k := CompletedChunks(order, r);
    AcceptedExactly(order, boolean, log, r);
    CompletedIsOneInsertion(list, ins, elements, parts, boolean, log, r);
    ServedPrefix(list, log, k);
    assert k <= |order| && k <= |log|;
    ServedIsChunked(list, p, ins, elements, order, s, log, k);
  }

  // ---- acknowledgements that count nothing

  /** Some of the first `k` calls were not carried out. */
  predicate Missed(log: seq<Call>, k: nat)
    requires k <= |log|
  {
    k > 0 && (Missed(log, k - 1) || !Accepted(log[k - 1]))
  }

  lemma {:induction false} MissedAt(log: seq<Call>, k: nat, i: nat)
    requires i < k <= |log| && !Accepted(log[i])
    ensures Missed(log, k)
  {
    if i < k - 1 {
      MissedAt(log, k - 1, i);
    }
  }

  predicate NonEmptySpans(order: seq<Span>) {
    forall i :: 0 <= i < |order| ==> order[i].start < order[i].end
  }

  /** The calls of `log` send these chunks of the insertion, none of them empty. */
  predicate Delivers(p: Plan, ins: Insertion<Element>, elements: seq<Element>, order: seq<Span>, s: Session,
                     log: seq<Call>) {
    && PlansFor(p, ins, elements) && InRange(order, |p.items|) && |log| <= |order|
    && Sent(s, Wanted(p, RpcOf(p.kind), order), log) && NonEmptySpans(order)
  }

  /** One call adds at most the items of its chunk, and nothing if it is not carried out. */
  lemma LengthStep(list: seq<Element>, p: Plan, ins: Insertion<Element>, elements: seq<Element>, order: seq<Span>,
                   s: Session, log: seq<Call>, k: nat)
    requires Delivers(p, ins, elements, order, s, log) && 0 < k <= |log| <= |order|
    ensures order[k - 1].start < order[k - 1].end
    ensures |Served(list, log[..k])| <= |Served(list, log[..k - 1])|
                                        + if Accepted(log[k - 1]) then order[k - 1].end - order[k - 1].start else 0
  {
    SentMessage(s, p, RpcOf(p.kind), order, log, k - 1);
    PlanIsAdd(p, ins, elements);
    hide PlansFor, Sent, Wanted, InRange, Served, Serve, Accepted, Build, RpcOf, OneChunk;
    ServedStep(list, log, k);
    ServesOneChunk(Served(list, log[..k - 1]), p, ins, elements, order[k - 1]);
    OneChunkLength(Served(list, log[..k - 1]), ins, elements, order[k - 1]);
  }

  /** Chunks that the server ignored make the list shorter than the chunks that were sent. */
  lemma {:induction false} ServedLength(list: seq<Element>, p: Plan, ins: Insertion<Element>, elements: seq<Element>,
                                        order: seq<Span>, s: Session, log: seq<Call>, k: nat)
    requires Delivers(p, ins, elements, order, s, log) && k <= |log| <= |order|
    ensures |Served(list, log[..k])| <= |list| + Items(order[..k]) - (if Missed(log, k) then 1 else 0)
  {
    hide Delivers, Served, Accepted, Items;
    NothingServed(list, log, order);
    if k > 0 {
      ServedLength(list, p, ins, elements, order, s, log, k - 1);
      LengthStep(list, p, ins, elements, order, s, log, k);
      OneMoreSpan(order, k - 1);
    }
  }

  lemma NothingServed(list: seq<Element>, log: seq<Call>, order: seq<Span>)
    ensures Served(list, log[..0]) == list && Items(order[..0]) == 0
  {
  }

  lemma OneChunkLength(list: seq<Element>, ins: Insertion<Element>, elements: seq<Element>, part: Span)
    requires part.start <= part.end <= |elements|
    ensures |OneChunk(list, ins, elements, part)| <= |list| + part.end - part.start
  {
    hide Insert, Placeable;
    var here := Shifted(ins, part.start);
    if Placeable(list, here) {
      InsertLength(list, here, elements[part.start..part.end]);
    }
  }

  lemma NoneEmpty(reversed: bool, parts: seq<Span>, n: nat)
    requires Covers(parts, n)
    ensures NonEmptySpans(SendOrder(reversed, parts))
  {
    hide Covers;
    forall i | 0 <= i < |parts|
      ensures SendOrder(reversed, parts)[i].start < SendOrder(reversed, parts)[i].end
    {
      if reversed {
        ReverseAt(parts, i);
      }
      CoversAt(parts, n, if reversed then |parts| - 1 - i else i);
    }
  }

  /** When only counts are added up and one of them is 0, the list is too short for what is reported. */
  lemma IgnoredIsShorter(list: seq<Element>, s: Session, t: ContainerType, d: ContainerData, kind: AddKind, pos: uint32,
                         pivot: Payload, countOnly: bool, job: Job, log: seq<Call>, r: Outcome)
    requires ListKind(kind) && ListType(t)
    requires AddReport(s, t, d, kind, pos, pivot, countOnly, r, log, Some(job))
    requires (countOnly || kind == Position) && !NoneIgnored(log)
    ensures |Served(list, log)| < |list| + ReportedItems(r, |d.values|)
  {
    var ins, elements := Meant(kind, pos, pivot.data), Payloads(d.values);
    PlanForAdd(s, t, d, kind, pos, pivot, job.plan);
    PlanIsAdd(job.plan, ins, elements);
    hide AddPlanFor, PlansFor, Served, Covers, Accounts, Wanted, Sent, AllFit, Greedy, InRange, RpcOf,
      CompletedChunks, ReportedItems, Items, NoneIgnored;
    SentIsShorter(list, job.plan, ins, elements, job.parts, s, log, r);
  }

  lemma SentIsShorter(list: seq<Element>, p: Plan, ins: Insertion<Element>, elements: seq<Element>, parts: seq<Span>,
                      s: Session, log: seq<Call>, r: Outcome)
    requires PlansFor(p, ins, elements) && Covers(parts, |elements|) && |p.items| == |elements|
    requires InRange(SendOrder(ins.AfterPivot?, parts), |elements|)
    requires Sent(s, Wanted(p, RpcOf(p.kind), SendOrder(ins.AfterPivot?, parts)), log)
    requires Accounts(SendOrder(ins.AfterPivot?, parts), false, log, r) && !NoneIgnored(log)
    ensures |Served(list, log)| < |list| + ReportedItems(r, |elements|)
  {
    SentCalls(s, p, RpcOf(p.kind), SendOrder(ins.AfterPivot?, parts), log);
    hide PlansFor, Served, Covers, Accounts, Wanted, RpcOf, InRange, CompletedChunks, ReportedItems, Sent, Items,
      ItemsOf, NonEmptySpans;
    var order := SendOrder(ins.AfterPivot?, parts);
    NoneEmpty(ins.AfterPivot?, parts, |elements|);
    AcceptedExactly(order, false, log, r);
    var k := CompletedChunks(order, r);
    PlanIsAdd(p, ins, elements);
    ServedLength(list, p, ins, elements, order, s, log, k);
    var i :| 0 <= i < |log| && log[i].reply.Ack? && log[i].reply.size == 0;
    MissedAt(log, k, i);
    ServedPrefix(list, log, k);
    ReportedExactly(ins.AfterPivot?, parts, |elements|, false, log, r);
    ItemsSent(ins.AfterPivot?, parts, |elements|, k);
  }

  lemma SentCalls(s: Session, p: Plan, rpc: Rpc, order: seq<Span>, log: seq<Call>)
    requires InRange(order, |p.items|) && Sent(s, Wanted(p, rpc, order), log)
    ensures |log| <= |order|
  {
    hide Build;
  }

  lemma ItemsSent(reversed: bool, parts: seq<Span>, n: nat, k: nat)
    requires Covers(parts, n) && k <= |parts|
    ensures Items(SendOrder(reversed, parts)[..k]) == ItemsOf(reversed, parts, n, k)
  {
    hide Items, Covers;
    if reversed {
      ItemsBackward(parts, n, k);
    } else {
      ItemsForward(parts, n, k);
    }
  }

  lemma PlanIsAdd(p: Plan, ins: Insertion<Element>, elements: seq<Element>)
    requires PlansFor(p, ins, elements)
    ensures p.AddPlan? && |p.items| == |elements| && (ins.AfterPivot? <==> p.kind == After)
  {
  }

  // ---- creation

  /** The list that a creation request starts with. */
  function StartsWith(m: Message): seq<Element> {
    if m.request.Create? then Datas(m.request.items.values) else []
  }

  lemma AsksToAppend(s: Session, t: ContainerType, hint: Option<KeyHint>, items: seq<Item>, elements: seq<Element>,
                     part: Span)
    requires Carry(items, elements) && part.start <= part.end <= |items| && Counted(t)
    ensures Asked(Message(ContinueRpc(t), Build(Continuation(s, t, hint, items), part.start, part.end))) ==
            Some((AtTail, elements[part.start..part.end]))
  {
    hide ArraysOf, Carry, Datas;
    SliceCarries(items, elements, part.start, part.end);
  }

  /** One continuation appends the items of its span. */
  lemma Appended(s: Session, t: ContainerType, hint: Option<KeyHint>, items: seq<Item>, elements: seq<Element>,
                 part: Span)
    requires Carry(items, elements) && |items| == |elements| && part.start <= part.end <= |items| && Counted(t)
    ensures var m := Message(ContinueRpc(t), Build(Continuation(s, t, hint, items), part.start, part.end));
            Serve(elements[..part.start], m) == elements[..part.end]
  {
    AsksToAppend(s, t, hint, items, elements, part);
    hide Continuation, Build, Asked, Carry;
    assert elements[..part.start] + elements[part.start..part.end] == elements[..part.end];
  }

  lemma SentContinuation(s: Session, t: ContainerType, p: Plan, spans: seq<Span>, rest: seq<Call>, k: nat)
    requires spans != [] && InRange(spans[1..], |p.items|) && Sent(s, Wanted(p, ContinueRpc(t), spans[1..]), rest)
    requires 0 < k <= |rest| && |rest| < |spans|
    ensures spans[k].start <= spans[k].end <= |p.items|
    ensures rest[k - 1].message == Message(ContinueRpc(t), Build(p, spans[k].start, spans[k].end))
  {
    hide Build;
    assert spans[1..][k - 1] == spans[k];
  }

  /** The accepted continuations extend the list span by span. */
  lemma {:induction false} ServedContinuations(s: Session, t: ContainerType, hint: Option<KeyHint>, items: seq<Item>,
                                               elements: seq<Element>, spans: seq<Span>, rest: seq<Call>, k: nat)
    requires Counted(t) && Carry(items, elements) && |items| == |elements|
    requires spans != [] && InRange(spans, |elements|) && Adjacent(spans) && InRange(spans[1..], |items|)
    requires Sent(s, Wanted(Continuation(s, t, hint, items), ContinueRpc(t), spans[1..]), rest)
    requires k <= |rest| && |rest| < |spans| && forall i :: 0 <= i < k ==> Accepted(rest[i])
    ensures Served(elements[..spans[0].end], rest[..k]) == elements[..spans[k].end]
  {
    if k > 0 {
      assert spans[k - 1].end == spans[k].start;
      hide Continuation, Build, Carry, Sent, Wanted, Served, Accepted, Adjacent, Serve;
      ServedContinuations(s, t, hint, items, elements, spans, rest, k - 1);
      ServedStep(elements[..spans[0].end], rest, k);
      SentContinuation(s, t, Continuation(s, t, hint, items), spans, rest, k);
      Appended(s, t, hint, items, elements, spans[k]);
    } else {
      assert rest[..0] == [];
    }
  }

  /** The continuations that the server accepted are exactly the reported ones. */
  lemma ContinuationsAccepted(spans: seq<Span>, rest: seq<Call>, err: Option<Error>)
    requires Continued(spans, true, rest, err)
    ensures var k := if err.None? then |spans| - 1 else err.value.chunks - 1;
            && 0 <= k <= |rest| && k < |spans|
            && forall i :: 0 <= i < |rest| ==> (Accepted(rest[i]) <==> i < k)
  {
    if err.Some? {
      var done := err.value.chunks - 1;
      assert forall i :: 0 <= i < done ==> rest[..done][i] == rest[i];
    }
  }

  /** What the caller is told was created. */
  function CreatedItems(err: Option<Error>, n: nat): nat {
    if err.Some? && err.value.Partial? then err.value.items else n
  }

  /**
   End to end: after a creation that the server acknowledged, its list is exactly the payloads that the
   caller is told it holds: all of them, or the first ones that a partial error reports.
   */
  lemma CreateIsOneList(s: Session, t: ContainerType, d: ContainerData, hint: Option<KeyHint>, err: Option<Error>,
                        first: Option<Call>, rest: seq<Call>, job: Job)
    requires Counted(t) && CreateReport(s, t, d, hint, err, first, rest, Some(job))
    requires first.Some? && first.value.reply.Ack?
    ensures CreatedItems(err, |d.values|) <= |d.values|
    ensures Served(StartsWith(first.value.message), rest) == Payloads(d.values)[..CreatedItems(err, |d.values|)]
  {
    CreationCarries(s, t, d, job.plan);
    hide CreatePlanFor, Created, Carry, Served, StartsWith, Greedy, AllFit, Covers, InRange;
    CreationIsOneList(s, job.plan, Payloads(d.values), job.parts, hint, err, first, rest);
  }

  lemma CreationCarries(s: Session, t: ContainerType, d: ContainerData, p: Plan)
    requires Counted(t) && CreatePlanFor(s, t, d) == Ok(p)
    ensures p.CreatePlan? && p.typ == t && Carry(p.items, Payloads(d.values))
  {
    hide Traverse, Carry, Sendable;
    EncodedCarriesData(d.values, Env(s.key.clientId, ItemTtl(t, s.ttl, true), s.config), p.items);
  }

  lemma CreationIsOneList(s: Session, p: Plan, elements: seq<Element>, parts: seq<Span>, hint: Option<KeyHint>,
                          err: Option<Error>, first: Option<Call>, rest: seq<Call>)
    requires p.CreatePlan? && Counted(p.typ) && Carry(p.items, elements) && Covers(parts, |p.items|)
    requires InRange(Spans(parts), |p.items|) && InRange(Spans(parts)[1..], |p.items|)
    requires Created(s, p, Spans(parts), hint, err, first, rest) && first.Some? && first.value.reply.Ack?
    ensures CreatedItems(err, |elements|) <= |elements|
    ensures Served(StartsWith(first.value.message), rest) == elements[..CreatedItems(err, |elements|)]
  {
    var spans := Spans(parts);
    FirstSpan(parts, |p.items|);
    FirstElements(s, p, elements, spans);
    ContinuationsAccepted(spans, rest, err);
    assert |p.items| == |elements|;
    hide Continued, Carry, Covers, Continuation, Build, Served, StartsWith, Accepted, Wanted, Sent;
    var k := if err.None? then |spans| - 1 else err.value.chunks - 1;
    assert |rest| < |spans| by { SentCount(s, p, hint, spans, rest); }
    ServedContinuations(s, p.typ, hint, p.items, elements, spans, rest, k);
    ServedPrefix(StartsWith(first.value.message), rest, k);
    LastItems(parts, |p.items|, err, rest);
  }

  lemma SentCount(s: Session, p: Plan, hint: Option<KeyHint>, spans: seq<Span>, rest: seq<Call>)
    requires p.CreatePlan? && spans != [] && InRange(spans[1..], |p.items|)
    requires Sent(s, Wanted(Continuation(s, p.typ, hint, p.items), ContinueRpc(p.typ), spans[1..]), rest)
    ensures |rest| < |spans|
  {
    hide Build;
  }

  /** The spans start at the first item. */
  lemma FirstSpan(parts: seq<Span>, n: nat)
    requires Covers(parts, n) && InRange(Spans(parts), n)
    ensures Spans(parts)[0].start == 0 && Adjacent(Spans(parts))
  {
    if parts != [] {
      CoversAt(parts, n, 0);
      CoversAdjacent(parts, n);
    }
  }

  lemma FirstElements(s: Session, p: Plan, elements: seq<Element>, spans: seq<Span>)
    requires p.CreatePlan? && Carry(p.items, elements) && spans != [] && InRange(spans, |p.items|) &&
             spans[0].start == 0
    ensures StartsWith(FirstMessage(s, p, spans)) == elements[..spans[0].end]
  {
    SliceCarries(p.items, elements, 0, spans[0].end);
    hide ArraysOf, Carry, Datas;
  }

  /** The last completed span ends after the reported items. */
  lemma LastItems(parts: seq<Span>, n: nat, err: Option<Error>, rest: seq<Call>)
    requires Covers(parts, n) && Continued(Spans(parts), true, rest, err) && InRange(Spans(parts), n)
    ensures var k := if err.None? then |Spans(parts)| - 1 else err.value.chunks - 1;
            0 <= k < |Spans(parts)| && Spans(parts)[k].end == CreatedItems(err, n) <= n
  {
    CoversEnd(parts, n);
  }
}
