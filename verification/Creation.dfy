/** `CreateContainer`: one creation followed by bounded additions (collections.go:158-213). */
module Creation {
  import opened Wrappers
  import opened Messages
  import opened Errors
  import opened Packing
  import opened Lists
  import opened Batches
  import opened Networks
  import opened Sending
  import opened Progress
  import opened Reserve
  import opened Mutations

  /** The continuation RPC of these types returns a count, and 0 means that the chunk was rejected. */
  predicate Counted(t: ContainerType) {
    t == List || t == Vector || t == Queue
  }

  function ContinueRpc(t: ContainerType): Rpc {
    if Counted(t) then AddToTail else AddElement
  }

  /** The hint that the server returned goes into the key of the continuations. */
  function KeyWith(k: Key, hint: Option<KeyHint>): Key {
    if hint.Some? then k.(hint := hint) else k
  }

  function Continuation(s: Session, t: ContainerType, hint: Option<KeyHint>, items: seq<Item>): (p: Plan)
    ensures p.items == items
  {
    ContinuePlan(KeyWith(s.key, hint), t, items)
  }

  /** The spans of a creation; an empty collection is created by one request. */
  function Spans(parts: seq<Span>): seq<Span> {
    if parts == [] then [Span(0, 0)] else parts
  }

  /** After the creation: `rest` is the calls of the continuations, and the first of `spans` is done. */
  predicate Continued(spans: seq<Span>, counted: bool, rest: seq<Call>, err: Option<Error>) {
    if err.None? then |rest| + 1 == |spans| && AllAcked(rest) && (counted ==> NoneRejected(rest))
    else
      var e := err.value;
      && e.Partial? && 0 < e.chunks < |spans| && e.items == spans[e.chunks - 1].end
      && var done := e.chunks - 1;
         && done <= |rest| && AllAcked(rest[..done]) && (counted ==> NoneRejected(rest[..done]))
         && (Stopped(rest, done, e.cause) || (counted && Rejected(rest, done, e.cause)))
  }

  predicate Adjacent(spans: seq<Span>) {
    forall k :: 0 < k < |spans| ==> spans[k - 1].end == spans[k].start <= spans[k].end
  }

  /** The continuation chunks, in order. */
  method Continue(net: Network, s: Session, t: ContainerType, hint: Option<KeyHint>, items: seq<Item>, spans: seq<Span>)
    returns (err: Option<Error>, ghost rest: seq<Call>)
    requires spans != [] && InRange(spans, |items|) && Adjacent(spans) && InRange(spans[1..], |items|)
    requires forall k :: 0 < k < |spans| ==>
               Fits(Continuation(s, t, hint, items), s.config.maxRequestBytes, spans[k].start, spans[k].end)
    modifies net
    ensures net.calls == old(net.calls) + rest
    ensures Sent(s, Wanted(Continuation(s, t, hint, items), ContinueRpc(t), spans[1..]), rest)
    ensures Continued(spans, Counted(t), rest, err) && Excused(s.mayEnd, err)
  {
    hide Build, RequestSize, Continuation, Excused, Cause;
    ExcusedSuccess(s.mayEnd);
    var done, chunks: nat := spans[0].end, 1;
    var p := Continuation(s, t, hint, items);
    rest := [];
    while chunks < |spans|
      invariant 0 < chunks <= |spans| && |rest| + 1 == chunks && done == spans[chunks - 1].end
      invariant net.calls == old(net.calls) + rest && AllAcked(rest) && (Counted(t) ==> NoneRejected(rest))
      invariant Sent(s, Wanted(p, ContinueRpc(t), spans[1..]), rest)
    {
      var part := spans[chunks];
      assert spans[1..][chunks - 1] == part;
      var m := Message(ContinueRpc(t), Build(p, part.start, part.end));
      assert Fits(p, s.config.maxRequestBytes, part.start, part.end);
      var reply := net.Unary(s, m);
      if reply.Err? {
        ghost var more :=
          if reply.error.Rpc? then [Call(s.node, m, Refused(reply.error.status, reply.error.routes))] else [];
        assert (rest + more)[..|rest|] == rest;
        rest := rest + more;
        ExcusedPartial(s.mayEnd, chunks, done, reply.error);
        return Some(MakePartial(chunks, done, reply.error)), rest;
      }
      ghost var c := Call(s.node, m, reply.value);
      assert (rest + [c])[..|rest|] == rest;
      rest := rest + [c];
      if Counted(t) && reply.value.size == 0 {
        ExcusedPartial(s.mayEnd, chunks, done, Local(Aborted));
        return Some(MakePartial(chunks, done, Local(Aborted))), rest;
      }
      done, chunks := done + part.end - part.start, chunks + 1;
    }
    err := None;
  }

  /** The preflight check of the continuations, which never fails after a successful split. */
  method Preflight(reserve: Plan, limit: nat, spans: seq<Span>) returns (ok: bool)
    requires reserve.CreatePlan? && reserve.typ != Undefined && reserve.key == Reserved(reserve.key)
    requires spans != [] && InRange(spans, |reserve.items|)
    requires forall k :: 0 <= k < |spans| ==> Fits(reserve, limit, spans[k].start, spans[k].end)
    ensures ok
  {
    hide Fits;
    ok := true;
    for k := 1 to |spans|
      invariant ok
    {
      ReservedSuffices(reserve.key, Some(WIDEST), reserve.typ, reserve.ttl, reserve.items, limit,
                       spans[k].start, spans[k].end);
      if !Fits(ContinuePlan(reserve.key, reserve.typ, reserve.items), limit, spans[k].start, spans[k].end) {
        ok := false;
      }
    }
  }

  /** The plan of a creation, with the reserved key, or why nothing is sent. */
  function CreatePlanFor(s: Session, t: ContainerType, d: ContainerData): Result<Plan, Error> {
    if t == Undefined || !Matches(t, d) then Err(Local(InvalidArgument))
    else
      match Encoded(t, d, Env(s.key.clientId, ItemTtl(t, s.ttl, true), s.config))
      case Err(e) => Err(e)
      case Ok(items) =>
        var p := CreatePlan(Reserved(s.key), t, s.ttl, items);
        if Sendable(p, s.config.maxRequestBytes) then Ok(p) else Err(Local(ResourceExhausted))
  }

  lemma SpansOk(p: Plan, limit: nat, parts: seq<Span>)
    requires Covers(parts, |p.items|) && AllFit(p, limit, parts) && Fits(p, limit, 0, 0)
    ensures var spans := Spans(parts);
            && InRange(spans, |p.items|) && InRange(spans[1..], |p.items|) && Adjacent(spans)
            && (forall k :: 0 <= k < |spans| ==> Fits(p, limit, spans[k].start, spans[k].end))
  {
    CoversInRange(parts, |p.items|);
    hide Fits;
    if parts != [] {
      CoversAdjacent(parts, |p.items|);
      hide Covers, Adjacent;
      TailInRange(parts, |p.items|);
    }
  }

  lemma CoversAdjacent(parts: seq<Span>, n: nat)
    requires Covers(parts, n)
    ensures Adjacent(parts)
  {
    hide Covers;
    forall k | 0 < k < |parts|
      ensures parts[k - 1].end == parts[k].start <= parts[k].end
    {
      CoversAt(parts, n, k);
    }
  }

  lemma TailInRange(spans: seq<Span>, n: nat)
    requires spans != [] && InRange(spans, n)
    ensures InRange(spans[1..], n)
  {
  }

  lemma AnyHintFits(s: Session, hint: Option<KeyHint>, p: Plan, spans: seq<Span>, k: nat)
    requires p.CreatePlan? && p.key == Reserved(s.key) && p.typ != Undefined
    requires InRange(spans, |p.items|) && k < |spans| && Fits(p, s.config.maxRequestBytes, spans[k].start, spans[k].end)
    ensures Fits(CreatePlan(s.key, p.typ, p.ttl, p.items), s.config.maxRequestBytes, spans[k].start, spans[k].end)
    ensures Fits(Continuation(s, p.typ, hint, p.items), s.config.maxRequestBytes, spans[k].start, spans[k].end)
  {
    hide Fits;
    assert s.key.(hint := s.key.hint) == s.key;
    ReservedSuffices(s.key, s.key.hint, p.typ, p.ttl, p.items, s.config.maxRequestBytes, spans[k].start, spans[k].end);
    ReservedSuffices(s.key, hint, p.typ, p.ttl, p.items, s.config.maxRequestBytes, spans[k].start, spans[k].end);
  }

  /** The request that creates the container. */
  function FirstMessage(s: Session, p: Plan, spans: seq<Span>): Message
    requires p.CreatePlan? && spans != [] && InRange(spans, |p.items|)
  {
    Message(CreateWhole, Build(CreatePlan(s.key, p.typ, p.ttl, p.items), spans[0].start, spans[0].end))
  }

  /** What the calls of a creation are, and what is reported of them. */
  predicate Created(s: Session, p: Plan, spans: seq<Span>, hint: Option<KeyHint>, err: Option<Error>,
                    first: Option<Call>, rest: seq<Call>)
    requires p.CreatePlan? && spans != [] && InRange(spans, |p.items|) && InRange(spans[1..], |p.items|)
  {
    first.Some? ==>
      && first.value == Call(s.node, FirstMessage(s, p, spans), first.value.reply)
      && RequestSize(first.value.message.request) <= s.config.maxRequestBytes
      && (first.value.reply.Ack? ==>
            && hint == first.value.reply.hint
            && Sent(s, Wanted(Continuation(s, p.typ, hint, p.items), ContinueRpc(p.typ), spans[1..]), rest)
            && Continued(spans, Counted(p.typ), rest, err))
      && (!first.value.reply.Ack? ==>
            && first.value.reply.Refused? && rest == [] && hint.None?
            && err == Some(Rpc(first.value.reply.code, first.value.reply.routes)))
  }

  /**
   What a creation did: when the input can not be sent, nothing is. Otherwise one creation and then the
   continuations went out in order, all within the limit whatever hint came back, and an error after the
   creation reports exactly the acknowledged prefix.
   */
  predicate CreateReport(s: Session, t: ContainerType, d: ContainerData, hint: Option<KeyHint>, err: Option<Error>,
                         first: Option<Call>, rest: seq<Call>, job: Option<Job>)
  {
    && (first.None? ==> rest == [] && err.Some? && hint.None?)
    && match job
       case None => first.None? && err.Some? && (Ended(s.mayEnd, err.value) || CreatePlanFor(s, t, d) == Err(err.value))
       case Some(j) =>
         var p, spans := j.plan, Spans(j.parts);
         && CreatePlanFor(s, t, d) == Ok(p) && p.CreatePlan? && Packed(j, s.config.maxRequestBytes)
         && (first.None? ==> Ended(s.mayEnd, err.value)) && Excused(s.mayEnd, err)
         && InRange(spans, |p.items|) && InRange(spans[1..], |p.items|) && Created(s, p, spans, hint, err, first, rest)
  }

  method CreateContainer(net: Network, s: Session, t: ContainerType, d: ContainerData)
    returns (hint: Option<KeyHint>, err: Option<Error>,
             ghost first: Option<Call>, ghost rest: seq<Call>, ghost job: Option<Job>)
    modifies net
    ensures net.calls == old(net.calls) + ToSeq(first) + rest
    ensures CreateReport(s, t, d, hint, err, first, rest, job)
  {
    hide Build, Encoded, Sent, Greedy, Covers, AllFit, Matches, Sendable, Continued, Fits, Continuation, Wanted;
    hint, err, first, rest, job := None, None, None, [], None;
    var items := EncodeItems(t, d, true, s.key.clientId, s.ttl, s.config, s.mayEnd);
    if items.Err? {
      err := Some(items.error);
      return;
    }
    var p := CreatePlan(Reserved(s.key), t, s.ttl, items.value);
    var limit := s.config.maxRequestBytes;
    var parts := SplitPlan(p, limit, s.mayEnd);
    if parts.Err? {
      err := Some(parts.error);
      return;
    }
    job := Some(Job(p, parts.value));
    PackedJob(job.value, limit);
    var spans := Spans(parts.value);
    assert Fits(p, limit, 0, 0) by { SendableHeader(p, limit); }
    SpansOk(p, limit, parts.value);
    var ok := Preflight(p, limit, spans);
    err := Some(Local(ResourceExhausted));
    if ok {
      hint, err, first, rest := SendCreation(net, s, p, spans);
    }
  }

  lemma SendableHeader(p: Plan, limit: nat)
    requires Sendable(p, limit)
    ensures Fits(p, limit, 0, 0)
  {
  }

  method SendCreation(net: Network, s: Session, p: Plan, spans: seq<Span>)
    returns (hint: Option<KeyHint>, err: Option<Error>, ghost first: Option<Call>, ghost rest: seq<Call>)
    requires p.CreatePlan? && p.key == Reserved(s.key) && p.typ != Undefined && spans != []
    requires InRange(spans, |p.items|) && InRange(spans[1..], |p.items|) && Adjacent(spans)
    requires forall k :: 0 <= k < |spans| ==> Fits(p, s.config.maxRequestBytes, spans[k].start, spans[k].end)
    modifies net
    ensures net.calls == old(net.calls) + ToSeq(first) + rest
    ensures first.None? ==> rest == [] && err.Some? && hint.None? && Ended(s.mayEnd, err.value)
    ensures Created(s, p, spans, hint, err, first, rest) && Excused(s.mayEnd, err)
  {
    hide Build, RequestSize, Sent, Continued, Wanted, Continuation;
    hint, err, first, rest := None, None, None, [];
    AnyHintFits(s, None, p, spans, 0);
    var m := FirstMessage(s, p, spans);
    assert RequestSize(m.request) <= s.config.maxRequestBytes;
    hide Fits;
    var r := net.Unary(s, m);
    if r.Err? {
      err := Some(r.error);
      if r.error.Rpc? {
        first := Some(Call(s.node, m, Refused(r.error.status, r.error.routes)));
      }
      return;
    }
    hint, first := r.value.hint, Some(Call(s.node, m, r.value));
    forall k | 0 < k < |spans|
      ensures Fits(Continuation(s, p.typ, hint, p.items), s.config.maxRequestBytes, spans[k].start, spans[k].end)
    {
      AnyHintFits(s, hint, p, spans, k);
    }
    err, rest := Continue(net, s, p.typ, hint, p.items, spans);
  }

  // ---- what it means for the caller

  /** No failure for size after the first request, for any hint that the server returns. */
  lemma NoSizeFailureAfterCreation(s: Session, p: Plan, spans: seq<Span>, hint: Option<KeyHint>, err: Option<Error>,
                                   first: Option<Call>, rest: seq<Call>)
    requires p.CreatePlan? && spans != [] && InRange(spans, |p.items|) && InRange(spans[1..], |p.items|)
    requires Created(s, p, spans, hint, err, first, rest) && first.Some? && err.Some?
    ensures Cause(err.value) != Local(ResourceExhausted)
    ensures !HasPartial(err.value) ==> !first.value.reply.Ack? && rest == []
  {
    if first.value.reply.Ack? {
      assert Cause(err.value.cause) == err.value.cause;
    }
  }

  /** The reported items are the first items, in as many requests as reported. */
  lemma CreatedPrefix(s: Session, p: Plan, parts: seq<Span>, hint: Option<KeyHint>, err: Option<Error>,
                      first: Option<Call>, rest: seq<Call>)
    requires p.CreatePlan? && Covers(parts, |p.items|)
    requires InRange(Spans(parts), |p.items|) && InRange(Spans(parts)[1..], |p.items|)
    requires Created(s, p, Spans(parts), hint, err, first, rest) && first.Some? && err.Some? && HasPartial(err.value)
    ensures err.value.chunks < |parts| && err.value.items == Boundary(parts, err.value.chunks)
    ensures Covers(parts[..err.value.chunks], err.value.items)
  {
    hide Sent, Wanted;
    assert first.value.reply.Ack?;
    CoversPrefix(parts, |p.items|, err.value.chunks);
  }

  lemma PlanOfCreation(s: Session, t: ContainerType, d: ContainerData)
    ensures var r := CreatePlanFor(s, t, d); r.Ok? ==> r.value.CreatePlan? && r.value.typ == t
  {
  }

  /** A creation whose input can be sent, whose context can not end, and whose requests the server
      accepts, sends all of them. */
  lemma CreateCompletes(s: Session, t: ContainerType, d: ContainerData, hint: Option<KeyHint>, err: Option<Error>,
                        first: Option<Call>, rest: seq<Call>, job: Option<Job>)
    requires CreateReport(s, t, d, hint, err, first, rest, job) && !s.mayEnd && CreatePlanFor(s, t, d).Ok?
    requires first.Some? ==> first.value.reply.Ack?
    requires AllAcked(rest) && (Counted(t) ==> NoneRejected(rest))
    ensures err.None? && first.Some? && job.Some? && |rest| + 1 == |Spans(job.value.parts)|
  {
    CauseOnce(err);
    PlanOfCreation(s, t, d);
    hide Packed, Sent, Wanted, Continuation, FirstMessage, CreatePlanFor, Spans, Cause, InRange, Build, RequestSize;
  }
}
