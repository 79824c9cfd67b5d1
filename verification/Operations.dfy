/** One attempt of any collection operation (client.go:209-262), as the router sees it. */
module Operations {
  import opened Wrappers
  import opened Wire
  import opened Messages
  import opened Errors
  import opened Codec
  import opened Packing
  import opened Batches
  import opened Networks
  import opened Sending
  import opened Progress
  import opened Mutations
  import opened Creation
  import opened Reading
  import Lists

  datatype Operation =
    | AddOp(typ: ContainerType, data: ContainerData, kind: AddKind, pos: uint32, pivot: Payload, countOnly: bool)
    | CreateOp(typ: ContainerType, data: ContainerData)
    | RemoveOp(typ: ContainerType, values: seq<Payload>, keys: seq<Payload>)
    | ReadOp(range: Option<Position>)

  datatype Answer = Answer(outcome: Outcome, hint: Option<KeyHint>, data: ContainerData)

  /** The server has done work for this call that the client has taken over. */
  predicate Acknowledges(c: Call, config: Config) {
    match c.reply
    case Ack(_, _) => true
    case Refused(_, _) => false
    case Delivered(batches, _) => batches != [] && Decoded(batches[0], config).Ok?
  }

  predicate AllTo(node: nat, log: seq<Call>) {
    forall i :: 0 <= i < |log| ==> log[i].node == node
  }

  predicate NoneAcknowledged(log: seq<Call>, config: Config) {
    forall i :: 0 <= i < |log| ==> !Acknowledges(log[i], config)
  }

  /** How the operation went, for its contract: the plan of a mutation, the batches of a read. */
  datatype Course = Course(job: Option<Job>, chunks: nat)

  /** The operation did what its report says. */
  predicate Performed(s: Session, op: Operation, a: Answer, log: seq<Call>, how: Course) {
    match op
    case AddOp(typ, data, kind, pos, pivot, countOnly) =>
      AddReport(s, typ, data, kind, pos, pivot, countOnly, a.outcome, log, how.job)
    case RemoveOp(typ, values, keys) => RemoveReport(s, typ, values, keys, a.outcome, log, how.job)
    case CreateOp(typ, data) =>
      CreateReport(s, typ, data, a.hint, a.outcome.err, FirstOf(log), RestOf(log), how.job)
    case ReadOp(range) => |log| <= 1 && ReadReport(s, range, a.data, a.outcome.err, FirstOf(log), how.chunks)
  }

  function FirstOf(log: seq<Call>): Option<Call> {
    if log == [] then None else Some(log[0])
  }

  function RestOf(log: seq<Call>): seq<Call> {
    if log == [] then [] else log[1..]
  }

  /** One attempt. Whatever the operation, an error that is not partial leaves no acknowledged work behind. */
  method Perform(net: Network, s: Session, op: Operation) returns (a: Answer, ghost log: seq<Call>, ghost how: Course)
    modifies net
    ensures net.calls == old(net.calls) + log
    ensures Performed(s, op, a, log, how) && AllTo(s.node, log)
    ensures a.outcome.err.Some? && !HasPartial(a.outcome.err.value) ==> NoneAcknowledged(log, s.config)
  {
    hide Wanted, Accounts, Packed, Created, Collected, Decoded, AddPlanFor, CreatePlanFor, RemovePlanFor, ReadRefusal;
    a, log := Answer(Outcome(0, true, None), None, NO_DATA), [];
    how := Course(None, 0);
    ghost var job: Option<Job>;
    match op
    case AddOp(typ, data, kind, pos, pivot, countOnly) =>
      var r;
      r, log, job := Add(net, s, typ, data, kind, pos, pivot, countOnly);
      if r.err.Some? && !HasPartial(r.err.value) && job.Some? {
        NotPartialNothingDone(Order(job.value), Boolean(kind, countOnly), log, r);
      }
      a, how := a.(outcome := r), how.(job := job);
    case RemoveOp(typ, values, keys) =>
      var r;
      r, log, job := RemoveFromContainer(net, s, typ, values, keys);
      if r.err.Some? && !HasPartial(r.err.value) && job.Some? {
        NotPartialNothingDone(Order(job.value), false, log, r);
      }
      a, how := a.(outcome := r), how.(job := job);
    case CreateOp(typ, data) =>
      var hint, err;
      ghost var first, rest;
      hint, err, first, rest, job := CreateContainer(net, s, typ, data);
      log := ToSeq(first) + rest;
      if first.Some? {
        CreationCalls(s, job.value.plan, Spans(job.value.parts), hint, err, first, rest);
      }
      a, how := a.(outcome := Outcome(0, true, err), hint := hint), how.(job := job);
    case ReadOp(range) =>
      var data, err;
      ghost var call, chunks;
      data, err, call, chunks := Read(net, s, range);
      log := ToSeq(call);
      if call.Some? && call.value.reply.Delivered? && err.Some? && !HasPartial(err.value) {
        NothingCollected(call.value.reply.batches, call.value.reply.end, s.config, data, err, chunks);
      }
      a, how := a.(outcome := Outcome(0, true, err), data := data), how.(chunks := chunks);
  }

  lemma CreationCalls(s: Session, p: Plan, spans: seq<Span>, hint: Option<KeyHint>, err: Option<Error>,
                      first: Option<Call>, rest: seq<Call>)
    requires p.CreatePlan? && spans != [] && Lists.InRange(spans, |p.items|) && Lists.InRange(spans[1..], |p.items|)
    requires Created(s, p, spans, hint, err, first, rest) && first.Some?
    ensures AllTo(s.node, ToSeq(first) + rest)
    ensures err.Some? && !HasPartial(err.value) ==> NoneAcknowledged(ToSeq(first) + rest, s.config)
  {
    hide Wanted, Continuation;
    if err.Some? {
      NoSizeFailureAfterCreation(s, p, spans, hint, err, first, rest);
    }
  }
}
