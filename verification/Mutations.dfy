/** The operations on collections: `add`, `CreateContainer` and `RemoveFromContainer` (collections.go). */
module Mutations {
  import opened Wrappers
  import opened Wire
  import opened Messages
  import opened Errors
  import opened Codec
  import opened Packing
  import opened Lists
  import opened Batches
  import opened Networks
  import opened Sending
  import opened Progress
  import opened RoundTrips

  /** `split` with the errors of the client. */
  method SplitPlan(p: Plan, limit: nat, mayEnd: bool) returns (r: Result<seq<Span>, Error>)
    ensures r.Ok? ==> Covers(r.value, |p.items|) && AllFit(p, limit, r.value) && Greedy(p, limit, r.value)
    ensures r.Ok? ==> Sendable(p, limit)
    ensures r.Err? && !Ended(mayEnd, r.error) ==> r.error == Local(ResourceExhausted) && !Sendable(p, limit)
  {
    hide Covers, AllFit, Greedy, Fits;
    var parts := Split(p, limit, mayEnd);
    match parts
    case Ok(value) => r := Ok(value);
    case Err(SplitCancelled) =>
      var late: bool := *;
      r := Err(Local(if late then DeadlineExceeded else Canceled));
    case Err(HeaderTooLarge) => r := Err(Local(ResourceExhausted));
    case Err(ItemTooLarge(_)) => r := Err(Local(ResourceExhausted));
  }

  // ---- add (collections.go:215-329)

  predicate HasPivot(kind: AddKind) {
    kind == Before || kind == After
  }

  /** Kinds for which a zero count means that the server rejected the chunk. */
  predicate Boolean(kind: AddKind, countOnly: bool) {
    !countOnly && kind != Generic && kind != Position
  }

  function RpcOf(kind: AddKind): Rpc {
    match kind
    case Head => AddToHead
    case Tail => AddToTail
    case Before => AddByValue
    case After => AddByValue
    case _ => AddElement
  }

  /** What an `add` has decided when it starts to send. */
  datatype Job = Job(plan: Plan, parts: seq<Span>)

  function Order(job: Job): seq<Span> {
    SendOrder(job.plan.AddPlan? && job.plan.kind == After, job.parts)
  }

  /** The spans cover the items, and each request is as large as its limit allows. */
  predicate Packed(job: Job, limit: nat) {
    && Covers(job.parts, |job.plan.items|) && AllFit(job.plan, limit, job.parts)
    && Greedy(job.plan, limit, job.parts) && InRange(Order(job), |job.plan.items|)
  }

  lemma PackedJob(job: Job, limit: nat)
    requires Covers(job.parts, |job.plan.items|)
    requires AllFit(job.plan, limit, job.parts) && Greedy(job.plan, limit, job.parts)
    ensures Packed(job, limit)
    ensures forall k :: 0 <= k < |Order(job)| ==> Fits(job.plan, limit, Order(job)[k].start, Order(job)[k].end)
  {
    CoversInRange(job.parts, |job.plan.items|);
    hide Covers, Greedy, Fits;
    forall k | 0 <= k < |Order(job)|
      ensures Fits(job.plan, limit, Order(job)[k].start, Order(job)[k].end)
    {
      if job.plan.AddPlan? && job.plan.kind == After {
        ReverseAt(job.parts, k);
      }
    }
  }

  /** The plan of an `add` before its sizes are checked, or why there is none. */
  function AddPlanOf(s: Session, t: ContainerType, d: ContainerData, kind: AddKind, pos: uint32, pivot: Payload)
    : Result<Plan, Error>
  {
    if t == Undefined || !Matches(t, d) then Err(Local(InvalidArgument))
    else
      match Encoded(t, d, Env(s.key.clientId, None, s.config))
      case Err(e) => Err(e)
      case Ok(items) =>
        if kind == Position && pos + |items| > MAX_UINT32 then Err(Local(OutOfRange))
        else
          match if HasPivot(kind) then EncodeValue(pivot, None, s.config, false) else Ok(NO_VALUE)
          case Err(e) => Err(e)
          case Ok(pv) => Ok(AddPlan(s.key, t, kind, pos, pv, items))
  }

  /** The plan of an `add`, or why nothing is sent. */
  function AddPlanFor(s: Session, t: ContainerType, d: ContainerData, kind: AddKind, pos: uint32, pivot: Payload)
    : Result<Plan, Error>
  {
    match AddPlanOf(s, t, d, kind, pos, pivot)
    case Err(e) => Err(e)
    case Ok(p) => if Sendable(p, s.config.maxRequestBytes) then Ok(p) else Err(Local(ResourceExhausted))
  }

  /** The checks and encodings of an `add`. */
  method PlanAdd(s: Session, t: ContainerType, d: ContainerData, kind: AddKind, pos: uint32, pivot: Payload)
    returns (r: Result<Plan, Error>)
    ensures r == AddPlanOf(s, t, d, kind, pos, pivot) || (r.Err? && Ended(s.mayEnd, r.error))
  {
    hide Encoded, Matches, EncodeValue;
    var items :- EncodeItems(t, d, false, s.key.clientId, s.ttl, s.config, s.mayEnd);
    if kind == Position && pos + |items| > MAX_UINT32 {
      return Err(Local(OutOfRange));
    }
    var pv := NO_VALUE;
    if HasPivot(kind) {
      pv :- EncodeValue(pivot, None, s.config, false);
    }
    r := Ok(AddPlan(s.key, t, kind, pos, pv, items));
  }

  /**
   What an `add` did: when the input can not be sent, nothing is. Otherwise the requests of a packed
   plan went out in order, and the outcome accounts for what the server acknowledged of them.
   */
  predicate AddReport(s: Session, t: ContainerType, d: ContainerData, kind: AddKind, pos: uint32, pivot: Payload,
                      countOnly: bool, r: Outcome, log: seq<Call>, job: Option<Job>)
  {
    match job
    case None =>
      && log == [] && r.err.Some?
      && (Ended(s.mayEnd, r.err.value) || AddPlanFor(s, t, d, kind, pos, pivot) == Err(r.err.value))
    case Some(j) =>
      && AddPlanFor(s, t, d, kind, pos, pivot) == Ok(j.plan) && Packed(j, s.config.maxRequestBytes)
      && Sent(s, Wanted(j.plan, RpcOf(kind), Order(j)), log)
      && Accounts(Order(j), Boolean(kind, countOnly), log, r) && Excused(s.mayEnd, r.err)
  }

  method Add(net: Network, s: Session, t: ContainerType, d: ContainerData, kind: AddKind, pos: uint32,
             pivot: Payload, countOnly: bool)
    returns (r: Outcome, ghost log: seq<Call>, ghost job: Option<Job>)
    modifies net
    ensures net.calls == old(net.calls) + log
    ensures AddReport(s, t, d, kind, pos, pivot, countOnly, r, log, job)
  {
    hide Build, Accounts, Sent, Greedy, Covers, AllFit, Sendable, AddPlanOf;
    log, job := [], None;
    var plan := PlanAdd(s, t, d, kind, pos, pivot);
    if plan.Err? {
      return Outcome(0, false, Some(plan.error)), log, job;
    }
    PlanOfAdd(s, t, d, kind, pos, pivot);
    var parts := SplitPlan(plan.value, s.config.maxRequestBytes, s.mayEnd);
    if parts.Err? {
      return Outcome(0, false, Some(parts.error)), log, job;
    }
    job := Some(Job(plan.value, parts.value));
    PackedJob(job.value, s.config.maxRequestBytes);
    var order := SendOrder(kind == After, parts.value);
    r, log := SendAll(net, s, plan.value, RpcOf(kind), order, Boolean(kind, countOnly));
  }

  /** A zero count is a rejection for the six kinds whose methods return a boolean: success means that every
      chunk counted something. */
  lemma ZeroRejects(s: Session, t: ContainerType, d: ContainerData, kind: AddKind, pos: uint32, pivot: Payload,
                    r: Outcome, log: seq<Call>, job: Job, i: nat)
    requires kind in {Head, Tail, Before, After, Bool, OrderedBool}
    requires AddReport(s, t, d, kind, pos, pivot, false, r, log, Some(job)) && i < |log|
    requires log[i].reply.Ack? && log[i].reply.size == 0
    ensures !r.ok && i == |log| - 1
    ensures if i == 0 then r.err.None? else r.err.Some? && r.err.value.Partial? && r.err.value.cause == Local(Aborted)
  {
    hide AddPlanFor, Packed, Sent, Wanted, Order, Items, Total, Excused;
    if r.err.Some? {
      var done := Completed(r.err);
      assert forall k :: 0 <= k < done ==> log[..done][k] == log[k];
    }
  }

  /** The other kinds, and all that only count, never take a count as a rejection. */
  lemma CountsOnly(s: Session, t: ContainerType, d: ContainerData, kind: AddKind, pos: uint32, pivot: Payload,
                   countOnly: bool, r: Outcome, log: seq<Call>, job: Job)
    requires countOnly || kind == Generic || kind == Position
    requires AddReport(s, t, d, kind, pos, pivot, countOnly, r, log, Some(job))
    ensures r.ok && (r.err.Some? ==> Cause(r.err.value) != Local(Aborted))
  {
    hide AddPlanFor, Packed, Sent, Wanted, Order, Items, Total;
    CauseOnce(r.err);
  }

  lemma PlanOfAdd(s: Session, t: ContainerType, d: ContainerData, kind: AddKind, pos: uint32, pivot: Payload)
    ensures var r := AddPlanOf(s, t, d, kind, pos, pivot); r.Ok? ==> r.value.AddPlan? && r.value.kind == kind
  {
  }

  /** An `add` whose input can be sent, whose context can not end, and whose requests the server accepts,
      sends all of them and returns their sum. */
  lemma AddCompletes(s: Session, t: ContainerType, d: ContainerData, kind: AddKind, pos: uint32, pivot: Payload,
                     countOnly: bool, r: Outcome, log: seq<Call>, job: Option<Job>)
    requires AddReport(s, t, d, kind, pos, pivot, countOnly, r, log, job)
    requires !s.mayEnd && AddPlanFor(s, t, d, kind, pos, pivot).Ok?
    requires AllAcked(log) && Total(log) <= MAX_UINT32
    requires !countOnly && kind in {Head, Tail, Before, After, Bool, OrderedBool} ==> NoneRejected(log)
    ensures job.Some? && |log| == |Order(job.value)| && r.err.None? && r.ok && r.count == Total(log)
  {
    hide AddPlanFor, Packed, Accounts, Total, Sent, Wanted, AllAcked, NoneRejected, Order, Excused;
    Completes(Order(job.value), Boolean(kind, countOnly), log, r);
  }

  /** No other way to split the same items into requests that fit needs fewer requests. */
  lemma AddIsOptimal(s: Session, t: ContainerType, d: ContainerData, kind: AddKind, pos: uint32, pivot: Payload,
                     job: Job, other: seq<Span>)
    requires AddPlanFor(s, t, d, kind, pos, pivot) == Ok(job.plan) && Packed(job, s.config.maxRequestBytes)
    requires Covers(other, |job.plan.items|) && AllFit(job.plan, s.config.maxRequestBytes, other)
    ensures |job.parts| <= |other|
  {
    hide Sendable, Encoded, Covers, AllFit, Greedy, Carries, InRange;
    forall i | 0 <= i < |job.plan.items|
      ensures Carries(job.plan.items[i])
    {
      EncodedCarry(t, d, Env(s.key.clientId, None, s.config), i);
    }
    SplitIsOptimal(job.plan, s.config.maxRequestBytes, job.parts, other);
  }

  // ---- RemoveFromContainer (collections.go:331-382)

  function RemovedValue(s: Session): Payload -> Result<Item, Error> {
    ValueItem(Env(None, None, s.config))
  }

  /** Keys are compressed like the container's own key and have its client ID. */
  function RemovedKey(s: Session): Payload -> Result<Item, Error> {
    (p: Payload) =>
      match EncodeKey(p.data, p.hint, s.key.clientId, s.config, true)
      case Err(e) => Err(e)
      case Ok(k) => Ok(Item(Some(k), None, None, None))
  }

  function RemovePlanFor(s: Session, t: ContainerType, values: seq<Payload>, keys: seq<Payload>): Result<Plan, Error> {
    if t == Undefined then Err(Local(InvalidArgument))
    else
      match Traverse(RemovedValue(s), values)
      case Err(e) => Err(e)
      case Ok(vs) =>
        match Traverse(RemovedKey(s), keys)
        case Err(e) => Err(e)
        case Ok(ks) =>
          var p := RemovePlan(s.key, t, vs + ks);
          if Sendable(p, s.config.maxRequestBytes) then Ok(p) else Err(Local(ResourceExhausted))
  }

  predicate RemoveReport(s: Session, t: ContainerType, values: seq<Payload>, keys: seq<Payload>,
                         r: Outcome, log: seq<Call>, job: Option<Job>)
  {
    match job
    case None =>
      && log == [] && r.err.Some?
      && (Ended(s.mayEnd, r.err.value) || RemovePlanFor(s, t, values, keys) == Err(r.err.value))
    case Some(j) =>
      && RemovePlanFor(s, t, values, keys) == Ok(j.plan) && Packed(j, s.config.maxRequestBytes)
      && Sent(s, Wanted(j.plan, RemoveByKeyValue, Order(j)), log)
      && Accounts(Order(j), false, log, r) && Excused(s.mayEnd, r.err)
  }

  method RemoveFromContainer(net: Network, s: Session, t: ContainerType, values: seq<Payload>, keys: seq<Payload>)
    returns (r: Outcome, ghost log: seq<Call>, ghost job: Option<Job>)
    modifies net
    ensures net.calls == old(net.calls) + log
    ensures RemoveReport(s, t, values, keys, r, log, job)
  {
    hide Build, Traverse, Accounts, Sent, Greedy, Covers, AllFit, Sendable;
    var nothing := Outcome(0, true, None);
    log, job := [], None;
    if t == Undefined {
      return nothing.(err := Some(Local(InvalidArgument))), log, job;
    }
    var vs := EncodeEach(RemovedValue(s), values, s.mayEnd);
    if vs.Err? {
      return nothing.(err := Some(vs.error)), log, job;
    }
    var ks := EncodeEach(RemovedKey(s), keys, s.mayEnd);
    if ks.Err? {
      return nothing.(err := Some(ks.error)), log, job;
    }
    var plan := RemovePlan(s.key, t, vs.value + ks.value);
    var parts := SplitPlan(plan, s.config.maxRequestBytes, s.mayEnd);
    if parts.Err? {
      return nothing.(err := Some(parts.error)), log, job;
    }
    job := Some(Job(plan, parts.value));
    PackedJob(job.value, s.config.maxRequestBytes);
    r, log := SendAll(net, s, plan, RemoveByKeyValue, parts.value, false);
  }
}
