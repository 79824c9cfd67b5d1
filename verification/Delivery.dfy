/**
 A routed `add` from end to end (smart.go:373-460, collections.go:233-329): what both attempts together leave
 on the list that the nodes of a shard share.
 */
module Delivery {
  import opened Wrappers
  import opened Wire
  import opened Messages
  import opened Errors
  import opened Codec
  import opened Packing
  import opened Lists
  import opened Batches
  import opened Networks
  import opened Sending
  import opened Progress
  import opened Mutations
  import opened Operations
  import opened ServerLists
  import opened Creation
  import opened Reading
  import opened Contents
  import opened RoundTrips
  import opened Routing

  // ---- an add that never starts

  lemma {:induction false} LocalFailure<A, B>(f: A -> Result<B, Error>, xs: seq<A>)
    requires Traverse(f, xs).Err? && forall x :: f(x).Err? ==> f(x).error.Local?
    ensures Traverse(f, xs).error.Local?
  {
    if xs != [] {
      var front := xs[..|xs| - 1];
      if Traverse(f, front).Err? {
        LocalFailure(f, front);
      }
    }
  }

  /** An `add` of a list that is refused before anything is sent reports no progress. */
  lemma RefusedAdd(s: Session, t: ContainerType, d: ContainerData, kind: AddKind, pos: uint32, pivot: Payload)
    requires ListType(t) && AddPlanFor(s, t, d, kind, pos, pivot).Err?
    ensures AddPlanFor(s, t, d, kind, pos, pivot).error.Local?
  {
    hide Sendable, Traverse, Matches;
    var env := Env(s.key.clientId, None, s.config);
    if Traverse(ValueItem(env), d.values).Err? {
      LocalFailure(ValueItem(env), d.values);
    }
  }

  // ---- the calls of two attempts

  /** Calls that the server refused leave the list. */
  lemma {:induction false} ServedAfter(list: seq<Element>, before: seq<Call>, log: seq<Call>)
    requires forall i :: 0 <= i < |before| ==> !Accepted(before[i])
    ensures Served(list, before + log) == Served(list, log)
  {
    if log == [] {
      assert before + log == before && before[..0] == [];
      ServedPrefix(list, before, 0);
    } else {
      var front := log[..|log| - 1];
      ServedAfter(list, before, front);
      assert (before + log)[..|before + log| - 1] == before + front;
    }
  }

  lemma IgnoredAfter(before: seq<Call>, log: seq<Call>)
    requires forall i :: 0 <= i < |before| ==> !before[i].reply.Ack?
    ensures NoneIgnored(before + log) <==> NoneIgnored(log)
  {
    var all := before + log;
    assert forall i :: 0 <= i < |log| ==> log[i] == all[|before| + i];
    assert forall i :: 0 <= i < |before| ==> all[i] == before[i];
    assert forall i :: |before| <= i < |all| ==> all[i] == log[i - |before|];
  }

  /** The calls of a first attempt that is followed by a second were all refused, so the calls of the last
      attempt are all that the server has carried out. */
  lemma OnlyTheLastCounts(list: seq<Element>, trip: Trip, caller: Caller, op: Operation)
    requires TwoAtMost(trip, caller, op) && trip.visits != []
    ensures var last := trip.visits[|trip.visits| - 1];
            && Served(list, CallsOf(trip.visits)) == Served(list, last.log)
            && (NoneIgnored(CallsOf(trip.visits)) <==> NoneIgnored(last.log))
  {
    hide Performed, Served, NoneIgnored, RetryTarget;
    var first := trip.visits[0];
    if |trip.visits| == 1 {
      assert trip.visits == [first];
      OneLog(first);
    } else {
      var last := trip.visits[1];
      assert trip.visits == [first, last];
      TwoLogs(first, last);
      assert VisitOk(first, caller, op);
      ServedAfter(list, first.log, last.log);
      IgnoredAfter(first.log, last.log);
    }
  }

  lemma OneLog(v: Visit)
    ensures CallsOf([v]) == v.log
  {
    assert [v][..0] == [];
  }

  lemma TwoLogs(v: Visit, w: Visit)
    ensures CallsOf([v, w]) == v.log + w.log
  {
    assert [v, w][..1] == [v];
    OneLog(v);
  }

  // ---- the whole run

  /** One attempt: whatever its plan, if it has one. */
  lemma VisitIsOneInsertion(list: seq<Element>, s: Session, t: ContainerType, d: ContainerData, kind: AddKind,
                            pos: uint32, pivot: Payload, countOnly: bool, r: Outcome, log: seq<Call>, job: Option<Job>)
    requires ListKind(kind) && ListType(t) && AddReport(s, t, d, kind, pos, pivot, countOnly, r, log, job)
    requires Placeable(list, Meant(kind, pos, pivot.data))
    requires ForwardSafe(Meant(kind, pos, pivot.data), Payloads(d.values))
    ensures ReportedItems(r, |d.values|) <= |d.values|
    ensures (!countOnly && kind != AddKind.Position) || NoneIgnored(log) <==>
            Served(list, log) == Insert(list, Meant(kind, pos, pivot.data),
                                        DoneItems(kind == After, Payloads(d.values), ReportedItems(r, |d.values|)))
  {
    if job.Some? {
      hide *;
      AddIsOneInsertion(list, s, t, d, kind, pos, pivot, countOnly, job.value, log, r);
    } else {
      hide AddPlanFor, Insert, Placeable, ForwardSafe, Payloads;
      if AddPlanFor(s, t, d, kind, pos, pivot).Err? {
        RefusedAdd(s, t, d, kind, pos, pivot);
      }
      assert ReportedItems(r, |d.values|) == 0;
      NothingInserted(list, Meant(kind, pos, pivot.data), kind == After, Payloads(d.values));
    }
  }

  lemma NothingInserted(list: seq<Element>, ins: Insertion<Element>, reversed: bool, elements: seq<Element>)
    requires Placeable(list, ins)
    ensures Insert(list, ins, DoneItems(reversed, elements, 0)) == list
  {
    InsertNothing(list, ins);
    assert elements[|elements|..] == [] && elements[..0] == [];
  }

  /**
   After a whole run of an `add`, with one attempt or two, the list is the old one with one insertion of the
   payloads that the answer reports: nothing of a first attempt that failed is inserted beside it, and
   nothing twice. For the kinds that only add counts up: if and only if no acknowledgement counted nothing.
   */
  lemma RunIsOneInsertion(list: seq<Element>, trip: Trip, caller: Caller, t: ContainerType, d: ContainerData,
                          kind: AddKind, pos: uint32, pivot: Payload, countOnly: bool)
    requires TwoAtMost(trip, caller, AddOp(t, d, kind, pos, pivot, countOnly)) && trip.visits != []
    requires ListKind(kind) && ListType(t) && Placeable(list, Meant(kind, pos, pivot.data))
    requires ForwardSafe(Meant(kind, pos, pivot.data), Payloads(d.values))
    ensures var r, log := trip.visits[|trip.visits| - 1].answer.outcome, CallsOf(trip.visits);
            && ReportedItems(r, |d.values|) <= |d.values|
            && ((!countOnly && kind != AddKind.Position) || NoneIgnored(log) <==>
                Served(list, log) == Insert(list, Meant(kind, pos, pivot.data),
                                            DoneItems(kind == After, Payloads(d.values), ReportedItems(r, |d.values|))))
  {
    var op, last := AddOp(t, d, kind, pos, pivot, countOnly), trip.visits[|trip.visits| - 1];
    hide AddReport, Served, NoneIgnored, Insert, Placeable, ForwardSafe, Payloads, RetryTarget, DoneItems;
    OnlyTheLastCounts(list, trip, caller, op);
    assert VisitOk(last, caller, op);
    VisitIsOneInsertion(list, SessionAt(caller, last.endpoint), t, d, kind, pos, pivot, countOnly, last.answer.outcome,
                        last.log, last.how.job);
  }

  // ---- what the attempts of a run ask for

  /** Every call of every attempt of an `add` is the call for one chunk of the caller's data. */
  lemma RunAdds(trip: Trip, caller: Caller, t: ContainerType, d: ContainerData, kind: AddKind, pos: uint32,
                pivot: Payload, countOnly: bool, v: nat, i: nat)
    requires TwoAtMost(trip, caller, AddOp(t, d, kind, pos, pivot, countOnly)) && v < |trip.visits|
    requires i < |trip.visits[v].log| && Lawful(caller.config.compressor) && AllDescribable(d, caller.config)
    ensures trip.visits[v].how.job.Some?
    ensures var call, job := trip.visits[v].log[i], trip.visits[v].how.job.value;
            && i < |job.parts| && call.node == trip.visits[v].endpoint.connection.handle
            && BringBack(job.plan.items, job.parts, d, Env(caller.key.clientId, None, caller.config))
            && var part := Chunk(job.parts, kind == After, i);
               && part.start <= part.end <= |job.plan.items| && job.plan.AddPlan?
               && Adds(call.message, caller.key, t, kind, pos, job.plan.pivot, part.start,
                       ArraysOf(job.plan.items[part.start..part.end]))
  {
    hide AddReport, Adds, BringBack, RetryTarget, ArraysOf, Lawful, AllDescribable;
    var visit := trip.visits[v];
    var s := Session(visit.endpoint.connection.handle, caller.key, caller.ttl, caller.config, caller.mayEnd);
    assert VisitOk(visit, caller, AddOp(t, d, kind, pos, pivot, countOnly));
    AddJob(s, t, d, kind, pos, pivot, countOnly, visit.answer.outcome, visit.log, visit.how.job);
    AddCalls(s, t, d, kind, pos, pivot, countOnly, visit.answer.outcome, visit.log, visit.how.job.value, i);
    AddCarries(s, t, d, kind, pos, pivot, countOnly, visit.answer.outcome, visit.log, visit.how.job.value);
  }

  lemma AddJob(s: Session, t: ContainerType, d: ContainerData, kind: AddKind, pos: uint32, pivot: Payload,
               countOnly: bool, r: Outcome, log: seq<Call>, job: Option<Job>)
    requires AddReport(s, t, d, kind, pos, pivot, countOnly, r, log, job) && log != []
    ensures job.Some?
  {
  }

  /** Every call of a removal names the values and keys of one chunk of the caller's. */
  lemma RunRemoves(trip: Trip, caller: Caller, t: ContainerType, values: seq<Payload>, keys: seq<Payload>, v: nat,
                   i: nat)
    requires TwoAtMost(trip, caller, RemoveOp(t, values, keys)) && v < |trip.visits| && i < |trip.visits[v].log|
    requires Lawful(caller.config.compressor) && forall p :: p in keys ==> Describable(p.data, true, caller.config)
    ensures trip.visits[v].how.job.Some?
    ensures var handle := trip.visits[v].endpoint.connection.handle;
            var s := Session(handle, caller.key, caller.ttl, caller.config, caller.mayEnd);
            var call, job := trip.visits[v].log[i], trip.visits[v].how.job.value;
            && Covers(job.parts, |values| + |keys|) && i < |job.parts| && call.node == handle
            && Removes(call.message, s, t, values, keys, job.parts[i])
  {
    hide RemoveReport, Removes, RetryTarget, Covers, Lawful, Describable;
    var visit := trip.visits[v];
    var s := Session(visit.endpoint.connection.handle, caller.key, caller.ttl, caller.config, caller.mayEnd);
    assert VisitOk(visit, caller, RemoveOp(t, values, keys));
    RemoveJob(s, t, values, keys, visit.answer.outcome, visit.log, visit.how.job);
    RemoveCalls(s, t, values, keys, visit.answer.outcome, visit.log, visit.how.job.value, i);
  }

  lemma RemoveJob(s: Session, t: ContainerType, values: seq<Payload>, keys: seq<Payload>, r: Outcome, log: seq<Call>,
                  job: Option<Job>)
    requires RemoveReport(s, t, values, keys, r, log, job) && log != []
    ensures job.Some?
  {
  }

  /** The first call of a creation creates the container, and the others continue it. */
  lemma RunCreates(trip: Trip, caller: Caller, t: ContainerType, d: ContainerData, v: nat, k: nat)
    requires TwoAtMost(trip, caller, CreateOp(t, d)) && v < |trip.visits| && k < |trip.visits[v].log|
    requires Lawful(caller.config.compressor) && AllDescribable(d, caller.config)
    ensures trip.visits[v].how.job.Some? && (k > 0 ==> k < |trip.visits[v].how.job.value.parts|)
    ensures var call, job := trip.visits[v].log[k], trip.visits[v].how.job.value;
            var ttl := if t in {Map, OrderedMap, OrderedSet} then caller.ttl else None;
            var part := if job.parts == [] then Span(0, 0) else job.parts[k];
            && call.node == trip.visits[v].endpoint.connection.handle
            && BringBack(job.plan.items, job.parts, d, Env(caller.key.clientId, ttl, caller.config))
            && part.start <= part.end <= |job.plan.items|
            && var items := ArraysOf(job.plan.items[part.start..part.end]);
               if k == 0 then call.message == Message(CreateWhole, Create(caller.key, t, caller.ttl, items))
               else Continues(call.message, caller.key, trip.visits[v].answer.hint, t, items)
  {
    hide CreateReport, Continues, BringBack, RetryTarget, ArraysOf, Lawful, AllDescribable;
    var visit := trip.visits[v];
    var s := Session(visit.endpoint.connection.handle, caller.key, caller.ttl, caller.config, caller.mayEnd);
    assert VisitOk(visit, caller, CreateOp(t, d));
    var hint, err, first, rest := visit.answer.hint, visit.answer.outcome.err, FirstOf(visit.log), RestOf(visit.log);
    CreateJob(s, t, d, hint, err, first, rest, visit.how.job);
    var job := visit.how.job.value;
    CreateCarries(s, t, d, hint, err, first, rest, job);
    if k == 0 {
      CreateCall(s, t, d, hint, err, first, rest, job);
    } else {
      ContinuationCalls(s, t, d, hint, err, first, rest, job, k - 1);
    }
  }

  lemma CreateJob(s: Session, t: ContainerType, d: ContainerData, hint: Option<KeyHint>, err: Option<Error>,
                  first: Option<Call>, rest: seq<Call>, job: Option<Job>)
    requires CreateReport(s, t, d, hint, err, first, rest, job) && first.Some?
    ensures job.Some? && Covers(job.value.parts, |job.value.plan.items|)
    ensures job.value.parts != [] ==> job.value.parts[0].start == 0
  {
    hide CreatePlanFor, Created, AllFit, Greedy;
    if job.value.parts != [] {
      CoversAt(job.value.parts, |job.value.plan.items|, 0);
    }
  }

  /** The call of a read asks for what the caller asked for. */
  lemma RunReads(trip: Trip, caller: Caller, range: Option<Reading.Position>, v: nat)
    requires TwoAtMost(trip, caller, ReadOp(range)) && v < |trip.visits| && trip.visits[v].log != []
    ensures |trip.visits[v].log| == 1
    ensures trip.visits[v].log[0].node == trip.visits[v].endpoint.connection.handle
    ensures trip.visits[v].log[0].message ==
            match range
            case None => Message(ReadAll, Get(caller.key))
            case Some(Position(typ, start, end, reverse)) =>
              Message(ReadRange, Range(caller.key, typ, start, end, reverse))
  {
    hide ReadReport, RetryTarget, RequestSize;
    var visit := trip.visits[v];
    var s := Session(visit.endpoint.connection.handle, caller.key, caller.ttl, caller.config, caller.mayEnd);
    assert VisitOk(visit, caller, ReadOp(range));
    ReadCall(s, range, visit.answer.data, visit.answer.outcome.err, FirstOf(visit.log), visit.how.chunks);
  }
}
