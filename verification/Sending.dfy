/**
 Sending the chunks of an operation in order and accounting for what was acknowledged
 (collections.go:280-327, 366-380).
 */
module Sending {
  import opened Wrappers
  import opened Wire
  import opened Messages
  import opened Errors
  import opened Packing
  import opened Lists
  import opened Networks

  /** The messages for the spans of `order`. */
  function Wanted(p: Plan, rpc: Rpc, order: seq<Span>): seq<Message>
    requires InRange(order, |p.items|)
  {
    seq(|order|, i requires 0 <= i < |order| => Message(rpc, Build(p, order[i].start, order[i].end)))
  }

  /** The calls of `log` send a prefix of the wanted messages, in order, to one node, each within the limit. */
  predicate Sent(s: Session, wanted: seq<Message>, log: seq<Call>) {
    && |log| <= |wanted|
    && forall i :: 0 <= i < |log| ==>
         && log[i].node == s.node && log[i].message == wanted[i]
         && RequestSize(log[i].message.request) <= s.config.maxRequestBytes
  }

  predicate AllAcked(log: seq<Call>) {
    forall i :: 0 <= i < |log| ==> log[i].reply.Ack?
  }

  predicate NoneRejected(log: seq<Call>) {
    forall i :: 0 <= i < |log| ==> log[i].reply.Ack? && log[i].reply.size > 0
  }

  /** The sum of the acknowledged sizes. */
  function Total(log: seq<Call>): nat {
    if log == [] then 0
    else Total(log[..|log| - 1]) + if log[|log| - 1].reply.Ack? then log[|log| - 1].reply.size else 0
  }

  /** The number of items in these spans. */
  function Items(order: seq<Span>): int {
    if order == [] then 0 else Items(order[..|order| - 1]) + order[|order| - 1].end - order[|order| - 1].start
  }

  /** After `done` acknowledged calls the context ended, or the server refused the next call. */
  predicate Stopped(log: seq<Call>, done: nat, cause: Error) {
    || (|log| == done && ContextError(cause))
    || (|log| == done + 1 && cause.Rpc? && log[done].reply == Refused(cause.status, cause.routes))
  }

  /** After `done` acknowledged calls one more was acknowledged with the count 0. */
  predicate Rejected(log: seq<Call>, done: nat, cause: Error) {
    |log| == done + 1 && log[done].reply.Ack? && log[done].reply.size == 0 && cause == Local(Aborted)
  }

  /** `log` is the calls made; `boolean` says that a zero count means that the chunk was rejected. */
  datatype Outcome = Outcome(count: uint32, ok: bool, err: Option<Error>)

  /** The calls completed before the error: those a partial error reports. */
  function Completed(err: Option<Error>): nat {
    if err.Some? && err.value.Partial? then err.value.chunks else 0
  }

  /** Success: all chunks were sent and acknowledged, and the count is the true sum; or the first chunk
      was rejected, which is no error. */
  predicate Succeeded(order: seq<Span>, boolean: bool, log: seq<Call>, r: Outcome) {
    && AllAcked(log) && r.count == Total(log)
    && if r.ok then |log| == |order| && (boolean ==> NoneRejected(log)) else boolean && |log| == 1 && r.count == 0
  }

  /** Failure after exactly `done` completed chunks. */
  predicate Failed(order: seq<Span>, boolean: bool, log: seq<Call>, r: Outcome, done: nat, cause: Error) {
    && done <= |log| && done <= |order| && AllAcked(log[..done]) && (boolean ==> NoneRejected(log[..done]))
    && (|| (Stopped(log, done, cause) && r.ok && r.count == Total(log[..done]))
        || (Rejected(log, done, cause) && boolean && done > 0 && !r.ok && r.count == Total(log))
        || (Overflowed(log, done, cause) && r.ok && r.count == Total(log[..done - 1])))
  }

  /** The sum of the counts exceeds 32 bits for the first time. */
  predicate Overflowed(log: seq<Call>, done: nat, cause: Error) {
    && 0 < done == |log| && cause == Local(OutOfRange)
    && Total(log[..done - 1]) <= MAX_UINT32 < Total(log)
  }

  predicate Accounts(order: seq<Span>, boolean: bool, log: seq<Call>, r: Outcome) {
    if r.err.None? then Succeeded(order, boolean, log, r)
    else
      var done := Completed(r.err);
      && (r.err.value.Partial? ==> 0 < done <= |order| && r.err.value.items == Items(order[..done]))
      && Failed(order, boolean, log, r, done, if r.err.value.Partial? then r.err.value.cause else r.err.value)
  }

  lemma OneMoreCall(log: seq<Call>, c: Call)
    requires AllAcked(log) && c.reply.Ack?
    ensures AllAcked(log + [c]) && Total(log + [c]) == Total(log) + c.reply.size
    ensures NoneRejected(log) && c.reply.size > 0 ==> NoneRejected(log + [c])
  {
    assert (log + [c])[..|log|] == log;
  }

  lemma OneMoreSpan(order: seq<Span>, k: nat)
    requires k < |order|
    ensures Items(order[..k + 1]) == Items(order[..k]) + order[k].end - order[k].start
  {
    assert order[..k + 1][..k] == order[..k];
  }

  /** What holds before each call. */
  predicate SoFar(order: seq<Span>, boolean: bool, log: seq<Call>, r: Outcome, done: int) {
    && |log| <= |order| && done == Items(order[..|log|]) >= 0
    && AllAcked(log) && (boolean ==> NoneRejected(log))
    && r.count == Total(log) && r.ok && r.err.None?
  }

  lemma StoppedAccounts(order: seq<Span>, boolean: bool, log: seq<Call>, more: seq<Call>, r: Outcome, done: nat,
                        e: Error)
    requires SoFar(order, boolean, log, r, done) && !e.Partial?
    requires if more == [] then ContextError(e)
             else |more| == 1 && e.Rpc? && more[0].reply == Refused(e.status, e.routes)
    ensures Accounts(order, boolean, log + more, r.(err := Some(MakePartial(|log|, done, e))))
  {
    assert (log + more)[..|log|] == log;
  }

  lemma OverflowAccounts(order: seq<Span>, boolean: bool, log: seq<Call>, c: Call, r: Outcome, done: nat)
    requires SoFar(order, boolean, log, r, done) && |log| < |order|
    requires c.reply.Ack? && r.count + c.reply.size > MAX_UINT32
    requires done + order[|log|].end - order[|log|].start >= 0
    ensures Accounts(order, boolean, log + [c],
                     r.(err := Some(MakePartial(|log| + 1, done + order[|log|].end - order[|log|].start,
                                                Local(OutOfRange)))))
  {
    OneMoreSpan(order, |log|);
    OneMoreCall(log, c);
    assert (log + [c])[..|log| + 1] == log + [c] && (log + [c])[..|log|] == log;
  }

  lemma RejectedAccounts(order: seq<Span>, log: seq<Call>, c: Call, r: Outcome, done: nat)
    requires SoFar(order, true, log, r, done) && |log| < |order| && c.reply.Ack? && c.reply.size == 0
    ensures Accounts(order, true, log + [c],
                     r.(ok := false, err := if log == [] then None else Some(MakePartial(|log|, done, Local(Aborted)))))
  {
    OneMoreCall(log, c);
    assert (log + [c])[..|log|] == log;
  }

  lemma NextSoFar(order: seq<Span>, boolean: bool, log: seq<Call>, c: Call, r: Outcome, done: nat)
    requires SoFar(order, boolean, log, r, done) && |log| < |order| && order[|log|].start <= order[|log|].end
    requires c.reply.Ack? && r.count + c.reply.size <= MAX_UINT32 && (boolean ==> c.reply.size > 0)
    ensures SoFar(order, boolean, log + [c], r.(count := r.count + c.reply.size),
                  done + order[|log|].end - order[|log|].start)
  {
    OneMoreSpan(order, |log|);
    OneMoreCall(log, c);
  }

  lemma NothingSoFar(order: seq<Span>, boolean: bool)
    ensures SoFar(order, boolean, [], Outcome(0, true, None), 0)
  {
  }

  lemma AllAccounts(order: seq<Span>, boolean: bool, log: seq<Call>, r: Outcome, done: int)
    requires SoFar(order, boolean, log, r, done) && |log| == |order|
    ensures Accounts(order, boolean, log, r)
  {
  }

  /** The loop of `add` and of `RemoveFromContainer`. */
  method SendAll(net: Network, s: Session, p: Plan, rpc: Rpc, order: seq<Span>, boolean: bool)
    returns (r: Outcome, ghost log: seq<Call>)
    requires InRange(order, |p.items|)
    requires forall k :: 0 <= k < |order| ==> Fits(p, s.config.maxRequestBytes, order[k].start, order[k].end)
    modifies net
    ensures net.calls == old(net.calls) + log
    ensures Sent(s, Wanted(p, rpc, order), log) && Accounts(order, boolean, log, r) && Excused(s.mayEnd, r.err)
  {
    hide Build, RequestSize, SoFar, Accounts, Total, Items, Excused, Cause;
    ExcusedSuccess(s.mayEnd);
    var done, chunks: nat := 0, 0;
    r, log := Outcome(0, true, None), [];
    NothingSoFar(order, boolean);
    while chunks < |order|
      invariant chunks <= |order| && |log| == chunks && net.calls == old(net.calls) + log
      invariant Sent(s, Wanted(p, rpc, order), log) && r.err.None?
      invariant SoFar(order, boolean, log, r, done)
      invariant done >= 0
    {
      var part := order[chunks];
      var m := Message(rpc, Build(p, part.start, part.end));
      assert Fits(p, s.config.maxRequestBytes, part.start, part.end);
      var reply := net.Unary(s, m);
      if reply.Err? {
        ghost var more :=
          if reply.error.Rpc? then [Call(s.node, m, Refused(reply.error.status, reply.error.routes))] else [];
        StoppedAccounts(order, boolean, log, more, r, done, reply.error);
        ExcusedPartial(s.mayEnd, chunks, done, reply.error);
        r, log := r.(err := Some(MakePartial(chunks, done, reply.error))), log + more;
        return;
      }
      var size := reply.value.size;
      ghost var c := Call(s.node, m, reply.value);
      ghost var before := log;
      log := log + [c];
      if r.count + size > MAX_UINT32 {
        OverflowAccounts(order, boolean, before, c, r, done);
        ExcusedPartial(s.mayEnd, chunks + 1, done + part.end - part.start, Local(OutOfRange));
        r := r.(err := Some(MakePartial(chunks + 1, done + part.end - part.start, Local(OutOfRange))));
        return;
      }
      if boolean && size == 0 {
        RejectedAccounts(order, before, c, r, done);
        ExcusedPartial(s.mayEnd, chunks, done, Local(Aborted));
        r := r.(ok := false, err := if chunks > 0 then Some(MakePartial(chunks, done, Local(Aborted))) else None);
        return;
      }
      NextSoFar(order, boolean, before, c, r, done);
      r := r.(count := r.count + size);
      done, chunks := done + part.end - part.start, chunks + 1;
    }
    AllAccounts(order, boolean, log, r, done);
  }
}
