/** What the accounting of a chunked operation means for the caller (client.go:63-76, 278-287). */
module Progress {
  import opened Wire
  import opened Errors
  import opened Packing
  import opened Lists
  import opened Networks
  import opened Sending

  /** An error that does not report progress means that the server acknowledged nothing. */
  lemma NotPartialNothingDone(order: seq<Span>, boolean: bool, log: seq<Call>, r: Outcome)
    requires Accounts(order, boolean, log, r) && r.err.Some? && !HasPartial(r.err.value)
    ensures forall i :: 0 <= i < |log| ==> log[i].reply.Refused?
  {
  }

  /** A request that is too large is never what stops a chunked operation. */
  lemma NoSizeFailure(order: seq<Span>, boolean: bool, log: seq<Call>, r: Outcome)
    requires Accounts(order, boolean, log, r) && r.err.Some?
    ensures Cause(r.err.value) != Local(ResourceExhausted)
  {
  }

  /** When the context can not end and the server accepts every request, all of them are sent. */
  lemma Completes(order: seq<Span>, boolean: bool, log: seq<Call>, r: Outcome)
    requires Accounts(order, boolean, log, r) && Excused(false, r.err)
    requires AllAcked(log) && (boolean ==> NoneRejected(log)) && Total(log) <= MAX_UINT32
    ensures r.err.None? && r.ok && |log| == |order| && r.count == Total(log)
  {
    if |log| == 1 {
      assert log[..0] == [];
    }
    CauseOnce(r.err);
  }

  lemma FailedCount(order: seq<Span>, boolean: bool, log: seq<Call>, r: Outcome, done: nat, cause: Error)
    requires Failed(order, boolean, log, r, done, cause)
    ensures !cause.Partial?
    ensures cause != Local(OutOfRange) ==> r.count == Total(log)
    ensures cause == Local(OutOfRange) ==> log != [] && r.count == Total(log[..|log| - 1]) && Total(log) > MAX_UINT32
  {
    if |log| == done {
      assert log[..done] == log;
    } else {
      assert |log| == done + 1;
      assert log[..|log| - 1] == log[..done];
    }
  }

  /** The returned count is the true sum of the acknowledged counts, unless that sum is what failed. */
  lemma CountIsTrue(order: seq<Span>, boolean: bool, log: seq<Call>, r: Outcome)
    requires Accounts(order, boolean, log, r)
    ensures r.err.None? || Cause(r.err.value) != Local(OutOfRange) ==> r.count == Total(log)
    ensures r.err.Some? && Cause(r.err.value) == Local(OutOfRange) ==>
              log != [] && r.count == Total(log[..|log| - 1]) && Total(log) > MAX_UINT32
  {
    hide Failed, Total;
    if r.err.Some? {
      var e := r.err.value;
      var cause := if e.Partial? then e.cause else e;
      FailedCount(order, boolean, log, r, Completed(r.err), cause);
      assert Cause(cause) == cause;
    }
  }

  lemma {:induction false} CoversPrefix(parts: seq<Span>, n: nat, k: nat)
    requires Covers(parts, n) && k <= |parts|
    ensures Boundary(parts, k) <= n && Covers(parts[..k], Boundary(parts, k))
  {
    if k == |parts| {
      assert parts[..k] == parts;
      CoversEnd(parts, n);
    } else {
      var front := parts[..|parts| - 1];
      CoversPrefix(front, parts[|parts| - 1].start, k);
      assert front[..k] == parts[..k];
    }
  }

  /** Adjacent spans have as many items as they reach. */
  lemma {:induction false} ItemsForward(parts: seq<Span>, n: nat, k: nat)
    requires Covers(parts, n) && k <= |parts|
    ensures Items(parts[..k]) == Boundary(parts, k)
  {
    if k > 0 {
      ItemsForward(parts, n, k - 1);
      OneMoreSpan(parts, k - 1);
      CoversAt(parts, n, k - 1);
    }
  }

  lemma {:induction false} ItemsBackward(parts: seq<Span>, n: nat, k: nat)
    requires Covers(parts, n) && k <= |parts|
    ensures Items(Reverse(parts)[..k]) == n - Boundary(parts, |parts| - k)
  {
    CoversEnd(parts, n);
    if k > 0 {
      hide Items, Covers;
      ItemsBackward(parts, n, k - 1);
      OneMoreSpan(Reverse(parts), k - 1);
      ReverseAt(parts, k - 1);
      CoversAt(parts, n, |parts| - k);
      if k > 1 {
        CoversAt(parts, n, |parts| - k + 1);
      }
    } else {
      assert Reverse(parts)[..0] == [];
    }
  }

  /**
   Partial progress is truthful: the completed chunks are the first ones in sending order and hold
   exactly `items` items, the first items of the input, or the last ones for insertion after a pivot.
   */
  lemma CompletedIsContiguous(reversed: bool, parts: seq<Span>, n: nat, boolean: bool, log: seq<Call>, r: Outcome)
    requires Covers(parts, n) && Accounts(SendOrder(reversed, parts), boolean, log, r)
    requires r.err.Some? && r.err.value.Partial?
    ensures var (chunks, items) := (r.err.value.chunks, r.err.value.items);
            && 0 < chunks <= |parts| && AllAcked(log[..chunks])
            && items == ItemsOf(reversed, parts, n, chunks)
  {
    var chunks := r.err.value.chunks;
    hide Items, Covers;
    if reversed {
      ItemsBackward(parts, n, chunks);
    } else {
      ItemsForward(parts, n, chunks);
    }
  }

  /** The items that a partial error reports as done. */
  function DoneItems<T>(reversed: bool, values: seq<T>, items: nat): seq<T>
    requires items <= |values|
  {
    if reversed then values[|values| - items..] else values[..items]
  }

  /**
   After a partial failure the completed chunks have left the list as one request with exactly the
   reported items would have: whatever the kind of insertion, and however the items were split.
   */
  lemma PartialIsOneRequest<T>(list: seq<T>, ins: Insertion<T>, values: seq<T>, parts: seq<Span>,
                               boolean: bool, log: seq<Call>, r: Outcome)
    requires Covers(parts, |values|) && Placeable(list, ins) && ForwardSafe(ins, values)
    requires Accounts(SendOrder(ins.AfterPivot?, parts), boolean, log, r) && r.err.Some? && r.err.value.Partial?
    ensures var (chunks, items) := (r.err.value.chunks, r.err.value.items);
            var order := SendOrder(ins.AfterPivot?, parts);
            && chunks <= |order| && items <= |values| && InRange(order[..chunks], |values|)
            && Chunked(list, ins, values, order[..chunks]) ==
                Insert(list, ins, DoneItems(ins.AfterPivot?, values, items))
  {
    CompletedIsContiguous(ins.AfterPivot?, parts, |values|, boolean, log, r);
    hide Accounts, Covers, Insert, Chunked, Placeable;
    ChunksAreOneRequest(list, ins, values, parts, r.err.value.chunks, r.err.value.items);
  }

  /** The number of items of the first `k` chunks in sending order. */
  function ItemsOf(reversed: bool, parts: seq<Span>, n: nat, k: nat): int
    requires k <= |parts|
  {
    if reversed then n - Boundary(parts, |parts| - k) else Boundary(parts, k)
  }

  lemma ChunksAreOneRequest<T>(list: seq<T>, ins: Insertion<T>, values: seq<T>, parts: seq<Span>, k: nat, items: nat)
    requires Covers(parts, |values|) && Placeable(list, ins) && ForwardSafe(ins, values)
    requires k <= |parts| && items == ItemsOf(ins.AfterPivot?, parts, |values|, k)
    ensures var order := SendOrder(ins.AfterPivot?, parts);
            && items <= |values| && InRange(order[..k], |values|)
            && Chunked(list, ins, values, order[..k]) == Insert(list, ins, DoneItems(ins.AfterPivot?, values, items))
  {
    hide Covers, Insert, Chunked, InRange, ForwardSafe;
    if ins.AfterPivot? {
      SuffixIsOneRequest(list, ins.pivot, values, parts, k);
    } else {
      hide Placeable;
      PrefixIsOneRequest(list, ins, values, parts, k);
    }
  }

  lemma FirstInRange(order: seq<Span>, n: nat, k: nat)
    requires InRange(order, n) && k <= |order|
    ensures InRange(order[..k], n)
  {
    assert forall i :: 0 <= i < k ==> order[..k][i] == order[i];
  }

  lemma PrefixIsOneRequest<T>(list: seq<T>, ins: Insertion<T>, values: seq<T>, parts: seq<Span>, k: nat)
    requires Covers(parts, |values|) && Placeable(list, ins) && ForwardSafe(ins, values) && !ins.AfterPivot?
    requires k <= |parts|
    ensures Boundary(parts, k) <= |values| && InRange(parts[..k], |values|)
    ensures Chunked(list, ins, values, parts[..k]) == Insert(list, ins, values[..Boundary(parts, k)])
  {
    CoversInRange(parts, |values|);
    CoversPrefix(parts, |values|, k);
    hide Covers, Insert, Chunked, ForwardSafe;
    FirstInRange(parts, |values|, k);
    hide Boundary, Reverse, InRange;
    ForwardChunks(list, ins, values, parts[..k], Boundary(parts, k));
  }

  lemma SuffixIsOneRequest<T>(list: seq<T>, pivot: T, values: seq<T>, parts: seq<Span>, k: nat)
    requires Covers(parts, |values|) && pivot in list && k <= |parts|
    ensures Boundary(parts, |parts| - k) <= |values| && InRange(Reverse(parts)[..k], |values|)
    ensures Chunked(list, AfterPivot(pivot), values, Reverse(parts)[..k]) ==
            Insert(list, AfterPivot(pivot), values[Boundary(parts, |parts| - k)..])
  {
    CoversInRange(parts, |values|);
    CoversPrefix(parts, |values|, |parts| - k);
    hide Covers, Insert, Chunked;
    FirstInRange(Reverse(parts), |values|, k);
    hide Boundary, Reverse, InRange;
    BackwardChunks(list, pivot, values, parts, |values|, k);
  }
}
