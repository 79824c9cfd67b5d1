/**
 Before-insertion and the request limit (collections.go:129-156, 249-298): the splits that some limit
 makes `split` produce are enough to decide when chunked before-insertion is one insertion.
 */
module Limits {
  import opened Wrappers
  import opened Sequences
  import opened Wire
  import opened Messages
  import opened Codec
  import opened Packing
  import opened Lists
  import opened Batches
  import opened Networks
  import opened Sending
  import opened Mutations
  import opened RoundTrips
  import opened ServerLists

  // ---- greedy spans exist

  /** The longest span from `start` whose request fits. */
  lemma LongestFrom(p: Plan, limit: nat, start: nat) returns (end: nat)
    requires start < |p.items| && FitsAlone(p, limit, start)
    ensures start < end <= |p.items| && Fits(p, limit, start, end)
    ensures forall e :: end < e <= |p.items| ==> !Fits(p, limit, start, e)
  {
    hide Fits;
    end := |p.items|;
    while !Fits(p, limit, start, end)
      invariant start < end <= |p.items|
      invariant forall e :: end < e <= |p.items| ==> !Fits(p, limit, start, e)
      decreases end
    {
      end := end - 1;
    }
  }

  /** What `split` returns for a limit that every item meets. */
  lemma GreedySpans(p: Plan, limit: nat) returns (parts: seq<Span>)
    requires Sendable(p, limit)
    ensures Covers(parts, |p.items|) && AllFit(p, limit, parts) && Greedy(p, limit, parts)
  {
    parts := [];
    var start := 0;
    NoSpans(p, limit);
    hide Fits, Covers, AllFit, Greedy;
    while start < |p.items|
      invariant start <= |p.items| && Covers(parts, start)
      invariant AllFit(p, limit, parts) && Greedy(p, limit, parts)
    {
      assert FitsAlone(p, limit, start);
      var end := LongestFrom(p, limit, start);
      OneMore(p, limit, parts, Span(start, end));
      parts, start := parts + [Span(start, end)], end;
    }
  }

  // ---- request sizes of a before-insertion

  function SizeOf(p: Plan, i: nat, j: nat): nat
    requires i <= j <= |p.items|
  {
    RequestSize(Build(p, i, j))
  }

  function SingleSize(p: Plan, i: nat): nat
    requires i < |p.items|
  {
    SizeOf(p, i, i + 1)
  }

  lemma FitsBySize(p: Plan, limit: nat, i: nat, j: nat)
    requires i <= j <= |p.items|
    ensures Fits(p, limit, i, j) <==> SizeOf(p, i, j) <= limit
  {
  }

  /** Every item is a value. */
  predicate AllValues(p: Plan) {
    Relative(p) && forall i :: 0 <= i < |p.items| ==> p.items[i].value.Some?
  }

  /** The requests have no position, so they share a header. */
  lemma SameHeader(p: Plan, i: nat, k: nat)
    requires Relative(p)
    ensures Header(p, i) == Header(p, k)
  {
  }

  lemma SizeIs(p: Plan, i: nat, j: nat)
    requires Relative(p) && i <= j <= |p.items|
    ensures SizeOf(p, i, j) == Size(Header(p, 0)) + Size(Body(p, p.items[i..j]))
  {
    hide Size, Body, Header, RequestSize, Build;
    SizeOfBuild(p, i, j);
    SameHeader(p, i, 0);
  }

  /** The size of a request is a header and what the items add. */
  lemma SizeSplits(p: Plan, i: nat, k: nat, j: nat)
    requires AllValues(p) && i <= k <= j <= |p.items|
    ensures SizeOf(p, i, j) == SizeOf(p, i, k) + Size(Body(p, p.items[k..j]))
    ensures SizeOf(p, i, j) == SizeOf(p, k, j) + Size(Body(p, p.items[i..k]))
  {
    hide Size, Body, Header, SizeOf;
    SizeIs(p, i, j);
    SizeIs(p, i, k);
    SizeIs(p, k, j);
    assert p.items[i..j] == p.items[i..k] + p.items[k..j];
    BodyConcat(p, p.items[i..k], p.items[k..j]);
  }

  /** More items make a strictly larger request. */
  lemma SizeGrows(p: Plan, i: nat, k: nat, j: nat)
    requires AllValues(p) && i <= k < j <= |p.items|
    ensures SizeOf(p, i, k) < SizeOf(p, i, j)
  {
    hide Size, Body, SizeOf;
    SizeSplits(p, i, k, j);
    assert p.items[k..j] == [p.items[k]] + p.items[k + 1..j];
    BodyConcat(p, [p.items[k]], p.items[k + 1..j]);
    ItemAddsTwo(p, p.items[k]);
  }

  lemma SizeGrowsLeft(p: Plan, i: nat, k: nat, j: nat)
    requires AllValues(p) && i < k <= j <= |p.items|
    ensures SizeOf(p, k, j) < SizeOf(p, i, j)
  {
    hide Size, Body, SizeOf;
    SizeSplits(p, i, k, j);
    assert p.items[i..k] == [p.items[i]] + p.items[i + 1..k];
    BodyConcat(p, [p.items[i]], p.items[i + 1..k]);
    ItemAddsTwo(p, p.items[i]);
  }

  /** A part of a request is no larger than the whole. */
  lemma SizeOfPart(p: Plan, i: nat, k: nat, l: nat, j: nat)
    requires AllValues(p) && i <= k <= l <= j <= |p.items|
    ensures SizeOf(p, k, l) <= SizeOf(p, i, j)
  {
    hide Size, Body, SizeOf;
    SizeSplits(p, i, k, j);
    SizeSplits(p, k, l, j);
  }

  /** An item whose request is the largest. */
  lemma {:induction false} Largest(p: Plan, n: nat) returns (h: nat)
    requires 0 < n <= |p.items|
    ensures h < n && forall i :: 0 <= i < n ==> SingleSize(p, i) <= SingleSize(p, h)
  {
    hide SingleSize;
    if n == 1 {
      h := 0;
    } else {
      h := Largest(p, n - 1);
      if SingleSize(p, h) < SingleSize(p, n - 1) {
        h := n - 1;
      }
    }
  }

  // ---- what chunks do to the list around the pivot

  /** The first pivot is not among the first `q` elements. */
  predicate Guarded<T(==)>(list: seq<T>, q: nat, pivot: T) {
    q < |list| && pivot in list && forall x :: 0 <= x < q ==> list[x] != pivot
  }

  lemma InsertGuarded<T>(list: seq<T>, q: nat, pivot: T, ys: seq<T>)
    requires Guarded(list, q, pivot) && ys != []
    ensures var after := Insert(list, BeforePivot(pivot), ys);
            Guarded(after, q, pivot) && after[q] == if list[q] == pivot then ys[0] else list[q]
  {
    var i := First(list, pivot);
    var after := Splice(list, i, ys);
    assert i >= q;
    assert after[i + |ys|] == list[i] == pivot;
    forall x | 0 <= x < q
      ensures after[x] != pivot
    {
      assert after[x] == list[x];
    }
  }

  /** Some chunk after the first inserted pivot, which is element `f`, starts with another element. */
  predicate StartsOther<T(==)>(elements: seq<T>, pivot: T, parts: seq<Span>, f: nat) {
    parts != [] &&
    (|| StartsOther(elements, pivot, parts[..|parts| - 1], f)
     || (f < parts[|parts| - 1].start < |elements| && elements[parts[|parts| - 1].start] != pivot))
  }

  lemma {:induction false} StartsOtherAt<T>(elements: seq<T>, pivot: T, parts: seq<Span>, f: nat, r: nat)
    requires r < |parts| && f < parts[r].start < |elements| && elements[parts[r].start] != pivot
    ensures StartsOther(elements, pivot, parts, f)
  {
    if r < |parts| - 1 {
      StartsOtherAt(elements, pivot, parts[..|parts| - 1], f, r);
    }
  }

  /** Up to the first inserted pivot, chunks are one insertion; from then on that place is guarded, and the
      first chunk that starts with another element takes it for good. */
  predicate Around<T(==)>(after: seq<T>, a: seq<T>, b: seq<T>, pivot: T, elements: seq<T>, n: nat, f: nat,
                     displaced: bool)
    requires n <= |elements|
  {
    && (n <= f ==> after == a + elements[..n] + b)
    && (n > f ==> Guarded(after, |a| + f, pivot))
    && (displaced ==> n > f && after[|a| + f] != pivot)
  }

  lemma {:induction false} AroundPivot<T>(a: seq<T>, b: seq<T>, pivot: T, elements: seq<T>, parts: seq<Span>, n: nat,
                                          f: nat)
    requires pivot !in a && b != [] && b[0] == pivot
    requires f < |elements| && elements[f] == pivot && pivot !in elements[..f]
    requires Covers(parts, n) && n <= |elements| && InRange(parts, |elements|)
    ensures Around(Chunked(a + b, BeforePivot(pivot), elements, parts), a, b, pivot, elements, n, f,
                   StartsOther(elements, pivot, parts, f))
  {
    if parts == [] {
      assert a + elements[..0] + b == a + b;
    } else {
      var front, last := parts[..|parts| - 1], parts[|parts| - 1];
      assert InRange(front, |elements|) by {
        assert forall x :: 0 <= x < |front| ==> front[x] == parts[x];
      }
      hide Chunked, InRange, Insert;
      AroundPivot(a, b, pivot, elements, front, last.start, f);
      var before := Chunked(a + b, BeforePivot(pivot), elements, front);
      AroundStep(before, a, b, pivot, elements, last.start, n, f, StartsOther(elements, pivot, front, f));
      OneChunkMore(a + b, pivot, elements, parts);
    }
  }

  lemma AroundStep<T>(before: seq<T>, a: seq<T>, b: seq<T>, pivot: T, elements: seq<T>, i: nat, j: nat, f: nat,
                      displaced: bool)
    requires pivot !in a && b != [] && b[0] == pivot
    requires f < |elements| && elements[f] == pivot && pivot !in elements[..f] && i < j <= |elements|
    requires Around(before, a, b, pivot, elements, i, f, displaced)
    ensures pivot in before
    ensures Around(Insert(before, BeforePivot(pivot), elements[i..j]), a, b, pivot, elements, j, f,
                   displaced || (f < i && elements[i] != pivot))
  {
    hide Insert, First;
    if i <= f {
      PlainChunk(a, b, pivot, elements, i, j, f);
    } else {
      InsertGuarded(before, |a| + f, pivot, elements[i..j]);
    }
  }

  /** The last chunk of a before-insertion, whose pivot is still there. */
  lemma OneChunkMore<T>(list: seq<T>, pivot: T, elements: seq<T>, parts: seq<Span>)
    requires InRange(parts, |elements|) && parts != [] && InRange(parts[..|parts| - 1], |elements|)
    requires pivot in Chunked(list, BeforePivot(pivot), elements, parts[..|parts| - 1])
    ensures var last := parts[|parts| - 1];
            Chunked(list, BeforePivot(pivot), elements, parts) ==
            Insert(Chunked(list, BeforePivot(pivot), elements, parts[..|parts| - 1]), BeforePivot(pivot),
                   elements[last.start..last.end])
  {
    hide Insert;
  }

  /** A chunk before which no pivot was inserted. */
  lemma PlainChunk<T>(a: seq<T>, b: seq<T>, pivot: T, elements: seq<T>, i: nat, j: nat, f: nat)
    requires pivot !in a && b != [] && b[0] == pivot
    requires f < |elements| && elements[f] == pivot && pivot !in elements[..f] && i <= f && i <= j <= |elements|
    ensures pivot in a + elements[..i] + b
    ensures var after := Insert(a + elements[..i] + b, BeforePivot(pivot), elements[i..j]);
            && after == a + elements[..j] + b
            && (j > f ==> Guarded(after, |a| + f, pivot))
  {
    assert pivot !in elements[..i] by {
      assert forall x :: 0 <= x < i ==> elements[..i][x] == elements[..f][x];
    }
    assert pivot !in a + elements[..i];
    BeforeIs(a + elements[..i], b, pivot, elements[i..j]);
    hide Insert;
    var after := a + elements[..j] + b;
    assert elements[..i] + elements[i..j] == elements[..j];
    SeqAssoc(a, elements[..i], elements[i..j]);
    if j > f {
      GuardedPrefix(a, elements, j, b, pivot, f);
    }
  }

  lemma GuardedPrefix<T>(a: seq<T>, elements: seq<T>, j: nat, b: seq<T>, pivot: T, f: nat)
    requires pivot !in a && f < j <= |elements| && elements[f] == pivot && pivot !in elements[..f]
    ensures Guarded(a + elements[..j] + b, |a| + f, pivot)
  {
    var after := a + elements[..j] + b;
    assert after[|a| + f] == pivot;
    forall x | 0 <= x < |a| + f
      ensures after[x] != pivot
    {
      if x < |a| {
        assert after[x] == a[x];
      } else {
        assert after[x] == elements[..f][x - |a|];
      }
    }
  }

  /** If a chunk after the first inserted pivot starts with another element, the list is not that of one
      request. */
  lemma StartsOtherDiffers<T>(list: seq<T>, pivot: T, elements: seq<T>, parts: seq<Span>)
    requires pivot in list && pivot in elements && Covers(parts, |elements|) && InRange(parts, |elements|)
    requires StartsOther(elements, pivot, parts, First(elements, pivot))
    ensures Chunked(list, BeforePivot(pivot), elements, parts) != Insert(list, BeforePivot(pivot), elements)
  {
    var f := First(elements, pivot);
    var a, b := CutAtFirst(list, pivot);
    hide Chunked, Insert, First, InRange, Covers, StartsOther;
    AroundPivot(a, b, pivot, elements, parts, |elements|, f);
    BeforeIs(a, b, pivot, elements);
    assert (a + elements + b)[|a| + f] == pivot;
  }

  /** The first pivot is at `i`, and there are only pivots from there to `j`. */
  predicate PivotRun<T(==)>(list: seq<T>, i: nat, j: nat, pivot: T) {
    i < j <= |list| && pivot !in list[..i] && forall x :: i <= x < j ==> list[x] == pivot
  }

  lemma InsertIntoRun<T>(list: seq<T>, i: nat, j: nat, pivot: T, ys: seq<T>)
    requires PivotRun(list, i, j, pivot) && forall x :: 0 <= x < |ys| ==> ys[x] == pivot
    ensures pivot in list && PivotRun(Insert(list, BeforePivot(pivot), ys), i, j + |ys|, pivot)
  {
    var a, b := list[..i], list[i..];
    assert list == a + b && b[0] == list[i];
    BeforeIs(a, b, pivot, ys);
    hide Insert;
    var after := a + ys + b;
    assert after[..i] == a;
    forall x | i <= x < j + |ys|
      ensures after[x] == pivot
    {
      if x < i + |ys| {
        assert after[x] == ys[x - i];
      } else {
        assert after[x] == list[x - |ys|];
      }
    }
  }

  lemma RunBehind<T>(a: seq<T>, elements: seq<T>, q: nat, b: seq<T>, pivot: T, f: nat, m: nat)
    requires pivot !in a && f < m <= q <= |elements| && pivot !in elements[..f]
    requires forall x :: f <= x < m ==> elements[x] == pivot
    ensures PivotRun(a + elements[..q] + b, |a| + f, |a| + m, pivot)
  {
    var after := a + elements[..q] + b;
    assert after[..|a| + f] == a + elements[..f];
    forall x | |a| + f <= x < |a| + m
      ensures after[x] == pivot
    {
      assert after[x] == elements[x - |a|];
    }
  }

  /** If only pivots come after the first chunk, they all join the run of the first inserted pivot. */
  lemma {:induction false} RunGrows<T>(a: seq<T>, b: seq<T>, pivot: T, elements: seq<T>, parts: seq<Span>, n: nat,
                                       q: nat, f: nat, m: nat)
    requires pivot !in a && b != [] && b[0] == pivot
    requires f < m <= q <= n <= |elements| && pivot !in elements[..f]
    requires forall x :: f <= x < m || q <= x < n ==> elements[x] == pivot
    requires Covers(parts, n) && InRange(parts, |elements|) && parts != [] && parts[0] == Span(0, q)
    ensures PivotRun(Chunked(a + b, BeforePivot(pivot), elements, parts), |a| + f, |a| + m + (n - q), pivot)
  {
    var front, last := parts[..|parts| - 1], parts[|parts| - 1];
    assert InRange(front, |elements|) by {
      assert forall x :: 0 <= x < |front| ==> front[x] == parts[x];
    }
    NoChunk(a + b, BeforePivot(pivot), elements);
    CoversAt(parts, n, |parts| - 1);
    hide Chunked, InRange, Insert, PivotRun;
    if front == [] {
      RunBehind(a, elements, q, b, pivot, f, m);
      BeforeIs(a, b, pivot, elements[0..q]);
      OneChunkMore(a + b, pivot, elements, parts);
    } else {
      RestStarts(parts, n, |parts| - 1);
      RunGrows(a, b, pivot, elements, front, last.start, q, f, m);
      var before := Chunked(a + b, BeforePivot(pivot), elements, front);
      InsertIntoRun(before, |a| + f, |a| + m + (last.start - q), pivot, elements[last.start..last.end]);
      OneChunkMore(a + b, pivot, elements, parts);
    }
  }

  lemma NoChunk<T>(list: seq<T>, ins: Insertion<T>, elements: seq<T>)
    ensures InRange([], |elements|) && Chunked(list, ins, elements, []) == list
  {
  }

  lemma {:induction false} RestStarts(parts: seq<Span>, n: nat, k: nat)
    requires Covers(parts, n) && 0 < k < |parts|
    ensures parts[0].end <= parts[k].start
  {
    CoversAt(parts, n, k);
    CoversAt(parts, n, k - 1);
    if k > 1 {
      RestStarts(parts, n, k - 1);
    }
  }

  /** Then the list is not that of one request, which has another element where the run now is. */
  lemma RunDiffers<T>(list: seq<T>, pivot: T, elements: seq<T>, parts: seq<Span>, q: nat, m: nat)
    requires pivot in list && pivot in elements && Covers(parts, |elements|) && InRange(parts, |elements|)
    requires First(elements, pivot) < m < q < |elements| && elements[m] != pivot && parts[0] == Span(0, q)
    requires forall x :: First(elements, pivot) <= x < m || q <= x < |elements| ==> elements[x] == pivot
    ensures Chunked(list, BeforePivot(pivot), elements, parts) != Insert(list, BeforePivot(pivot), elements)
  {
    var f := First(elements, pivot);
    var a, b := CutAtFirst(list, pivot);
    hide Chunked, Insert, First, InRange, Covers;
    RunGrows(a, b, pivot, elements, parts, |elements|, q, f, m);
    BeforeIs(a, b, pivot, elements);
    assert (a + elements + b)[|a| + m] == elements[m];
  }

  // ---- the limit that shows it

  /** `split` succeeds with this limit and returns these spans. */
  predicate SplitBy(p: Plan, limit: nat, parts: seq<Span>) {
    Sendable(p, limit) && Covers(parts, |p.items|) && AllFit(p, limit, parts) && Greedy(p, limit, parts)
  }

  /** Before-insertion in these chunks is one insertion. */
  predicate OneInsertion(list: seq<Element>, pivot: Element, elements: seq<Element>, parts: seq<Span>)
    requires pivot in list
  {
    InRange(parts, |elements|) &&
    Chunked(list, BeforePivot(pivot), elements, parts) == Insert(list, BeforePivot(pivot), elements)
  }

  lemma CarryIsValues(p: Plan, pivot: Element, elements: seq<Element>)
    requires PlansFor(p, BeforePivot(pivot), elements)
    ensures AllValues(p) && p.AddPlan? && p.kind == Before && |p.items| == |elements|
  {
  }

  /** The limit that just admits every single item, and the items before `q`. */
  function TellingLimit(p: Plan, q: nat, h: nat): nat
    requires q <= |p.items| && h < |p.items|
  {
    if SingleSize(p, h) <= SizeOf(p, 0, q) then SizeOf(p, 0, q) else SingleSize(p, h)
  }

  /** With the limit for `q` the first request ends there, and the next one starts with an element that is not
      the pivot, or only pivots are left. */
  predicate Telling(p: Plan, pivot: Element, elements: seq<Element>, m: nat, h: nat, q: nat)
    requires |p.items| == |elements| && h < |elements|
  {
    && m <= q < |elements| && TellingLimit(p, q, h) < SizeOf(p, 0, q + 1)
    && (elements[q] != pivot || forall x :: q <= x < |elements| ==> elements[x] == pivot)
  }

  predicate IsLargest(p: Plan, h: nat) {
    h < |p.items| && forall i :: 0 <= i < |p.items| ==> SingleSize(p, i) <= SingleSize(p, h)
  }

  /** There always is such a place. */
  lemma TellingPlace(p: Plan, pivot: Element, elements: seq<Element>, m: nat, h: nat) returns (q: nat)
    requires AllValues(p) && |p.items| == |elements| && 0 < m < |elements| && h < |elements|
    ensures Telling(p, pivot, elements, m, h, q)
  {
    hide SizeOf, AllValues;
    var n := |elements|;
    var e := m;
    while e < n - 1 && SizeOf(p, 0, e) < SingleSize(p, h)
      invariant m <= e < n
    {
      e := e + 1;
    }
    if SizeOf(p, 0, e) < SingleSize(p, h) {
      q := n - 1;
      OnlyTheLast(p, h);
    } else {
      q := e;
      if o :| e <= o < n && elements[o] != pivot {
        q := o;
      }
      if e < q {
        SizeGrows(p, 0, e, q);
      }
      SizeGrows(p, 0, q, q + 1);
    }
  }

  /** An item that alone is larger than all but the last together is the last. */
  lemma OnlyTheLast(p: Plan, h: nat)
    requires AllValues(p) && h < |p.items| && |p.items| > 1 && SizeOf(p, 0, |p.items| - 1) < SingleSize(p, h)
    ensures SingleSize(p, h) < SizeOf(p, 0, |p.items|)
  {
    hide SizeOf, AllValues;
    var n := |p.items|;
    if h < n - 1 {
      SizeOfPart(p, 0, h, h + 1, n - 1);
    } else {
      SizeGrowsLeft(p, 0, n - 1, n);
    }
  }

  lemma NotEmpty(parts: seq<Span>, n: nat)
    requires Covers(parts, n) && n > 0
    ensures parts != []
  {
  }

  /** The first span ends where the limit says. */
  lemma FirstSpanEnds(p: Plan, limit: nat, parts: seq<Span>, q: nat)
    requires AllValues(p) && 0 < q < |p.items| && SizeOf(p, 0, q) <= limit < SizeOf(p, 0, q + 1)
    requires Covers(parts, |p.items|) && AllFit(p, limit, parts) && Greedy(p, limit, parts)
    ensures |parts| > 1 && parts[0] == Span(0, q) && parts[1].start == q
  {
    hide SizeOf, Covers, Fits, AllValues;
    NotEmpty(parts, |p.items|);
    CoversAt(parts, |p.items|, 0);
    var e := parts[0].end;
    FitsBySize(p, limit, 0, q);
    FitsBySize(p, limit, 0, e);
    if e > q + 1 {
      SizeGrows(p, 0, q + 1, e);
    }
    assert e == q;
    if |parts| > 1 {
      CoversAt(parts, |p.items|, 1);
    }
  }

  /** Whatever `split` returns for this limit leaves another list than one insertion. */
  lemma TellingSplit(list: seq<Element>, p: Plan, pivot: Element, elements: seq<Element>, m: nat, h: nat, q: nat,
                     parts: seq<Span>)
    requires AllValues(p) && |p.items| == |elements| && IsLargest(p, h) && pivot in list && pivot in elements
    requires var f := First(elements, pivot);
             f < m < |elements| && elements[m] != pivot && forall x :: f <= x < m ==> elements[x] == pivot
    requires Telling(p, pivot, elements, m, h, q) && SplitBy(p, TellingLimit(p, q, h), parts)
    ensures !OneInsertion(list, pivot, elements, parts)
  {
    hide SizeOf, Covers, Greedy, AllFit, StartsOther, AllValues, Chunked, Insert, First, SingleSize, Sendable;
    FirstSpanEnds(p, TellingLimit(p, q, h), parts, q);
    CoversInRange(parts, |elements|);
    if elements[q] != pivot {
      StartsOtherAt(elements, pivot, parts, First(elements, pivot), 1);
      StartsOtherDiffers(list, pivot, elements, parts);
    } else {
      RunDiffers(list, pivot, elements, parts, q, m);
    }
  }

  // ---- exactly

  /**
   Exactly then: whatever the limit, the requests of `split` leave the list of one insertion, if and only if
   nothing but the pivot follows the first inserted pivot.
   */
  lemma BeforeExactlyByLimit(list: seq<Element>, p: Plan, pivot: Element, elements: seq<Element>)
    requires PlansFor(p, BeforePivot(pivot), elements) && pivot in list
    ensures PivotOnlyLast(elements, pivot) <==>
            forall limit: nat, parts :: SplitBy(p, limit, parts) ==> OneInsertion(list, pivot, elements, parts)
  {
    hide *;
    if PivotOnlyLast(elements, pivot) {
      forall limit: nat, parts | SplitBy(p, limit, parts)
        ensures OneInsertion(list, pivot, elements, parts)
      {
        SplitAgrees(list, p, pivot, elements, limit, parts);
      }
    } else {
      var m := NextOther(elements, pivot);
      var limit, parts := SomeLimitDiffers(list, p, pivot, elements, m);
    }
  }

  /** The first element after the first inserted pivot that is not the pivot. */
  lemma NextOther(elements: seq<Element>, pivot: Element) returns (m: nat)
    requires !PivotOnlyLast(elements, pivot)
    ensures pivot in elements && First(elements, pivot) < m < |elements| && elements[m] != pivot
    ensures forall x :: First(elements, pivot) <= x < m ==> elements[x] == pivot
  {
    var f := First(elements, pivot);
    var j :| f <= j < |elements| && elements[j] != pivot;
    m := FirstOther(elements, pivot, f, j);
  }

  lemma SplitAgrees(list: seq<Element>, p: Plan, pivot: Element, elements: seq<Element>, limit: nat, parts: seq<Span>)
    requires PlansFor(p, BeforePivot(pivot), elements) && pivot in list && PivotOnlyLast(elements, pivot)
    requires SplitBy(p, limit, parts)
    ensures OneInsertion(list, pivot, elements, parts)
  {
    CarryIsValues(p, pivot, elements);
    hide PlansFor, Chunked, Insert, Sendable, Covers, AllFit, Greedy, AllValues;
    CoversInRange(parts, |elements|);
    ChunkedRefinesSingle(list, BeforePivot(pivot), elements, parts);
  }

  /** A limit that every item meets, for which nothing that `split` returns leaves the list of one insertion. */
  lemma SomeLimitDiffers(list: seq<Element>, p: Plan, pivot: Element, elements: seq<Element>, m: nat)
    returns (limit: nat, parts: seq<Span>)
    requires PlansFor(p, BeforePivot(pivot), elements) && pivot in list && pivot in elements
    requires var f := First(elements, pivot);
             f < m < |elements| && elements[m] != pivot && forall x :: f <= x < m ==> elements[x] == pivot
    ensures SplitBy(p, limit, parts)
    ensures forall other :: SplitBy(p, limit, other) ==> !OneInsertion(list, pivot, elements, other)
  {
    CarryIsValues(p, pivot, elements);
    var h := Largest(p, |elements|);
    hide PlansFor, AllValues, Sendable, Covers, AllFit, Greedy, TellingLimit, First, SingleSize, OneInsertion;
    var q := TellingPlace(p, pivot, elements, m, h);
    limit := TellingLimit(p, q, h);
    TellingLimitSuffices(p, q, h);
    parts := GreedySpans(p, limit);
    forall other | SplitBy(p, limit, other)
      ensures !OneInsertion(list, pivot, elements, other)
    {
      TellingSplit(list, p, pivot, elements, m, h, q, other);
    }
  }

  lemma TellingLimitSuffices(p: Plan, q: nat, h: nat)
    requires AllValues(p) && q <= |p.items| && IsLargest(p, h)
    ensures Sendable(p, TellingLimit(p, q, h))
  {
    hide SizeOf, Fits;
    var limit := TellingLimit(p, q, h);
    SizeOfPart(p, 0, 0, 0, q);
    FitsBySize(p, limit, 0, 0);
    forall i | 0 <= i < |p.items|
      ensures FitsAlone(p, limit, i)
    {
      FitsBySize(p, limit, i, i + 1);
      assert SingleSize(p, i) <= limit;
    }
  }

  // ---- two payloads

  function Plain(data: Element): Payload {
    Payload(data, None, None, None, None, None)
  }

  function TwoPayloads(v: Element, x: Element): ContainerData {
    NO_DATA.(values := [Plain(v), Plain(x)])
  }

  function PlainValue(data: Element): Value {
    Value(Some(Blob(data, Len32(data))), None, None, None)
  }

  /** The plan that inserts `v` and `x` before `v`. */
  function TwoItemPlan(s: Session, t: ContainerType, pos: uint32, v: Element, x: Element): Plan {
    AddPlan(s.key, t, Before, pos, PlainValue(v),
            [Item(None, None, Some(PlainValue(v)), None), Item(None, None, Some(PlainValue(x)), None)])
  }

  /** The session whose limit is the larger of the two single requests. */
  function Tight(s: Session, t: ContainerType, pos: uint32, v: Element, x: Element): Session {
    var p := TwoItemPlan(s, t, pos, v, x);
    s.(config := s.config.(maxRequestBytes :=
      if SingleSize(p, 0) <= SingleSize(p, 1) then SingleSize(p, 1) else SingleSize(p, 0)))
  }

  /** With this limit the two payloads can be sent, and `split` sends them in two requests. */
  lemma TwoItemsSplit(s: Session, t: ContainerType, pos: uint32, v: Element, x: Element)
    requires ListType(t) && |v| <= s.config.maxDecodedBytes && |x| <= s.config.maxDecodedBytes
    ensures var tight, p := Tight(s, t, pos, v, x), TwoItemPlan(s, t, pos, v, x);
            && AddPlanFor(tight, t, TwoPayloads(v, x), Before, pos, Plain(v)) == Ok(p)
            && forall parts :: SplitBy(p, tight.config.maxRequestBytes, parts) ==> parts == [Span(0, 1), Span(1, 2)]
  {
    var tight, p := Tight(s, t, pos, v, x), TwoItemPlan(s, t, pos, v, x);
    var limit := tight.config.maxRequestBytes;
    TwoItemsPlanned(tight, t, pos, v, x);
    TwoItemsFit(p, limit);
    hide Tight, SplitBy, TwoItemPlan, AddPlanOf;
    forall parts | SplitBy(p, limit, parts)
      ensures parts == [Span(0, 1), Span(1, 2)]
    {
      TwoSpans(p, limit, parts);
    }
  }

  lemma TwoItemsPlanned(s: Session, t: ContainerType, pos: uint32, v: Element, x: Element)
    requires ListType(t) && |v| <= s.config.maxDecodedBytes && |x| <= s.config.maxDecodedBytes
    ensures AddPlanOf(s, t, TwoPayloads(v, x), Before, pos, Plain(v)) == Ok(TwoItemPlan(s, t, pos, v, x))
  {
    var env := Env(s.key.clientId, None, s.config);
    var items := TwoItemPlan(s, t, pos, v, x).items;
    TraverseIs(ValueItem(env), [Plain(v), Plain(x)], items);
  }

  lemma TwoItemsFit(p: Plan, limit: nat)
    requires AllValues(p) && |p.items| == 2 && SingleSize(p, 0) <= limit && SingleSize(p, 1) <= limit
    ensures Sendable(p, limit)
  {
    hide SizeOf, Fits;
    SizeOfPart(p, 0, 0, 0, 1);
    FitsBySize(p, limit, 0, 0);
    FitsBySize(p, limit, 0, 1);
    FitsBySize(p, limit, 1, 2);
  }

  lemma TwoSpans(p: Plan, limit: nat, parts: seq<Span>)
    requires AllValues(p) && |p.items| == 2 && SplitBy(p, limit, parts)
    requires limit == SingleSize(p, 0) || limit == SingleSize(p, 1)
    ensures parts == [Span(0, 1), Span(1, 2)]
  {
    hide SizeOf, Fits, Sendable, AllValues, Greedy;
    SizeGrows(p, 0, 1, 2);
    SizeGrowsLeft(p, 0, 1, 2);
    FitsBySize(p, limit, 0, 2);
    assert parts != [];
    hide Covers;
    CoversAt(parts, 2, 0);
    assert parts[0] == Span(0, 1);
    CoversAt(parts, 2, 1);
    if |parts| > 2 {
      CoversAt(parts, 2, 2);
    }
  }

  /** After a successful before-insertion the server's list is the chunked one. */
  lemma ServedWholly(list: seq<Element>, s: Session, t: ContainerType, d: ContainerData, pos: uint32, pivot: Payload,
                     countOnly: bool, r: Outcome, log: seq<Call>, job: Job)
    requires ListType(t) && AddReport(s, t, d, Before, pos, pivot, countOnly, r, log, Some(job))
    requires r.err.None? && r.ok
    ensures InRange(job.parts, |d.values|) && Covers(job.parts, |d.values|)
    ensures AddPlanFor(s, t, d, Before, pos, pivot) == Ok(job.plan)
    ensures SplitBy(job.plan, s.config.maxRequestBytes, job.parts)
    ensures !countOnly || NoneIgnored(log) ==>
              Served(list, log) == Chunked(list, BeforePivot(pivot.data), Payloads(d.values), job.parts)
  {
    hide AddPlanFor, PlansFor, Chunked, Served, Sent, Wanted, Accounts, AllFit, Greedy, Covers, InRange, Sendable,
      RpcOf, NoneIgnored;
    var elements := Payloads(d.values);
    PlanForAdd(s, t, d, Before, pos, pivot, job.plan);
    PlanIsAdd(job.plan, BeforePivot(pivot.data), elements);
    SendablePlan(s, t, d, Before, pos, pivot);
    if !countOnly || NoneIgnored(log) {
      ChunksServed(list, s, job.plan, BeforePivot(pivot.data), elements, job.parts, !countOnly, r, log);
    }
  }

  /** When every chunk was carried out the list is the chunked one. */
  lemma ChunksServed(list: seq<Element>, s: Session, p: Plan, ins: Insertion<Element>, elements: seq<Element>,
                     parts: seq<Span>, boolean: bool, r: Outcome, log: seq<Call>)
    requires PlansFor(p, ins, elements) && |p.items| == |elements| && InRange(parts, |elements|)
    requires Sent(s, Wanted(p, RpcOf(p.kind), parts), log) && Accounts(parts, boolean, log, r)
    requires r.err.None? && r.ok && (boolean || NoneIgnored(log))
    ensures Served(list, log) == Chunked(list, ins, elements, parts)
  {
    hide PlansFor, Chunked, Served, Sent, Wanted, Accounts, InRange, RpcOf;
    AcceptedExactly(parts, boolean, log, r);
    ServedIsChunked(list, p, ins, elements, parts, s, log, |parts|);
    ServedPrefix(list, log, |parts|);
    assert parts[..|parts|] == parts;
  }

  /**
   So inserting `v` and then `x` before `v` through a session with this limit leaves another list than one
   insertion, although every request is acknowledged: the code does not meet the property here.
   */
  lemma TwoItemsServed(list: seq<Element>, s: Session, t: ContainerType, pos: uint32, v: Element, x: Element,
                       countOnly: bool, r: Outcome, log: seq<Call>, job: Job)
    requires ListType(t) && |v| <= s.config.maxDecodedBytes && |x| <= s.config.maxDecodedBytes
    requires v in list && x != v && r.err.None? && r.ok
    requires AddReport(Tight(s, t, pos, v, x), t, TwoPayloads(v, x), Before, pos, Plain(v), countOnly, r, log,
                       Some(job))
    ensures job.parts == [Span(0, 1), Span(1, 2)]
    ensures Served(list, log) != Insert(list, BeforePivot(v), [v, x])
  {
    hide *;
    var tight := Tight(s, t, pos, v, x);
    TwoPayloadsAre(v, x);
    TwoItemsSplit(s, t, pos, v, x);
    ServedWholly(list, tight, t, TwoPayloads(v, x), pos, Plain(v), countOnly, r, log, job);
    if !countOnly || NoneIgnored(log) {
      StartsOtherAt([v, x], v, job.parts, 0, 1);
      StartsOtherDiffers(list, v, [v, x], job.parts);
    } else {
      TwoIgnored(list, tight, t, pos, v, x, countOnly, r, log, job);
    }
  }

  /** A request that was acknowledged with the count 0 leaves the list too short. */
  lemma TwoIgnored(list: seq<Element>, s: Session, t: ContainerType, pos: uint32, v: Element, x: Element,
                   countOnly: bool, r: Outcome, log: seq<Call>, job: Job)
    requires ListType(t) && v in list && r.err.None? && r.ok && countOnly && !NoneIgnored(log)
    requires AddReport(s, t, TwoPayloads(v, x), Before, pos, Plain(v), countOnly, r, log, Some(job))
    ensures Served(list, log) != Insert(list, BeforePivot(v), [v, x])
  {
    hide AddReport, Served, NoneIgnored, Insert, First;
    IgnoredIsShorter(list, s, t, TwoPayloads(v, x), Before, pos, Plain(v), countOnly, job, log, r);
    InsertLength(list, BeforePivot(v), [v, x]);
  }

  lemma TwoPayloadsAre(v: Element, x: Element)
    ensures Plain(v).data == v && |TwoPayloads(v, x).values| == 2
    ensures Payloads(TwoPayloads(v, x).values) == [v, x] && First([v, x], v) == 0
  {
  }

  lemma SendablePlan(s: Session, t: ContainerType, d: ContainerData, kind: AddKind, pos: uint32, pivot: Payload)
    ensures var r := AddPlanFor(s, t, d, kind, pos, pivot); r.Ok? ==> Sendable(r.value, s.config.maxRequestBytes)
  {
  }
}
