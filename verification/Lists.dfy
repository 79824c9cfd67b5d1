/**
 The server's list, as far as chunked insertion relies on it (collections.go:274-276,
 cache.proto:646-656): head insertion reverses the items of one request, every other kind keeps
 their order, and a pivot is found by value, at its first occurrence.
 */
module Lists {
  import opened Packing
  import opened Sequences

  datatype Insertion<T> = AtHead | AtTail | AtPosition(pos: nat) | BeforePivot(pivot: T) | AfterPivot(pivot: T)

  function Reverse<T>(s: seq<T>): (r: seq<T>)
    ensures |r| == |s|
  {
    if s == [] then [] else Reverse(s[1..]) + [s[0]]
  }

  /** The index of the first occurrence, or the length. */
  function First<T(==)>(s: seq<T>, x: T): (i: nat)
    ensures i <= |s| && (i < |s| ==> s[i] == x) && (i == |s| <==> x !in s)
    ensures forall j :: 0 <= j < i ==> s[j] != x
  {
    if s == [] || s[0] == x then 0
    else
      assert s == [s[0]] + s[1..];
      1 + First(s[1..], x)
  }

  /** The server can place the insertion. */
  predicate Placeable<T(==)>(list: seq<T>, ins: Insertion<T>) {
    match ins
    case AtPosition(pos) => pos <= |list|
    case BeforePivot(pivot) => pivot in list
    case AfterPivot(pivot) => pivot in list
    case _ => true
  }

  /** One request. */
  function Insert<T(==)>(list: seq<T>, ins: Insertion<T>, items: seq<T>): seq<T>
    requires Placeable(list, ins)
  {
    match ins
    case AtHead => Reverse(items) + list
    case AtTail => list + items
    case AtPosition(pos) => Splice(list, pos, items)
    case BeforePivot(pivot) => Splice(list, First(list, pivot), items)
    case AfterPivot(pivot) => Splice(list, First(list, pivot) + 1, items)
  }

  function Splice<T>(list: seq<T>, i: nat, items: seq<T>): seq<T>
    requires i <= |list|
  {
    list[..i] + items + list[i..]
  }

  /** A positional insertion that has `done` items behind it goes on `done` places later. */
  function Shifted<T>(ins: Insertion<T>, done: nat): Insertion<T> {
    if ins.AtPosition? then AtPosition(ins.pos + done) else ins
  }

  /** The order in which `add` sends the chunks: reversed for insertion after a pivot. */
  function SendOrder(reversed: bool, parts: seq<Span>): seq<Span> {
    if reversed then Reverse(parts) else parts
  }

  predicate InRange(order: seq<Span>, n: nat) {
    forall k :: 0 <= k < |order| ==> order[k].start <= order[k].end <= n
  }

  /** The list after the chunks of `order`, each sent as one request. */
  function Chunked<T(==)>(list: seq<T>, ins: Insertion<T>, items: seq<T>, order: seq<Span>): seq<T>
    requires InRange(order, |items|)
  {
    if order == [] then list
    else
      var before := Chunked(list, ins, items, order[..|order| - 1]);
      var last := order[|order| - 1];
      var here := Shifted(ins, last.start);
      if Placeable(before, here) then Insert(before, here, items[last.start..last.end]) else before
  }

  lemma {:induction false} ReverseConcat<T>(a: seq<T>, b: seq<T>)
    ensures Reverse(a + b) == Reverse(b) + Reverse(a)
  {
    if a == [] {
      assert a + b == b;
    } else {
      assert (a + b)[1..] == a[1..] + b;
      ReverseConcat(a[1..], b);
    }
  }

  lemma {:induction false} ReverseAt<T>(s: seq<T>, k: nat)
    requires k < |s|
    ensures Reverse(s)[k] == s[|s| - 1 - k]
  {
    if k < |s| - 1 {
      ReverseAt(s[1..], k);
    }
  }

  /** The first occurrence is where a part without `x` ends and a part that starts with `x` begins. */
  lemma FirstConcat<T>(a: seq<T>, b: seq<T>, x: T)
    requires x !in a && b != [] && b[0] == x
    ensures x in a + b && First(a + b, x) == |a|
  {
    assert (a + b)[|a|] == x;
    assert forall j :: 0 <= j < |a| ==> (a + b)[j] == a[j];
  }

  lemma SpliceBetween<T>(a: seq<T>, b: seq<T>, items: seq<T>)
    ensures Splice(a + b, |a|, items) == a + items + b
  {
    assert (a + b)[..|a|] == a && (a + b)[|a|..] == b;
  }

  /** Cut a list at its first pivot. */
  lemma CutAtFirst<T>(list: seq<T>, pivot: T) returns (a: seq<T>, b: seq<T>)
    requires pivot in list
    ensures list == a + b && pivot !in a && b != [] && b[0] == pivot && |a| == First(list, pivot)
  {
    var i := First(list, pivot);
    a, b := list[..i], list[i..];
  }

  lemma CoversInRange(parts: seq<Span>, n: nat)
    requires Covers(parts, n)
    ensures InRange(parts, n) && InRange(Reverse(parts), n)
  {
    forall k | 0 <= k < |parts|
      ensures parts[k].start <= parts[k].end <= n
    {
      CoversAt(parts, n, k);
    }
    forall k | 0 <= k < |parts|
      ensures Reverse(parts)[k].start <= Reverse(parts)[k].end <= n
    {
      ReverseAt(parts, k);
    }
  }

  /**
   All items from the first occurrence of the pivot on are the pivot. Before-insertion needs this:
   an inserted pivot in an earlier chunk would attract the later chunks.
   */
  predicate PivotOnlyLast<T(==)>(items: seq<T>, pivot: T) {
    forall i :: First(items, pivot) <= i < |items| ==> items[i] == pivot
  }

  predicate ForwardSafe<T(==)>(ins: Insertion<T>, items: seq<T>) {
    ins.BeforePivot? ==> PivotOnlyLast(items, ins.pivot)
  }

  /**
   Forward chunks refine one request: after the chunks that cover `[0, n)` the list is as after one
   request with the first `n` items. So also when a later chunk fails, what is done is a prefix.
   */
  lemma {:induction false} ForwardChunks<T>(list: seq<T>, ins: Insertion<T>, items: seq<T>, parts: seq<Span>, n: nat)
    requires Covers(parts, n) && n <= |items| && InRange(parts, |items|)
    requires Placeable(list, ins) && !ins.AfterPivot? && ForwardSafe(ins, items)
    ensures Chunked(list, ins, items, parts) == Insert(list, ins, items[..n])
  {
    if parts != [] {
      var front, last := parts[..|parts| - 1], parts[|parts| - 1];
      var k := last.start;
      assert InRange(front, |items|) by {
        assert forall x :: 0 <= x < |front| ==> front[x] == parts[x];
      }
      ForwardChunks(list, ins, items, front, k);
      var before := Insert(list, ins, items[..k]);
      assert items[..n] == items[..k] + items[k..n];
      NextChunk(list, ins, items[..k], items[k..n], items);
    } else {
      assert items[..0] == [];
      InsertNothing(list, ins);
    }
  }

  lemma InsertNothing<T>(list: seq<T>, ins: Insertion<T>)
    requires Placeable(list, ins)
    ensures Insert(list, ins, []) == list
  {
  }

  lemma BeforeIs<T>(a: seq<T>, b: seq<T>, pivot: T, items: seq<T>)
    requires pivot !in a && b != [] && b[0] == pivot
    ensures pivot in a + b && Insert(a + b, BeforePivot(pivot), items) == a + items + b
  {
    FirstConcat(a, b, pivot);
    SpliceBetween(a, b, items);
  }

  lemma AfterIs<T>(a: seq<T>, b: seq<T>, pivot: T, items: seq<T>)
    requires pivot !in a
    ensures pivot in a + [pivot] + b && Insert(a + [pivot] + b, AfterPivot(pivot), items) == a + [pivot] + items + b
  {
    assert a + [pivot] + b == a + ([pivot] + b);
    FirstConcat(a, [pivot] + b, pivot);
    SpliceBetween(a + [pivot], b, items);
  }

  /** Inserting `xs` and then, where `add` sends them, `ys`, is inserting `xs + ys`. */
  lemma NextChunk<T>(list: seq<T>, ins: Insertion<T>, xs: seq<T>, ys: seq<T>, items: seq<T>)
    requires Placeable(list, ins) && !ins.AfterPivot?
    requires ForwardSafe(ins, items) && xs + ys <= items
    ensures var before, here := Insert(list, ins, xs), Shifted(ins, |xs|);
            Placeable(before, here) && Insert(before, here, ys) == Insert(list, ins, xs + ys)
  {
    match ins
    case AtHead =>
      ReverseConcat(xs, ys);
    case AtTail =>
    case AtPosition(pos) =>
      var a, b := list[..pos], list[pos..];
      SpliceBetween(a + xs, b, ys);
    case BeforePivot(pivot) =>
      hide Insert, First;
      var a, b := CutAtFirst(list, pivot);
      BeforeIs(a, b, pivot, xs);
      BeforeIs(a, b, pivot, xs + ys);
      if pivot in xs {
        var c, d := CutAtFirst(xs, pivot);
        InsertedPivots(c, d, xs, ys, items, pivot);
        BeforeIs(a + c, d + b, pivot, ys);
        Regroup(a, c, ys, d, b);
      } else {
        BeforeIs(a + xs, b, pivot, ys);
        SeqAssoc(a, xs, ys);
      }
  }

  lemma Regroup<T>(a: seq<T>, c: seq<T>, ys: seq<T>, d: seq<T>, b: seq<T>)
    ensures a + (c + d) + b == (a + c) + (d + b)
    ensures ys + d == d + ys ==> (a + c) + ys + (d + b) == a + ((c + d) + ys) + b
  {
    SeqAssoc(a, c, d);
    SeqAssoc(a + c, d, b);
    SeqAssoc((a + c) + ys, d, b);
    SeqAssoc(a + c, ys, d);
    SeqAssoc(c, d, ys);
    SeqAssoc(a, c, d + ys);
  }

  /** From the first inserted pivot on there are only pivots, so they commute. */
  lemma InsertedPivots<T>(c: seq<T>, d: seq<T>, xs: seq<T>, ys: seq<T>, items: seq<T>, pivot: T)
    requires xs == c + d && pivot !in c && d != [] && d[0] == pivot
    requires xs + ys <= items && PivotOnlyLast(items, pivot)
    ensures ys + d == d + ys
  {
    assert items == c + items[|c|..] && items[|c|] == pivot;
    FirstConcat(c, items[|c|..], pivot);
    assert forall i :: 0 <= i < |d| ==> d[i] == items[|c| + i];
    assert forall i :: 0 <= i < |ys| ==> ys[i] == items[|xs| + i];
  }

  /** Reversed chunks refine one request for insertion after a pivot: what is done is a suffix. */
  lemma {:induction false} BackwardChunks<T>(list: seq<T>, pivot: T, items: seq<T>, parts: seq<Span>, n: nat, k: nat)
    requires Covers(parts, n) && n == |items| && k <= |parts|
    requires pivot in list && InRange(Reverse(parts), |items|) && InRange(Reverse(parts)[..k], |items|)
    ensures Boundary(parts, |parts| - k) <= n
    ensures Chunked(list, AfterPivot(pivot), items, Reverse(parts)[..k]) ==
            Insert(list, AfterPivot(pivot), items[Boundary(parts, |parts| - k)..])
  {
    CoversEnd(parts, n);
    hide Insert, Covers;
    if k == 0 {
      InsertNothing(list, AfterPivot(pivot));
      assert items[n..] == [];
    } else {
      var all := Reverse(parts);
      var last := all[k - 1];
      ReverseAt(parts, k - 1);
      CoversAt(parts, n, |parts| - k);
      if k > 1 {
        CoversAt(parts, n, |parts| - k + 1);
      }
      TakeTake(all, k);
      BackwardChunks(list, pivot, items, parts, n, k - 1);
      AfterTwice(list, pivot, items[last.end..], items[last.start..last.end]);
      DropSlice(items, last.start, last.end);
    }
  }

  lemma TakeTake<T>(s: seq<T>, k: nat)
    requires 0 < k <= |s|
    ensures s[..k][..k - 1] == s[..k - 1] && s[..k][k - 1] == s[k - 1]
  {
  }

  lemma DropSlice<T>(s: seq<T>, i: nat, j: nat)
    requires i <= j <= |s|
    ensures s[i..] == s[i..j] + s[j..]
  {
  }

  /** What is inserted after the pivot later comes first. */
  lemma AfterTwice<T>(list: seq<T>, pivot: T, done: seq<T>, more: seq<T>)
    requires pivot in list
    ensures var before := Insert(list, AfterPivot(pivot), done);
            pivot in before && Insert(before, AfterPivot(pivot), more) == Insert(list, AfterPivot(pivot), more + done)
  {
    hide Insert, First;
    var a, b := CutAtFirst(list, pivot);
    var tail := b[1..];
    assert b == [pivot] + tail;
    SeqAssoc(a, [pivot], tail);
    AfterIs(a, tail, pivot, done);
    AfterIs(a, tail, pivot, more + done);
    SeqAssoc(a + [pivot], done, tail);
    AfterIs(a, done + tail, pivot, more);
    SeqAssoc(a + [pivot] + more, done, tail);
    SeqAssoc(a + [pivot], more, done);
  }

  /** Chunked insertion is one-request insertion, for every kind. */
  lemma ChunkedRefinesSingle<T>(list: seq<T>, ins: Insertion<T>, items: seq<T>, parts: seq<Span>)
    requires Covers(parts, |items|) && Placeable(list, ins) && ForwardSafe(ins, items)
    ensures InRange(SendOrder(ins.AfterPivot?, parts), |items|)
    ensures Chunked(list, ins, items, SendOrder(ins.AfterPivot?, parts)) == Insert(list, ins, items)
  {
    CoversInRange(parts, |items|);
    assert items[..|items|] == items && items[0..] == items;
    if ins.AfterPivot? {
      var all := Reverse(parts);
      assert all[..|parts|] == all;
      BackwardChunks(list, ins.pivot, items, parts, |items|, |parts|);
    } else {
      ForwardChunks(list, ins, items, parts, |items|);
    }
  }

  /**
   The condition for before-insertion is exact: every way of splitting gives the list of the single
   request if and only if nothing but the pivot follows the first inserted pivot.
   */
  lemma BeforeExactly<T>(list: seq<T>, pivot: T, items: seq<T>)
    requires pivot in list
    ensures PivotOnlyLast(items, pivot) <==>
            forall parts :: Covers(parts, |items|) && InRange(parts, |items|) ==>
              Chunked(list, BeforePivot(pivot), items, parts) == Insert(list, BeforePivot(pivot), items)
  {
    if PivotOnlyLast(items, pivot) {
      forall parts | Covers(parts, |items|) && InRange(parts, |items|)
        ensures Chunked(list, BeforePivot(pivot), items, parts) == Insert(list, BeforePivot(pivot), items)
      {
        ChunkedRefinesSingle(list, BeforePivot(pivot), items, parts);
      }
    } else {
      var k := First(items, pivot);
      var j :| k <= j < |items| && items[j] != pivot;
      var m := FirstOther(items, pivot, k, j);
      TwoChunksDiffer(list, pivot, items, m);
    }
  }

  /** The first item after index `k` that is not the pivot. */
  lemma {:induction false} FirstOther<T>(items: seq<T>, pivot: T, k: nat, j: nat) returns (m: nat)
    requires k < j < |items| && items[k] == pivot && items[j] != pivot
    ensures k < m <= j && items[m] != pivot && forall x :: k <= x < m ==> items[x] == pivot
    decreases j - k
  {
    if items[k + 1] != pivot {
      m := k + 1;
    } else {
      m := FirstOther(items, pivot, k + 1, j);
      forall x | k <= x < m
        ensures items[x] == pivot
      {
        if x > k {
          assert k + 1 <= x;
        }
      }
    }
  }

  /** Splitting just before that item moves it in front of the inserted pivots. */
  lemma TwoChunksDiffer<T>(list: seq<T>, pivot: T, items: seq<T>, m: nat)
    requires pivot in list && First(items, pivot) < m < |items| && items[m] != pivot
    ensures var parts := [Span(0, m), Span(m, |items|)];
            Covers(parts, |items|) && InRange(parts, |items|) &&
            Chunked(list, BeforePivot(pivot), items, parts) != Insert(list, BeforePivot(pivot), items)
  {
    hide Insert, First, Chunked, Covers, InRange;
    var xs, ys := items[0..m], items[m..|items|];
    var a, b := CutAtFirst(list, pivot);
    assert xs[First(items, pivot)] == pivot;
    var c, d := CutAtFirst(xs, pivot);
    assert items == (c + d) + ys;
    BeforeIs(a, b, pivot, xs);
    BeforeIs(a, b, pivot, items);
    Regroup(a, c, ys, d, b);
    BeforeIs(a + c, d + b, pivot, ys);
    TwoRequests(list, BeforePivot(pivot), items, m);
    assert ((a + c) + ys + (d + b))[|a + c|] == ys[0] == items[m];
    assert (a + items + b)[|a + c|] == d[0];
  }

  lemma TwoRequests<T>(list: seq<T>, ins: Insertion<T>, items: seq<T>, m: nat)
    requires 0 < m < |items| && ins.BeforePivot? && Placeable(list, ins)
    requires Placeable(Insert(list, ins, items[0..m]), ins)
    ensures var parts := [Span(0, m), Span(m, |items|)];
            Covers(parts, |items|) && InRange(parts, |items|) &&
            Chunked(list, ins, items, parts) == Insert(Insert(list, ins, items[0..m]), ins, items[m..|items|])
  {
    var parts := [Span(0, m), Span(m, |items|)];
    assert parts[..1] == [Span(0, m)] && parts[..1][..0] == [];
    hide Insert, First;
    assert Covers(parts[..1], m);
    assert Chunked(list, ins, items, parts[..1][..0]) == list;
    assert Chunked(list, ins, items, parts[..1]) == Insert(list, ins, items[0..m]);
  }

  lemma PivotFirst(pivot: int, items: seq<int>, rest: seq<int>)
    ensures pivot in [pivot] + rest && Insert([pivot] + rest, BeforePivot(pivot), items) == items + ([pivot] + rest)
  {
    BeforeIs([], [pivot] + rest, pivot, items);
    assert [] + ([pivot] + rest) == [pivot] + rest && [] + items + ([pivot] + rest) == items + ([pivot] + rest);
  }

  /** For example: with list [p], inserting p and x before p in one request gives p x p ... */
  lemma SingleExample()
    ensures 0 in [0] && Insert([0], BeforePivot(0), [0, 1]) == [0, 1, 0]
  {
    hide Insert, First;
    PivotFirst(0, [0, 1], []);
    assert [0] + [] == [0];
  }

  /** ... and in two requests x p p. */
  lemma ChunkedExample()
    ensures var parts := [Span(0, 1), Span(1, 2)];
            Covers(parts, 2) && InRange(parts, 2) && Chunked([0], BeforePivot(0), [0, 1], parts) == [1, 0, 0]
  {
    hide Insert, First, Chunked, Covers, InRange;
    PivotFirst(0, [0], []);
    PivotFirst(0, [1], [0]);
    assert [0] + [] == [0] && [0, 1][0..1] == [0] && [0, 1][1..2] == [1];
    TwoRequests([0], BeforePivot(0), [0, 1], 1);
  }

  /** So chunked before-insertion is not one insertion. */
  lemma BeforeCounterexample()
    ensures var list, items, parts := [0], [0, 1], [Span(0, 1), Span(1, 2)];
            && Covers(parts, |items|) && InRange(parts, |items|) && Placeable(list, BeforePivot(0))
            && Chunked(list, BeforePivot(0), items, parts) != Insert(list, BeforePivot(0), items)
  {
    hide Insert, First, Chunked, Covers, InRange;
    SingleExample();
    ChunkedExample();
    assert [1, 0, 0][0] != [0, 1, 0][0];
  }
}
