/**
 Splitting a collection operation into requests that fit (collections.go:124-156). `Split` packs
 greedily by the size on the wire; under the real size function that needs the fewest requests.
 */
module Packing {
  import opened Wrappers
  import opened Wire
  import opened Messages

  datatype AddKind = Generic | Head | Tail | Position | Before | After | Bool | OrderedBool

  /** An operation on many items, with what its requests have in common. */
  datatype Plan =
    | AddPlan(key: Key, typ: ContainerType, kind: AddKind, pos: uint32, pivot: Value, items: seq<Item>)
    | CreatePlan(key: Key, typ: ContainerType, ttl: Option<uint64>, items: seq<Item>)
    | ContinuePlan(key: Key, typ: ContainerType, items: seq<Item>)
    | RemovePlan(key: Key, typ: ContainerType, items: seq<Item>)

  predicate Relative(p: Plan) {
    p.AddPlan? && (p.kind == Before || p.kind == After)
  }

  /** The position that a request starting at item `i` carries; `uint32(i)` truncates. */
  function PositionAt(p: Plan, i: nat): Option<uint32>
    requires p.AddPlan?
  {
    match p.kind
    case Position => Some((p.pos + i) % 0x1_0000_0000)
    case Bool => Some(MAX_UINT32)
    case OrderedBool => Some(i % 0x1_0000_0000)
    case _ => None
  }

  /** The request for the items `i..j`. */
  function Build(p: Plan, i: nat, j: nat): Request
    requires i <= j <= |p.items|
  {
    var a := ArraysOf(p.items[i..j]);
    match p
    case AddPlan(key, typ, kind, _, pivot, _) =>
      if Relative(p) then AddToVal(key, kind == Before, pivot, a.values)
      else AddTo(key, if typ == Map || typ == OrderedMap then Some(typ) else None, PositionAt(p, i), a)
    case CreatePlan(key, typ, ttl, _) => Create(key, typ, ttl, a)
    case ContinuePlan(key, typ, _) => AddTo(key, Some(typ), None, a)
    case RemovePlan(key, typ, _) => Remove(key, typ, a.values, a.keys)
  }

  predicate Fits(p: Plan, limit: nat, i: nat, j: nat)
    requires i <= j <= |p.items|
  {
    RequestSize(Build(p, i, j)) <= limit
  }

  // ---- the size of a request: a header and the sum of its items

  /** The fields that the items add to a request. */
  function Body(p: Plan, items: seq<Item>): seq<Field> {
    var a := ArraysOf(items);
    if Relative(p) then ValuesField(5, a.values)
    else if p.RemovePlan? then ValuesField(3, a.values) + KeysField(4, a.keys)
    else ArraysFields(a)
  }

  function Header(p: Plan, i: nat): seq<Field> {
    var key := [Bytes(1, Encode(KeyFields(p.key)))];
    match p
    case AddPlan(_, typ, kind, _, pivot, _) =>
      if Relative(p) then key + Flag(3, kind == Before) + [Bytes(4, Encode(ValueFields(pivot)))]
      else key + Optional(2, OptionalType(if typ == Map || typ == OrderedMap then Some(typ) else None))
           + Optional(4, PositionAt(p, i))
    case CreatePlan(_, typ, ttl, _) => key + Implicit(2, TypeNumber(typ)) + Optional(3, ttl)
    case ContinuePlan(_, typ, _) => key + Optional(2, Some(TypeNumber(typ))) + Optional(4, None)
    case RemovePlan(_, typ, _) => key + Optional(2, Some(TypeNumber(typ)))
  }

  lemma SizeOfBuild(p: Plan, i: nat, j: nat)
    requires i <= j <= |p.items|
    ensures RequestSize(Build(p, i, j)) == Size(Header(p, i)) + Size(Body(p, p.items[i..j]))
  {
    hide KeysField, OrderedKeysField, ValuesField, OrderedValuesField, Encode, KeyFields, ValueFields, ArraysOf,
      ArraysFields;
    assert RequestFields(Build(p, i, j)) == Header(p, i) + Body(p, p.items[i..j]);
    SizeConcat(Header(p, i), Body(p, p.items[i..j]));
  }

  lemma KeysSize(number: FieldNumber, a: seq<Key>, b: seq<Key>)
    ensures Size(KeysField(number, a + b)) == Size(KeysField(number, a)) + Size(KeysField(number, b))
  {
    hide Encode, KeyFields;
    assert KeysField(number, a + b) == KeysField(number, a) + KeysField(number, b);
    SizeConcat(KeysField(number, a), KeysField(number, b));
  }

  lemma OrderedKeysSize(number: FieldNumber, a: seq<OrderedKey>, b: seq<OrderedKey>)
    ensures Size(OrderedKeysField(number, a + b)) ==
            Size(OrderedKeysField(number, a)) + Size(OrderedKeysField(number, b))
  {
    hide Encode, OrderedKeyFields;
    assert OrderedKeysField(number, a + b) == OrderedKeysField(number, a) + OrderedKeysField(number, b);
    SizeConcat(OrderedKeysField(number, a), OrderedKeysField(number, b));
  }

  lemma ValuesSize(number: FieldNumber, a: seq<Value>, b: seq<Value>)
    ensures Size(ValuesField(number, a + b)) == Size(ValuesField(number, a)) + Size(ValuesField(number, b))
  {
    hide Encode, ValueFields;
    assert ValuesField(number, a + b) == ValuesField(number, a) + ValuesField(number, b);
    SizeConcat(ValuesField(number, a), ValuesField(number, b));
  }

  lemma OrderedValuesSize(number: FieldNumber, a: seq<OrderedValue>, b: seq<OrderedValue>)
    ensures Size(OrderedValuesField(number, a + b)) ==
            Size(OrderedValuesField(number, a)) + Size(OrderedValuesField(number, b))
  {
    hide Encode, OrderedValueFields;
    assert OrderedValuesField(number, a + b) == OrderedValuesField(number, a) + OrderedValuesField(number, b);
    SizeConcat(OrderedValuesField(number, a), OrderedValuesField(number, b));
  }

  lemma SizeOfArrays(a: Arrays, b: Arrays)
    ensures Size(ArraysFields(ConcatArrays(a, b))) == Size(ArraysFields(a)) + Size(ArraysFields(b))
  {
    hide KeysField, OrderedKeysField, ValuesField, OrderedValuesField, Size, ArraysFields;
    SizeOfParts(a);
    SizeOfParts(b);
    SizeOfParts(ConcatArrays(a, b));
    KeysSize(5, a.keys, b.keys);
    ValuesSize(6, a.values, b.values);
    OrderedKeysSize(7, a.orderedKeys, b.orderedKeys);
    OrderedValuesSize(8, a.orderedValues, b.orderedValues);
  }

  lemma SizeOfParts(a: Arrays)
    ensures Size(ArraysFields(a)) ==
            Size(KeysField(5, a.keys)) + Size(ValuesField(6, a.values))
            + Size(OrderedKeysField(7, a.orderedKeys)) + Size(OrderedValuesField(8, a.orderedValues))
  {
    var k, v := KeysField(5, a.keys), ValuesField(6, a.values);
    var ok, ov := OrderedKeysField(7, a.orderedKeys), OrderedValuesField(8, a.orderedValues);
    hide Size;
    SizeConcat(k, v);
    SizeConcat(k + v, ok);
    SizeConcat(k + v + ok, ov);
  }

  lemma BodyConcat(p: Plan, xs: seq<Item>, ys: seq<Item>)
    ensures Size(Body(p, xs + ys)) == Size(Body(p, xs)) + Size(Body(p, ys))
  {
    hide ValuesField, KeysField, ArraysFields, Size, ArraysOf;
    ArraysConcat(xs, ys);
    var a, b := ArraysOf(xs), ArraysOf(ys);
    if Relative(p) {
      ValuesSize(5, a.values, b.values);
    } else if p.RemovePlan? {
      ValuesSize(3, a.values, b.values);
      KeysSize(4, a.keys, b.keys);
      SizeConcat(ValuesField(3, a.values), KeysField(4, a.keys));
      SizeConcat(ValuesField(3, b.values), KeysField(4, b.keys));
      SizeConcat(ValuesField(3, a.values + b.values), KeysField(4, a.keys + b.keys));
    } else {
      SizeOfArrays(a, b);
    }
  }

  /** An item that carries something; `encodeItems` produces no other. */
  predicate Carries(it: Item) {
    it.key.Some? || it.orderedKey.Some? || it.value.Some? || it.orderedValue.Some?
  }

  /** The requests of this plan send something of the item. */
  predicate Sends(p: Plan, it: Item) {
    if Relative(p) then it.value.Some?
    else if p.RemovePlan? then it.value.Some? || it.key.Some?
    else Carries(it)
  }

  lemma OneKey(number: FieldNumber, k: Option<Key>)
    ensures if k.Some? then Size(KeysField(number, ToSeq(k))) >= 2 else Size(KeysField(number, ToSeq(k))) == 0
  {
    if k.Some? {
      assert KeysField(number, ToSeq(k)) == [Bytes(number, Encode(KeyFields(k.value)))];
      SizeOne(Bytes(number, Encode(KeyFields(k.value))));
    }
  }

  lemma OneOrderedKey(number: FieldNumber, k: Option<OrderedKey>)
    ensures var size := Size(OrderedKeysField(number, ToSeq(k))); if k.Some? then size >= 2 else size == 0
  {
    if k.Some? {
      assert OrderedKeysField(number, ToSeq(k)) == [Bytes(number, Encode(OrderedKeyFields(k.value)))];
      SizeOne(Bytes(number, Encode(OrderedKeyFields(k.value))));
    }
  }

  lemma OneValue(number: FieldNumber, v: Option<Value>)
    ensures if v.Some? then Size(ValuesField(number, ToSeq(v))) >= 2 else Size(ValuesField(number, ToSeq(v))) == 0
  {
    if v.Some? {
      assert ValuesField(number, ToSeq(v)) == [Bytes(number, Encode(ValueFields(v.value)))];
      SizeOne(Bytes(number, Encode(ValueFields(v.value))));
    }
  }

  lemma OneOrderedValue(number: FieldNumber, v: Option<OrderedValue>)
    ensures var size := Size(OrderedValuesField(number, ToSeq(v))); if v.Some? then size >= 2 else size == 0
  {
    if v.Some? {
      assert OrderedValuesField(number, ToSeq(v)) == [Bytes(number, Encode(OrderedValueFields(v.value)))];
      SizeOne(Bytes(number, Encode(OrderedValueFields(v.value))));
    }
  }

  lemma OneItem(it: Item)
    ensures ArraysOf([it]) == Arrays(ToSeq(it.key), ToSeq(it.orderedKey), ToSeq(it.value), ToSeq(it.orderedValue))
  {
    assert [it][..0] == [];
    assert ArraysOf([it]) == Append(ArraysOf([]), it);
  }

  /** An item adds at least a tag and a length to a request that sends something of it, and else nothing. */
  lemma ItemAddsTwo(p: Plan, it: Item)
    ensures if Sends(p, it) then Size(Body(p, [it])) >= 2 else Size(Body(p, [it])) == 0
  {
    OneItem(it);
    hide Size, ArraysOf, KeysField, OrderedKeysField, ValuesField, OrderedValuesField, ToSeq;
    var a := ArraysOf([it]);
    if Relative(p) {
      OneValue(5, it.value);
    } else if p.RemovePlan? {
      OneValue(3, it.value);
      OneKey(4, it.key);
      SizeConcat(ValuesField(3, a.values), KeysField(4, a.keys));
    } else {
      SizeOfParts(a);
      OneKey(5, it.key);
      OneValue(6, it.value);
      OneOrderedKey(7, it.orderedKey);
      OneOrderedValue(8, it.orderedValue);
    }
  }

  /** Starting one item later makes the position at most one byte longer. */
  lemma HeaderStep(p: Plan, i: nat)
    ensures Size(Header(p, i + 1)) <= Size(Header(p, i)) + (if Relative(p) || !p.AddPlan? then 0 else 1)
  {
    if p.AddPlan? && !Relative(p) {
      var typ := if p.typ == Map || p.typ == OrderedMap then Some(p.typ) else None;
      var front := [Bytes(1, Encode(KeyFields(p.key)))] + Optional(2, OptionalType(typ));
      var a, b := PositionAt(p, i), PositionAt(p, i + 1);
      hide Encode, KeyFields;
      SizeConcat(front, Optional(4, a));
      SizeConcat(front, Optional(4, b));
      PositionStep(p, i);
    }
  }

  lemma PositionStep(p: Plan, i: nat)
    requires p.AddPlan?
    ensures Size(Optional(4, PositionAt(p, i + 1))) <= Size(Optional(4, PositionAt(p, i))) + 1
  {
    hide Encode, Varint;
    var a, b := PositionAt(p, i), PositionAt(p, i + 1);
    if a.Some? {
      var x: int, y: int := a.value, b.value;
      assert y == x + 1 || y == 0 || y == x;
      hide PositionAt;
      SizeOne(Number(4, a.value));
      SizeOne(Number(4, b.value));
      VarintStep(a.value);
      VarintMonotone(0, a.value);
    }
  }

  /** A request for fewer items is no larger, although its position may be longer. */
  lemma {:induction false} SmallerFromLeft(p: Plan, i: nat, k: nat, j: nat)
    requires i <= k <= j <= |p.items|
    requires forall x :: 0 <= x < |p.items| ==> Carries(p.items[x])
    ensures RequestSize(Build(p, k, j)) <= RequestSize(Build(p, i, j))
    decreases k - i
  {
    hide Size, Body, Header, RequestSize, Build;
    if i < k {
      SmallerFromLeft(p, i + 1, k, j);
      SizeOfBuild(p, i, j);
      SizeOfBuild(p, i + 1, j);
      assert p.items[i..j] == [p.items[i]] + p.items[i + 1..j];
      BodyConcat(p, [p.items[i]], p.items[i + 1..j]);
      HeaderStep(p, i);
      if p.AddPlan? && !Relative(p) {
        ItemAddsTwo(p, p.items[i]);
      }
    }
  }

  lemma SmallerFromRight(p: Plan, i: nat, k: nat, j: nat)
    requires i <= k <= j <= |p.items|
    ensures RequestSize(Build(p, i, k)) <= RequestSize(Build(p, i, j))
  {
    hide Size, Body, Header, RequestSize, Build;
    SizeOfBuild(p, i, j);
    SizeOfBuild(p, i, k);
    assert p.items[i..j] == p.items[i..k] + p.items[k..j];
    BodyConcat(p, p.items[i..k], p.items[k..j]);
  }

  // ---- split

  datatype Span = Span(start: nat, end: nat)

  datatype SplitError = HeaderTooLarge | ItemTooLarge(index: nat) | SplitCancelled

  /** Where the first `k` spans end. */
  function Boundary(parts: seq<Span>, k: nat): nat
    requires k <= |parts|
  {
    if k == 0 then 0 else parts[k - 1].end
  }

  /** Non-empty, adjacent spans that cover `[0, n)`. */
  predicate Covers(parts: seq<Span>, n: nat) {
    if parts == [] then n == 0
    else
      var last := parts[|parts| - 1];
      last.start < last.end == n && Covers(parts[..|parts| - 1], last.start)
  }

  lemma {:induction false} CoversAt(parts: seq<Span>, n: nat, k: nat)
    requires Covers(parts, n) && k < |parts|
    ensures parts[k].start == Boundary(parts, k) < parts[k].end <= n
    ensures k + 1 == |parts| ==> parts[k].end == n
  {
    var front := parts[..|parts| - 1];
    if k < |parts| - 1 {
      CoversAt(front, parts[|parts| - 1].start, k);
    } else if k > 0 {
      CoversAt(front, parts[k].start, k - 1);
    }
  }

  predicate AllFit(p: Plan, limit: nat, parts: seq<Span>) {
    forall k :: 0 <= k < |parts| ==>
      parts[k].start <= parts[k].end <= |p.items| && Fits(p, limit, parts[k].start, parts[k].end)
  }

  /** Each span is as long as its request allows. */
  predicate Greedy(p: Plan, limit: nat, parts: seq<Span>) {
    forall k, e :: 0 <= k < |parts| && parts[k].start <= parts[k].end < e <= |p.items| ==>
      !Fits(p, limit, parts[k].start, e)
  }

  predicate FitsAlone(p: Plan, limit: nat, i: nat)
    requires i < |p.items|
  {
    Fits(p, limit, i, i + 1)
  }

  lemma StillTooLarge(p: Plan, limit: nat, i: nat, k: nat, j: nat)
    requires i <= k <= j <= |p.items| && !Fits(p, limit, i, k)
    ensures !Fits(p, limit, i, j)
  {
    SmallerFromRight(p, i, k, j);
  }

  /** The header and every single item fit. */
  predicate Sendable(p: Plan, limit: nat) {
    Fits(p, limit, 0, 0) && forall i :: 0 <= i < |p.items| ==> FitsAlone(p, limit, i)
  }

  /**
   Check every item, then pack. `mayEnd` says that the context may end meanwhile. If it can not, this
   succeeds exactly when the header and every single item fit; and it never fails when that could leave
   anything half done: nothing has been sent yet.
   */
  method Split(p: Plan, limit: nat, mayEnd: bool) returns (r: Result<seq<Span>, SplitError>)
    ensures r.Ok? ==> Covers(r.value, |p.items|) && AllFit(p, limit, r.value) && Greedy(p, limit, r.value)
    ensures r.Ok? ==> Sendable(p, limit)
    ensures r == Err(HeaderTooLarge) <==> !Fits(p, limit, 0, 0)
    ensures r.Err? && r.error.ItemTooLarge? ==> Fits(p, limit, 0, 0) && r.error.index < |p.items|
    ensures r.Err? && r.error.ItemTooLarge? ==>
              !FitsAlone(p, limit, r.error.index) && forall i :: 0 <= i < r.error.index ==> FitsAlone(p, limit, i)
    ensures r == Err(SplitCancelled) ==> mayEnd && p.items != []
    ensures !mayEnd ==> (r.Ok? <==> Sendable(p, limit))
  {
    hide Fits, Covers, AllFit, Greedy;
    var n := |p.items|;
    if !Fits(p, limit, 0, 0) {
      return Err(HeaderTooLarge);
    }
    for i := 0 to n
      invariant forall k :: 0 <= k < i ==> FitsAlone(p, limit, k)
    {
      if mayEnd {
        var cancelled: bool := *;
        if cancelled {
          return Err(SplitCancelled);
        }
      }
      if !FitsAlone(p, limit, i) {
        return Err(ItemTooLarge(i));
      }
    }
    var parts: seq<Span> := [];
    var start := 0;
    NoSpans(p, limit);
    while start < n
      invariant start <= n && Covers(parts, start)
      invariant AllFit(p, limit, parts) && Greedy(p, limit, parts)
    {
      assert FitsAlone(p, limit, start);
      var end := Longest(p, limit, start);
      OneMore(p, limit, parts, Span(start, end));
      parts := parts + [Span(start, end)];
      start := end;
    }
    return Ok(parts);
  }

  lemma NoSpans(p: Plan, limit: nat)
    ensures Covers([], 0) && AllFit(p, limit, []) && Greedy(p, limit, [])
  {
  }

  lemma OneMore(p: Plan, limit: nat, parts: seq<Span>, last: Span)
    requires Covers(parts, last.start) && AllFit(p, limit, parts) && Greedy(p, limit, parts)
    requires last.start < last.end <= |p.items| && Fits(p, limit, last.start, last.end)
    requires forall e :: last.end < e <= |p.items| ==> !Fits(p, limit, last.start, e)
    ensures Covers(parts + [last], last.end) && AllFit(p, limit, parts + [last]) && Greedy(p, limit, parts + [last])
  {
    hide Fits;
    assert (parts + [last])[..|parts|] == parts;
    hide Covers;
    forall k, e | 0 <= k <= |parts| && (parts + [last])[k].start <= (parts + [last])[k].end < e <= |p.items|
      ensures !Fits(p, limit, (parts + [last])[k].start, e)
    {
      if k < |parts| {
        assert (parts + [last])[k] == parts[k];
      }
    }
  }

  /** The binary search for the longest span from `start` whose request fits. */
  method Longest(p: Plan, limit: nat, start: nat) returns (lo: nat)
    requires start < |p.items| && FitsAlone(p, limit, start)
    ensures start < lo <= |p.items| && Fits(p, limit, start, lo)
    ensures forall e :: lo < e <= |p.items| ==> !Fits(p, limit, start, e)
  {
    hide Fits;
    lo := start + 1;
    var hi := |p.items|;
    while lo < hi
      invariant start < lo <= hi <= |p.items| && Fits(p, limit, start, lo)
      invariant forall e :: hi < e <= |p.items| ==> !Fits(p, limit, start, e)
    {
      var mid := lo + (hi - lo + 1) / 2;
      if Fits(p, limit, start, mid) {
        lo := mid;
      } else {
        forall e | mid <= e <= |p.items|
          ensures !Fits(p, limit, start, e)
        {
          StillTooLarge(p, limit, start, mid, e);
        }
        hi := mid - 1;
      }
    }
  }

  // ---- optimality

  lemma StillFits(p: Plan, limit: nat, i: nat, k: nat, j: nat)
    requires forall x :: 0 <= x < |p.items| ==> Carries(p.items[x])
    requires i <= k <= j <= |p.items| && Fits(p, limit, i, j)
    ensures Fits(p, limit, k, j)
  {
    SmallerFromLeft(p, i, k, j);
  }

  /** The greedy spans reach at least as far as any others. */
  lemma {:induction false} StaysAhead(p: Plan, limit: nat, greedy: seq<Span>, other: seq<Span>, k: nat)
    requires forall x :: 0 <= x < |p.items| ==> Carries(p.items[x])
    requires Covers(greedy, |p.items|) && Greedy(p, limit, greedy)
    requires Covers(other, |p.items|) && AllFit(p, limit, other)
    requires k <= |greedy| && k <= |other|
    ensures Boundary(other, k) <= Boundary(greedy, k)
  {
    hide Fits, Covers;
    if k > 0 {
      StaysAhead(p, limit, greedy, other, k - 1);
      var g, o := greedy[k - 1], other[k - 1];
      CoversAt(greedy, |p.items|, k - 1);
      CoversAt(other, |p.items|, k - 1);
      if g.end < o.end {
        StillFits(p, limit, o.start, g.start, o.end);
      }
    }
  }

  lemma CoversEnd(parts: seq<Span>, n: nat)
    requires Covers(parts, n)
    ensures Boundary(parts, |parts|) == n
  {
  }

  /** `split` uses the fewest requests of all contiguous partitions whose requests fit. */
  lemma SplitIsOptimal(p: Plan, limit: nat, greedy: seq<Span>, other: seq<Span>)
    requires forall x :: 0 <= x < |p.items| ==> Carries(p.items[x])
    requires Covers(greedy, |p.items|) && Greedy(p, limit, greedy)
    requires Covers(other, |p.items|) && AllFit(p, limit, other)
    ensures |greedy| <= |other|
  {
    hide Fits, Covers;
    if |other| < |greedy| {
      CoversAt(greedy, |p.items|, |other|);
      CoversEnd(other, |p.items|);
      StaysAhead(p, limit, greedy, other, |other|);
    }
  }

  // ---- positions (collections.go:239-260)

  /** The positions of a positional insertion never wrap, never equal the value that means "no position",
      and increase from request to request. */
  lemma PositionsExact(p: Plan, i: nat)
    requires p.AddPlan? && p.kind == Position && p.pos + |p.items| <= MAX_UINT32 && i < |p.items|
    ensures PositionAt(p, i) == Some(p.pos + i) && p.pos + i < MAX_UINT32
    ensures forall k: nat :: k < i ==> PositionAt(p, k).Some? && PositionAt(p, k).value < PositionAt(p, i).value
  {
  }
}
