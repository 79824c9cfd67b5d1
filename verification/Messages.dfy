/** The messages of cache.proto that the collection operations send, with their fields on the wire. */
module Messages {
  import opened Wrappers
  import opened Wire
  import opened Sequences

  datatype KeyHint = KeyHint(weak: Option<uint32>, strong: Option<uint32>)
  datatype CompressedInfo = CompressedInfo(enabled: bool, rawSize: Option<uint32>)
  /** `BinaryPayload` and `KeyBinaryPayload`. */
  datatype Blob = Blob(payload: seq<byte>, size: uint32)
  datatype LockInfo = LockInfo(kind: uint32, lockedBy: Option<uint32>, lockedTill: Option<uint64>)

  datatype Key = Key(payload: Option<Blob>, compression: Option<CompressedInfo>,
                     hint: Option<KeyHint>, clientId: Option<uint32>)
  datatype OrderedKey = OrderedKey(payload: Option<Blob>, order: Option<uint64>, compression: Option<CompressedInfo>,
                                   hint: Option<KeyHint>, clientId: Option<uint32>)
  datatype Value = Value(blob: Option<Blob>, compression: Option<CompressedInfo>,
                         ttl: Option<uint64>, lock: Option<LockInfo>)
  datatype OrderedValue = OrderedValue(blob: Option<Blob>, order: Option<uint64>, compression: Option<CompressedInfo>,
                                       ttl: Option<uint64>, lock: Option<LockInfo>)

  const NO_KEY := Key(None, None, None, None)
  const NO_ORDERED_KEY := OrderedKey(None, None, None, None, None)
  const NO_VALUE := Value(None, None, None, None)
  const NO_ORDERED_VALUE := OrderedValue(None, None, None, None, None)

  datatype ContainerType = Undefined | Vector | List | Queue | Set | Map | OrderedMap | OrderedSet

  /** One collection element; a map pair is one item (collections.go:16-21). */
  datatype Item = Item(key: Option<Key>, orderedKey: Option<OrderedKey>,
                       value: Option<Value>, orderedValue: Option<OrderedValue>)

  function KeyOf(it: Item): Key {
    if it.key.Some? then it.key.value else NO_KEY
  }

  function OrderedKeyOf(it: Item): OrderedKey {
    if it.orderedKey.Some? then it.orderedKey.value else NO_ORDERED_KEY
  }

  function ValueOf(it: Item): Value {
    if it.value.Some? then it.value.value else NO_VALUE
  }

  function OrderedValueOf(it: Item): OrderedValue {
    if it.orderedValue.Some? then it.orderedValue.value else NO_ORDERED_VALUE
  }

  /** The parallel arrays of a request or of a batch response. */
  datatype Arrays = Arrays(keys: seq<Key>, orderedKeys: seq<OrderedKey>,
                           values: seq<Value>, orderedValues: seq<OrderedValue>)

  datatype Request =
    | AddTo(key: Key, typ: Option<ContainerType>, pos: Option<uint32>, items: Arrays)
    | AddToVal(key: Key, isBefore: bool, pivot: Value, values: seq<Value>)
    | Create(key: Key, containerType: ContainerType, ttl: Option<uint64>, items: Arrays)
    | Remove(key: Key, removeType: ContainerType, values: seq<Value>, keys: seq<Key>)
    | Get(key: Key)
    | Range(key: Key, rangeType: Option<ContainerType>, start: uint64, end: Option<uint64>, reverse: bool)

  // ---- fields

  /** A proto3 field without presence: zero is not sent. */
  function Implicit(number: FieldNumber, value: nat): seq<Field> {
    if value == 0 then [] else [Number(number, value)]
  }

  function ImplicitBytes(number: FieldNumber, payload: seq<byte>): seq<Field> {
    if payload == [] then [] else [Bytes(number, payload)]
  }

  function Optional(number: FieldNumber, value: Option<int>): seq<Field>
    requires value.Some? ==> value.value >= 0
  {
    if value.None? then [] else [Number(number, value.value)]
  }

  function Flag(number: FieldNumber, value: bool): seq<Field> {
    Implicit(number, if value then 1 else 0)
  }

  function Sub(number: FieldNumber, fields: Option<seq<Field>>): seq<Field> {
    if fields.None? then [] else [Bytes(number, Encode(fields.value))]
  }

  function HintFields(h: Option<KeyHint>): Option<seq<Field>> {
    if h.None? then None else Some(Optional(1, h.value.weak) + Optional(2, h.value.strong))
  }

  function CompressionFields(c: Option<CompressedInfo>): Option<seq<Field>> {
    if c.None? then None else Some(Flag(1, c.value.enabled) + Optional(2, c.value.rawSize))
  }

  function BlobFields(b: Option<Blob>): Option<seq<Field>> {
    if b.None? then None else Some(ImplicitBytes(1, b.value.payload) + Implicit(2, b.value.size))
  }

  function LockFields(l: Option<LockInfo>): Option<seq<Field>> {
    if l.None? then None
    else Some(Implicit(1, l.value.kind) + Optional(2, l.value.lockedBy) + Optional(3, l.value.lockedTill))
  }

  function KeyFields(k: Key): seq<Field> {
    Sub(1, BlobFields(k.payload)) + Sub(2, CompressionFields(k.compression)) + Sub(3, HintFields(k.hint))
    + Optional(4, k.clientId)
  }

  function OrderedKeyFields(k: OrderedKey): seq<Field> {
    Sub(1, BlobFields(k.payload)) + Optional(2, k.order) + Sub(3, CompressionFields(k.compression))
    + Sub(4, HintFields(k.hint)) + Optional(5, k.clientId)
  }

  function ValueFields(v: Value): seq<Field> {
    Sub(1, BlobFields(v.blob)) + Sub(2, CompressionFields(v.compression)) + Optional(3, v.ttl)
    + Sub(4, LockFields(v.lock))
  }

  function OrderedValueFields(v: OrderedValue): seq<Field> {
    Sub(1, BlobFields(v.blob)) + Optional(2, v.order) + Sub(3, CompressionFields(v.compression))
    + Optional(4, v.ttl) + Sub(5, LockFields(v.lock))
  }

  function TypeNumber(t: ContainerType): nat {
    match t
    case Undefined => 0 case Vector => 1 case List => 2 case Queue => 3
    case Set => 4 case Map => 5 case OrderedMap => 6 case OrderedSet => 7
  }

  function KeysField(number: FieldNumber, ks: seq<Key>): seq<Field> {
    seq(|ks|, i requires 0 <= i < |ks| => Bytes(number, Encode(KeyFields(ks[i]))))
  }

  function OrderedKeysField(number: FieldNumber, ks: seq<OrderedKey>): seq<Field> {
    seq(|ks|, i requires 0 <= i < |ks| => Bytes(number, Encode(OrderedKeyFields(ks[i]))))
  }

  function ValuesField(number: FieldNumber, vs: seq<Value>): seq<Field> {
    seq(|vs|, i requires 0 <= i < |vs| => Bytes(number, Encode(ValueFields(vs[i]))))
  }

  function OrderedValuesField(number: FieldNumber, vs: seq<OrderedValue>): seq<Field> {
    seq(|vs|, i requires 0 <= i < |vs| => Bytes(number, Encode(OrderedValueFields(vs[i]))))
  }

  /** Fields 5 to 8 of the create and add requests. */
  function ArraysFields(a: Arrays): seq<Field> {
    KeysField(5, a.keys) + ValuesField(6, a.values) + OrderedKeysField(7, a.orderedKeys)
    + OrderedValuesField(8, a.orderedValues)
  }

  function OptionalType(t: Option<ContainerType>): Option<nat> {
    if t.None? then None else Some(TypeNumber(t.value))
  }

  function RequestFields(r: Request): seq<Field> {
    match r
    case AddTo(key, typ, pos, items) =>
      [Bytes(1, Encode(KeyFields(key)))] + Optional(2, OptionalType(typ)) + Optional(4, pos) + ArraysFields(items)
    case AddToVal(key, isBefore, pivot, values) =>
      [Bytes(1, Encode(KeyFields(key)))] + Flag(3, isBefore) + [Bytes(4, Encode(ValueFields(pivot)))]
      + ValuesField(5, values)
    case Create(key, t, ttl, items) =>
      [Bytes(1, Encode(KeyFields(key)))] + Implicit(2, TypeNumber(t)) + Optional(3, ttl) + ArraysFields(items)
    case Remove(key, t, values, keys) =>
      [Bytes(1, Encode(KeyFields(key)))] + Optional(2, Some(TypeNumber(t))) + ValuesField(3, values)
      + KeysField(4, keys)
    case Get(key) =>
      [Bytes(1, Encode(KeyFields(key)))]
    case Range(key, t, start, end, reverse) =>
      [Bytes(1, Encode(KeyFields(key)))] + Optional(2, OptionalType(t)) + Implicit(3, start) + Optional(4, end)
      + Flag(6, reverse)
  }

  /** `proto.Size` of a request. */
  function RequestSize(r: Request): nat {
    Size(RequestFields(r))
  }

  // ---- addRequest (collections.go:101-118)

  function ArraysOf(items: seq<Item>): Arrays {
    if items == [] then Arrays([], [], [], [])
    else Append(ArraysOf(items[..|items| - 1]), items[|items| - 1])
  }

  function Append(a: Arrays, it: Item): Arrays {
    Arrays(a.keys + ToSeq(it.key), a.orderedKeys + ToSeq(it.orderedKey),
           a.values + ToSeq(it.value), a.orderedValues + ToSeq(it.orderedValue))
  }

  function ToSeq<T>(o: Option<T>): seq<T> {
    if o.None? then [] else [o.value]
  }

  /** Transpose the items into the parallel arrays. */
  method BuildArrays(items: seq<Item>) returns (a: Arrays)
    ensures a == ArraysOf(items)
  {
    a := Arrays([], [], [], []);
    for i := 0 to |items|
      invariant a == ArraysOf(items[..i])
    {
      assert items[..i + 1][..i] == items[..i];
      var it := items[i];
      if it.key.Some? {
        a := a.(keys := a.keys + [it.key.value]);
      }
      if it.orderedKey.Some? {
        a := a.(orderedKeys := a.orderedKeys + [it.orderedKey.value]);
      }
      if it.value.Some? {
        a := a.(values := a.values + [it.value.value]);
      }
      if it.orderedValue.Some? {
        a := a.(orderedValues := a.orderedValues + [it.orderedValue.value]);
      }
    }
    assert items[..|items|] == items;
  }

  function ConcatArrays(a: Arrays, b: Arrays): Arrays {
    Arrays(a.keys + b.keys, a.orderedKeys + b.orderedKeys, a.values + b.values, a.orderedValues + b.orderedValues)
  }

  lemma AppendConcat(a: Arrays, b: Arrays, it: Item)
    ensures Append(ConcatArrays(a, b), it) == ConcatArrays(a, Append(b, it))
  {
    SeqAssoc(a.keys, b.keys, ToSeq(it.key));
    SeqAssoc(a.orderedKeys, b.orderedKeys, ToSeq(it.orderedKey));
    SeqAssoc(a.values, b.values, ToSeq(it.value));
    SeqAssoc(a.orderedValues, b.orderedValues, ToSeq(it.orderedValue));
  }

  lemma {:induction false} ArraysConcat(a: seq<Item>, b: seq<Item>)
    ensures ArraysOf(a + b) == ConcatArrays(ArraysOf(a), ArraysOf(b))
  {
    if b == [] {
      assert a + b == a;
    } else {
      var front := b[..|b| - 1];
      var last := b[|b| - 1];
      assert (a + b)[..|a + b| - 1] == a + front && (a + b)[|a + b| - 1] == last;
      ArraysConcat(a, front);
      AppendConcat(ArraysOf(a), ArraysOf(front), last);
    }
  }
}
