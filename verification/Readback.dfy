/**
 The requests as the server reads them (proto/cache.proto). The reader below knows only the schema; what it
 reads from the bytes of a request is the request. So the size that the client checks is the size of all of it.
 */
module Readback {
  import opened Wrappers
  import opened Wire
  import opened Messages
  import opened Packing
  import opened Networks
  import opened Reserve
  import opened Sending
  import opened Sequences

  // ---- the fields of one number

  /** The fields with this number, in order. */
  function Only(fs: seq<Field>, number: int): seq<Field> {
    if fs == [] then []
    else
      var last := fs[|fs| - 1];
      Only(fs[..|fs| - 1], number) + if last.number == number then [last] else []
  }

  predicate Tagged(fs: seq<Field>, number: int) {
    forall i :: 0 <= i < |fs| ==> fs[i].number == number
  }

  lemma {:induction false} OnlyTagged(fs: seq<Field>, number: int, n: int)
    requires Tagged(fs, number)
    ensures Only(fs, n) == if n == number then fs else []
  {
    if fs != [] {
      var front := fs[..|fs| - 1];
      assert forall i :: 0 <= i < |front| ==> front[i] == fs[i];
      OnlyTagged(front, number, n);
      assert fs == front + [fs[|fs| - 1]];
    }
  }

  lemma {:induction false} OnlyConcat(a: seq<Field>, b: seq<Field>, n: int)
    ensures Only(a + b, n) == Only(a, n) + Only(b, n)
  {
    if b == [] {
      assert a + b == a;
    } else {
      var front := b[..|b| - 1];
      assert (a + b)[..|a + b| - 1] == a + front;
      OnlyConcat(a, front, n);
    }
  }

  /** A part of a message adds its fields under its own number and nothing under the others. */
  lemma Part(front: seq<Field>, part: seq<Field>, number: int)
    requires Tagged(part, number)
    ensures forall n :: Only(front + part, n) == if n == number then Only(front, n) + part else Only(front, n)
  {
    forall n
      ensures Only(front + part, n) == if n == number then Only(front, n) + part else Only(front, n)
    {
      OnlyConcat(front, part, n);
      OnlyTagged(part, number, n);
    }
  }

  /** The first part of a message. */
  lemma FirstPart(part: seq<Field>, number: int)
    requires Tagged(part, number)
    ensures forall n :: Only(part, n) == if n == number then part else []
  {
    forall n
      ensures Only(part, n) == if n == number then part else []
    {
      OnlyTagged(part, number, n);
    }
  }

  lemma TwoParts(a: seq<Field>, b: seq<Field>, i: int, j: int)
    requires Tagged(a, i) && Tagged(b, j) && i != j
    ensures Only(a + b, i) == a && Only(a + b, j) == b
    ensures forall n :: n != i && n != j ==> Only(a + b, n) == []
  {
    hide Only, Tagged;
    FirstPart(a, i);
    Part(a, b, j);
  }

  lemma ThreeParts(a: seq<Field>, b: seq<Field>, c: seq<Field>, i: int, j: int, k: int)
    requires Tagged(a, i) && Tagged(b, j) && Tagged(c, k) && i != j && i != k && j != k
    ensures var fs := a + b + c;
            && Only(fs, i) == a && Only(fs, j) == b && Only(fs, k) == c
            && forall n :: n != i && n != j && n != k ==> Only(fs, n) == []
  {
    hide Only, Tagged;
    TwoParts(a, b, i, j);
    Part(a + b, c, k);
  }

  lemma FourParts(a: seq<Field>, b: seq<Field>, c: seq<Field>, d: seq<Field>, i: int, j: int, k: int, l: int)
    requires Tagged(a, i) && Tagged(b, j) && Tagged(c, k) && Tagged(d, l)
    requires i != j && i != k && j != k && l != i && l != j && l != k
    ensures var fs := a + b + c + d;
            Only(fs, i) == a && Only(fs, j) == b && Only(fs, k) == c && Only(fs, l) == d
  {
    hide Only, Tagged;
    ThreeParts(a, b, c, i, j, k);
    Part(a + b + c, d, l);
  }

  /** The messages that have five fields number them from 1 on. */
  lemma FiveParts(a: seq<Field>, b: seq<Field>, c: seq<Field>, d: seq<Field>, e: seq<Field>, last: int)
    requires Tagged(a, 1) && Tagged(b, 2) && Tagged(c, 3) && Tagged(d, 4) && Tagged(e, last) && last > 4
    ensures var fs := a + b + c + d + e;
            Only(fs, 1) == a && Only(fs, 2) == b && Only(fs, 3) == c && Only(fs, 4) == d && Only(fs, last) == e
  {
    hide Only, Tagged;
    FourParts(a, b, c, d, 1, 2, 3, 4);
    ThreeParts(a, b, c, 1, 2, 3);
    Part(a + b + c, d, 4);
    Part(a + b + c + d, e, last);
  }

  lemma SubTagged(number: FieldNumber, sub: Option<seq<Field>>)
    ensures Tagged(Sub(number, sub), number)
  {
  }

  lemma NumberTagged(number: FieldNumber, optional: Option<int>, value: nat)
    requires optional.Some? ==> optional.value >= 0
    ensures Tagged(Optional(number, optional), number) && Tagged(Implicit(number, value), number)
  {
  }

  // ---- the reader

  function FieldsIn(b: seq<byte>): seq<Field> {
    var r := Decode(b);
    if r.Some? then r.value else []
  }

  /** A field that occurs at most once: its last occurrence counts. */
  function NumberIn(fs: seq<Field>, number: int): Option<nat> {
    var here := Only(fs, number);
    if here != [] && here[|here| - 1].Number? then Some(here[|here| - 1].value) else None
  }

  function RecordIn(fs: seq<Field>, number: int): Option<seq<byte>> {
    var here := Only(fs, number);
    if here != [] && here[|here| - 1].Bytes? then Some(here[|here| - 1].payload) else None
  }

  /** A repeated field. */
  function RecordsIn(fs: seq<Field>, number: int): seq<seq<byte>> {
    var here := Only(fs, number);
    seq(|here|, i requires 0 <= i < |here| => if here[i].Bytes? then here[i].payload else [])
  }

  /** Integers are read modulo the width of their type, and absent ones without presence as 0. */
  function As32(n: Option<nat>): Option<uint32> {
    if n.None? then None else Some(n.value % 0x1_0000_0000)
  }

  function As64(n: Option<nat>): Option<uint64> {
    if n.None? then None else Some(n.value % 0x1_0000_0000_0000_0000)
  }

  function IsSet(n: Option<nat>): bool {
    n.Some? && n.value != 0
  }

  function OrZero(n: Option<uint32>): uint32 {
    if n.None? then 0 else n.value
  }

  function OrZero64(n: Option<uint64>): uint64 {
    if n.None? then 0 else n.value
  }

  function OrEmpty(b: Option<seq<byte>>): seq<byte> {
    if b.None? then [] else b.value
  }

  function ReadBlob(b: Option<seq<byte>>): Option<Blob> {
    if b.None? then None
    else var fs := FieldsIn(b.value); Some(Blob(OrEmpty(RecordIn(fs, 1)), OrZero(As32(NumberIn(fs, 2)))))
  }

  function ReadCompression(b: Option<seq<byte>>): Option<CompressedInfo> {
    if b.None? then None
    else
      var fs := FieldsIn(b.value);
      Some(CompressedInfo(IsSet(NumberIn(fs, 1)), As32(NumberIn(fs, 2))))
  }

  function ReadHint(b: Option<seq<byte>>): Option<KeyHint> {
    if b.None? then None
    else var fs := FieldsIn(b.value); Some(KeyHint(As32(NumberIn(fs, 1)), As32(NumberIn(fs, 2))))
  }

  function ReadLock(b: Option<seq<byte>>): Option<LockInfo> {
    if b.None? then None
    else
      var fs := FieldsIn(b.value);
      Some(LockInfo(OrZero(As32(NumberIn(fs, 1))), As32(NumberIn(fs, 2)), As64(NumberIn(fs, 3))))
  }

  function ReadKey(b: seq<byte>): Key {
    var fs := FieldsIn(b);
    Key(ReadBlob(RecordIn(fs, 1)), ReadCompression(RecordIn(fs, 2)), ReadHint(RecordIn(fs, 3)), As32(NumberIn(fs, 4)))
  }

  function ReadOrderedKey(b: seq<byte>): OrderedKey {
    var fs := FieldsIn(b);
    OrderedKey(ReadBlob(RecordIn(fs, 1)), As64(NumberIn(fs, 2)), ReadCompression(RecordIn(fs, 3)),
               ReadHint(RecordIn(fs, 4)), As32(NumberIn(fs, 5)))
  }

  function ReadValue(b: seq<byte>): Value {
    var fs := FieldsIn(b);
    Value(ReadBlob(RecordIn(fs, 1)), ReadCompression(RecordIn(fs, 2)), As64(NumberIn(fs, 3)), ReadLock(RecordIn(fs, 4)))
  }

  function ReadOrderedValue(b: seq<byte>): OrderedValue {
    var fs := FieldsIn(b);
    OrderedValue(ReadBlob(RecordIn(fs, 1)), As64(NumberIn(fs, 2)), ReadCompression(RecordIn(fs, 3)),
                 As64(NumberIn(fs, 4)), ReadLock(RecordIn(fs, 5)))
  }

  /** All records of a repeated field. */
  function Each<T>(read: seq<byte> -> T, records: seq<seq<byte>>): seq<T> {
    seq(|records|, i requires 0 <= i < |records| => read(records[i]))
  }

  function ReadArrays(fs: seq<Field>): Arrays {
    Arrays(Each(ReadKey, RecordsIn(fs, 5)), Each(ReadOrderedKey, RecordsIn(fs, 7)),
           Each(ReadValue, RecordsIn(fs, 6)), Each(ReadOrderedValue, RecordsIn(fs, 8)))
  }

  function TypeOf(n: nat): ContainerType {
    if n == 1 then Vector else if n == 2 then List else if n == 3 then Queue else if n == 4 then Set
    else if n == 5 then Map else if n == 6 then OrderedMap else if n == 7 then OrderedSet else Undefined
  }

  function OptionalTypeOf(n: Option<nat>): Option<ContainerType> {
    if n.None? then None else Some(TypeOf(n.value))
  }

  function OrUndefined(t: Option<ContainerType>): ContainerType {
    if t.None? then Undefined else t.value
  }

  /** What a server makes of the bytes of a request of this RPC. */
  function ReadRequest(rpc: Rpc, b: seq<byte>): Request {
    var fs := FieldsIn(b);
    var key := ReadKey(OrEmpty(RecordIn(fs, 1)));
    match rpc
    case CreateWhole =>
      Create(key, OrUndefined(OptionalTypeOf(NumberIn(fs, 2))), As64(NumberIn(fs, 3)), ReadArrays(fs))
    case AddByValue =>
      AddToVal(key, IsSet(NumberIn(fs, 3)), ReadValue(OrEmpty(RecordIn(fs, 4))),
               Each(ReadValue, RecordsIn(fs, 5)))
    case RemoveByKeyValue =>
      Remove(key, OrUndefined(OptionalTypeOf(NumberIn(fs, 2))),
             Each(ReadValue, RecordsIn(fs, 3)), Each(ReadKey, RecordsIn(fs, 4)))
    case ReadAll => Get(key)
    case ReadRange =>
      Range(key, OptionalTypeOf(NumberIn(fs, 2)), OrZero64(As64(NumberIn(fs, 3))), As64(NumberIn(fs, 4)),
            IsSet(NumberIn(fs, 6)))
    case _ => AddTo(key, OptionalTypeOf(NumberIn(fs, 2)), As32(NumberIn(fs, 4)), ReadArrays(fs))
  }

  // ---- submessages are read back

  lemma WrittenFields(fs: seq<Field>)
    ensures FieldsIn(Encode(fs)) == fs
  {
    RoundTrip(fs);
  }

  function Written(fields: Option<seq<Field>>): Option<seq<byte>> {
    if fields.None? then None else Some(Encode(fields.value))
  }

  lemma SubBack(fs: seq<Field>, number: FieldNumber, sub: Option<seq<Field>>)
    requires Only(fs, number) == Sub(number, sub)
    ensures RecordIn(fs, number) == Written(sub)
  {
  }

  lemma OptionalBack(fs: seq<Field>, number: FieldNumber, value: Option<int>)
    requires value.Some? ==> value.value >= 0
    requires Only(fs, number) == Optional(number, value)
    ensures NumberIn(fs, number) == value
  {
  }

  lemma ImplicitBack(fs: seq<Field>, number: FieldNumber, value: nat)
    requires Only(fs, number) == Implicit(number, value)
    ensures NumberIn(fs, number) == if value == 0 then None else Some(value)
  {
  }

  lemma BytesBack(fs: seq<Field>, number: FieldNumber, payload: seq<byte>)
    requires Only(fs, number) == ImplicitBytes(number, payload)
    ensures OrEmpty(RecordIn(fs, number)) == payload
  {
  }

  lemma BlobBack(b: Option<Blob>)
    ensures ReadBlob(Written(BlobFields(b))) == b
  {
    hide Encode, Only;
    if b.Some? {
      var fs := BlobFields(b).value;
      WrittenFields(fs);
      FirstPart(ImplicitBytes(1, b.value.payload), 1);
      Part(ImplicitBytes(1, b.value.payload), Implicit(2, b.value.size), 2);
      BytesBack(fs, 1, b.value.payload);
      ImplicitBack(fs, 2, b.value.size);
    }
  }

  lemma CompressionBack(c: Option<CompressedInfo>)
    ensures ReadCompression(Written(CompressionFields(c))) == c
  {
    hide Encode, Only;
    if c.Some? {
      var fs := CompressionFields(c).value;
      WrittenFields(fs);
      FirstPart(Flag(1, c.value.enabled), 1);
      Part(Flag(1, c.value.enabled), Optional(2, c.value.rawSize), 2);
      ImplicitBack(fs, 1, if c.value.enabled then 1 else 0);
      OptionalBack(fs, 2, c.value.rawSize);
    }
  }

  lemma HintBack(h: Option<KeyHint>)
    ensures ReadHint(Written(HintFields(h))) == h
  {
    hide Encode, Only;
    if h.Some? {
      var fs := HintFields(h).value;
      WrittenFields(fs);
      FirstPart(Optional(1, h.value.weak), 1);
      Part(Optional(1, h.value.weak), Optional(2, h.value.strong), 2);
      OptionalBack(fs, 1, h.value.weak);
      OptionalBack(fs, 2, h.value.strong);
    }
  }

  lemma LockBack(l: Option<LockInfo>)
    ensures ReadLock(Written(LockFields(l))) == l
  {
    hide Encode, Only, Tagged, Implicit, Optional, NumberIn;
    if l.Some? {
      var fs := LockFields(l).value;
      WrittenFields(fs);
      NumberTagged(1, None, l.value.kind);
      NumberTagged(2, l.value.lockedBy, 0);
      NumberTagged(3, l.value.lockedTill, 0);
      ThreeParts(Implicit(1, l.value.kind), Optional(2, l.value.lockedBy), Optional(3, l.value.lockedTill), 1, 2, 3);
      ImplicitBack(fs, 1, l.value.kind);
      OptionalBack(fs, 2, l.value.lockedBy);
      OptionalBack(fs, 3, l.value.lockedTill);
    }
  }

  lemma KeyBack(k: Key)
    ensures ReadKey(Encode(KeyFields(k))) == k
  {
    hide Encode, Only, Tagged, Sub, Optional, BlobFields, CompressionFields, HintFields, RecordIn, NumberIn, Written,
      ReadBlob, ReadCompression, ReadHint;
    var fs := KeyFields(k);
    WrittenFields(fs);
    SubTagged(1, BlobFields(k.payload));
    SubTagged(2, CompressionFields(k.compression));
    SubTagged(3, HintFields(k.hint));
    NumberTagged(4, k.clientId, 0);
    FourParts(Sub(1, BlobFields(k.payload)), Sub(2, CompressionFields(k.compression)), Sub(3, HintFields(k.hint)),
              Optional(4, k.clientId), 1, 2, 3, 4);
    hide KeyFields;
    SubBack(fs, 1, BlobFields(k.payload));
    SubBack(fs, 2, CompressionFields(k.compression));
    SubBack(fs, 3, HintFields(k.hint));
    OptionalBack(fs, 4, k.clientId);
    BlobBack(k.payload);
    CompressionBack(k.compression);
    HintBack(k.hint);
  }

  lemma OrderedKeyBack(k: OrderedKey)
    ensures ReadOrderedKey(Encode(OrderedKeyFields(k))) == k
  {
    hide Encode, Only, Tagged, Sub, Optional, BlobFields, CompressionFields, HintFields, RecordIn, NumberIn, Written,
      ReadBlob, ReadCompression, ReadHint;
    var fs := OrderedKeyFields(k);
    WrittenFields(fs);
    SubTagged(1, BlobFields(k.payload));
    NumberTagged(2, k.order, 0);
    SubTagged(3, CompressionFields(k.compression));
    SubTagged(4, HintFields(k.hint));
    NumberTagged(5, k.clientId, 0);
    FiveParts(Sub(1, BlobFields(k.payload)), Optional(2, k.order), Sub(3, CompressionFields(k.compression)),
              Sub(4, HintFields(k.hint)), Optional(5, k.clientId), 5);
    hide OrderedKeyFields;
    SubBack(fs, 1, BlobFields(k.payload));
    OptionalBack(fs, 2, k.order);
    SubBack(fs, 3, CompressionFields(k.compression));
    SubBack(fs, 4, HintFields(k.hint));
    OptionalBack(fs, 5, k.clientId);
    BlobBack(k.payload);
    CompressionBack(k.compression);
    HintBack(k.hint);
  }

  lemma ValueBack(v: Value)
    ensures ReadValue(Encode(ValueFields(v))) == v
  {
    hide Encode, Only, Tagged, Sub, Optional, BlobFields, CompressionFields, LockFields, RecordIn, NumberIn, Written,
      ReadBlob, ReadCompression, ReadLock;
    var fs := ValueFields(v);
    WrittenFields(fs);
    SubTagged(1, BlobFields(v.blob));
    SubTagged(2, CompressionFields(v.compression));
    NumberTagged(3, v.ttl, 0);
    SubTagged(4, LockFields(v.lock));
    FourParts(Sub(1, BlobFields(v.blob)), Sub(2, CompressionFields(v.compression)), Optional(3, v.ttl),
              Sub(4, LockFields(v.lock)), 1, 2, 3, 4);
    hide ValueFields;
    SubBack(fs, 1, BlobFields(v.blob));
    SubBack(fs, 2, CompressionFields(v.compression));
    OptionalBack(fs, 3, v.ttl);
    SubBack(fs, 4, LockFields(v.lock));
    BlobBack(v.blob);
    CompressionBack(v.compression);
    LockBack(v.lock);
  }

  lemma OrderedValueBack(v: OrderedValue)
    ensures ReadOrderedValue(Encode(OrderedValueFields(v))) == v
  {
    hide Encode, Only, Tagged, Sub, Optional, BlobFields, CompressionFields, LockFields, RecordIn, NumberIn, Written,
      ReadBlob, ReadCompression, ReadLock;
    var fs := OrderedValueFields(v);
    WrittenFields(fs);
    SubTagged(1, BlobFields(v.blob));
    NumberTagged(2, v.order, 0);
    SubTagged(3, CompressionFields(v.compression));
    NumberTagged(4, v.ttl, 0);
    SubTagged(5, LockFields(v.lock));
    FiveParts(Sub(1, BlobFields(v.blob)), Optional(2, v.order), Sub(3, CompressionFields(v.compression)),
              Optional(4, v.ttl), Sub(5, LockFields(v.lock)), 5);
    hide OrderedValueFields;
    SubBack(fs, 1, BlobFields(v.blob));
    OptionalBack(fs, 2, v.order);
    SubBack(fs, 3, CompressionFields(v.compression));
    OptionalBack(fs, 4, v.ttl);
    SubBack(fs, 5, LockFields(v.lock));
    BlobBack(v.blob);
    CompressionBack(v.compression);
    LockBack(v.lock);
  }

  // ---- repeated fields

  /** A repeated field whose records are each read back. */
  lemma EachBack<T>(fs: seq<Field>, number: FieldNumber, records: seq<Field>, read: seq<byte> -> T, xs: seq<T>)
    requires Only(fs, number) == records && |records| == |xs|
    requires forall i :: 0 <= i < |xs| ==> records[i].Bytes? && read(records[i].payload) == xs[i]
    ensures Each(read, RecordsIn(fs, number)) == xs
  {
  }

  lemma KeysBack(fs: seq<Field>, number: FieldNumber, ks: seq<Key>)
    requires Only(fs, number) == KeysField(number, ks)
    ensures Each(ReadKey, RecordsIn(fs, number)) == ks
  {
    hide Only, ReadKey, Encode, KeyFields, RecordsIn, Each;
    forall i | 0 <= i < |ks|
      ensures ReadKey(KeysField(number, ks)[i].payload) == ks[i]
    {
      KeyBack(ks[i]);
    }
    EachBack(fs, number, KeysField(number, ks), ReadKey, ks);
  }

  lemma OrderedKeysBack(fs: seq<Field>, number: FieldNumber, ks: seq<OrderedKey>)
    requires Only(fs, number) == OrderedKeysField(number, ks)
    ensures Each(ReadOrderedKey, RecordsIn(fs, number)) == ks
  {
    hide Only, ReadOrderedKey, Encode, OrderedKeyFields, RecordsIn, Each;
    forall i | 0 <= i < |ks|
      ensures ReadOrderedKey(OrderedKeysField(number, ks)[i].payload) == ks[i]
    {
      OrderedKeyBack(ks[i]);
    }
    EachBack(fs, number, OrderedKeysField(number, ks), ReadOrderedKey, ks);
  }

  lemma ValuesBack(fs: seq<Field>, number: FieldNumber, vs: seq<Value>)
    requires Only(fs, number) == ValuesField(number, vs)
    ensures Each(ReadValue, RecordsIn(fs, number)) == vs
  {
    hide Only, ReadValue, Encode, ValueFields, RecordsIn, Each;
    forall i | 0 <= i < |vs|
      ensures ReadValue(ValuesField(number, vs)[i].payload) == vs[i]
    {
      ValueBack(vs[i]);
    }
    EachBack(fs, number, ValuesField(number, vs), ReadValue, vs);
  }

  lemma OrderedValuesBack(fs: seq<Field>, number: FieldNumber, vs: seq<OrderedValue>)
    requires Only(fs, number) == OrderedValuesField(number, vs)
    ensures Each(ReadOrderedValue, RecordsIn(fs, number)) == vs
  {
    hide Only, ReadOrderedValue, Encode, OrderedValueFields, RecordsIn, Each;
    forall i | 0 <= i < |vs|
      ensures ReadOrderedValue(OrderedValuesField(number, vs)[i].payload) == vs[i]
    {
      OrderedValueBack(vs[i]);
    }
    EachBack(fs, number, OrderedValuesField(number, vs), ReadOrderedValue, vs);
  }

  /** The four arrays behind the other fields of a request. */
  lemma ArraysBack(front: seq<Field>, a: Arrays)
    requires Only(front, 5) == [] && Only(front, 6) == [] && Only(front, 7) == [] && Only(front, 8) == []
    ensures ReadArrays(front + ArraysFields(a)) == a
    ensures forall n :: n < 5 ==> Only(front + ArraysFields(a), n) == Only(front, n)
  {
    hide *;
    var k, v := KeysField(5, a.keys), ValuesField(6, a.values);
    var ok, ov := OrderedKeysField(7, a.orderedKeys), OrderedValuesField(8, a.orderedValues);
    var fs := front + ArraysFields(a);
    ArraysTagged(front, a);
    ArrayParts(front, k, v, ok, ov);
    KeysBack(fs, 5, a.keys);
    ValuesBack(fs, 6, a.values);
    OrderedKeysBack(fs, 7, a.orderedKeys);
    OrderedValuesBack(fs, 8, a.orderedValues);
    ReadsArrays(fs, a);
  }

  lemma ArraysTagged(front: seq<Field>, a: Arrays)
    ensures Tagged(KeysField(5, a.keys), 5) && Tagged(ValuesField(6, a.values), 6)
    ensures Tagged(OrderedKeysField(7, a.orderedKeys), 7) && Tagged(OrderedValuesField(8, a.orderedValues), 8)
    ensures front + ArraysFields(a) ==
            front + KeysField(5, a.keys) + ValuesField(6, a.values) + OrderedKeysField(7, a.orderedKeys)
            + OrderedValuesField(8, a.orderedValues)
  {
    hide Encode, KeyFields, ValueFields, OrderedKeyFields, OrderedValueFields;
  }

  lemma ArrayParts(front: seq<Field>, k: seq<Field>, v: seq<Field>, ok: seq<Field>, ov: seq<Field>)
    requires Tagged(k, 5) && Tagged(v, 6) && Tagged(ok, 7) && Tagged(ov, 8)
    requires Only(front, 5) == [] && Only(front, 6) == [] && Only(front, 7) == [] && Only(front, 8) == []
    ensures var fs := front + k + v + ok + ov;
            && Only(fs, 5) == k && Only(fs, 6) == v && Only(fs, 7) == ok && Only(fs, 8) == ov
            && forall n :: n < 5 ==> Only(fs, n) == Only(front, n)
  {
    hide Only;
    Part(front, k, 5);
    Part(front + k, v, 6);
    Part(front + k + v, ok, 7);
    Part(front + k + v + ok, ov, 8);
  }

  lemma ReadsArrays(fs: seq<Field>, a: Arrays)
    requires Each(ReadKey, RecordsIn(fs, 5)) == a.keys && Each(ReadOrderedKey, RecordsIn(fs, 7)) == a.orderedKeys
    requires Each(ReadValue, RecordsIn(fs, 6)) == a.values
    requires Each(ReadOrderedValue, RecordsIn(fs, 8)) == a.orderedValues
    ensures ReadArrays(fs) == a
  {
  }

  lemma TypeBack(t: ContainerType)
    ensures TypeOf(TypeNumber(t)) == t && (TypeNumber(t) == 0 <==> t == Undefined)
  {
  }

  // ---- requests

  /** The request has the message type of the RPC. */
  predicate Suits(m: Message) {
    match m.rpc
    case CreateWhole => m.request.Create?
    case AddByValue => m.request.AddToVal?
    case RemoveByKeyValue => m.request.Remove?
    case ReadAll => m.request.Get?
    case ReadRange => m.request.Range?
    case _ => m.request.AddTo?
  }

  function KeyPart(k: Key): seq<Field> {
    [Bytes(1, Encode(KeyFields(k)))]
  }

  lemma KeyTagged(k: Key)
    ensures Tagged(KeyPart(k), 1)
  {
  }

  lemma KeyPartBack(fs: seq<Field>, k: Key)
    requires Only(fs, 1) == KeyPart(k)
    ensures ReadKey(OrEmpty(RecordIn(fs, 1))) == k
  {
    hide ReadKey, Encode, KeyFields;
    KeyBack(k);
  }

  lemma AddToBack(r: Request, rpc: Rpc)
    requires r.AddTo? && Suits(Message(rpc, r))
    ensures ReadRequest(rpc, Encode(RequestFields(r))) == r
  {
    hide Encode, KeyFields, Only, Tagged, ArraysFields, ReadArrays, ReadKey, Optional, RecordIn, NumberIn;
    var fs := RequestFields(r);
    var a, b, c := KeyPart(r.key), Optional(2, OptionalType(r.typ)), Optional(4, r.pos);
    WrittenFields(fs);
    KeyTagged(r.key);
    NumberTagged(2, OptionalType(r.typ), 0);
    NumberTagged(4, r.pos, 0);
    ThreeParts(a, b, c, 1, 2, 4);
    ArraysBack(a + b + c, r.items);
    hide KeyPart;
    KeyPartBack(fs, r.key);
    OptionalBack(fs, 2, OptionalType(r.typ));
    OptionalBack(fs, 4, r.pos);
    if r.typ.Some? {
      TypeBack(r.typ.value);
    }
  }

  lemma CreateBack(r: Request)
    requires r.Create?
    ensures ReadRequest(CreateWhole, Encode(RequestFields(r))) == r
  {
    hide Encode, KeyFields, Only, Tagged, ArraysFields, ReadArrays, ReadKey, Optional, Implicit, RecordIn, NumberIn;
    var fs := RequestFields(r);
    var a, b, c := KeyPart(r.key), Implicit(2, TypeNumber(r.containerType)), Optional(3, r.ttl);
    WrittenFields(fs);
    KeyTagged(r.key);
    NumberTagged(2, None, TypeNumber(r.containerType));
    NumberTagged(3, r.ttl, 0);
    ThreeParts(a, b, c, 1, 2, 3);
    ArraysBack(a + b + c, r.items);
    hide KeyPart, TypeNumber;
    KeyPartBack(fs, r.key);
    ImplicitBack(fs, 2, TypeNumber(r.containerType));
    OptionalBack(fs, 3, r.ttl);
    TypeBack(r.containerType);
  }

  lemma PivotTagged(pivot: Value, values: seq<Value>)
    ensures Tagged([Bytes(4, Encode(ValueFields(pivot)))], 4) && Tagged(ValuesField(5, values), 5)
  {
  }

  lemma AddToValBack(r: Request)
    requires r.AddToVal?
    ensures ReadRequest(AddByValue, Encode(RequestFields(r))) == r
  {
    hide Encode, KeyFields, ValueFields, Only, Tagged, ReadKey, ReadValue, Implicit, NumberIn;
    var fs := RequestFields(r);
    var a, b, c := KeyPart(r.key), Flag(3, r.isBefore), [Bytes(4, Encode(ValueFields(r.pivot)))];
    WrittenFields(fs);
    KeyTagged(r.key);
    NumberTagged(3, None, if r.isBefore then 1 else 0);
    PivotTagged(r.pivot, r.values);
    FourParts(a, b, c, ValuesField(5, r.values), 1, 3, 4, 5);
    KeyPartBack(fs, r.key);
    ImplicitBack(fs, 3, if r.isBefore then 1 else 0);
    ValueBack(r.pivot);
    ValuesBack(fs, 5, r.values);
  }

  lemma RemoveBack(r: Request)
    requires r.Remove?
    ensures ReadRequest(RemoveByKeyValue, Encode(RequestFields(r))) == r
  {
    hide Encode, KeyFields, ValueFields, Only, ReadKey, ReadValue;
    var fs := RequestFields(r);
    var a, b := KeyPart(r.key), Optional(2, Some(TypeNumber(r.removeType)));
    var c, d := ValuesField(3, r.values), KeysField(4, r.keys);
    WrittenFields(fs);
    FirstPart(a, 1);
    Part(a, b, 2);
    Part(a + b, c, 3);
    Part(a + b + c, d, 4);
    KeyPartBack(fs, r.key);
    OptionalBack(fs, 2, Some(TypeNumber(r.removeType)));
    TypeBack(r.removeType);
    ValuesBack(fs, 3, r.values);
    KeysBack(fs, 4, r.keys);
  }

  lemma RangeBack(r: Request)
    requires r.Range?
    ensures ReadRequest(ReadRange, Encode(RequestFields(r))) == r
  {
    hide Encode, KeyFields, Only, Tagged, ReadKey, Implicit, Optional, RecordIn, NumberIn;
    var fs := RequestFields(r);
    WrittenFields(fs);
    KeyTagged(r.key);
    NumberTagged(2, OptionalType(r.rangeType), 0);
    NumberTagged(3, None, r.start);
    NumberTagged(4, r.end, 0);
    NumberTagged(6, None, if r.reverse then 1 else 0);
    FiveParts(KeyPart(r.key), Optional(2, OptionalType(r.rangeType)), Implicit(3, r.start), Optional(4, r.end),
              Flag(6, r.reverse), 6);
    hide KeyPart;
    KeyPartBack(fs, r.key);
    OptionalBack(fs, 2, OptionalType(r.rangeType));
    ImplicitBack(fs, 3, r.start);
    OptionalBack(fs, 4, r.end);
    ImplicitBack(fs, 6, if r.reverse then 1 else 0);
    if r.rangeType.Some? {
      TypeBack(r.rangeType.value);
    }
  }

  lemma GetBack(r: Request)
    requires r.Get?
    ensures ReadRequest(ReadAll, Encode(RequestFields(r))) == r
  {
    hide Encode, KeyFields, Only, ReadKey;
    WrittenFields(RequestFields(r));
    FirstPart(KeyPart(r.key), 1);
    KeyPartBack(RequestFields(r), r.key);
  }

  /**
   Every request can be read back from bytes whose number is the size that is checked against the limit:
   nothing of a request is left out of its size.
   */
  lemma RequestBack(m: Message)
    requires Suits(m)
    ensures var b := Encode(RequestFields(m.request));
            ReadRequest(m.rpc, b) == m.request && |b| == RequestSize(m.request)
  {
    hide Encode, RequestFields, ReadRequest;
    match m.request
    case AddTo(_, _, _, _) => AddToBack(m.request, m.rpc);
    case AddToVal(_, _, _, _) => AddToValBack(m.request);
    case Create(_, _, _, _) => CreateBack(m.request);
    case Remove(_, _, _, _) => RemoveBack(m.request);
    case Get(_) => GetBack(m.request);
    case Range(_, _, _, _, _) => RangeBack(m.request);
    SizeIsLength(RequestFields(m.request));
  }

  /** So the fields of a request, and its bytes, determine it. */
  lemma BytesDetermine(m: Message, n: Message)
    requires Suits(m) && Suits(n) && m.rpc == n.rpc
    requires Encode(RequestFields(m.request)) == Encode(RequestFields(n.request))
    ensures m == n
  {
    hide *;
    RequestBack(m);
    RequestBack(n);
  }

  // ---- the payloads of a request

  function BlobLength(b: Option<Blob>): nat {
    if b.Some? then |b.value.payload| else 0
  }

  function KeyLength(k: Key): nat {
    BlobLength(k.payload)
  }

  function OrderedKeyLength(k: OrderedKey): nat {
    BlobLength(k.payload)
  }

  function ValueLength(v: Value): nat {
    BlobLength(v.blob)
  }

  function OrderedValueLength(v: OrderedValue): nat {
    BlobLength(v.blob)
  }

  function Sum<T>(length: T -> nat, xs: seq<T>): nat {
    if xs == [] then 0 else Sum(length, xs[..|xs| - 1]) + length(xs[|xs| - 1])
  }

  function ArraysLength(a: Arrays): nat {
    Sum(KeyLength, a.keys) + Sum(OrderedKeyLength, a.orderedKeys)
    + Sum(ValueLength, a.values) + Sum(OrderedValueLength, a.orderedValues)
  }

  /** The bytes of all keys and values in a request. */
  function PayloadBytes(r: Request): nat {
    match r
    case AddTo(key, _, _, items) => KeyLength(key) + ArraysLength(items)
    case AddToVal(key, _, pivot, values) => KeyLength(key) + ValueLength(pivot) + Sum(ValueLength, values)
    case Create(key, _, _, items) => KeyLength(key) + ArraysLength(items)
    case Remove(key, _, values, keys) => KeyLength(key) + Sum(ValueLength, values) + Sum(KeyLength, keys)
    case Get(key) => KeyLength(key)
    case Range(key, _, _, _, _) => KeyLength(key)
  }

  /** A message starts with its payload. */
  lemma PayloadFirst(b: Option<Blob>, rest: seq<Field>)
    ensures Size(Sub(1, BlobFields(b)) + rest) >= BlobLength(b)
  {
    hide Size;
    var first := Sub(1, BlobFields(b));
    SizeConcat(first, rest);
    if b.Some? {
      var payload, size := ImplicitBytes(1, b.value.payload), Implicit(2, b.value.size);
      SizeOne(Bytes(1, Encode(payload + size)));
      SizeIsLength(payload + size);
      SizeConcat(payload, size);
      SizeOne(Bytes(1, b.value.payload));
    }
  }

  lemma KeyHolds(k: Key)
    ensures |Encode(KeyFields(k))| >= KeyLength(k)
  {
    hide BlobFields, CompressionFields, HintFields, Sub, Optional;
    var rest := Sub(2, CompressionFields(k.compression)) + Sub(3, HintFields(k.hint)) + Optional(4, k.clientId);
    PayloadFirst(k.payload, rest);
    assert KeyFields(k) == Sub(1, BlobFields(k.payload)) + rest;
  }

  lemma OrderedKeyHolds(k: OrderedKey)
    ensures |Encode(OrderedKeyFields(k))| >= OrderedKeyLength(k)
  {
    hide BlobFields, CompressionFields, HintFields, Sub, Optional;
    var rest := Optional(2, k.order) + Sub(3, CompressionFields(k.compression)) + Sub(4, HintFields(k.hint))
                + Optional(5, k.clientId);
    PayloadFirst(k.payload, rest);
    assert OrderedKeyFields(k) == Sub(1, BlobFields(k.payload)) + rest;
  }

  lemma ValueHolds(v: Value)
    ensures |Encode(ValueFields(v))| >= ValueLength(v)
  {
    hide BlobFields, CompressionFields, LockFields, Sub, Optional;
    var rest := Sub(2, CompressionFields(v.compression)) + Optional(3, v.ttl) + Sub(4, LockFields(v.lock));
    PayloadFirst(v.blob, rest);
    assert ValueFields(v) == Sub(1, BlobFields(v.blob)) + rest;
  }

  lemma OrderedValueHolds(v: OrderedValue)
    ensures |Encode(OrderedValueFields(v))| >= OrderedValueLength(v)
  {
    hide BlobFields, CompressionFields, LockFields, Sub, Optional;
    var rest := Optional(2, v.order) + Sub(3, CompressionFields(v.compression)) + Optional(4, v.ttl)
                + Sub(5, LockFields(v.lock));
    PayloadFirst(v.blob, rest);
    assert OrderedValueFields(v) == Sub(1, BlobFields(v.blob)) + rest;
  }

  /** Records that each hold as much as their element. */
  lemma {:induction false} RecordsHold<T>(fs: seq<Field>, length: T -> nat, xs: seq<T>)
    requires |fs| == |xs| && forall i :: 0 <= i < |xs| ==> fs[i].Bytes? && |fs[i].payload| >= length(xs[i])
    ensures Size(fs) >= Sum(length, xs)
  {
    if xs != [] {
      var n := |xs| - 1;
      RecordsHold(fs[..n], length, xs[..n]);
      assert fs == fs[..n] + [fs[n]];
      hide Size;
      SizeConcat(fs[..n], [fs[n]]);
      SizeOne(fs[n]);
    }
  }

  lemma KeysHold(number: FieldNumber, ks: seq<Key>)
    ensures Size(KeysField(number, ks)) >= Sum(KeyLength, ks)
  {
    hide Encode, KeyFields, Size, Sum;
    forall i | 0 <= i < |ks|
      ensures |KeysField(number, ks)[i].payload| >= KeyLength(ks[i])
    {
      KeyHolds(ks[i]);
    }
    RecordsHold(KeysField(number, ks), KeyLength, ks);
  }

  lemma OrderedKeysHold(number: FieldNumber, ks: seq<OrderedKey>)
    ensures Size(OrderedKeysField(number, ks)) >= Sum(OrderedKeyLength, ks)
  {
    hide Encode, OrderedKeyFields, Size, Sum;
    forall i | 0 <= i < |ks|
      ensures |OrderedKeysField(number, ks)[i].payload| >= OrderedKeyLength(ks[i])
    {
      OrderedKeyHolds(ks[i]);
    }
    RecordsHold(OrderedKeysField(number, ks), OrderedKeyLength, ks);
  }

  lemma ValuesHold(number: FieldNumber, vs: seq<Value>)
    ensures Size(ValuesField(number, vs)) >= Sum(ValueLength, vs)
  {
    hide Encode, ValueFields, Size, Sum;
    forall i | 0 <= i < |vs|
      ensures |ValuesField(number, vs)[i].payload| >= ValueLength(vs[i])
    {
      ValueHolds(vs[i]);
    }
    RecordsHold(ValuesField(number, vs), ValueLength, vs);
  }

  lemma OrderedValuesHold(number: FieldNumber, vs: seq<OrderedValue>)
    ensures Size(OrderedValuesField(number, vs)) >= Sum(OrderedValueLength, vs)
  {
    hide Encode, OrderedValueFields, Size, Sum;
    forall i | 0 <= i < |vs|
      ensures |OrderedValuesField(number, vs)[i].payload| >= OrderedValueLength(vs[i])
    {
      OrderedValueHolds(vs[i]);
    }
    RecordsHold(OrderedValuesField(number, vs), OrderedValueLength, vs);
  }

  lemma ArraysHold(a: Arrays)
    ensures Size(ArraysFields(a)) >= ArraysLength(a)
  {
    hide Size, ArraysFields, KeysField, OrderedKeysField, ValuesField, OrderedValuesField, Sum;
    SizeOfParts(a);
    KeysHold(5, a.keys);
    ValuesHold(6, a.values);
    OrderedKeysHold(7, a.orderedKeys);
    OrderedValuesHold(8, a.orderedValues);
  }

  lemma KeyPartHolds(k: Key, rest: seq<Field>)
    ensures Size(KeyPart(k) + rest) >= KeyLength(k) + Size(rest)
  {
    hide Size, KeyFields;
    SizeConcat(KeyPart(k), rest);
    SizeOne(Bytes(1, Encode(KeyFields(k))));
    KeyHolds(k);
  }

  lemma SizeOfRest(front: seq<Field>, rest: seq<Field>)
    ensures Size(front + rest) >= Size(rest)
  {
    SizeConcat(front, rest);
  }

  lemma ItemsFit(key: Key, front: seq<Field>, items: Arrays)
    ensures Size(KeyPart(key) + front + ArraysFields(items)) >= KeyLength(key) + ArraysLength(items)
  {
    hide Size, KeyPart, KeyLength, ArraysLength, ArraysFields;
    SizeConcat(KeyPart(key) + front, ArraysFields(items));
    KeyPartHolds(key, front);
    ArraysHold(items);
  }

  lemma RelativeFits(key: Key, isBefore: bool, pivot: Value, values: seq<Value>)
    ensures Size(RequestFields(AddToVal(key, isBefore, pivot, values))) >=
            KeyLength(key) + ValueLength(pivot) + Sum(ValueLength, values)
  {
    hide Size, Encode, KeyFields, ValueFields, KeyLength, ValueLength, Sum, ValuesField, Implicit;
    var front, at := KeyPart(key) + Flag(3, isBefore), [Bytes(4, Encode(ValueFields(pivot)))];
    KeyPartHolds(key, Flag(3, isBefore));
    SizeConcat(front, at);
    SizeConcat(front + at, ValuesField(5, values));
    SizeOne(at[0]);
    ValueHolds(pivot);
    ValuesHold(5, values);
  }

  lemma RemovalFits(key: Key, t: ContainerType, values: seq<Value>, keys: seq<Key>)
    ensures Size(RequestFields(Remove(key, t, values, keys))) >=
            KeyLength(key) + Sum(ValueLength, values) + Sum(KeyLength, keys)
  {
    hide Size, Encode, KeyFields, KeyLength, ValueLength, Sum, ValuesField, KeysField, Optional;
    var front := KeyPart(key) + Optional(2, Some(TypeNumber(t)));
    KeyPartHolds(key, Optional(2, Some(TypeNumber(t))));
    SizeConcat(front, ValuesField(3, values));
    SizeConcat(front + ValuesField(3, values), KeysField(4, keys));
    ValuesHold(3, values);
    KeysHold(4, keys);
  }

  lemma AdditionFits(key: Key, typ: Option<ContainerType>, pos: Option<uint32>, items: Arrays)
    ensures Size(RequestFields(AddTo(key, typ, pos, items))) >= KeyLength(key) + ArraysLength(items)
  {
    hide Size, Encode, KeyFields, KeyLength, ArraysLength, ArraysFields, Optional;
    var front := Optional(2, OptionalType(typ)) + Optional(4, pos);
    ItemsFit(key, front, items);
    assert RequestFields(AddTo(key, typ, pos, items)) == KeyPart(key) + front + ArraysFields(items);
  }

  lemma CreationFits(key: Key, t: ContainerType, ttl: Option<uint64>, items: Arrays)
    ensures Size(RequestFields(Create(key, t, ttl, items))) >= KeyLength(key) + ArraysLength(items)
  {
    var r, front := Create(key, t, ttl, items), Implicit(2, TypeNumber(t)) + Optional(3, ttl);
    CreationFields(key, t, ttl, items);
    hide *;
    ItemsFit(key, front, items);
  }

  lemma CreationFields(key: Key, t: ContainerType, ttl: Option<uint64>, items: Arrays)
    ensures RequestFields(Create(key, t, ttl, items)) ==
            KeyPart(key) + (Implicit(2, TypeNumber(t)) + Optional(3, ttl)) + ArraysFields(items)
  {
    hide Encode, KeyFields, ArraysFields, Optional, Implicit;
    SeqAssoc(KeyPart(key), Implicit(2, TypeNumber(t)), Optional(3, ttl));
  }

  lemma ReadFits(r: Request)
    requires r.Get? || r.Range?
    ensures Size(RequestFields(r)) >= KeyLength(r.key)
  {
    hide Size, Encode, KeyFields, KeyLength, Optional, Implicit;
    if r.Get? {
      KeyPartHolds(r.key, []);
      assert RequestFields(r) == KeyPart(r.key) + [];
    } else {
      var rest := Optional(2, OptionalType(r.rangeType)) + Implicit(3, r.start) + Optional(4, r.end) +
          Flag(6, r.reverse);
      KeyPartHolds(r.key, rest);
      assert RequestFields(r) == KeyPart(r.key) + rest;
    }
  }

  /** A request is at least as large as the payloads in it, all together. */
  lemma PayloadsFit(r: Request)
    ensures PayloadBytes(r) <= RequestSize(r)
  {
    hide Size, RequestFields, KeyLength, ValueLength, Sum, ArraysLength;
    match r
    case AddTo(key, typ, pos, items) => AdditionFits(key, typ, pos, items);
    case Create(key, t, ttl, items) => CreationFits(key, t, ttl, items);
    case AddToVal(key, isBefore, pivot, values) => RelativeFits(key, isBefore, pivot, values);
    case Remove(key, t, values, keys) => RemovalFits(key, t, values, keys);
    case _ => ReadFits(r);
  }

  /** So no call goes out whose payloads exceed the limit. */
  lemma SentPayloadsFit(s: Session, wanted: seq<Message>, log: seq<Call>, i: nat)
    requires Sent(s, wanted, log) && i < |log|
    ensures PayloadBytes(log[i].message.request) <= s.config.maxRequestBytes
  {
    PayloadsFit(log[i].message.request);
  }
}
