/**
 Collection round trip: encoding, splitting in any way, transposing into parallel arrays, decoding
 each message and concatenating gives back the same data in the same order.
 */
module RoundTrips {
  import opened Wrappers
  import opened Wire
  import opened Messages
  import opened Errors
  import opened Codec
  import opened Sequences
  import opened Packing
  import opened Batches

  // ---- what comes back

  function CompressionOf(data: seq<byte>, compress: bool, c: Config): Option<CompressedInfo> {
    if Compresses(data, compress, c) then Some(CompressedInfo(true, Some(Len32(data)))) else None
  }

  /** The same bytes and lock; the expiry of the element or else of the creation; how it travelled. */
  function ReturnedValue(p: Payload, compress: bool, env: Env): Payload {
    Payload(p.data, OrElse(p.expires, env.ttl), p.lock, None, CompressionOf(p.data, compress, env.config), None)
  }

  function ReturnedKey(p: Payload, compress: bool, env: Env): Payload {
    Payload(p.data, None, None, p.hint, CompressionOf(p.data, compress, env.config), OrElse(p.clientId, env.clientId))
  }

  /** What comes back of one value of a list or set, which travels uncompressed. */
  function ReturnedPlain(env: Env): Payload -> Payload {
    (p: Payload) => ReturnedValue(p, false, env)
  }

  /** An absent weight comes back as 0. */
  function ReturnedOrdered(env: Env): OrderedPayload -> OrderedPayload {
    (p: OrderedPayload) => OrderedPayload(ReturnedValue(p.payload, true, env), OrElse(p.order, Some(0)))
  }

  function ReturnedEntry(env: Env): Entry -> Entry {
    (p: Entry) => Entry(ReturnedKey(p.key, false, env), ReturnedValue(p.value, false, env))
  }

  function ReturnedOrderedEntry(env: Env): OrderedEntry -> OrderedEntry {
    (p: OrderedEntry) =>
      OrderedEntry(OrderedPayload(ReturnedKey(p.key.payload, true, env), OrElse(p.key.order, Some(0))),
                   ReturnedValue(p.value, true, env))
  }

  /** Element by element, in order. */
  function Returned(d: ContainerData, env: Env): ContainerData {
    ContainerData(Mapped(ReturnedPlain(env), d.values), Mapped(ReturnedOrdered(env), d.orderedValues),
                  Mapped(ReturnedEntry(env), d.entries), Mapped(ReturnedOrderedEntry(env), d.orderedEntries))
  }

  predicate EntryDescribable(p: Entry, c: Config) {
    Describable(p.key.data, false, c) && Describable(p.value.data, false, c)
  }

  predicate OrderedEntryDescribable(p: OrderedEntry, c: Config) {
    Describable(p.key.payload.data, true, c) && Describable(p.value.data, true, c)
  }

  /** All sizes fit the 32-bit metadata. */
  predicate AllDescribable(d: ContainerData, c: Config) {
    && (forall p :: p in d.values ==> Describable(p.data, false, c))
    && (forall p :: p in d.orderedValues ==> Describable(p.payload.data, true, c))
    && (forall p :: p in d.entries ==> EntryDescribable(p, c))
    && (forall p :: p in d.orderedEntries ==> OrderedEntryDescribable(p, c))
  }

  // ---- the same, as what the caller may rely on

  /** A property that an element may have by itself comes back as it is, or else as that of the whole call. */
  predicate OwnOr<T(==)>(own: Option<T>, shared: Option<T>, got: Option<T>) {
    match own
    case Some(x) => got == Some(x)
    case None => got == shared
  }

  /** Only payloads of the compressed kinds above the threshold travel compressed, and then the raw size is
      told. */
  predicate Travelled(data: seq<byte>, compress: bool, c: Config, info: Option<CompressedInfo>) {
    var threshold := match c.threshold { case Some(n) => n case None => 1024 };
    match info
    case None => !compress || |data| <= threshold
    case Some(i) => compress && |data| > threshold && i.enabled && i.rawSize == Some(|data|)
  }

  /** `q` is the value `p` after a round trip. */
  predicate SameValue(p: Payload, q: Payload, compress: bool, env: Env) {
    && q.data == p.data && q.lock == p.lock && OwnOr(p.expires, env.ttl, q.expires)
    && q.hint.None? && q.clientId.None? && Travelled(p.data, compress, env.config, q.compression)
  }

  predicate SameKey(p: Payload, q: Payload, compress: bool, env: Env) {
    && q.data == p.data && q.hint == p.hint && OwnOr(p.clientId, env.clientId, q.clientId)
    && q.lock.None? && q.expires.None? && Travelled(p.data, compress, env.config, q.compression)
  }

  /** The weight comes back, an absent one as 0. */
  predicate SameWeight(own: Option<uint64>, got: Option<uint64>) {
    match own
    case Some(w) => got == Some(w)
    case None => got == Some(0)
  }

  predicate SameOrdered(p: OrderedPayload, q: OrderedPayload, env: Env) {
    SameValue(p.payload, q.payload, true, env) && SameWeight(p.order, q.order)
  }

  predicate SameEntry(p: Entry, q: Entry, env: Env) {
    SameKey(p.key, q.key, false, env) && SameValue(p.value, q.value, false, env)
  }

  predicate SameOrderedEntry(p: OrderedEntry, q: OrderedEntry, env: Env) {
    && SameKey(p.key.payload, q.key.payload, true, env) && SameWeight(p.key.order, q.key.order)
    && SameValue(p.value, q.value, true, env)
  }

  /** `r` is the collection `d` after a round trip: the same elements, in order. */
  predicate SameData(d: ContainerData, r: ContainerData, env: Env) {
    && |r.values| == |d.values| && |r.orderedValues| == |d.orderedValues|
    && |r.entries| == |d.entries| && |r.orderedEntries| == |d.orderedEntries|
    && (forall i :: 0 <= i < |d.values| ==> SameValue(d.values[i], r.values[i], false, env))
    && (forall i :: 0 <= i < |d.orderedValues| ==> SameOrdered(d.orderedValues[i], r.orderedValues[i], env))
    && (forall i :: 0 <= i < |d.entries| ==> SameEntry(d.entries[i], r.entries[i], env))
    && (forall i :: 0 <= i < |d.orderedEntries| ==> SameOrderedEntry(d.orderedEntries[i], r.orderedEntries[i], env))
  }

  lemma ReturnedValueSame(p: Payload, compress: bool, env: Env)
    requires Describable(p.data, compress, env.config)
    ensures SameValue(p, ReturnedValue(p, compress, env), compress, env)
  {
  }

  lemma ReturnedKeySame(p: Payload, compress: bool, env: Env)
    requires Describable(p.data, compress, env.config)
    ensures SameKey(p, ReturnedKey(p, compress, env), compress, env)
  {
  }

  lemma ReturnedPairsSame(d: ContainerData, env: Env)
    requires AllDescribable(d, env.config)
    ensures forall p :: p in d.entries ==> SameEntry(p, ReturnedEntry(env)(p), env)
    ensures forall p :: p in d.orderedEntries ==> SameOrderedEntry(p, ReturnedOrderedEntry(env)(p), env)
  {
    hide SameValue, SameKey, ReturnedValue, ReturnedKey, Describable;
    forall p | p in d.entries
      ensures SameEntry(p, ReturnedEntry(env)(p), env)
    {
      ReturnedKeySame(p.key, false, env);
      ReturnedValueSame(p.value, false, env);
    }
    forall p | p in d.orderedEntries
      ensures SameOrderedEntry(p, ReturnedOrderedEntry(env)(p), env)
    {
      ReturnedKeySame(p.key.payload, true, env);
      ReturnedValueSame(p.value, true, env);
    }
  }

  lemma ReturnedValuesSame(d: ContainerData, env: Env)
    requires AllDescribable(d, env.config)
    ensures forall p :: p in d.values ==> SameValue(p, ReturnedPlain(env)(p), false, env)
    ensures forall p :: p in d.orderedValues ==> SameOrdered(p, ReturnedOrdered(env)(p), env)
  {
    hide SameValue, ReturnedValue, Describable;
    forall p | p in d.values
      ensures SameValue(p, ReturnedPlain(env)(p), false, env)
    {
      ReturnedValueSame(p, false, env);
    }
    forall p | p in d.orderedValues
      ensures SameOrdered(p, ReturnedOrdered(env)(p), env)
    {
      ReturnedValueSame(p.payload, true, env);
    }
  }

  lemma ReturnedIsSame(d: ContainerData, env: Env)
    requires AllDescribable(d, env.config)
    ensures SameData(d, Returned(d, env), env)
  {
    ReturnedValuesSame(d, env);
    ReturnedPairsSame(d, env);
    hide SameValue, SameOrdered, SameEntry, SameOrderedEntry, AllDescribable;
    hide ReturnedPlain, ReturnedOrdered, ReturnedEntry, ReturnedOrderedEntry;
  }

  // ---- one element

  lemma ValueBack(p: Payload, compress: bool, env: Env)
    requires Lawful(env.config.compressor) && Describable(p.data, compress, env.config)
    requires EncodeValue(p, env.ttl, env.config, compress).Ok?
    ensures DecodeValue(EncodeValue(p, env.ttl, env.config, compress).value, env.config) ==
            Ok(ReturnedValue(p, compress, env))
    ensures SameValue(p, ReturnedValue(p, compress, env), compress, env)
  {
    PayloadRoundTrip(p.data, compress, env.config);
  }

  /** Which parts an item carries. */
  datatype Shape = Shape(keys: bool, orderedKeys: bool, values: bool, orderedValues: bool)

  const VALUES := Shape(false, false, true, false)
  const ORDERED_VALUES := Shape(false, false, false, true)
  const PAIRS := Shape(true, false, true, false)
  const ORDERED_PAIRS := Shape(false, true, true, false)

  predicate HasShape(it: Item, shape: Shape) {
    && it.key.Some? == shape.keys && it.orderedKey.Some? == shape.orderedKeys
    && it.value.Some? == shape.values && it.orderedValue.Some? == shape.orderedValues
  }

  function PairOf(it: Item): (Key, Value) {
    (KeyOf(it), ValueOf(it))
  }

  function OrderedPairOf(it: Item): (OrderedKey, Value) {
    (OrderedKeyOf(it), ValueOf(it))
  }

  /** An element comes back: its item has this shape and, read by `wire` and decoded, is what is expected. */
  predicate ComesBack<A, W, B(==)>(enc: A -> Result<Item, Error>, dec: W -> Result<B, Error>, wire: Item -> W,
                                   ret: A -> B, shape: Shape, x: A)
  {
    enc(x).Ok? ==> HasShape(enc(x).value, shape) && dec(wire(enc(x).value)) == Ok(ret(x))
  }

  lemma ValueItemBack(p: Payload, env: Env)
    requires Lawful(env.config.compressor) && Describable(p.data, false, env.config)
    ensures ComesBack(ValueItem(env), ValueDecoder(env.config), ValueOf, ReturnedPlain(env), VALUES, p)
  {
    if ValueItem(env)(p).Ok? {
      ValueBack(p, false, env);
    }
  }

  lemma OrderedItemBack(p: OrderedPayload, env: Env)
    requires Lawful(env.config.compressor) && Describable(p.payload.data, true, env.config)
    ensures ComesBack(OrderedItem(env), OrderedDecoder(env.config), OrderedValueOf, ReturnedOrdered(env),
            ORDERED_VALUES, p)
    ensures SameOrdered(p, ReturnedOrdered(env)(p), env)
  {
    if OrderedItem(env)(p).Ok? {
      PayloadRoundTrip(p.payload.data, true, env.config);
    }
  }

  lemma EntryBack(p: Entry, env: Env)
    requires Lawful(env.config.compressor) && EntryDescribable(p, env.config)
    ensures ComesBack(EntryItem(env), EntryDecoder(env.config), PairOf, ReturnedEntry(env), PAIRS, p)
    ensures SameEntry(p, ReturnedEntry(env)(p), env)
  {
    if EntryItem(env)(p).Ok? {
      PayloadRoundTrip(p.key.data, false, env.config);
      ValueBack(p.value, false, env);
    }
  }

  lemma OrderedEntryBack(p: OrderedEntry, env: Env)
    requires Lawful(env.config.compressor) && OrderedEntryDescribable(p, env.config)
    ensures ComesBack(OrderedEntryItem(env), OrderedEntryDecoder(env.config), OrderedPairOf, ReturnedOrderedEntry(env),
                      ORDERED_PAIRS, p)
    ensures SameOrderedEntry(p, ReturnedOrderedEntry(env)(p), env)
  {
    if OrderedEntryItem(env)(p).Ok? {
      PayloadRoundTrip(p.key.payload.data, true, env.config);
      ValueBack(p.value, true, env);
    }
  }

  // ---- one message

  predicate Uniform(items: seq<Item>, shape: Shape) {
    forall i :: 0 <= i < |items| ==> HasShape(items[i], shape)
  }

  function MappedIf<B>(present: bool, f: Item -> B, items: seq<Item>): seq<B> {
    if present then Mapped(f, items) else []
  }

  /** The arrays of uniform items are parallel: index `i` of each comes from item `i`. */
  function ParallelArrays(items: seq<Item>, shape: Shape): Arrays {
    Arrays(MappedIf(shape.keys, KeyOf, items), MappedIf(shape.orderedKeys, OrderedKeyOf, items),
           MappedIf(shape.values, ValueOf, items), MappedIf(shape.orderedValues, OrderedValueOf, items))
  }

  lemma {:induction false} UniformArrays(items: seq<Item>, shape: Shape)
    requires Uniform(items, shape)
    ensures ArraysOf(items) == ParallelArrays(items, shape)
  {
    if items != [] {
      var front, last := items[..|items| - 1], items[|items| - 1];
      assert forall i :: 0 <= i < |front| ==> front[i] == items[i];
      UniformArrays(front, shape);
      assert items == front + [last];
      assert HasShape(last, shape);
      hide Uniform, ParallelArrays, Append;
      AppendParallel(front, last, shape);
    }
  }

  lemma AppendParallel(items: seq<Item>, it: Item, shape: Shape)
    requires HasShape(it, shape)
    ensures Append(ParallelArrays(items, shape), it) == ParallelArrays(items + [it], shape)
  {
    AppendMapped(shape.keys, KeyOf, items, it);
    AppendMapped(shape.orderedKeys, OrderedKeyOf, items, it);
    AppendMapped(shape.values, ValueOf, items, it);
    AppendMapped(shape.orderedValues, OrderedValueOf, items, it);
    hide MappedIf;
  }

  lemma AppendMapped<B>(present: bool, f: Item -> B, items: seq<Item>, it: Item)
    ensures MappedIf(present, f, items + [it]) == MappedIf(present, f, items) + if present then [f(it)] else []
  {
  }

  lemma TraverseIs<A, B>(f: A -> Result<B, Error>, xs: seq<A>, ys: seq<B>)
    requires |xs| == |ys| && forall i :: 0 <= i < |xs| ==> f(xs[i]) == Ok(ys[i])
    ensures Traverse(f, xs) == Ok(ys)
  {
    TraverseAt(f, xs);
    assert Traverse(f, xs).value == ys;
  }

  /** If each element comes back, so do all of them, in order. */
  lemma EachBack<A, W, B>(enc: A -> Result<Item, Error>, dec: W -> Result<B, Error>, wire: Item -> W, ret: A -> B,
                          shape: Shape, xs: seq<A>, items: seq<Item>)
    requires Traverse(enc, xs) == Ok(items)
    requires forall i :: 0 <= i < |xs| ==> ComesBack(enc, dec, wire, ret, shape, xs[i])
    ensures |items| == |xs| && Uniform(items, shape)
    ensures Traverse(dec, Mapped(wire, items)) == Ok(Mapped(ret, xs))
  {
    TraverseAt(enc, xs);
    hide Traverse, HasShape;
    forall i | 0 <= i < |items|
      ensures HasShape(items[i], shape) && dec(Mapped(wire, items)[i]) == Ok(Mapped(ret, xs)[i])
    {
      assert ComesBack(enc, dec, wire, ret, shape, xs[i]) && enc(xs[i]) == Ok(items[i]);
    }
    TraverseIs(dec, Mapped(wire, items), Mapped(ret, xs));
  }

  lemma ValuesBack(d: ContainerData, env: Env, items: seq<Item>)
    requires Lawful(env.config.compressor) && AllDescribable(d, env.config)
    requires Traverse(ValueItem(env), d.values) == Ok(items)
    ensures Decoded(ArraysOf(items), env.config) == Ok(NO_DATA.(values := Returned(d, env).values))
  {
    hide Traverse, ComesBack, Describable, ValueItem, ValueDecoder, ReturnedPlain, Uniform, ArraysOf, Lawful, Mapped;
    forall i | 0 <= i < |d.values|
      ensures ComesBack(ValueItem(env), ValueDecoder(env.config), ValueOf, ReturnedPlain(env), VALUES, d.values[i])
    {
      ValueItemBack(d.values[i], env);
    }
    EachBack(ValueItem(env), ValueDecoder(env.config), ValueOf, ReturnedPlain(env), VALUES, d.values, items);
    UniformArrays(items, VALUES);
    TraverseNothing(OrderedDecoder(env.config));
  }

  lemma OrderedValuesBack(d: ContainerData, env: Env, items: seq<Item>)
    requires Lawful(env.config.compressor) && AllDescribable(d, env.config)
    requires Traverse(OrderedItem(env), d.orderedValues) == Ok(items)
    ensures Decoded(ArraysOf(items), env.config) == Ok(NO_DATA.(orderedValues := Returned(d, env).orderedValues))
  {
    hide Traverse, ComesBack, Describable, OrderedItem, OrderedDecoder, ReturnedOrdered, Uniform, ArraysOf, Lawful,
      Mapped;
    forall i | 0 <= i < |d.orderedValues|
      ensures ComesBack(OrderedItem(env), OrderedDecoder(env.config), OrderedValueOf, ReturnedOrdered(env),
                        ORDERED_VALUES, d.orderedValues[i])
    {
      OrderedItemBack(d.orderedValues[i], env);
    }
    EachBack(OrderedItem(env), OrderedDecoder(env.config), OrderedValueOf, ReturnedOrdered(env), ORDERED_VALUES,
             d.orderedValues, items);
    UniformArrays(items, ORDERED_VALUES);
    TraverseNothing(ValueDecoder(env.config));
  }

  lemma EntriesBack(d: ContainerData, env: Env, items: seq<Item>)
    requires Lawful(env.config.compressor) && AllDescribable(d, env.config)
    requires Traverse(EntryItem(env), d.entries) == Ok(items)
    ensures Decoded(ArraysOf(items), env.config) == Ok(NO_DATA.(entries := Returned(d, env).entries))
  {
    hide Traverse, ComesBack, EntryDescribable, EntryItem, EntryDecoder, ReturnedEntry, Uniform, ArraysOf, Lawful, Zip;
    forall i | 0 <= i < |d.entries|
      ensures ComesBack(EntryItem(env), EntryDecoder(env.config), PairOf, ReturnedEntry(env), PAIRS, d.entries[i])
    {
      EntryBack(d.entries[i], env);
    }
    EachBack(EntryItem(env), EntryDecoder(env.config), PairOf, ReturnedEntry(env), PAIRS, d.entries, items);
    UniformArrays(items, PAIRS);
    ZipMapped(KeyOf, ValueOf, PairOf, items);
    assert ArraysOf(items) == Arrays(Mapped(KeyOf, items), [], Mapped(ValueOf, items), []);
    TraverseNothing(OrderedDecoder(env.config));
    TraverseNothing(ValueDecoder(env.config));
  }

  lemma OrderedEntriesBack(d: ContainerData, env: Env, items: seq<Item>)
    requires Lawful(env.config.compressor) && AllDescribable(d, env.config)
    requires Traverse(OrderedEntryItem(env), d.orderedEntries) == Ok(items)
    ensures Decoded(ArraysOf(items), env.config) == Ok(NO_DATA.(orderedEntries := Returned(d, env).orderedEntries))
  {
    hide Traverse, ComesBack, OrderedEntryDescribable, OrderedEntryItem, OrderedEntryDecoder, ReturnedOrderedEntry,
      Uniform, ArraysOf, Lawful, Zip;
    forall i | 0 <= i < |d.orderedEntries|
      ensures ComesBack(OrderedEntryItem(env), OrderedEntryDecoder(env.config), OrderedPairOf,
              ReturnedOrderedEntry(env), ORDERED_PAIRS, d.orderedEntries[i])
    {
      OrderedEntryBack(d.orderedEntries[i], env);
    }
    EachBack(OrderedEntryItem(env), OrderedEntryDecoder(env.config), OrderedPairOf, ReturnedOrderedEntry(env),
        ORDERED_PAIRS, d.orderedEntries, items);
    UniformArrays(items, ORDERED_PAIRS);
    ZipMapped(OrderedKeyOf, ValueOf, OrderedPairOf, items);
    assert ArraysOf(items) == Arrays([], Mapped(OrderedKeyOf, items), Mapped(ValueOf, items), []);
    TraverseNothing(OrderedDecoder(env.config));
    TraverseNothing(ValueDecoder(env.config));
  }

  lemma TraverseNothing<A, B>(f: A -> Result<B, Error>)
    ensures Traverse(f, []) == Ok([])
  {
  }

  lemma OnlyItsKind(t: ContainerType, d: ContainerData, env: Env)
    requires Matches(t, d)
    ensures Returned(d, env) ==
            match t
            case Map => NO_DATA.(entries := Returned(d, env).entries)
            case OrderedMap => NO_DATA.(orderedEntries := Returned(d, env).orderedEntries)
            case OrderedSet => NO_DATA.(orderedValues := Returned(d, env).orderedValues)
            case _ => NO_DATA.(values := Returned(d, env).values)
  {
  }

  /** One message with all the items. */
  lemma OneMessage(t: ContainerType, d: ContainerData, env: Env, items: seq<Item>)
    requires Matches(t, d) && Encoded(t, d, env) == Ok(items)
    requires Lawful(env.config.compressor) && AllDescribable(d, env.config)
    ensures Decoded(ArraysOf(items), env.config) == Ok(Returned(d, env)) && SameData(d, Returned(d, env), env)
  {
    hide Decoded, ArraysOf, Traverse, Lawful, SameData;
    ReturnedIsSame(d, env);
    hide AllDescribable;
    OnlyItsKind(t, d, env);
    hide Returned;
    match t
    case Map => EntriesBack(d, env, items);
    case OrderedMap => OrderedEntriesBack(d, env, items);
    case OrderedSet => OrderedValuesBack(d, env, items);
    case _ => ValuesBack(d, env, items);
  }

  // ---- any split

  /** The elements `i..j` of whichever kind the type holds. */
  function Slice(t: ContainerType, d: ContainerData, i: nat, j: nat): ContainerData
    requires Matches(t, d) && i <= j <= Count(d)
  {
    match t
    case Map => d.(entries := d.entries[i..j])
    case OrderedMap => d.(orderedEntries := d.orderedEntries[i..j])
    case OrderedSet => d.(orderedValues := d.orderedValues[i..j])
    case _ => d.(values := d.values[i..j])
  }

  lemma TraverseSlice<A, B>(f: A -> Result<B, Error>, xs: seq<A>, ys: seq<B>, i: nat, j: nat)
    requires Traverse(f, xs) == Ok(ys) && i <= j <= |xs|
    ensures |ys| == |xs| && Traverse(f, xs[i..j]) == Ok(ys[i..j])
  {
    TraverseAt(f, xs);
    hide Traverse;
    forall k | 0 <= k < j - i
      ensures f(xs[i..j][k]) == Ok(ys[i..j][k])
    {
      assert xs[i..j][k] == xs[i + k] && ys[i..j][k] == ys[i + k];
    }
    TraverseIs(f, xs[i..j], ys[i..j]);
  }

  lemma EncodedSlice(t: ContainerType, d: ContainerData, env: Env, items: seq<Item>, i: nat, j: nat)
    requires Matches(t, d) && Encoded(t, d, env) == Ok(items) && i <= j <= Count(d)
    ensures |items| == Count(d) && Encoded(t, Slice(t, d, i, j), env) == Ok(items[i..j])
  {
    hide Traverse;
    match t
    case Map => TraverseSlice(EntryItem(env), d.entries, items, i, j);
    case OrderedMap => TraverseSlice(OrderedEntryItem(env), d.orderedEntries, items, i, j);
    case OrderedSet => TraverseSlice(OrderedItem(env), d.orderedValues, items, i, j);
    case _ => TraverseSlice(ValueItem(env), d.values, items, i, j);
  }

  lemma ReturnedSlices(t: ContainerType, d: ContainerData, env: Env, i: nat, j: nat)
    requires Matches(t, d) && i <= j <= Count(d)
    ensures Plus(Returned(Slice(t, d, 0, i), env), Returned(Slice(t, d, i, j), env)) == Returned(Slice(t, d, 0, j), env)
  {
    hide ReturnedValue, ReturnedOrdered, ReturnedEntry, ReturnedOrderedEntry;
  }

  lemma DescribableSlice(t: ContainerType, d: ContainerData, c: Config, i: nat, j: nat)
    requires Matches(t, d) && AllDescribable(d, c) && i <= j <= Count(d)
    ensures Matches(t, Slice(t, d, i, j)) && AllDescribable(Slice(t, d, i, j), c)
  {
    hide Describable;
  }

  /** The arrays of the requests for these spans. */
  function Requests(items: seq<Item>, parts: seq<Span>): seq<Arrays>
    requires forall k :: 0 <= k < |parts| ==> parts[k].start <= parts[k].end <= |items|
  {
    seq(|parts|, k requires 0 <= k < |parts| => ArraysOf(items[parts[k].start..parts[k].end]))
  }

  lemma {:induction false} PrefixRoundTrip(t: ContainerType, d: ContainerData, env: Env, items: seq<Item>,
                                           parts: seq<Span>, n: nat)
    requires Matches(t, d) && Encoded(t, d, env) == Ok(items) && |items| == Count(d)
    requires Lawful(env.config.compressor) && AllDescribable(d, env.config)
    requires Covers(parts, n) && n <= |items|
    requires forall k :: 0 <= k < |parts| ==> parts[k].start <= parts[k].end <= |items|
    ensures var r := Traverse(BatchDecoder(env.config), Requests(items, parts));
            r.Ok? && Joined(r.value) == Returned(Slice(t, d, 0, n), env)
  {
    hide Encoded, ArraysOf, Decoded, AllDescribable, Lawful, Returned, Plus;
    if parts == [] {
      NothingReturned(t, d, env);
    } else {
      var front, last := parts[..|parts| - 1], parts[|parts| - 1];
      assert forall k :: 0 <= k < |front| ==> front[k] == parts[k];
      PrefixRoundTrip(t, d, env, items, front, last.start);
      assert Requests(items, parts)[..|front|] == Requests(items, front);
      EncodedSlice(t, d, env, items, last.start, last.end);
      DescribableSlice(t, d, env.config, last.start, last.end);
      OneMessage(t, Slice(t, d, last.start, last.end), env, items[last.start..last.end]);
      ReturnedSlices(t, d, env, last.start, last.end);
      JoinOne(Traverse(BatchDecoder(env.config), Requests(items, front)).value,
              Returned(Slice(t, d, last.start, last.end), env));
    }
  }

  lemma NothingReturned(t: ContainerType, d: ContainerData, env: Env)
    requires Matches(t, d)
    ensures Returned(Slice(t, d, 0, 0), env) == NO_DATA
  {
  }

  /**
   Nothing is lost, duplicated or mispaired: whatever way the items are split, decoding the messages
   and concatenating returns every element, with its key, its weight and its bytes, in order.
   */
  lemma CollectionRoundTrip(t: ContainerType, d: ContainerData, env: Env, parts: seq<Span>)
    requires Matches(t, d) && Encoded(t, d, env).Ok?
    requires Lawful(env.config.compressor) && AllDescribable(d, env.config)
    requires Covers(parts, |Encoded(t, d, env).value|)
    ensures var items := Encoded(t, d, env).value;
            && (forall k :: 0 <= k < |parts| ==> parts[k].start <= parts[k].end <= |items|)
            && var r := Traverse(BatchDecoder(env.config), Requests(items, parts));
               r.Ok? && Joined(r.value) == Returned(d, env) && SameData(d, Joined(r.value), env)
  {
    hide Encoded, Returned, AllDescribable, Lawful, Traverse, Joined, Covers, ArraysOf, SameData;
    ReturnedIsSame(d, env);
    var items := Encoded(t, d, env).value;
    EncodedSlice(t, d, env, items, 0, Count(d));
    forall k | 0 <= k < |parts|
      ensures parts[k].start <= parts[k].end <= |items|
    {
      CoversAt(parts, |items|, k);
    }
    PrefixRoundTrip(t, d, env, items, parts, |items|);
    assert Slice(t, d, 0, Count(d)) == d;
  }

  /** So a read that meets no error in these messages collects exactly what was stored. */
  lemma CollectedBack(t: ContainerType, d: ContainerData, env: Env, parts: seq<Span>,
                      data: ContainerData, err: Option<Error>, chunks: nat)
    requires Matches(t, d) && Encoded(t, d, env).Ok?
    requires Lawful(env.config.compressor) && AllDescribable(d, env.config)
    requires Covers(parts, |Encoded(t, d, env).value|)
    requires forall k :: 0 <= k < |parts| ==> parts[k].start <= parts[k].end <= |Encoded(t, d, env).value|
    requires Collected(Requests(Encoded(t, d, env).value, parts), None, env.config, data, err, chunks)
    ensures err.None? && chunks == |parts| && data == Returned(d, env) && SameData(d, data, env)
  {
    hide Encoded, Returned, AllDescribable, Lawful, Joined, Covers, ArraysOf, Decoded, Traverse, Requests, SameData;
    CollectionRoundTrip(t, d, env, parts);
    RequestCount(Encoded(t, d, env).value, parts);
    AllBatches(Requests(Encoded(t, d, env).value, parts), env.config, data, err, chunks);
  }

  lemma RequestCount(items: seq<Item>, parts: seq<Span>)
    requires forall k :: 0 <= k < |parts| ==> parts[k].start <= parts[k].end <= |items|
    ensures |Requests(items, parts)| == |parts|
  {
  }

  /** When every batch can be decoded, all of them are collected. */
  lemma AllBatches(batches: seq<Arrays>, c: Config, data: ContainerData, err: Option<Error>, chunks: nat)
    requires Traverse(BatchDecoder(c), batches).Ok? && Collected(batches, None, c, data, err, chunks)
    ensures err.None? && chunks == |batches| && data == Joined(Traverse(BatchDecoder(c), batches).value)
  {
    TraverseAt(BatchDecoder(c), batches);
    hide Traverse, Joined, Decoded;
    if chunks == |batches| {
      assert batches[..chunks] == batches;
    }
  }

  /** Every encoded item carries something, so packing it in requests is optimal (`SplitIsOptimal`). */
  lemma EncodedCarry(t: ContainerType, d: ContainerData, env: Env, i: nat)
    requires Encoded(t, d, env).Ok? && i < |Encoded(t, d, env).value|
    ensures Carries(Encoded(t, d, env).value[i])
  {
    match t
    case Map => TraverseAt(EntryItem(env), d.entries);
    case OrderedMap => TraverseAt(OrderedEntryItem(env), d.orderedEntries);
    case OrderedSet => TraverseAt(OrderedItem(env), d.orderedValues);
    case _ => TraverseAt(ValueItem(env), d.values);
  }

  /** Payloads within the decoding limit are not too long for 32-bit metadata when they are compressed. */
  ghost predicate Bounded(c: Config) {
    forall d :: |d| <= c.maxDecodedBytes ==> |c.compressor.compress(d)| < TWO32
  }

  /** With a decoding limit below 2^32 whatever is encoded can be described, so it comes back. */
  lemma LimitSuffices(t: ContainerType, d: ContainerData, env: Env)
    requires Matches(t, d) && Encoded(t, d, env).Ok?
    requires env.config.maxDecodedBytes < TWO32 && Bounded(env.config)
    ensures AllDescribable(d, env.config)
  {
    hide Traverse;
    match t
    case Map => TraverseAt(EntryItem(env), d.entries);
    case OrderedMap => TraverseAt(OrderedEntryItem(env), d.orderedEntries);
    case OrderedSet => TraverseAt(OrderedItem(env), d.orderedValues);
    case _ => TraverseAt(ValueItem(env), d.values);
  }
}
