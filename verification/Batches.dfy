/**
 Collections as items, as parallel arrays, and back (collections.go:23-118, 384-484). Every entry
 survives: encoding, any split into requests, transposing and decoding return the data in order.
 */
module Batches {
  import opened Wrappers
  import opened Wire
  import opened Messages
  import opened Errors
  import opened Codec
  import opened Sequences

  datatype Entry = Entry(key: Payload, value: Payload)
  datatype OrderedEntry = OrderedEntry(key: OrderedPayload, value: Payload)

  datatype ContainerData = ContainerData(values: seq<Payload>, orderedValues: seq<OrderedPayload>,
                                         entries: seq<Entry>, orderedEntries: seq<OrderedEntry>)

  const NO_DATA := ContainerData([], [], [], [])

  function Plus(a: ContainerData, b: ContainerData): ContainerData {
    ContainerData(a.values + b.values, a.orderedValues + b.orderedValues,
                  a.entries + b.entries, a.orderedEntries + b.orderedEntries)
  }

  /** The number of elements of a collection. */
  function Count(d: ContainerData): nat {
    |d.values| + |d.orderedValues| + |d.entries| + |d.orderedEntries|
  }

  // ---- applying a partial function to a sequence: all results, or the first error

  function Traverse<A, B>(f: A -> Result<B, Error>, xs: seq<A>): Result<seq<B>, Error> {
    if xs == [] then Ok([])
    else match Traverse(f, xs[..|xs| - 1])
      case Err(e) => Err(e)
      case Ok(ys) =>
        match f(xs[|xs| - 1])
        case Err(e) => Err(e)
        case Ok(y) => Ok(ys + [y])
  }

  lemma {:induction false} TraverseAt<A, B>(f: A -> Result<B, Error>, xs: seq<A>)
    ensures Traverse(f, xs).Ok? <==> forall i :: 0 <= i < |xs| ==> f(xs[i]).Ok?
    ensures Traverse(f, xs).Ok? ==>
              |Traverse(f, xs).value| == |xs| &&
              forall i :: 0 <= i < |xs| ==> f(xs[i]) == Ok(Traverse(f, xs).value[i])
  {
    if xs != [] {
      var front := xs[..|xs| - 1];
      TraverseAt(f, front);
      assert forall i :: 0 <= i < |front| ==> front[i] == xs[i];
    }
  }

  /** The loop form: one more element. */
  lemma TraverseStep<A, B>(f: A -> Result<B, Error>, xs: seq<A>, i: nat)
    requires i < |xs| && Traverse(f, xs[..i]).Ok?
    ensures f(xs[i]).Ok? ==> Traverse(f, xs[..i + 1]) == Ok(Traverse(f, xs[..i]).value + [f(xs[i]).value])
    ensures f(xs[i]).Err? ==> Traverse(f, xs[..i + 1]) == Err(f(xs[i]).error)
  {
    assert xs[..i + 1][..i] == xs[..i];
  }

  /** The first error is the error of the whole. */
  lemma {:induction false} TraverseStops<A, B>(f: A -> Result<B, Error>, xs: seq<A>, i: nat)
    requires i <= |xs| && Traverse(f, xs[..i]).Err?
    ensures Traverse(f, xs) == Traverse(f, xs[..i])
    decreases |xs| - i
  {
    if i == |xs| {
      assert xs[..i] == xs;
    } else {
      assert xs[..i + 1][..i] == xs[..i];
      TraverseStops(f, xs, i + 1);
    }
  }

  // ---- encoding (collections.go:23-100)

  /** What the items of one call have in common: the client ID of the key, the TTL and the limits. */
  datatype Env = Env(clientId: Option<uint32>, ttl: Option<uint64>, config: Config)

  function ValueItem(env: Env): Payload -> Result<Item, Error> {
    (p: Payload) =>
      match EncodeValue(p, env.ttl, env.config, false)
      case Err(e) => Err(e)
      case Ok(v) => Ok(Item(None, None, Some(v), None))
  }

  function OrderedItem(env: Env): OrderedPayload -> Result<Item, Error> {
    (p: OrderedPayload) =>
      match EncodeOrdered(p, env.ttl, env.config)
      case Err(e) => Err(e)
      case Ok(v) => Ok(Item(None, None, None, Some(v)))
  }

  function EntryItem(env: Env): Entry -> Result<Item, Error> {
    (p: Entry) =>
      match EncodeKey(p.key.data, p.key.hint, OrElse(p.key.clientId, env.clientId), env.config, false)
      case Err(e) => Err(e)
      case Ok(k) =>
        match EncodeValue(p.value, env.ttl, env.config, false)
        case Err(e) => Err(e)
        case Ok(v) => Ok(Item(Some(k), None, Some(v), None))
  }

  function OrderedEntryItem(env: Env): OrderedEntry -> Result<Item, Error> {
    (p: OrderedEntry) =>
      match EncodePayload(p.key.payload.data, true, env.config)
      case Err(e) => Err(e)
      case Ok((b, info)) =>
        var k := OrderedKey(Some(Blob(b, Len32(b))), OrElse(p.key.order, Some(0)), info, p.key.payload.hint,
                            OrElse(p.key.payload.clientId, env.clientId));
        match EncodeValue(p.value, env.ttl, env.config, true)
        case Err(e) => Err(e)
        case Ok(v) => Ok(Item(None, Some(k), Some(v), None))
  }

  /** The data are of the kind that the container type holds. */
  predicate Matches(t: ContainerType, d: ContainerData) {
    match t
    case Map => d.values == [] && d.orderedValues == [] && d.orderedEntries == []
    case OrderedMap => d.values == [] && d.orderedValues == [] && d.entries == []
    case OrderedSet => d.values == [] && d.entries == [] && d.orderedEntries == []
    case _ => d.orderedValues == [] && d.entries == [] && d.orderedEntries == []
  }

  /** Only a creation sends the TTL with each element, and only for maps and ordered sets. */
  function ItemTtl(t: ContainerType, ttl: Option<uint64>, creation: bool): Option<uint64> {
    if creation && (t == Map || t == OrderedMap || t == OrderedSet) then ttl else None
  }

  function Encoded(t: ContainerType, d: ContainerData, env: Env): Result<seq<Item>, Error> {
    match t
    case Map => Traverse(EntryItem(env), d.entries)
    case OrderedMap => Traverse(OrderedEntryItem(env), d.orderedEntries)
    case OrderedSet => Traverse(OrderedItem(env), d.orderedValues)
    case _ => Traverse(ValueItem(env), d.values)
  }

  /** One of the four loops of `encodeItems`. */
  method EncodeEach<A>(f: A -> Result<Item, Error>, xs: seq<A>, mayEnd: bool) returns (r: Result<seq<Item>, Error>)
    ensures r == Traverse(f, xs) || (r.Err? && Ended(mayEnd, r.error))
  {
    var items: seq<Item> := [];
    for i := 0 to |xs|
      invariant Traverse(f, xs[..i]) == Ok(items)
    {
      var stopped := ContextState(mayEnd);
      if stopped.Some? {
        return Err(stopped.value);
      }
      TraverseStep(f, xs, i);
      match f(xs[i])
      case Err(e) =>
        TraverseStops(f, xs, i + 1);
        return Err(e);
      case Ok(it) =>
        items := items + [it];
    }
    assert xs[..|xs|] == xs;
    return Ok(items);
  }

  /** Refuse unsupported types and data of another kind; otherwise encode every element, in order. */
  method EncodeItems(t: ContainerType, d: ContainerData, creation: bool,
                     clientId: Option<uint32>, ttl: Option<uint64>, config: Config, mayEnd: bool)
    returns (r: Result<seq<Item>, Error>)
    ensures t == Undefined || !Matches(t, d) ==> r == Err(Local(InvalidArgument))
    ensures t != Undefined && Matches(t, d) ==>
              r == Encoded(t, d, Env(clientId, ItemTtl(t, ttl, creation), config)) || (r.Err? && Ended(mayEnd, r.error))
  {
    if t == Undefined || !Matches(t, d) {
      return Err(Local(InvalidArgument));
    }
    var env := Env(clientId, ItemTtl(t, ttl, creation), config);
    var values :- EncodeEach(ValueItem(env), d.values, mayEnd);
    var orderedValues :- EncodeEach(OrderedItem(env), d.orderedValues, mayEnd);
    var entries :- EncodeEach(EntryItem(env), d.entries, mayEnd);
    var orderedEntries :- EncodeEach(OrderedEntryItem(env), d.orderedEntries, mayEnd);
    var items := values + orderedValues + entries + orderedEntries;
    assert Encoded(t, d, env) == Ok(items) by {
      assert items == if t == Map then entries else if t == OrderedMap then orderedEntries
                      else if t == OrderedSet then orderedValues else values;
    }
    r := Ok(items);
  }

  // ---- decoding (collections.go:384-439)

  function ValueDecoder(c: Config): Value -> Result<Payload, Error> {
    (v: Value) => DecodeValue(v, c)
  }

  function OrderedDecoder(c: Config): OrderedValue -> Result<OrderedPayload, Error> {
    (v: OrderedValue) => DecodeOrdered(v, c)
  }

  /** The value of a pair is decoded before its key. */
  function EntryDecoder(c: Config): ((Key, Value)) -> Result<Entry, Error> {
    (kv: (Key, Value)) =>
      match DecodeValue(kv.1, c)
      case Err(e) => Err(e)
      case Ok(v) =>
        match DecodeKey(kv.0, c)
        case Err(e) => Err(e)
        case Ok(k) => Ok(Entry(k, v))
  }

  function OrderedEntryDecoder(c: Config): ((OrderedKey, Value)) -> Result<OrderedEntry, Error> {
    (kv: (OrderedKey, Value)) =>
      match DecodeValue(kv.1, c)
      case Err(e) => Err(e)
      case Ok(v) =>
        match DecodeOrderedKey(kv.0, c)
        case Err(e) => Err(e)
        case Ok(k) => Ok(OrderedEntry(k, v))
  }

  /** Keys of one representation only, and then one value for each key and no ordered values. */
  predicate Paired(b: Arrays) {
    && (b.keys == [] || b.orderedKeys == [])
    && (b.keys != [] || b.orderedKeys != [] ==>
          |b.keys| + |b.orderedKeys| == |b.values| && b.orderedValues == [])
  }

  function DecodedUnordered(b: Arrays, c: Config): (r: Result<ContainerData, Error>)
    requires Paired(b)
    ensures r.Ok? ==> r.value.orderedValues == []
  {
    if b.keys != [] then
      match Traverse(EntryDecoder(c), Zip(b.keys, b.values))
      case Err(e) => Err(e)
      case Ok(es) => Ok(NO_DATA.(entries := es))
    else if b.orderedKeys != [] then
      match Traverse(OrderedEntryDecoder(c), Zip(b.orderedKeys, b.values))
      case Err(e) => Err(e)
      case Ok(es) => Ok(NO_DATA.(orderedEntries := es))
    else
      match Traverse(ValueDecoder(c), b.values)
      case Err(e) => Err(e)
      case Ok(vs) => Ok(NO_DATA.(values := vs))
  }

  /** What `decodeBatch` makes of one message of the stream. */
  function Decoded(b: Arrays, c: Config): Result<ContainerData, Error> {
    if !Paired(b) then Err(Local(DataLoss))
    else
      match DecodedUnordered(b, c)
      case Err(e) => Err(e)
      case Ok(d) =>
        match Traverse(OrderedDecoder(c), b.orderedValues)
        case Err(e) => Err(e)
        case Ok(vs) => Ok(d.(orderedValues := vs))
  }

  // ---- the same, in the terms of the batch

  /** The batch pairs its keys with its values: keys of one kind only, as many as values, and nothing else. */
  predicate WellFormed(b: Arrays) {
    match (|b.keys| > 0, |b.orderedKeys| > 0)
    case (true, true) => false
    case (true, false) => |b.values| == |b.keys| && |b.orderedValues| == 0
    case (false, true) => |b.values| == |b.orderedKeys| && |b.orderedValues| == 0
    case (false, false) => true
  }

  /** `d` is what the batch holds: the elements in order, each pair made of the key and value of one index. */
  predicate HoldsData(b: Arrays, c: Config, d: ContainerData) {
    && |d.orderedValues| == |b.orderedValues|
    && (forall i :: 0 <= i < |b.orderedValues| ==> DecodeOrdered(b.orderedValues[i], c) == Ok(d.orderedValues[i]))
    && |d.entries| == |b.keys| && |d.orderedEntries| == |b.orderedKeys|
    && |d.values| + |d.entries| + |d.orderedEntries| == |b.values|
    && (forall i :: 0 <= i < |d.values| ==> DecodeValue(b.values[i], c) == Ok(d.values[i]))
    && (forall i :: 0 <= i < |d.entries| && i < |b.values| ==>
          && DecodeKey(b.keys[i], c) == Ok(d.entries[i].key) && DecodeValue(b.values[i], c) == Ok(d.entries[i].value))
    && (forall i :: 0 <= i < |d.orderedEntries| && i < |b.values| ==>
          && DecodeOrderedKey(b.orderedKeys[i], c) == Ok(d.orderedEntries[i].key)
          && DecodeValue(b.values[i], c) == Ok(d.orderedEntries[i].value))
  }

  lemma EntriesHeld(b: Arrays, c: Config, d: ContainerData)
    requires Paired(b) && b.keys != []
    ensures DecodedUnordered(b, c) == Ok(d) <==> HoldsData(b.(orderedValues := []), c, d)
  {
    var pairs := Zip(b.keys, b.values);
    TraverseAt(EntryDecoder(c), pairs);
    hide Traverse, DecodeValue, DecodeKey;
    if HoldsData(b.(orderedValues := []), c, d) {
      assert forall i :: 0 <= i < |pairs| ==> EntryDecoder(c)(pairs[i]) == Ok(d.entries[i]);
      assert Traverse(EntryDecoder(c), pairs).value == d.entries;
    }
  }

  lemma OrderedEntriesHeld(b: Arrays, c: Config, d: ContainerData)
    requires Paired(b) && b.keys == [] && b.orderedKeys != []
    ensures DecodedUnordered(b, c) == Ok(d) <==> HoldsData(b.(orderedValues := []), c, d)
  {
    var pairs := Zip(b.orderedKeys, b.values);
    TraverseAt(OrderedEntryDecoder(c), pairs);
    hide Traverse, DecodeValue, DecodeOrderedKey;
    if HoldsData(b.(orderedValues := []), c, d) {
      assert forall i :: 0 <= i < |pairs| ==> OrderedEntryDecoder(c)(pairs[i]) == Ok(d.orderedEntries[i]);
      assert Traverse(OrderedEntryDecoder(c), pairs).value == d.orderedEntries;
    }
  }

  lemma ValuesHeld(b: Arrays, c: Config, d: ContainerData)
    requires Paired(b) && b.keys == [] && b.orderedKeys == []
    ensures DecodedUnordered(b, c) == Ok(d) <==> HoldsData(b.(orderedValues := []), c, d)
  {
    TraverseAt(ValueDecoder(c), b.values);
    hide Traverse, DecodeValue;
    if HoldsData(b.(orderedValues := []), c, d) {
      assert forall i :: 0 <= i < |b.values| ==> ValueDecoder(c)(b.values[i]) == Ok(d.values[i]);
      assert Traverse(ValueDecoder(c), b.values).value == d.values;
    }
  }

  lemma UnorderedHeld(b: Arrays, c: Config, d: ContainerData)
    requires Paired(b)
    ensures DecodedUnordered(b, c) == Ok(d) <==> HoldsData(b.(orderedValues := []), c, d)
  {
    hide DecodedUnordered, HoldsData;
    if b.keys != [] {
      EntriesHeld(b, c, d);
    } else if b.orderedKeys != [] {
      OrderedEntriesHeld(b, c, d);
    } else {
      ValuesHeld(b, c, d);
    }
  }

  lemma OrderedHeld(b: Arrays, c: Config, d: ContainerData)
    ensures HoldsData(b, c, d) <==>
            && HoldsData(b.(orderedValues := []), c, d.(orderedValues := []))
            && Traverse(OrderedDecoder(c), b.orderedValues) == Ok(d.orderedValues)
  {
    TraverseAt(OrderedDecoder(c), b.orderedValues);
    hide Traverse, DecodeOrdered, DecodeValue, DecodeKey, DecodeOrderedKey;
    if HoldsData(b, c, d) {
      assert forall i :: 0 <= i < |b.orderedValues| ==> OrderedDecoder(c)(b.orderedValues[i]) == Ok(d.orderedValues[i]);
      assert Traverse(OrderedDecoder(c), b.orderedValues).value == d.orderedValues;
    }
  }

  /** A batch is decoded to `d` exactly when it is well-formed and holds `d`; a malformed one is data loss. */
  lemma DecodedExactly(b: Arrays, c: Config, d: ContainerData)
    ensures Decoded(b, c) == Ok(d) <==> WellFormed(b) && HoldsData(b, c, d)
    ensures !WellFormed(b) ==> Decoded(b, c) == Err(Local(DataLoss))
  {
    if Paired(b) {
      UnorderedHeld(b, c, d.(orderedValues := []));
      OrderedHeld(b, c, d);
    }
    hide DecodedUnordered, HoldsData, Traverse;
  }

  /** The data suit the type exactly when all their elements are of the kind that it holds. */
  lemma MatchesExactly(t: ContainerType, d: ContainerData)
    ensures Matches(t, d) <==>
            Count(d) == match t
                        case Map => |d.entries|
                        case OrderedMap => |d.orderedEntries|
                        case OrderedSet => |d.orderedValues|
                        case _ => |d.values|
  {
  }

  /** One turn of that loop, for pairs: the value is decoded before the key of the same index. */
  lemma EntryStep(b: Arrays, c: Config, i: nat, es: seq<Entry>)
    requires Paired(b) && b.keys != [] && i < |b.values|
    requires Traverse(EntryDecoder(c), Zip(b.keys, b.values)[..i]) == Ok(es)
    ensures var v, k := DecodeValue(b.values[i], c), DecodeKey(b.keys[i], c);
            if v.Err? then DecodedUnordered(b, c) == Err(v.error)
            else if k.Err? then DecodedUnordered(b, c) == Err(k.error)
            else Traverse(EntryDecoder(c), Zip(b.keys, b.values)[..i + 1]) == Ok(es + [Entry(k.value, v.value)])
  {
    var pairs := Zip(b.keys, b.values);
    TraverseStep(EntryDecoder(c), pairs, i);
    if EntryDecoder(c)(pairs[i]).Err? {
      TraverseStops(EntryDecoder(c), pairs, i + 1);
    }
  }

  lemma OrderedEntryStep(b: Arrays, c: Config, i: nat, es: seq<OrderedEntry>)
    requires Paired(b) && b.keys == [] && b.orderedKeys != [] && i < |b.values|
    requires Traverse(OrderedEntryDecoder(c), Zip(b.orderedKeys, b.values)[..i]) == Ok(es)
    ensures var v, k := DecodeValue(b.values[i], c), DecodeOrderedKey(b.orderedKeys[i], c);
            if v.Err? then DecodedUnordered(b, c) == Err(v.error)
            else if k.Err? then DecodedUnordered(b, c) == Err(k.error)
            else Traverse(OrderedEntryDecoder(c), Zip(b.orderedKeys, b.values)[..i + 1]) ==
                 Ok(es + [OrderedEntry(k.value, v.value)])
  {
    var pairs := Zip(b.orderedKeys, b.values);
    TraverseStep(OrderedEntryDecoder(c), pairs, i);
    if OrderedEntryDecoder(c)(pairs[i]).Err? {
      TraverseStops(OrderedEntryDecoder(c), pairs, i + 1);
    }
  }

  lemma ValueStep(b: Arrays, c: Config, i: nat, vs: seq<Payload>)
    requires Paired(b) && b.keys == [] && b.orderedKeys == [] && i < |b.values|
    requires Traverse(ValueDecoder(c), b.values[..i]) == Ok(vs)
    ensures var v := DecodeValue(b.values[i], c);
            if v.Err? then DecodedUnordered(b, c) == Err(v.error)
            else Traverse(ValueDecoder(c), b.values[..i + 1]) == Ok(vs + [v.value])
  {
    TraverseStep(ValueDecoder(c), b.values, i);
    if ValueDecoder(c)(b.values[i]).Err? {
      TraverseStops(ValueDecoder(c), b.values, i + 1);
    }
  }

  /** What the data hold after `i` values: the elements of the kind that the keys determine. */
  predicate DecodedSoFar(b: Arrays, c: Config, d: ContainerData, i: nat)
    requires Paired(b) && i <= |b.values|
  {
    if b.keys != [] then
      d == NO_DATA.(entries := d.entries) && Traverse(EntryDecoder(c), Zip(b.keys, b.values)[..i]) == Ok(d.entries)
    else if b.orderedKeys != [] then
      && d == NO_DATA.(orderedEntries := d.orderedEntries)
      && Traverse(OrderedEntryDecoder(c), Zip(b.orderedKeys, b.values)[..i]) == Ok(d.orderedEntries)
    else
      d == NO_DATA.(values := d.values) && Traverse(ValueDecoder(c), b.values[..i]) == Ok(d.values)
  }

  lemma DecodedAll(b: Arrays, c: Config, d: ContainerData)
    requires Paired(b) && DecodedSoFar(b, c, d, |b.values|)
    ensures DecodedUnordered(b, c) == Ok(d)
  {
    assert b.values[..|b.values|] == b.values;
    if b.keys != [] {
      assert Zip(b.keys, b.values)[..|b.values|] == Zip(b.keys, b.values);
    } else if b.orderedKeys != [] {
      assert Zip(b.orderedKeys, b.values)[..|b.values|] == Zip(b.orderedKeys, b.values);
    }
  }

  /** The loop of `decodeBatch` over the unordered values, which picks the key of the same index. */
  method DecodeUnordered(b: Arrays, c: Config) returns (r: Result<ContainerData, Error>)
    requires Paired(b)
    ensures r == DecodedUnordered(b, c)
  {
    hide EntryDecoder, OrderedEntryDecoder, ValueDecoder, DecodedUnordered, DecodeValue, DecodeKey, DecodeOrderedKey,
      Zip;
    var d := NO_DATA;
    for i := 0 to |b.values|
      invariant DecodedSoFar(b, c, d, i)
    {
      hide Traverse;
      if b.keys != [] {
        EntryStep(b, c, i, d.entries);
        var v :- DecodeValue(b.values[i], c);
        var k :- DecodeKey(b.keys[i], c);
        d := d.(entries := d.entries + [Entry(k, v)]);
      } else if b.orderedKeys != [] {
        OrderedEntryStep(b, c, i, d.orderedEntries);
        var v :- DecodeValue(b.values[i], c);
        var k :- DecodeOrderedKey(b.orderedKeys[i], c);
        d := d.(orderedEntries := d.orderedEntries + [OrderedEntry(k, v)]);
      } else {
        ValueStep(b, c, i, d.values);
        var v :- DecodeValue(b.values[i], c);
        d := d.(values := d.values + [v]);
      }
    }
    DecodedAll(b, c, d);
    r := Ok(d);
  }

  method DecodeBatch(b: Arrays, c: Config) returns (r: Result<ContainerData, Error>)
    ensures r == Decoded(b, c)
  {
    hide DecodedUnordered;
    if b.keys != [] && b.orderedKeys != [] {
      return Err(Local(DataLoss));
    }
    var nk := |b.keys| + |b.orderedKeys|;
    if nk > 0 && (nk != |b.values| || b.orderedValues != []) {
      return Err(Local(DataLoss));
    }
    var d :- DecodeUnordered(b, c);
    for i := 0 to |b.orderedValues|
      invariant DecodedUnordered(b, c) == Ok(d.(orderedValues := []))
      invariant Traverse(OrderedDecoder(c), b.orderedValues[..i]) == Ok(d.orderedValues)
    {
      TraverseStep(OrderedDecoder(c), b.orderedValues, i);
      match DecodeOrdered(b.orderedValues[i], c)
      case Err(e) =>
        TraverseStops(OrderedDecoder(c), b.orderedValues, i + 1);
        return Err(e);
      case Ok(p) =>
        d := d.(orderedValues := d.orderedValues + [p]);
    }
    assert b.orderedValues[..|b.orderedValues|] == b.orderedValues;
    r := Ok(d);
  }

  // ---- collect (collections.go:440-484)

  function BatchDecoder(c: Config): Arrays -> Result<ContainerData, Error> {
    (b: Arrays) => Decoded(b, c)
  }

  function Joined(ds: seq<ContainerData>): ContainerData {
    if ds == [] then NO_DATA else Plus(Joined(ds[..|ds| - 1]), ds[|ds| - 1])
  }

  /**
   What is reported of a stream that delivered `batches` and then ended with `end`: nothing, or an
   error. The data are the decoding of the first `chunks` batches, and of all of them when there is no
   error; an error reports exactly that progress.
   */
  predicate Collected(batches: seq<Arrays>, end: Option<Error>, c: Config,
                      data: ContainerData, err: Option<Error>, chunks: nat)
  {
    && chunks <= |batches|
    && Traverse(BatchDecoder(c), batches[..chunks]).Ok?
    && data == Joined(Traverse(BatchDecoder(c), batches[..chunks]).value)
    && if chunks < |batches| then
         && Decoded(batches[chunks], c).Err?
         && err == Some(MakePartial(chunks, Count(data), Decoded(batches[chunks], c).error))
       else
         err == if end.None? then None else Some(MakePartial(chunks, Count(data), end.value))
  }

  method Collect(batches: seq<Arrays>, end: Option<Error>, c: Config)
    returns (result: ContainerData, err: Option<Error>, chunks: nat)
    ensures Collected(batches, end, c, result, err, chunks)
  {
    hide Decoded;
    result, chunks := NO_DATA, 0;
    var items := 0;
    while chunks < |batches|
      invariant chunks <= |batches| && Traverse(BatchDecoder(c), batches[..chunks]).Ok?
      invariant result == Joined(Traverse(BatchDecoder(c), batches[..chunks]).value)
      invariant items == Count(result)
    {
      var r := DecodeBatch(batches[chunks], c);
      TraverseStep(BatchDecoder(c), batches, chunks);
      if r.Err? {
        return result, Some(MakePartial(chunks, items, r.error)), chunks;
      }
      JoinOne(Traverse(BatchDecoder(c), batches[..chunks]).value, r.value);
      result, items, chunks := Plus(result, r.value), items + Count(r.value), chunks + 1;
    }
    err := if end.None? then None else Some(MakePartial(chunks, items, end.value));
  }

  lemma JoinOne(ds: seq<ContainerData>, d: ContainerData)
    ensures Joined(ds + [d]) == Plus(Joined(ds), d)
  {
    assert (ds + [d])[..|ds|] == ds;
  }
}
