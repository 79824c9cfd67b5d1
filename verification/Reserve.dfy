/**
 Why `CreateContainer` cannot fail on a size after its first request (collections.go:166-180): the
 split reserves the widest key hint, and a continuation is no larger than a creation.
 */
module Reserve {
  import opened Wrappers
  import opened Wire
  import opened Messages
  import opened Packing

  const WIDEST := KeyHint(Some(MAX_UINT32), Some(MAX_UINT32))

  /** The key with both hashes at their maximum. */
  function Reserved(k: Key): Key {
    k.(hint := Some(WIDEST))
  }

  lemma OptionalShorter(number: FieldNumber, value: Option<uint32>)
    ensures Size(Optional(number, value)) <= Size(Optional(number, Some(MAX_UINT32)))
  {
    hide Varint;
    SizeOne(Number(number, MAX_UINT32));
    if value.Some? {
      SizeOne(Number(number, value.value));
      VarintMonotone(value.value, MAX_UINT32);
    }
  }

  lemma HintShorter(h: KeyHint)
    ensures Size(HintFields(Some(h)).value) <= Size(HintFields(Some(WIDEST)).value)
  {
    hide Size, Optional;
    OptionalShorter(1, h.weak);
    OptionalShorter(2, h.strong);
    SizeConcat(Optional(1, h.weak), Optional(2, h.strong));
    SizeConcat(Optional(1, WIDEST.weak), Optional(2, WIDEST.strong));
  }

  lemma SubShorter(number: FieldNumber, small: Option<seq<Field>>, big: seq<Field>)
    requires small.Some? ==> Size(small.value) <= Size(big)
    ensures Size(Sub(number, small)) <= Size(Sub(number, Some(big)))
  {
    SizeOne(Bytes(number, Encode(big)));
    if small.Some? {
      SizeOne(Bytes(number, Encode(small.value)));
      BytesMonotone(number, Encode(small.value), Encode(big));
    }
  }

  lemma SizeOfKey(k: Key)
    ensures Size(KeyFields(k)) == Size(Sub(1, BlobFields(k.payload))) + Size(Sub(2, CompressionFields(k.compression)))
                                  + Size(Sub(3, HintFields(k.hint))) + Size(Optional(4, k.clientId))
  {
    hide Size, Sub, Optional;
    var a, b := Sub(1, BlobFields(k.payload)), Sub(2, CompressionFields(k.compression));
    var c, d := Sub(3, HintFields(k.hint)), Optional(4, k.clientId);
    SizeConcat(a, b);
    SizeConcat(a + b, c);
    SizeConcat(a + b + c, d);
  }

  /** No hint is wider than the reserved one. */
  lemma KeyShorter(k: Key, h: Option<KeyHint>)
    ensures Size(KeyFields(k.(hint := h))) <= Size(KeyFields(Reserved(k)))
  {
    hide Size, Sub, Optional, KeyFields;
    SizeOfKey(k.(hint := h));
    SizeOfKey(Reserved(k));
    if h.Some? {
      HintShorter(h.value);
    }
    SubShorter(3, HintFields(h), HintFields(Some(WIDEST)).value);
  }

  /** The header without the key. */
  function Rest(p: Plan): seq<Field>
    requires p.CreatePlan? || p.ContinuePlan?
  {
    match p
    case CreatePlan(_, typ, ttl, _) => Implicit(2, TypeNumber(typ)) + Optional(3, ttl)
    case ContinuePlan(_, typ, _) => Optional(2, Some(TypeNumber(typ)))
  }

  lemma SizeOfHeader(p: Plan)
    requires p.CreatePlan? || p.ContinuePlan?
    ensures Size(Header(p, 0)) == |EncodeField(Bytes(1, Encode(KeyFields(p.key))))| + Size(Rest(p))
    ensures forall i :: Header(p, i) == Header(p, 0)
  {
    hide Encode, KeyFields;
    var key := [Bytes(1, Encode(KeyFields(p.key)))];
    SizeOne(key[0]);
    SizeConcat(key, Rest(p));
    assert Header(p, 0) == key + Rest(p);
  }

  /** A continuation has the type, but no TTL. */
  lemma RestShorter(key: Key, typ: ContainerType, ttl: Option<uint64>, items: seq<Item>)
    requires typ != Undefined
    ensures Size(Rest(ContinuePlan(key, typ, items))) <= Size(Rest(CreatePlan(key, typ, ttl, items)))
  {
    hide Encode;
    SizeConcat(Implicit(2, TypeNumber(typ)), Optional(3, ttl));
  }

  /** If the creation with the reserved key fits, so do the creation and the continuation of the same
      items with any hint, or none. */
  lemma ReservedSuffices(k: Key, h: Option<KeyHint>, typ: ContainerType, ttl: Option<uint64>, items: seq<Item>,
                         limit: nat, i: nat, j: nat)
    requires typ != Undefined && i <= j <= |items|
    requires Fits(CreatePlan(Reserved(k), typ, ttl, items), limit, i, j)
    ensures Fits(CreatePlan(k.(hint := h), typ, ttl, items), limit, i, j)
    ensures Fits(ContinuePlan(k.(hint := h), typ, items), limit, i, j)
  {
    hide Size, Build, RequestSize, KeyFields, Header, Rest, EncodeField, Encode;
    var reserve := CreatePlan(Reserved(k), typ, ttl, items);
    var create := CreatePlan(k.(hint := h), typ, ttl, items);
    var continuation := ContinuePlan(k.(hint := h), typ, items);
    KeyShorter(k, h);
    SizeIsLength(KeyFields(k.(hint := h)));
    SizeIsLength(KeyFields(Reserved(k)));
    BytesMonotone(1, Encode(KeyFields(k.(hint := h))), Encode(KeyFields(Reserved(k))));
    RestShorter(k.(hint := h), typ, ttl, items);
    SameRest(reserve, create);
    SizeOfBuild(reserve, i, j);
    SizeOfBuild(create, i, j);
    SizeOfBuild(continuation, i, j);
    SizeOfHeader(reserve);
    SizeOfHeader(create);
    SizeOfHeader(continuation);
  }

  lemma SizeIsLength(fs: seq<Field>)
    ensures Size(fs) == |Encode(fs)|
  {
  }

  lemma SameRest(p: Plan, q: Plan)
    requires p.CreatePlan? && q.CreatePlan? && p.typ == q.typ && p.ttl == q.ttl
    ensures Rest(p) == Rest(q)
  {
  }
}
