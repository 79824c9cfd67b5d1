/**
 Payload encoding (codec.go). The compressor is any pair of functions; `Lawful` says that expanding
 inverts compressing, and nothing else is assumed of it.
 */
module Codec {
  import opened Wrappers
  import opened Wire
  import opened Messages
  import opened Errors

  datatype Compressor = Compressor(compress: seq<byte> -> seq<byte>, expand: seq<byte> -> Option<seq<byte>>)

  datatype Config = Config(maxRequestBytes: nat, maxDecodedBytes: nat, threshold: Option<nat>, lz4: bool,
                           compressor: Compressor)

  ghost predicate Lawful(c: Compressor) {
    forall d :: c.expand(c.compress(d)) == Some(d)
  }

  const TWO32 := 0x1_0000_0000

  /** The `uint32(len(...))` of Go: it keeps the low 32 bits. */
  function Len32(b: seq<byte>): uint32 {
    |b| % TWO32
  }

  function Threshold(c: Config): nat {
    if c.threshold.Some? then c.threshold.value else 1024
  }

  predicate Compresses(data: seq<byte>, compress: bool, c: Config) {
    compress && |data| > Threshold(c)
  }

  function EncodePayload(data: seq<byte>, compress: bool, c: Config)
    : Result<(seq<byte>, Option<CompressedInfo>), Error>
  {
    if |data| > c.maxDecodedBytes then Err(Local(ResourceExhausted))
    else if !Compresses(data, compress, c) then Ok((data, None))
    else
      var packed := c.compressor.compress(data);
      if c.lz4 && packed == [] then Err(Local(Internal))
      else Ok((packed, Some(CompressedInfo(true, Some(Len32(data))))))
  }

  function DecodePayload(b: seq<byte>, size: uint32, info: Option<CompressedInfo>, c: Config)
    : Result<seq<byte>, Error>
  {
    if |b| != size then Err(Local(DataLoss))
    else if info.None? || !info.value.enabled then
      if |b| > c.maxDecodedBytes then Err(Local(ResourceExhausted)) else Ok(b)
    else if info.value.rawSize.None? || info.value.rawSize.value == 0 then Err(Local(DataLoss))
    else if info.value.rawSize.value > c.maxDecodedBytes then Err(Local(ResourceExhausted))
    else match c.compressor.expand(b)
      case None => Err(Local(DataLoss))
      case Some(d) => if |d| != info.value.rawSize.value then Err(Local(DataLoss)) else Ok(d)
  }

  /** Sizes that 32-bit metadata can describe. */
  predicate Describable(data: seq<byte>, compress: bool, c: Config) {
    if Compresses(data, compress, c) then |data| < TWO32 && |c.compressor.compress(data)| < TWO32 else |data| < TWO32
  }

  /** What is encoded decodes to itself exactly when 32 bits can describe its sizes. */
  lemma PayloadRoundTrip(data: seq<byte>, compress: bool, c: Config)
    requires Lawful(c.compressor) && EncodePayload(data, compress, c).Ok?
    ensures var (b, info) := EncodePayload(data, compress, c).value;
            DecodePayload(b, Len32(b), info, c) == Ok(data) <==> Describable(data, compress, c)
  {
    assert c.compressor.expand(c.compressor.compress(data)) == Some(data);
  }

  /** For example: 2^32 bytes are sent with the length 0, and do not decode. */
  lemma PayloadCounterexample(data: seq<byte>, c: Config)
    requires |data| == TWO32 <= c.maxDecodedBytes
    ensures EncodePayload(data, false, c) == Ok((data, None)) && Len32(data) == 0
    ensures DecodePayload(data, Len32(data), None, c) == Err(Local(DataLoss))
  {
  }

  /** What is sent, and what is refused: only data over the limit, and a block compressor without a result. */
  lemma EncodesExactly(data: seq<byte>, compress: bool, c: Config)
    ensures var r := EncodePayload(data, compress, c);
            var packs := compress && |data| > match c.threshold { case Some(n) => n case None => 1024 };
            && (|data| > c.maxDecodedBytes <==> r == Err(Local(ResourceExhausted)))
            && (|data| <= c.maxDecodedBytes && packs && c.lz4 && c.compressor.compress(data) == [] <==>
                  r == Err(Local(Internal)))
            && (r.Ok? && !packs ==> r.value == (data, None))
            && (r.Ok? && packs ==>
                  r.value == (c.compressor.compress(data), Some(CompressedInfo(true, Some(|data| % 0x1_0000_0000)))))
            && (r.Err? ==> r.error == Local(ResourceExhausted) || r.error == Local(Internal))
  {
  }

  /** The payload is described as it was sent: uncompressed within the limit, or with a positive raw size within
      the limit that the expanded data have. */
  predicate Holds(b: seq<byte>, size: uint32, info: Option<CompressedInfo>, c: Config, d: seq<byte>) {
    && |b| == size
    && match info
       case Some(CompressedInfo(true, raw)) =>
         raw == Some(|d|) && 0 < |d| <= c.maxDecodedBytes && c.compressor.expand(b) == Some(d)
       case _ => d == b && |b| <= c.maxDecodedBytes
  }

  /** Exactly what is described as it was sent is decoded; everything else is data loss, except what is described
      well but too large. */
  lemma DecodesExactly(b: seq<byte>, size: uint32, info: Option<CompressedInfo>, c: Config)
    ensures forall d :: DecodePayload(b, size, info, c) == Ok(d) <==> Holds(b, size, info, c, d)
    ensures DecodePayload(b, size, info, c).Err? ==>
              var tooLarge := match info
                              case Some(CompressedInfo(true, Some(raw))) => raw > c.maxDecodedBytes
                              case Some(CompressedInfo(true, None)) => false
                              case _ => |b| > c.maxDecodedBytes;
              var lost := match info
                          case Some(CompressedInfo(true, raw)) => raw == None || raw == Some(0)
                          case _ => false;
              DecodePayload(b, size, info, c).error ==
                Local(if |b| == size && tooLarge && !lost then ResourceExhausted else DataLoss)
  {
  }

  /** Decoding never returns more than the configured limit. */
  lemma DecodedBounded(b: seq<byte>, size: uint32, info: Option<CompressedInfo>, c: Config)
    requires DecodePayload(b, size, info, c).Ok?
    ensures |DecodePayload(b, size, info, c).value| <= c.maxDecodedBytes
  {
  }

  // ---- values and keys

  datatype Payload = Payload(data: seq<byte>, expires: Option<uint64>, lock: Option<LockInfo>, hint: Option<KeyHint>,
                             compression: Option<CompressedInfo>, clientId: Option<uint32>)
  datatype OrderedPayload = OrderedPayload(payload: Payload, order: Option<uint64>)

  function EncodeKey(data: seq<byte>, hint: Option<KeyHint>, id: Option<uint32>, c: Config, compress: bool)
    : Result<Key, Error>
  {
    match EncodePayload(data, compress, c)
    case Err(e) => Err(e)
    case Ok((b, info)) => Ok(Key(Some(Blob(b, Len32(b))), info, hint, id))
  }

  function EncodeValue(p: Payload, ttl: Option<uint64>, c: Config, compress: bool): Result<Value, Error> {
    match EncodePayload(p.data, compress, c)
    case Err(e) => Err(e)
    case Ok((b, info)) => Ok(Value(Some(Blob(b, Len32(b))), info, OrElse(p.expires, ttl), p.lock))
  }

  function EncodeOrdered(p: OrderedPayload, ttl: Option<uint64>, c: Config): Result<OrderedValue, Error> {
    match EncodePayload(p.payload.data, true, c)
    case Err(e) => Err(e)
    case Ok((b, info)) =>
      Ok(OrderedValue(Some(Blob(b, Len32(b))), OrElse(p.order, Some(0)), info, OrElse(p.payload.expires, ttl),
                      p.payload.lock))
  }

  function DecodeValue(v: Value, c: Config): Result<Payload, Error> {
    if v.blob.None? then Err(Local(DataLoss))
    else match DecodePayload(v.blob.value.payload, v.blob.value.size, v.compression, c)
      case Err(e) => Err(e)
      case Ok(b) => Ok(Payload(b, v.ttl, v.lock, None, v.compression, None))
  }

  function DecodeOrdered(v: OrderedValue, c: Config): Result<OrderedPayload, Error> {
    match DecodeValue(Value(v.blob, v.compression, v.ttl, v.lock), c)
    case Err(e) => Err(e)
    case Ok(p) => Ok(OrderedPayload(p, v.order))
  }

  function DecodeKey(k: Key, c: Config): Result<Payload, Error> {
    if k.payload.None? then Err(Local(DataLoss))
    else match DecodePayload(k.payload.value.payload, k.payload.value.size, k.compression, c)
      case Err(e) => Err(e)
      case Ok(b) => Ok(Payload(b, None, None, k.hint, k.compression, k.clientId))
  }

  function DecodeOrderedKey(k: OrderedKey, c: Config): Result<OrderedPayload, Error> {
    match DecodeKey(Key(k.payload, k.compression, k.hint, k.clientId), c)
    case Err(e) => Err(e)
    case Ok(p) => Ok(OrderedPayload(p, k.order))
  }

  /** A value or key without a payload is data loss; with one, it fails as the payload does. */
  lemma DecodingFails(v: Value, o: OrderedValue, k: Key, q: OrderedKey, c: Config)
    ensures v.blob == None ==> DecodeValue(v, c) == Err(Local(DataLoss))
    ensures o.blob == None ==> DecodeOrdered(o, c) == Err(Local(DataLoss))
    ensures k.payload == None ==> DecodeKey(k, c) == Err(Local(DataLoss))
    ensures q.payload == None ==> DecodeOrderedKey(q, c) == Err(Local(DataLoss))
    ensures v.blob.Some? && DecodeValue(v, c).Err? ==>
              DecodePayload(v.blob.value.payload, v.blob.value.size, v.compression, c) == Err(DecodeValue(v, c).error)
    ensures o.blob.Some? && DecodeOrdered(o, c).Err? ==>
              DecodePayload(o.blob.value.payload, o.blob.value.size, o.compression, c) == Err(DecodeOrdered(o, c).error)
    ensures k.payload.Some? && DecodeKey(k, c).Err? ==>
              DecodePayload(k.payload.value.payload, k.payload.value.size, k.compression, c) ==
                  Err(DecodeKey(k, c).error)
    ensures q.payload.Some? && DecodeOrderedKey(q, c).Err? ==>
              DecodePayload(q.payload.value.payload, q.payload.value.size, q.compression, c)
              == Err(DecodeOrderedKey(q, c).error)
  {
    hide DecodePayload;
  }
}
