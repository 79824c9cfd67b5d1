/**
 The protobuf wire format: base 128 varints and length-delimited records, as described in the
 "Encoding" guide of Protocol Buffers. `proto.Size` is the length of this encoding.
 */
module Wire {
  import opened Wrappers

  type byte = x: int | 0 <= x < 256
  type uint32 = x: int | 0 <= x < 0x1_0000_0000
  type uint64 = x: int | 0 <= x < 0x1_0000_0000_0000_0000

  const MAX_UINT32: uint32 := 0xFFFF_FFFF

  /** Field numbers up to 15 have tags of one byte; the messages of this client use 1 to 8. */
  type FieldNumber = x: int | 1 <= x <= 15 witness 1

  datatype Field =
    | Number(number: FieldNumber, value: nat)
    | Bytes(number: FieldNumber, payload: seq<byte>)

  const VARINT := 0
  const LENGTH_DELIMITED := 2

  function Varint(n: nat): (b: seq<byte>)
    ensures |b| >= 1
  {
    if n < 128 then [n] else [n % 128 + 128] + Varint(n / 128)
  }

  function EncodeField(f: Field): (b: seq<byte>)
    ensures |b| >= 2
  {
    match f
    case Number(number, value) => [number * 8 + VARINT] + Varint(value)
    case Bytes(number, payload) => [number * 8 + LENGTH_DELIMITED] + Varint(|payload|) + payload
  }

  function Encode(fs: seq<Field>): seq<byte> {
    if fs == [] then [] else EncodeField(fs[0]) + Encode(fs[1..])
  }

  /** `proto.Size` of a message given by its fields. */
  function Size(fs: seq<Field>): nat {
    |Encode(fs)|
  }

  // ---- the encoding can be read back

  function DecodeVarint(b: seq<byte>): (r: Option<(nat, seq<byte>)>)
    ensures r.Some? ==> |r.value.1| < |b|
  {
    if b == [] then None
    else if b[0] < 128 then Some((b[0], b[1..]))
    else match DecodeVarint(b[1..])
      case None => None
      case Some((high, rest)) => Some((b[0] - 128 + 128 * high, rest))
  }

  function DecodeField(b: seq<byte>): (r: Option<(Field, seq<byte>)>)
    ensures r.Some? ==> |r.value.1| < |b|
  {
    if b == [] || b[0] < 8 || b[0] >= 128 then None
    else match DecodeVarint(b[1..])
      case None => None
      case Some((n, rest)) =>
        if b[0] % 8 == VARINT then Some((Number(b[0] / 8, n), rest))
        else if b[0] % 8 == LENGTH_DELIMITED && n <= |rest| then Some((Bytes(b[0] / 8, rest[..n]), rest[n..]))
        else None
  }

  function Decode(b: seq<byte>): Option<seq<Field>>
    decreases |b|
  {
    if b == [] then Some([])
    else match DecodeField(b)
      case None => None
      case Some((f, rest)) =>
        match Decode(rest)
        case None => None
        case Some(fs) => Some([f] + fs)
  }

  lemma {:induction false} VarintRoundTrip(n: nat, rest: seq<byte>)
    ensures DecodeVarint(Varint(n) + rest) == Some((n, rest))
  {
    var b := Varint(n) + rest;
    if n < 128 {
      assert b[1..] == rest;
    } else {
      assert b[1..] == Varint(n / 128) + rest;
      VarintRoundTrip(n / 128, rest);
    }
  }

  /** How a tag and what follows it are read. */
  lemma DecodeTag(tag: byte, tail: seq<byte>, n: nat, rest: seq<byte>)
    requires 8 <= tag < 128 && DecodeVarint(tail) == Some((n, rest))
    ensures DecodeField([tag] + tail) ==
            if tag % 8 == VARINT then Some((Number(tag / 8, n), rest))
            else if tag % 8 == LENGTH_DELIMITED && n <= |rest| then Some((Bytes(tag / 8, rest[..n]), rest[n..]))
            else None
  {
    hide DecodeVarint;
    assert ([tag] + tail)[1..] == tail;
  }

  lemma FieldRoundTrip(f: Field, rest: seq<byte>)
    ensures DecodeField(EncodeField(f) + rest) == Some((f, rest))
  {
    hide Varint, DecodeVarint, DecodeField;
    match f
    case Number(number, value) =>
      VarintRoundTrip(value, rest);
      DecodeTag(number * 8 + VARINT, Varint(value) + rest, value, rest);
      assert EncodeField(f) + rest == [number * 8 + VARINT] + (Varint(value) + rest);
    case Bytes(number, payload) =>
      var tail := payload + rest;
      VarintRoundTrip(|payload|, tail);
      DecodeTag(number * 8 + LENGTH_DELIMITED, Varint(|payload|) + tail, |payload|, tail);
      assert EncodeField(f) + rest == [number * 8 + LENGTH_DELIMITED] + (Varint(|payload|) + tail);
      assert tail[..|payload|] == payload && tail[|payload|..] == rest;
  }

  /** Nothing is lost: the bytes of a message determine its fields. */
  lemma {:induction false} RoundTrip(fs: seq<Field>)
    ensures Decode(Encode(fs)) == Some(fs)
  {
    if fs != [] {
      FieldRoundTrip(fs[0], Encode(fs[1..]));
      RoundTrip(fs[1..]);
      assert [fs[0]] + fs[1..] == fs;
    }
  }

  // ---- the format

  /** The number in the low seven bits of each byte, the least significant group first. */
  function Groups(b: seq<byte>): nat {
    if b == [] then 0 else b[0] % 128 + 128 * Groups(b[1..])
  }

  /** All bytes of a varint but the last have their high bit set, their low bits are the number, and there is no
      superfluous byte. */
  lemma {:induction false} VarintFormat(n: nat)
    ensures var b := Varint(n);
            && Groups(b) == n && b[|b| - 1] < 128 && (|b| > 1 ==> b[|b| - 1] > 0)
            && forall i :: 0 <= i < |b| - 1 ==> b[i] >= 128
  {
    if n < 128 {
      assert [n][1..] == [];
    } else {
      VarintFormat(n / 128);
      var b := Varint(n);
      assert b[1..] == Varint(n / 128);
      assert forall i :: 0 < i < |b| ==> b[i] == Varint(n / 128)[i - 1];
    }
  }

  /** A record is a tag, with the field number above three bits of wire type, and a varint: the value, or the
      number of bytes that follow. */
  lemma FieldFormat(f: Field)
    ensures var b := EncodeField(f);
            b[0] / 8 == f.number &&
            match f
            case Number(_, value) => b[0] % 8 == 0 && b[1..] == Varint(value)
            case Bytes(_, payload) => b[0] % 8 == 2 && b[1..] == Varint(|payload|) + payload
  {
  }

  // ---- sizes

  lemma {:induction false} EncodeConcat(a: seq<Field>, b: seq<Field>)
    ensures Encode(a + b) == Encode(a) + Encode(b)
  {
    if a == [] {
      assert a + b == b;
    } else {
      assert (a + b)[1..] == a[1..] + b;
      EncodeConcat(a[1..], b);
    }
  }

  lemma SizeConcat(a: seq<Field>, b: seq<Field>)
    ensures Size(a + b) == Size(a) + Size(b)
  {
    EncodeConcat(a, b);
  }

  lemma {:induction false} VarintMonotone(m: nat, n: nat)
    requires m <= n
    ensures |Varint(m)| <= |Varint(n)|
  {
    if m >= 128 {
      VarintMonotone(m / 128, n / 128);
    }
  }

  /** One more is at most one byte more. */
  lemma {:induction false} VarintStep(n: nat)
    ensures |Varint(n + 1)| <= |Varint(n)| + 1
  {
    if n >= 128 {
      if (n + 1) % 128 == 0 {
        VarintStep(n / 128);
      } else {
        assert (n + 1) / 128 == n / 128;
      }
    }
  }

  /** A longer payload makes a longer record. */
  lemma BytesMonotone(number: FieldNumber, p: seq<byte>, q: seq<byte>)
    requires |p| <= |q|
    ensures |EncodeField(Bytes(number, p))| <= |EncodeField(Bytes(number, q))|
  {
    VarintMonotone(|p|, |q|);
  }

  lemma SizeOne(f: Field)
    ensures Size([f]) == |EncodeField(f)|
  {
    assert Encode([f]) == EncodeField(f) + Encode([]);
  }
}
