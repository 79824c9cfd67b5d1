/** Reading a container or a range of it (collections.go:440-495). */
module Reading {
  import opened Wrappers
  import opened Wire
  import opened Messages
  import opened Errors
  import opened Codec
  import opened Batches
  import opened Networks

  datatype Position = Position(typ: Option<ContainerType>, start: uint64, end: Option<uint64>, reverse: bool)

  predicate ValidPosition(p: Position) {
    p.end.Some? ==> p.start <= p.end.value
  }

  function ReadMessage(s: Session, range: Option<Position>): Message {
    match range
    case None => Message(ReadAll, Get(s.key))
    case Some(p) => Message(ReadRange, Range(s.key, p.typ, p.start, p.end, p.reverse))
  }

  /** Why a read is not sent. */
  function ReadRefusal(s: Session, range: Option<Position>): Option<Error> {
    if range.Some? && !ValidPosition(range.value) then Some(Local(InvalidArgument))
    else if RequestSize(ReadMessage(s, range).request) > s.config.maxRequestBytes then Some(Local(ResourceExhausted))
    else None
  }

  /** What a read did: `chunks` batches were decoded before the error, if there is one. */
  predicate ReadReport(s: Session, range: Option<Position>, data: ContainerData, err: Option<Error>,
                       call: Option<Call>, chunks: nat)
  {
    match call
    case None => ReadRefusal(s, range).Some? && err == ReadRefusal(s, range) && data == NO_DATA
    case Some(c) =>
      && ReadRefusal(s, range).None? && c == Call(s.node, ReadMessage(s, range), c.reply)
      && match c.reply
         case Ack(_, _) => false
         case Refused(code, routes) => err == Some(Rpc(code, routes)) && data == NO_DATA
         case Delivered(batches, end) => Collected(batches, end, s.config, data, err, chunks)
  }

  method Read(net: Network, s: Session, range: Option<Position>)
    returns (data: ContainerData, err: Option<Error>, ghost call: Option<Call>, ghost chunks: nat)
    modifies net
    ensures net.calls == old(net.calls) + ToSeq(call)
    ensures ReadReport(s, range, data, err, call, chunks)
  {
    hide Collected, RequestFields;
    data, err, call, chunks := NO_DATA, None, None, 0;
    if range.Some? && !ValidPosition(range.value) {
      err := Some(Local(InvalidArgument));
      return;
    }
    var m := ReadMessage(s, range);
    if RequestSize(m.request) > s.config.maxRequestBytes {
      err := Some(Local(ResourceExhausted));
      return;
    }
    var reply := net.Receive(s, m);
    call := Some(Call(s.node, m, reply));
    if reply.Refused? {
      err := Some(Rpc(reply.code, reply.routes));
    } else {
      data, err, chunks := Collect(reply.batches, reply.end, s.config);
    }
  }

  /** An error that reports no progress means that no batch could be decoded. */
  lemma NothingCollected(batches: seq<Arrays>, end: Option<Error>, c: Config, data: ContainerData,
                         err: Option<Error>, chunks: nat)
    requires Collected(batches, end, c, data, err, chunks)
    requires err.Some? && !HasPartial(err.value)
    ensures chunks == 0 && data == NO_DATA
    ensures batches == [] || Decoded(batches[0], c).Err?
  {
    hide Decoded;
    assert batches[..0] == [];
  }
}
