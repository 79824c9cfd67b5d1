/** One attempt of an operation on one node: the size gate and the RPC (client.go:209-277). What the
    server and the context do is nondeterministic; `calls` records every RPC in order. */
module Networks {
  import opened Wrappers
  import opened Wire
  import opened Messages
  import opened Errors
  import opened Codec

  datatype Rpc = CreateWhole | AddToHead | AddToTail | AddByValue | AddElement | RemoveByKeyValue | ReadAll | ReadRange

  /** An acknowledgement, a refusal, or the batches of a stream and how it ended. */
  datatype Reply =
    | Ack(size: uint32, hint: Option<KeyHint>)
    | Refused(code: Code, routes: seq<string>)
    | Delivered(batches: seq<Arrays>, end: Option<Error>)

  datatype Message = Message(rpc: Rpc, request: Request)
  datatype Call = Call(node: nat, message: Message, reply: Reply)

  /** `mayEnd` says that the context of the session may end while the operation runs. */
  datatype Session = Session(node: nat, key: Key, ttl: Option<uint64>, config: Config, mayEnd: bool)

  class Network {
    var calls: seq<Call>

    /** `unary`: nothing is sent when the context is done or the request is too large. */
    method Unary(s: Session, m: Message) returns (r: Result<Reply, Error>)
      modifies this
      ensures r.Ok? ==> r.value.Ack? && calls == old(calls) + [Call(s.node, m, r.value)]
      ensures r.Err? && r.error.Rpc? ==>
                calls == old(calls) + [Call(s.node, m, Refused(r.error.status, r.error.routes))]
      ensures r.Err? && !r.error.Rpc? ==> calls == old(calls) && !r.error.Partial?
      ensures r.Err? && !r.error.Rpc? && !Ended(s.mayEnd, r.error) ==>
                r.error == Local(ResourceExhausted) && RequestSize(m.request) > s.config.maxRequestBytes
      ensures calls != old(calls) ==> RequestSize(m.request) <= s.config.maxRequestBytes
    {
      var stopped := ContextState(s.mayEnd);
      if stopped.Some? {
        return Err(stopped.value);
      }
      if RequestSize(m.request) > s.config.maxRequestBytes {
        return Err(Local(ResourceExhausted));
      }
      var size: uint32, hint: Option<KeyHint>, fails: bool, code: Code, routes: seq<string> := *, *, *, *, *;
      if fails {
        calls := calls + [Call(s.node, m, Refused(code, routes))];
        r := Err(Rpc(code, routes));
      } else {
        calls := calls + [Call(s.node, m, Ack(size, hint))];
        r := Ok(Ack(size, hint));
      }
    }

    /** Open a stream and receive all of it. A stream ends normally or with a server error. */
    method Receive(s: Session, m: Message) returns (r: Reply)
      modifies this
      ensures calls == old(calls) + [Call(s.node, m, r)]
      ensures !r.Ack? && (r.Delivered? && r.end.Some? ==> r.end.value.Rpc?)
    {
      var batches: seq<Arrays>, fails: bool, broken: bool, code: Code, routes: seq<string> := *, *, *, *, *;
      r := if fails then Refused(code, routes)
           else Delivered(batches, if broken then Some(Rpc(code, routes)) else None);
      calls := calls + [Call(s.node, m, r)];
    }
  }
}
