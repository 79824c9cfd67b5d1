/** Errors of the client (client.go:53-75, 278-287). */
module Errors {
  import opened Wrappers

  datatype Code =
    | Canceled | DeadlineExceeded | InvalidArgument | ResourceExhausted | FailedPrecondition
    | Aborted | OutOfRange | Internal | Unavailable | DataLoss | OtherCode

  /** `Local` is a status made by the client itself, `Rpc` one from the server, with the values of its
      route trailer, and `Partial` wraps a failure after acknowledged work. */
  datatype Error =
    | Local(code: Code)
    | Rpc(status: Code, routes: seq<string>)
    | Partial(chunks: nat, items: nat, cause: Error)

  /** `status.Code`: a partial error has the code of its cause. */
  function CodeOf(e: Error): Code {
    match e
    case Local(code) => code
    case Rpc(status, _) => status
    case Partial(_, _, cause) => CodeOf(cause)
  }

  /** `errors.As` for an RPC error: its route trailer. */
  function RoutesOf(e: Error): Option<seq<string>> {
    match e
    case Local(_) => None
    case Rpc(_, routes) => Some(routes)
    case Partial(_, _, cause) => RoutesOf(cause)
  }

  predicate HasPartial(e: Error) {
    e.Partial?
  }

  function Cause(e: Error): Error {
    if e.Partial? then Cause(e.cause) else e
  }

  /** The context was cancelled, or its deadline has passed. */
  predicate ContextError(e: Error) {
    e == Local(Canceled) || e == Local(DeadlineExceeded)
  }

  /** An operation ends with a context error, which only a context that may end explains. */
  predicate Ended(mayEnd: bool, e: Error) {
    mayEnd && ContextError(e)
  }

  predicate Excused(mayEnd: bool, err: Option<Error>) {
    err.Some? && ContextError(Cause(err.value)) ==> mayEnd
  }

  /** The state of a context that may end at any time, or that can not. */
  method ContextState(mayEnd: bool) returns (e: Option<Error>)
    ensures e.Some? ==> Ended(mayEnd, e.value)
  {
    e := None;
    if mayEnd {
      var cancelled: bool, late: bool := *, *;
      e := if cancelled then Some(Local(Canceled)) else if late then Some(Local(DeadlineExceeded)) else None;
    }
  }

  /** `partial`: nothing done is no partial failure. */
  function MakePartial(chunks: nat, items: nat, e: Error): Error {
    if chunks == 0 then e else Partial(chunks, items, e)
  }

  /** The cause of an error that wraps at most once. */
  lemma CauseOnce(err: Option<Error>)
    ensures err.Some? && !err.value.Partial? ==> Cause(err.value) == err.value
    ensures err.Some? && err.value.Partial? && !err.value.cause.Partial? ==> Cause(err.value) == err.value.cause
  {
    if err.Some? && err.value.Partial? {
      assert Cause(err.value) == Cause(err.value.cause);
    }
  }

  /** Reporting progress does not change the cause. */
  lemma ExcusedPartial(mayEnd: bool, chunks: nat, items: nat, e: Error)
    requires !e.Partial? && (ContextError(e) ==> mayEnd)
    ensures Excused(mayEnd, Some(MakePartial(chunks, items, e)))
  {
    assert Cause(e) == e;
  }

  lemma ExcusedSuccess(mayEnd: bool)
    ensures Excused(mayEnd, None)
  {
  }
}
