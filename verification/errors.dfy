/** The handler's catch block: it inspects the failure, logs it according to
    whether the completion service answered, and rethrows. A 429 answer is
    rethrown as a distinct `RateLimitExceeded` error; everything else is
    rethrown unchanged. */
module Errors {
  import opened Wrappers
  import opened Chat

  /** Which logging branch the catch block takes. */
  datatype Kind = RateLimited | Upstream | Transport

  function KindOf(e: Error): (k: Kind)
    ensures k == RateLimited <==> e.response.Some? && e.response.value.status == 429
    ensures k == Transport <==> e.response.None?
  {
    match e.response
    case None => Transport
    case Some(r) => if r.status == 429 then RateLimited else Upstream
  }

  /** The error the catch block throws. It always keeps the original
      message; only a 429 changes the error, into a `RateLimitExceeded` error
      with no HTTP response of its own. */
  function Rethrow(e: Error): (r: Error)
    ensures r.message == e.message
    ensures KindOf(e) == RateLimited ==> r.name == RateLimitName && r.response.None?
    ensures KindOf(e) != RateLimited ==> r == e
  {
    if KindOf(e) == RateLimited then Error(RateLimitName, e.message, None) else e
  }

  /** Rethrowing a rethrown error changes nothing more: the rate-limit error
      carries no response, so it is not classified again. */
  lemma RethrowIdempotent(e: Error)
    ensures Rethrow(Rethrow(e)) == Rethrow(e)
  {
  }

  /** The catch block applied to a computation's outcome: a success passes
      through, a failure is rethrown, so no failure is ever turned into a
      success. */
  function Catch<T>(outcome: Result<T, Error>): (r: Result<T, Error>)
    ensures r.Success? <==> outcome.Success?
    ensures outcome.Success? ==> r == outcome
    ensures outcome.Failure? ==> r == Failure(Rethrow(outcome.error))
  {
    outcome.MapFailure(Rethrow)
  }
}
