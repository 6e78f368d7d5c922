/**
 * `BigBoneRequestException`: what the client throws when a request cannot be sent or its
 * response is not successful. Besides the message and cause every exception has, it carries the
 * response, which only the response constructor sets.
 */
module RequestExceptions {
  import opened Wrappers
  import opened Throwables
  import opened Http

  datatype BigBoneRequestException =
    BigBoneRequestException(message: Option<string>, cause: Option<Throwable>, response: Option<Response>)

  /** `BigBoneRequestException(response)`: the response's status message, and the response itself. */
  function FromResponse(response: Response): (e: BigBoneRequestException)
    ensures e.response == Some(response) && e.cause.None?
    ensures e.message == Some(response.message)
  {
    BigBoneRequestException(Some(response.message), None, Some(response))
  }

  /**
   * `BigBoneRequestException(e)`: the cause is `e`; as for any exception built from a cause
   * alone, the message is the cause's `toString()`.
   */
  function FromException(e: Throwable): (x: BigBoneRequestException)
    ensures x.cause == Some(e) && x.response.None?
    ensures x.message == Some(Describe(e))
  {
    BigBoneRequestException(Some(Describe(e)), Some(e), None)
  }

  /** `BigBoneRequestException(message)`. */
  function FromMessage(message: string): (x: BigBoneRequestException)
    ensures x.message == Some(message) && x.cause.None? && x.response.None?
  {
    BigBoneRequestException(Some(message), None, None)
  }

  /** `BigBoneRequestException(message, e)`. */
  function FromMessageAndCause(message: string, e: Throwable): (x: BigBoneRequestException)
    ensures x.message == Some(message) && x.cause == Some(e) && x.response.None?
  {
    BigBoneRequestException(Some(message), Some(e), None)
  }

  /** The four ways to build the exception. */
  datatype Construction =
    | WithResponse(response: Response)
    | WithException(e: Throwable)
    | WithMessage(message: string)
    | WithMessageAndException(message: string, e: Throwable)

  function Construct(c: Construction): BigBoneRequestException {
    match c
    case WithResponse(r) => FromResponse(r)
    case WithException(e) => FromException(e)
    case WithMessage(m) => FromMessage(m)
    case WithMessageAndException(m, e) => FromMessageAndCause(m, e)
  }

  /**
   * Only the response constructor keeps a response, and an exception that carries one has that
   * response's status message as its message and no cause.
   */
  lemma {:induction false} ResponseOnlyFromResponseConstructor(c: Construction)
    ensures Construct(c).response.Some? <==> c.WithResponse?
    ensures Construct(c).response.Some? ==>
      Construct(c).message == Some(Construct(c).response.value.message) && Construct(c).cause.None?
  {
  }

  /** An exception has a cause exactly when it was built from one, and then it is that cause. */
  lemma {:induction false} CauseKept(c: Construction)
    ensures Construct(c).cause.Some? <==> (c.WithException? || c.WithMessageAndException?)
    ensures c.WithException? || c.WithMessageAndException? ==> Construct(c).cause == Some(c.e)
  {
  }
}
