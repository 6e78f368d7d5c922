/**
 * `BigBoneClientInstantiationException` and its four subclasses, thrown while a client is being
 * set up. They are ordinary exceptions (message and cause); the subclass is recorded as a `Kind`.
 * The constructors that take a response (`Reply`: status code, message and body) use only its
 * status message: no response is kept.
 */
module InstantiationExceptions {
  import opened Wrappers
  import opened Throwables
  import opened Http

  datatype Kind =
    | ClientInstantiation
    | ServerInfoRetrieval
    | ServerInfoUrlRetrieval
    | UnsupportedServer
    | InstanceRetrieval

  datatype ClientInstantiationException =
    ClientInstantiationException(kind: Kind, message: Option<string>, cause: Option<Throwable>)
  {
    /** Every kind is a `BigBoneClientInstantiationException`; the four subclasses are unrelated. */
    predicate IsA(k: Kind) {
      k == ClientInstantiation || k == kind
    }
  }

  /** The message of a response-based exception: the given prefix (or nothing), then the status message. */
  function ComposeMessage(prefix: Option<string>, responseMessage: string): (m: string)
    ensures |m| == |prefix.GetOr("")| + |responseMessage|
    ensures m[..|prefix.GetOr("")|] == prefix.GetOr("")
    ensures m[|prefix.GetOr("")|..] == responseMessage
  {
    prefix.GetOr("") + responseMessage
  }

  /** The message `Exception(cause)` gets: the cause's `toString()`, or none without a cause. */
  function CauseMessage(cause: Option<Throwable>): (m: Option<string>)
    ensures m.Some? <==> cause.Some?
    ensures cause.Some? ==> m == Some(Describe(cause.value))
  {
    match cause
    case None => None
    case Some(c) => Some(Describe(c))
  }

  // BigBoneClientInstantiationException's own four constructors.

  function Plain(): (e: ClientInstantiationException)
    ensures e.kind == ClientInstantiation && e.message.None? && e.cause.None?
  {
    ClientInstantiationException(ClientInstantiation, None, None)
  }

  function WithMessage(message: string): (e: ClientInstantiationException)
    ensures e.kind == ClientInstantiation && e.message == Some(message) && e.cause.None?
  {
    ClientInstantiationException(ClientInstantiation, Some(message), None)
  }

  function WithMessageAndCause(message: string, cause: Option<Throwable>): (e: ClientInstantiationException)
    ensures e.kind == ClientInstantiation && e.message == Some(message) && e.cause == cause
  {
    ClientInstantiationException(ClientInstantiation, Some(message), cause)
  }

  function WithCause(cause: Option<Throwable>): (e: ClientInstantiationException)
    ensures e.kind == ClientInstantiation && e.cause == cause
    ensures e.message.Some? <==> cause.Some?
  {
    ClientInstantiationException(ClientInstantiation, CauseMessage(cause), cause)
  }

  // ServerInfoRetrievalException.

  function ServerInfoRetrievalFromCause(cause: Option<Throwable>): (e: ClientInstantiationException)
    ensures e.kind == ServerInfoRetrieval && e.cause == cause
    ensures e.message.Some? <==> cause.Some?
  {
    ClientInstantiationException(ServerInfoRetrieval, CauseMessage(cause), cause)
  }

  /** The (message, cause) constructor keeps the message verbatim. */
  function ServerInfoRetrievalWithMessage(message: string, cause: Option<Throwable>): (e: ClientInstantiationException)
    ensures e.kind == ServerInfoRetrieval && e.message == Some(message) && e.cause == cause
  {
    ClientInstantiationException(ServerInfoRetrieval, Some(message), cause)
  }

  function ServerInfoRetrievalFromResponse(response: Reply, message: Option<string> := None): (e: ClientInstantiationException)
    ensures e.kind == ServerInfoRetrieval && e.cause.None?
    ensures e.message == Some(ComposeMessage(message, response.message))
  {
    ClientInstantiationException(ServerInfoRetrieval, Some(ComposeMessage(message, response.message)), None)
  }

  // The other three subclasses.

  function ServerInfoUrlRetrievalFromResponse(response: Reply, message: Option<string> := None): (e: ClientInstantiationException)
    ensures e.kind == ServerInfoUrlRetrieval && e.cause.None?
    ensures e.message == Some(ComposeMessage(message, response.message))
  {
    ClientInstantiationException(ServerInfoUrlRetrieval, Some(ComposeMessage(message, response.message)), None)
  }

  function UnsupportedServerException(message: string, cause: Option<Throwable> := None): (e: ClientInstantiationException)
    ensures e.kind == UnsupportedServer && e.message == Some(message) && e.cause == cause
  {
    ClientInstantiationException(UnsupportedServer, Some(message), cause)
  }

  function InstanceRetrievalException(message: string, cause: Option<Throwable> := None): (e: ClientInstantiationException)
    ensures e.kind == InstanceRetrieval && e.message == Some(message) && e.cause == cause
  {
    ClientInstantiationException(InstanceRetrieval, Some(message), cause)
  }

  /**
   * The response-based constructors depend on the response only through its status message:
   * two responses with the same message give the same exception.
   */
  lemma {:induction false} OnlyStatusMessageKept(r1: Reply, r2: Reply, prefix: Option<string>)
    requires r1.message == r2.message
    ensures ServerInfoRetrievalFromResponse(r1, prefix) == ServerInfoRetrievalFromResponse(r2, prefix)
    ensures ServerInfoUrlRetrievalFromResponse(r1, prefix) == ServerInfoUrlRetrievalFromResponse(r2, prefix)
  {
  }

  /**
   * The two discovery failures built from the same response and prefix carry the same message and
   * differ only in their kind, and neither is the other.
   */
  lemma {:induction false} DiscoveryFailuresDistinct(r: Reply, prefix: Option<string>)
    ensures ServerInfoRetrievalFromResponse(r, prefix).message == ServerInfoUrlRetrievalFromResponse(r, prefix).message
    ensures !ServerInfoRetrievalFromResponse(r, prefix).IsA(ServerInfoUrlRetrieval)
    ensures !ServerInfoUrlRetrievalFromResponse(r, prefix).IsA(ServerInfoRetrieval)
    ensures ServerInfoRetrievalFromResponse(r, prefix).IsA(ClientInstantiation)
    ensures ServerInfoUrlRetrievalFromResponse(r, prefix).IsA(ClientInstantiation)
  {
  }
}
