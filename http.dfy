/**
 * The part of OkHttp the library relies on, reduced to what its decisions depend on.
 *
 * A request is a verb, a URL, a body and an optional Authorization header. The server is a fixed
 * function from request to outcome: either a reply (status code, status message, body text) or
 * an exception raised while the call runs (an IOException from the network, an
 * IllegalArgumentException from OkHttp rejecting the URL, ...). An `HttpClient` keeps the log of
 * the calls made through it and of the responses it handed out, so that callers can state which
 * requests were sent, in which order, and which responses were closed.
 */
module Http {
  import opened Wrappers
  import opened Throwables
  import opened ParameterLists

  /** `MastodonClient.Method`: the verbs the client can send. */
  datatype Method = DELETE | GET | POST | PATCH

  /**
   * An OkHttp `HttpUrl`: either assembled from parts (scheme, host, path, and the query entries
   * when a query is set), or parsed from text.
   */
  datatype Url =
    | Built(scheme: string, host: string, path: string, query: Option<seq<Entry>>)
    | Parsed(text: string)

  /**
   * Request bodies: none (GET), OkHttp's zero-length body without media type, a form built from
   * parameter entries, or text with a media type.
   */
  datatype Body =
    | NoBody
    | EmptyBody
    | FormBody(mediaType: string, entries: seq<Entry>)
    | TextBody(mediaType: string, text: string)

  datatype Request = Request(verb: Method, url: Url, body: Body, authorization: Option<string>)

  /** What the server sends back for a call: status code, status message and body text. */
  datatype Reply = Reply(code: int, message: string, body: string) {
    /** `isSuccessful`: a status code in 200..299. */
    predicate Successful() {
      200 <= code < 300
    }
  }

  /** The outcome of executing one call. */
  datatype Exchange = Replied(reply: Reply) | Raised(error: Throwable)

  /** OkHttp's `Response`: status, message and body are fixed; closing it is the only change. */
  class Response {
    const code: int
    const message: string
    const body: string
    var closed: bool

    constructor(reply: Reply)
      ensures code == reply.code && message == reply.message && body == reply.body
      ensures !closed
    {
      code := reply.code;
      message := reply.message;
      body := reply.body;
      closed := false;
    }

    predicate Successful() {
      ToReply().Successful()
    }

    function ToReply(): (r: Reply)
      ensures r.code == code && r.message == message && r.body == body
    {
      Reply(code, message, body)
    }

    method Close()
      modifies this
      ensures closed
    {
      closed := true;
    }
  }

  /** An OkHttp client: sends each request to the server and hands out a fresh, open response. */
  class HttpClient {
    const serve: Request -> Exchange
    var calls: seq<Request>
    var received: seq<Response>

    constructor(serve: Request -> Exchange)
      ensures this.serve == serve && calls == [] && received == []
    {
      this.serve := serve;
      calls := [];
      received := [];
    }

    /** `newCall(request).execute()`. */
    method Execute(request: Request) returns (r: Result<Response, Throwable>)
      modifies this
      ensures calls == old(calls) + [request]
      ensures serve(request).Raised? ==> r == Failure(serve(request).error) && received == old(received)
      ensures serve(request).Replied? ==>
        && r.Success? && fresh(r.value) && !r.value.closed
        && r.value.ToReply() == serve(request).reply
        && received == old(received) + [r.value]
    {
      calls := calls + [request];
      match serve(request)
      case Raised(e) =>
        r := Failure(e);
      case Replied(reply) =>
        var response := new Response(reply);
        received := received + [response];
        r := Success(response);
    }
  }
}
