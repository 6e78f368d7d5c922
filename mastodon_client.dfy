/**
 * `MastodonClient`: turns an endpoint, a verb and parameters into an HTTP request on the
 * instance, sends it through an OkHttp client whose interceptor adds the access token, and
 * translates exceptions into `BigBoneRequestException`. Its `Builder` collects the settings, asks
 * the instance for its version (API v2 first, then v1) and creates the client.
 *
 * JSON decoding of the instance version is a parameter of the builder: it maps a response body
 * to a version string or to the exception decoding throws.
 */
module Client {
  import opened Wrappers
  import opened Throwables
  import opened ParameterLists
  import opened Http
  import opened RequestExceptions

  const NETWORK_IO_ISSUE := "Request not executed due to network IO issue"
  const NULL_PATCH_BODY := "Patch request not possible with null body"
  const FORM_MEDIA_TYPE := "application/x-www-form-urlencoded; charset=utf-8"
  const INSTANCE_VERSION_UNAVAILABLE := "Unable to fetch instance version"
  const STREAMING_READ_TIMEOUT_SECONDS := 60

  /** What `Optional.get()` throws when the stream found no successful instance response. */
  const NO_VALUE_PRESENT := Throwable(OtherException("java.util.NoSuchElementException"), Some("No value present"), None)

  /** What the client's verbs throw: its own request exception, or any other exception unchanged. */
  datatype ClientError = RequestFailed(exception: BigBoneRequestException) | Escaped(throwable: Throwable)

  /**
   * `fullUrl`: always HTTPS, always the instance as host, the endpoint as path, and a query only
   * when parameters are given.
   */
  function FullUrl(instanceName: string, path: string, query: Option<seq<Entry>> := None): (url: Url)
    ensures url.Built? && url.scheme == "https" && url.host == instanceName && url.path == path
    ensures url.query.Some? <==> query.Some?
    ensures query.Some? ==> url.query == query
  {
    Built("https", instanceName, path, query)
  }

  /** `parameterBody`: no parameters give the empty body, parameters a form-encoded body of them. */
  function ParameterBody(parameters: Option<seq<Entry>>): (body: Body)
    ensures parameters.None? <==> body == EmptyBody
    ensures parameters.Some? ==> body == FormBody(FORM_MEDIA_TYPE, parameters.value)
  {
    match parameters
    case None => EmptyBody
    case Some(entries) => FormBody(FORM_MEDIA_TYPE, entries)
  }

  /**
   * The `AuthorizationInterceptor`: with a token, the request gets the header
   * "Authorization: Bearer <token>"; without one it goes out unchanged. Verb, URL and body are
   * never touched.
   */
  function Authorize(request: Request, accessToken: Option<string>): (sent: Request)
    ensures sent.verb == request.verb && sent.url == request.url && sent.body == request.body
    ensures accessToken.None? ==> sent == request
    ensures accessToken.Some? ==> sent.authorization == Some("Bearer " + accessToken.value)
  {
    match accessToken
    case None => request
    case Some(token) => request.(authorization := Some("Bearer " + token))
  }

  /** A call of one of the client's verb methods, with its arguments. */
  datatype Call =
    | DeleteCall(path: string)
    | GetCall(path: string, query: Option<seq<Entry>>)
    | PatchCall(path: string, parameters: Option<seq<Entry>>)
    | PostCall(path: string, body: Body)

  /**
   * The `when (method)` of `getMastodonRequest` and its list and pageable variants: which verb
   * method runs, and what it receives.
   */
  function Dispatch(endpoint: string, verb: Method, parameters: Option<seq<Entry>>): (call: Call)
    ensures call.path == endpoint
    ensures call.DeleteCall? <==> verb == DELETE
    ensures call.GetCall? <==> verb == GET
    ensures call.PatchCall? <==> verb == PATCH
    ensures call.GetCall? ==> call.query == parameters
    ensures call.PatchCall? ==> call.parameters == parameters
    ensures call.PostCall? ==> call.body == ParameterBody(parameters)
  {
    match verb
    case DELETE => DeleteCall(endpoint)
    case GET => GetCall(endpoint, parameters)
    case PATCH => PatchCall(endpoint, parameters)
    case POST => PostCall(endpoint, ParameterBody(parameters))
  }

  /**
   * The request a verb method builds before the interceptor sees it; none when `patch` refuses a
   * null body. `delete()` sends OkHttp's empty body, `get()` none.
   */
  function CallRequest(instanceName: string, call: Call): (r: Option<Request>)
    ensures r.None? <==> call.PatchCall? && call.parameters.None?
    ensures r.Some? ==> r.value.authorization.None?
    ensures r.Some? ==>
      (r.value.verb == DELETE <==> call.DeleteCall?) && (r.value.verb == GET <==> call.GetCall?)
      && (r.value.verb == PATCH <==> call.PatchCall?)
    ensures r.Some? && call.GetCall? ==> r.value.body == NoBody && r.value.url == FullUrl(instanceName, call.path, call.query)
    ensures r.Some? && !call.GetCall? ==> r.value.url == FullUrl(instanceName, call.path)
    ensures r.Some? && call.DeleteCall? ==> r.value.body == EmptyBody
  {
    match call
    case DeleteCall(path) => Some(Request(DELETE, FullUrl(instanceName, path), EmptyBody, None))
    case GetCall(path, query) => Some(Request(GET, FullUrl(instanceName, path, query), NoBody, None))
    case PatchCall(path, parameters) =>
      if parameters.None? then None
      else Some(Request(PATCH, FullUrl(instanceName, path), ParameterBody(parameters), None))
    case PostCall(path, body) => Some(Request(POST, FullUrl(instanceName, path), body, None))
  }

  /**
   * The `catch` clauses: every verb turns an IOException into "Request not executed due to
   * network IO issue" with the exception as cause; `postRequestBody` first turns an
   * IllegalArgumentException into a request exception built from it. Anything else propagates.
   */
  function Wrap(call: Call, e: Throwable): (w: ClientError)
    ensures w.Escaped? <==> !e.IsA(IOException) && !(call.PostCall? && e.IsA(IllegalArgumentException))
    ensures w.Escaped? ==> w.throwable == e
    ensures w.RequestFailed? ==> w.exception.cause == Some(e) && w.exception.response.None?
    ensures w.RequestFailed? && !call.PostCall? ==> w.exception.message == Some(NETWORK_IO_ISSUE)
  {
    if call.PostCall? && e.IsA(IllegalArgumentException) then RequestFailed(FromException(e))
    else if e.IsA(IOException) then RequestFailed(FromMessageAndCause(NETWORK_IO_ISSUE, e))
    else Escaped(e)
  }

  /** `r` is what the call delivers for the server's answer `x`: the response, or the translated exception. */
  predicate Delivers(call: Call, x: Exchange, r: Result<Response, ClientError>) {
    match x
    case Raised(e) => r == Failure(Wrap(call, e))
    case Replied(reply) => r.Success? && r.value.ToReply() == reply
  }

  /**
   * Where the parameters go, verb by verb: DELETE never sends them, GET sends them as the query,
   * PATCH and POST as a form body. A PATCH without parameters sends nothing at all.
   */
  lemma {:induction false} ParametersPlacement(instanceName: string, endpoint: string, verb: Method, parameters: Option<seq<Entry>>)
    ensures var request := CallRequest(instanceName, Dispatch(endpoint, verb, parameters));
      && (request.Some? <==> (verb != PATCH || parameters.Some?))
      && (request.Some? ==> request.value.verb == verb && request.value.url == FullUrl(instanceName, endpoint, request.value.url.query))
      && (verb == DELETE ==> request.value.url.query.None? && request.value.body == EmptyBody)
      && (verb == GET ==> request.value.url.query == parameters && request.value.body == NoBody)
      && (verb == PATCH && parameters.Some? ==>
            request.value.url.query.None? && request.value.body == FormBody(FORM_MEDIA_TYPE, parameters.value))
      && (verb == POST ==> request.value.url.query.None? && request.value.body == ParameterBody(parameters))
  {
  }

  /** Only `postRequestBody` (and so `post`) reports an IllegalArgumentException as a request exception. */
  lemma {:induction false} IllegalArgumentOnlyWrappedByPost(call: Call, e: Throwable)
    requires e.IsA(IllegalArgumentException)
    ensures Wrap(call, e).RequestFailed? <==> call.PostCall?
    ensures call.PostCall? ==> Wrap(call, e) == RequestFailed(FromException(e))
  {
  }

  /** The descriptor shapes: a single entity, a list, or a page of a list. */
  datatype Shape = Single | ListOf | Paged

  /**
   * A `MastodonRequest`: the deferred call that `getMastodonRequest` (and its list and pageable
   * variants) return. Nothing is sent when it is built; running it dispatches on the verb.
   */
  datatype MastodonRequest = MastodonRequest(endpoint: string, verb: Method, parameters: Option<seq<Entry>>, shape: Shape)

  function GetMastodonRequest(endpoint: string, verb: Method, parameters: Option<seq<Entry>> := None): (request: MastodonRequest)
    ensures request.endpoint == endpoint && request.verb == verb && request.parameters == parameters
    ensures request.shape == Single
  {
    MastodonRequest(endpoint, verb, parameters, Single)
  }

  function GetPageableMastodonRequest(endpoint: string, verb: Method, parameters: Option<seq<Entry>> := None): (request: MastodonRequest)
    ensures request.endpoint == endpoint && request.verb == verb && request.parameters == parameters
    ensures request.shape == Paged
  {
    MastodonRequest(endpoint, verb, parameters, Paged)
  }

  function GetMastodonRequestForList(endpoint: string, verb: Method, parameters: Option<seq<Entry>> := None): (request: MastodonRequest)
    ensures request.endpoint == endpoint && request.verb == verb && request.parameters == parameters
    ensures request.shape == ListOf
  {
    MastodonRequest(endpoint, verb, parameters, ListOf)
  }

  class MastodonClient {
    const instanceName: string
    /** The OkHttp client, reaching the server through the interceptor holding `accessToken`. */
    const http: HttpClient
    const accessToken: Option<string>
    const readTimeoutSeconds: Option<int>
    var debug: bool
    var instanceVersion: Option<string>

    constructor(instanceName: string, http: HttpClient, accessToken: Option<string>, readTimeoutSeconds: Option<int>)
      ensures this.instanceName == instanceName && this.http == http
      ensures this.accessToken == accessToken && this.readTimeoutSeconds == readTimeoutSeconds
      ensures !debug && instanceVersion.None?
    {
      this.instanceName := instanceName;
      this.http := http;
      this.accessToken := accessToken;
      this.readTimeoutSeconds := readTimeoutSeconds;
      debug := false;
      instanceVersion := None;
    }

    /** The request the server receives for a call: the verb method's request, token added. */
    function Outgoing(call: Call): Option<Request> {
      match CallRequest(instanceName, call)
      case None => None
      case Some(request) => Some(Authorize(request, accessToken))
    }

    /** `client.newCall(request).execute()`: the interceptor adds the token on the way out. */
    method NewCall(request: Request) returns (r: Result<Response, Throwable>)
      modifies http
      ensures http.calls == old(http.calls) + [Authorize(request, accessToken)]
      ensures var x := http.serve(Authorize(request, accessToken));
        && (x.Raised? ==> r == Failure(x.error) && http.received == old(http.received))
        && (x.Replied? ==>
              && r.Success? && fresh(r.value) && !r.value.closed && r.value.ToReply() == x.reply
              && http.received == old(http.received) + [r.value])
    {
      r := http.Execute(Authorize(request, accessToken));
    }

    method Delete(path: string) returns (r: Result<Response, ClientError>)
      modifies http
      ensures http.calls == old(http.calls) + [Outgoing(DeleteCall(path)).value]
      ensures Delivers(DeleteCall(path), http.serve(Outgoing(DeleteCall(path)).value), r)
      ensures r.Success? ==> fresh(r.value) && !r.value.closed && http.received == old(http.received) + [r.value]
      ensures r.Failure? ==> http.received == old(http.received)
    {
      var executed := NewCall(Request(DELETE, FullUrl(instanceName, path), EmptyBody, None));
      r := if executed.Success? then Success(executed.value) else Failure(Wrap(DeleteCall(path), executed.error));
    }

    method Get(path: string, query: Option<seq<Entry>> := None) returns (r: Result<Response, ClientError>)
      modifies http
      ensures http.calls == old(http.calls) + [Outgoing(GetCall(path, query)).value]
      ensures Delivers(GetCall(path, query), http.serve(Outgoing(GetCall(path, query)).value), r)
      ensures r.Success? ==> fresh(r.value) && !r.value.closed && http.received == old(http.received) + [r.value]
      ensures r.Failure? ==> http.received == old(http.received)
    {
      var executed := NewCall(Request(GET, FullUrl(instanceName, path, query), NoBody, None));
      r := if executed.Success? then Success(executed.value) else Failure(Wrap(GetCall(path, query), executed.error));
    }

    /** `patch`: a null body is refused before any call is made. */
    method Patch(path: string, body: Option<seq<Entry>>) returns (r: Result<Response, ClientError>)
      modifies http
      ensures body.None? ==>
        r == Failure(RequestFailed(FromMessage(NULL_PATCH_BODY)))
        && http.calls == old(http.calls) && http.received == old(http.received)
      ensures body.Some? ==>
        && http.calls == old(http.calls) + [Outgoing(PatchCall(path, body)).value]
        && Delivers(PatchCall(path, body), http.serve(Outgoing(PatchCall(path, body)).value), r)
      ensures r.Success? ==> fresh(r.value) && !r.value.closed && http.received == old(http.received) + [r.value]
      ensures r.Failure? ==> http.received == old(http.received)
    {
      if body.None? {
        return Failure(RequestFailed(FromMessage(NULL_PATCH_BODY)));
      }
      var executed := NewCall(Request(PATCH, FullUrl(instanceName, path), ParameterBody(body), None));
      r := if executed.Success? then Success(executed.value) else Failure(Wrap(PatchCall(path, body), executed.error));
    }

    method Post(path: string, body: Option<seq<Entry>> := None) returns (r: Result<Response, ClientError>)
      modifies http
      ensures http.calls == old(http.calls) + [Outgoing(PostCall(path, ParameterBody(body))).value]
      ensures Delivers(PostCall(path, ParameterBody(body)), http.serve(Outgoing(PostCall(path, ParameterBody(body))).value), r)
      ensures r.Success? ==> fresh(r.value) && !r.value.closed && http.received == old(http.received) + [r.value]
      ensures r.Failure? ==> http.received == old(http.received)
    {
      r := PostRequestBody(path, ParameterBody(body));
    }

    method PostRequestBody(path: string, body: Body) returns (r: Result<Response, ClientError>)
      modifies http
      ensures http.calls == old(http.calls) + [Outgoing(PostCall(path, body)).value]
      ensures Delivers(PostCall(path, body), http.serve(Outgoing(PostCall(path, body)).value), r)
      ensures r.Success? ==> fresh(r.value) && !r.value.closed && http.received == old(http.received) + [r.value]
      ensures r.Failure? ==> http.received == old(http.received)
    {
      var executed := NewCall(Request(POST, FullUrl(instanceName, path), body, None));
      r := if executed.Success? then Success(executed.value) else Failure(Wrap(PostCall(path, body), executed.error));
    }

    /** The executor of a `MastodonRequest`: the `when (method)` dispatch to the verb methods. */
    method Execute(request: MastodonRequest) returns (r: Result<Response, ClientError>)
      modifies http
      ensures var call := Dispatch(request.endpoint, request.verb, request.parameters);
        && (Outgoing(call).None? ==>
              r == Failure(RequestFailed(FromMessage(NULL_PATCH_BODY))) && http.calls == old(http.calls))
        && (Outgoing(call).Some? ==>
              && http.calls == old(http.calls) + [Outgoing(call).value]
              && Delivers(call, http.serve(Outgoing(call).value), r))
      ensures r.Success? ==> fresh(r.value) && !r.value.closed && http.received == old(http.received) + [r.value]
      ensures r.Failure? ==> http.received == old(http.received)
    {
      match request.verb
      case DELETE => r := Delete(request.endpoint);
      case GET => r := Get(request.endpoint, request.parameters);
      case PATCH => r := Patch(request.endpoint, request.parameters);
      case POST => r := Post(request.endpoint, request.parameters);
    }

    /**
     * `performAction`: the verbs without parameters (so PATCH always fails on its null body). A
     * response is closed first, then the action fails exactly when the response is unsuccessful,
     * with an exception that carries that response.
     */
    method PerformAction(endpoint: string, verb: Method) returns (r: Result<(), ClientError>)
      modifies http
      ensures var call := Dispatch(endpoint, verb, None);
        && (Outgoing(call).None? ==>
              r == Failure(RequestFailed(FromMessage(NULL_PATCH_BODY))) && http.calls == old(http.calls))
        && (Outgoing(call).Some? ==> http.calls == old(http.calls) + [Outgoing(call).value])
        && (Outgoing(call).Some? && http.serve(Outgoing(call).value).Raised? ==>
              r == Failure(Wrap(call, http.serve(Outgoing(call).value).error)) && http.received == old(http.received))
        && (Outgoing(call).Some? && http.serve(Outgoing(call).value).Replied? ==>
              && |http.received| == old(|http.received|) + 1
              && http.received[..old(|http.received|)] == old(http.received)
              && var response := http.received[old(|http.received|)];
              && fresh(response) && response.closed
              && response.ToReply() == http.serve(Outgoing(call).value).reply
              && (r.Success? <==> response.Successful())
              && (r.Failure? ==> r.error == RequestFailed(FromResponse(response))))
    {
      var sent: Result<Response, ClientError>;
      match verb {
        case DELETE => sent := Delete(endpoint);
        case GET => sent := Get(endpoint);
        case PATCH => sent := Patch(endpoint, None);
        case POST => sent := Post(endpoint);
      }
      if sent.Failure? {
        return Failure(sent.error);
      }
      var response := sent.value;
      response.Close();
      if !response.Successful() {
        return Failure(RequestFailed(FromResponse(response)));
      }
      r := Success(());
    }
  }

  /** `versionedInstanceRequest`: version 2 asks API v2, every other number API v1. */
  function VersionSegment(version: int): (segment: string)
    ensures segment == "v2" <==> version == 2
    ensures segment == "v1" <==> version != 2
  {
    if version == 2 then "v2" else "v1"
  }

  /** The instance request: unauthenticated, since it goes through a plain OkHttp client. */
  function InstanceRequest(instanceName: string, version: int): Request {
    Request(GET, FullUrl(instanceName, "api/" + VersionSegment(version) + "/instance"), NoBody, None)
  }

  function Unavailable(cause: Throwable): BigBoneRequestException {
    FromMessageAndCause(INSTANCE_VERSION_UNAVAILABLE, cause)
  }

  /** Decoding the chosen body: its version, or the decoding exception wrapped. */
  function DecodeVersion(body: string, decode: string -> Result<string, Throwable>): (r: Result<string, BigBoneRequestException>)
    ensures r.Success? <==> decode(body).Success?
    ensures r.Success? ==> r.value == decode(body).value
    ensures r.Failure? ==> r.error.message == Some(INSTANCE_VERSION_UNAVAILABLE) && r.error.cause == Some(decode(body).error)
  {
    match decode(body)
    case Success(version) => Success(version)
    case Failure(e) => Failure(Unavailable(e))
  }

  /**
   * `getInstanceVersion` over the answers to the v2 and v1 requests: both requests are made
   * before the stream runs (an exception from either ends it); then the first successful
   * response, v2 before v1, is decoded, and only that one. Every failure becomes "Unable to fetch
   * instance version" with the exception as cause.
   */
  function InstanceVersionOutcome(v2: Exchange, v1: Exchange, decode: string -> Result<string, Throwable>): (r: Result<string, BigBoneRequestException>)
    ensures r.Success? ==>
      && v2.Replied? && v1.Replied?
      && (if v2.reply.Successful() then decode(v2.reply.body) == Success(r.value)
          else v1.reply.Successful() && decode(v1.reply.body) == Success(r.value))
  {
    if v2.Raised? then Failure(Unavailable(v2.error))
    else if v1.Raised? then Failure(Unavailable(v1.error))
    else if v2.reply.Successful() then DecodeVersion(v2.reply.body, decode)
    else if v1.reply.Successful() then DecodeVersion(v1.reply.body, decode)
    else Failure(Unavailable(NO_VALUE_PRESENT))
  }

  /** A successful v2 answer decides the version; the v1 answer is then never decoded. */
  lemma {:induction false} PrefersV2(v2: Reply, v1: Exchange, decode: string -> Result<string, Throwable>)
    requires v2.Successful() && v1.Replied?
    ensures InstanceVersionOutcome(Replied(v2), v1, decode) == DecodeVersion(v2.body, decode)
  {
  }

  /** With an unsuccessful v2 answer the v1 answer is used, when it is successful. */
  lemma {:induction false} FallsBackToV1(v2: Reply, v1: Reply, decode: string -> Result<string, Throwable>)
    requires !v2.Successful() && v1.Successful()
    ensures InstanceVersionOutcome(Replied(v2), Replied(v1), decode) == DecodeVersion(v1.body, decode)
  {
  }

  /** Every failure is "Unable to fetch instance version", with a cause and without a response. */
  lemma {:induction false} VersionFailureMessage(v2: Exchange, v1: Exchange, decode: string -> Result<string, Throwable>)
    requires InstanceVersionOutcome(v2, v1, decode).Failure?
    ensures InstanceVersionOutcome(v2, v1, decode).error.message == Some(INSTANCE_VERSION_UNAVAILABLE)
    ensures InstanceVersionOutcome(v2, v1, decode).error.cause.Some?
    ensures InstanceVersionOutcome(v2, v1, decode).error.response.None?
  {
  }

  /**
   * A version is found exactly when some answer is successful, both requests went through, and
   * the first successful body decodes.
   */
  lemma {:induction false} VersionFound(v2: Exchange, v1: Exchange, decode: string -> Result<string, Throwable>)
    ensures InstanceVersionOutcome(v2, v1, decode).Success? <==>
      && v2.Replied? && v1.Replied?
      && (v2.reply.Successful() || v1.reply.Successful())
      && decode(if v2.reply.Successful() then v2.reply.body else v1.reply.body).Success?
  {
  }

  /** `MastodonClient.Builder`: the settings collected before `build()`. */
  class Builder {
    const instanceName: string
    /** The network every OkHttp client created by the builder talks to. */
    const http: HttpClient
    var accessToken: Option<string>
    var debug: bool
    /** The read timeout configured on the OkHttp builder, when one was set. */
    var readTimeoutSeconds: Option<int>

    constructor(instanceName: string, http: HttpClient)
      ensures this.instanceName == instanceName && this.http == http
      ensures accessToken.None? && !debug && readTimeoutSeconds.None?
    {
      this.instanceName := instanceName;
      this.http := http;
      accessToken := None;
      debug := false;
      readTimeoutSeconds := None;
    }

    method AccessToken(token: string) returns (self: Builder)
      modifies this
      ensures self == this
      ensures accessToken == Some(token) && debug == old(debug) && readTimeoutSeconds == old(readTimeoutSeconds)
    {
      accessToken := Some(token);
      self := this;
    }

    /** `useStreamingApi`: streams need a long read timeout of 60 seconds. */
    method UseStreamingApi() returns (self: Builder)
      modifies this
      ensures self == this
      ensures readTimeoutSeconds == Some(STREAMING_READ_TIMEOUT_SECONDS)
      ensures accessToken == old(accessToken) && debug == old(debug)
    {
      readTimeoutSeconds := Some(STREAMING_READ_TIMEOUT_SECONDS);
      self := this;
    }

    method Debug() returns (self: Builder)
      modifies this
      ensures self == this
      ensures debug && accessToken == old(accessToken) && readTimeoutSeconds == old(readTimeoutSeconds)
    {
      debug := true;
      self := this;
    }

    /** `versionedInstanceRequest`: one unauthenticated GET; an unsuccessful response is closed at once. */
    method VersionedInstanceRequest(version: int) returns (r: Result<Response, Throwable>)
      modifies http
      ensures http.calls == old(http.calls) + [InstanceRequest(instanceName, version)]
      ensures var x := http.serve(InstanceRequest(instanceName, version));
        && (x.Raised? ==> r == Failure(x.error) && http.received == old(http.received))
        && (x.Replied? ==>
              && r.Success? && fresh(r.value) && r.value.ToReply() == x.reply
              && http.received == old(http.received) + [r.value]
              && (r.value.closed <==> !x.reply.Successful()))
    {
      var versionString := if version == 2 then "v2" else "v1";
      r := http.Execute(Request(GET, FullUrl(instanceName, "api/" + versionString + "/instance"), NoBody, None));
      if r.Success? && !r.value.Successful() {
        r.value.Close();
      }
    }

    /**
     * `getInstanceVersion`: the v2 request, then the v1 request unless the first threw, and the
     * outcome `InstanceVersionOutcome` describes.
     */
    method GetInstanceVersion(decode: string -> Result<string, Throwable>) returns (r: Result<string, BigBoneRequestException>)
      modifies http
      ensures var v2 := http.serve(InstanceRequest(instanceName, 2));
        && http.calls == old(http.calls) + [InstanceRequest(instanceName, 2)]
                                         + (if v2.Raised? then [] else [InstanceRequest(instanceName, 1)])
        && r == InstanceVersionOutcome(v2, http.serve(InstanceRequest(instanceName, 1)), decode)
    {
      var v2 := VersionedInstanceRequest(2);
      if v2.Failure? {
        return Failure(Unavailable(v2.error));
      }
      var v1 := VersionedInstanceRequest(1);
      if v1.Failure? {
        return Failure(Unavailable(v1.error));
      }
      var chosen: Option<Response> := None;
      if v2.value.Successful() {
        chosen := Some(v2.value);
      } else if v1.value.Successful() {
        chosen := Some(v1.value);
      }
      if chosen.None? {
        return Failure(Unavailable(NO_VALUE_PRESENT));
      }
      var decoded := decode(chosen.value.body);
      r := if decoded.Success? then Success(decoded.value) else Failure(Unavailable(decoded.error));
    }

    /**
     * `build`: a client with the collected token, timeout and debug flag, whose instance version
     * is the one `getInstanceVersion` finds; when that throws, no client is returned.
     */
    method Build(decode: string -> Result<string, Throwable>) returns (r: Result<MastodonClient, BigBoneRequestException>)
      modifies http
      ensures var outcome := InstanceVersionOutcome(http.serve(InstanceRequest(instanceName, 2)),
                                                   http.serve(InstanceRequest(instanceName, 1)), decode);
        && (outcome.Failure? ==> r == Failure(outcome.error))
        && (outcome.Success? ==>
              && r.Success? && fresh(r.value)
              && r.value.instanceName == instanceName && r.value.http == http
              && r.value.accessToken == accessToken && r.value.readTimeoutSeconds == readTimeoutSeconds
              && r.value.debug == debug && r.value.instanceVersion == Some(outcome.value))
    {
      var client := new MastodonClient(instanceName, http, accessToken, readTimeoutSeconds);
      client.debug := debug;
      var version := GetInstanceVersion(decode);
      if version.Failure? {
        return Failure(version.error);
      }
      client.instanceVersion := Some(version.value);
      r := Success(client);
    }
  }
}
