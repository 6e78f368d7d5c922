/**
 * `NodeInfoClient`: finds out which software a server runs, in two requests. The first fetches
 * the well-known NodeInfo document and picks the link to the server information (preferring
 * schema 2.0); the second fetches that link and decodes it. Each response is closed once its
 * step is over, whatever the step's outcome.
 *
 * JSON decoding is a parameter: a decoder maps a body to a value, to null, or to the exception
 * it throws.
 */
module NodeInfo {
  import opened Wrappers
  import opened Throwables
  import opened Text
  import opened Http
  import opened InstantiationExceptions

  const SCHEMA_20 := "http://nodeinfo.diaspora.software/ns/schema/2.0"
  const DEFAULT_SCHEME := "https"
  const DEFAULT_PORT: Int32 := 443

  const WELL_KNOWN_UNSUCCESSFUL := "request for well-known NodeInfo URL unsuccessful"
  const EMPTY_LINK_LIST := "empty link list in well-known NodeInfo location"
  const INFO_UNSUCCESSFUL := "request for NodeInfo URL unsuccessful"

  datatype Link = Link(rel: string, href: string)

  datatype NodeInfoDocument = NodeInfoDocument(links: seq<Link>)

  /** What a discovery call throws: one of the instantiation exceptions, or anything else unchanged. */
  datatype DiscoveryError = Instantiation(exception: ClientInstantiationException) | Escaped(throwable: Throwable)

  const WELL_KNOWN_PATH := "/.well-known/nodeinfo"

  /**
   * The well-known location: scheme, "://", host and ":", then the port written out in decimal
   * (it reads back as the same port), then the well-known path.
   */
  function WellKnownUrl(host: string, scheme: string, port: Int32): (url: string)
    ensures |url| >= |scheme| + |host| + 4 + |WELL_KNOWN_PATH|
    ensures url[..|scheme| + |host| + 4] == scheme + "://" + host + ":"
    ensures url[|url| - |WELL_KNOWN_PATH|..] == WELL_KNOWN_PATH
    ensures ToIntOrNull(url[|scheme| + |host| + 4..|url| - |WELL_KNOWN_PATH|]) == Some(port)
  {
    var authority := scheme + "://" + host + ":";
    var url := authority + IntToString(port) + WELL_KNOWN_PATH;
    assert url[|authority|..|url| - |WELL_KNOWN_PATH|] == IntToString(port);
    ParseRendered(port);
    url
  }

  function WellKnownRequest(host: string, scheme: string, port: Int32): Request {
    Request(GET, Parsed(WellKnownUrl(host, scheme, port)), NoBody, None)
  }

  function InfoRequest(url: string): Request {
    Request(GET, Parsed(url), NoBody, None)
  }

  /** The position of the first link with relation `rel`, if there is one. */
  function FirstWithRel(links: seq<Link>, rel: string): (k: Option<nat>)
    ensures k.Some? ==> k.value < |links| && links[k.value].rel == rel
    ensures k.Some? ==> forall j | 0 <= j < k.value :: links[j].rel != rel
    ensures k.None? ==> forall j | 0 <= j < |links| :: links[j].rel != rel
    decreases |links|
  {
    if |links| == 0 then None
    else if links[0].rel == rel then Some(0)
    else
      match FirstWithRel(links[1..], rel)
      case None => None
      case Some(k) => Some(k + 1)
  }

  /**
   * The link to follow: the first link to schema 2.0 information, otherwise the first link of all.
   * Either way it is the href of one of the links.
   */
  function SelectLink(links: seq<Link>): (href: string)
    requires |links| > 0
    ensures exists i | 0 <= i < |links| :: links[i].href == href
    ensures (exists i | 0 <= i < |links| :: links[i].rel == SCHEMA_20) ==>
      exists i | 0 <= i < |links| ::
        links[i].rel == SCHEMA_20 && links[i].href == href && forall j | 0 <= j < i :: links[j].rel != SCHEMA_20
    ensures (forall i | 0 <= i < |links| :: links[i].rel != SCHEMA_20) ==> href == links[0].href
  {
    match FirstWithRel(links, SCHEMA_20)
    case Some(k) => links[k].href
    case None => links[0].href
  }

  /** The first step, as a function of the server's answer to the well-known request. */
  function UrlOutcome(x: Exchange, decode: string -> Result<Option<NodeInfoDocument>, Throwable>): (r: Result<string, DiscoveryError>)
    ensures r.Success? <==>
      && x.Replied? && x.reply.Successful()
      && decode(x.reply.body).Success? && decode(x.reply.body).value.Some?
      && |decode(x.reply.body).value.value.links| > 0
    ensures r.Success? ==> r.value == SelectLink(decode(x.reply.body).value.value.links)
    ensures x.Raised? ==> r == Failure(Escaped(x.error))
    ensures x.Replied? && x.reply.Successful() && decode(x.reply.body).Failure? ==> r == Failure(Escaped(decode(x.reply.body).error))
    ensures r.Failure? && r.error.Instantiation? ==>
      && x.Replied?
      && r.error.exception == ServerInfoUrlRetrievalFromResponse(x.reply,
           Some(if x.reply.Successful() then EMPTY_LINK_LIST else WELL_KNOWN_UNSUCCESSFUL))
  {
    match x
    case Raised(e) => Failure(Escaped(e))
    case Replied(reply) =>
      if !reply.Successful() then
        Failure(Instantiation(ServerInfoUrlRetrievalFromResponse(reply, Some(WELL_KNOWN_UNSUCCESSFUL))))
      else
        match decode(reply.body)
        case Failure(e) => Failure(Escaped(e))
        case Success(None) => Failure(Instantiation(ServerInfoUrlRetrievalFromResponse(reply, Some(EMPTY_LINK_LIST))))
        case Success(Some(info)) =>
          if |info.links| == 0 then
            Failure(Instantiation(ServerInfoUrlRetrievalFromResponse(reply, Some(EMPTY_LINK_LIST))))
          else
            Success(SelectLink(info.links))
  }

  /** The second step, as a function of the server's answer to the information request. */
  function InfoOutcome<S>(x: Exchange, decode: string -> Result<Option<S>, Throwable>): (r: Result<Option<S>, DiscoveryError>)
    ensures r.Success? <==> x.Replied? && x.reply.Successful() && decode(x.reply.body).Success?
    ensures r.Success? ==> r.value == decode(x.reply.body).value
    ensures x.Raised? ==> r == Failure(Escaped(x.error))
    ensures x.Replied? && x.reply.Successful() && decode(x.reply.body).Failure? ==> r == Failure(Escaped(decode(x.reply.body).error))
    ensures r.Failure? && r.error.Instantiation? ==>
      x.Replied? && !x.reply.Successful() && r.error.exception == ServerInfoRetrievalFromResponse(x.reply, Some(INFO_UNSUCCESSFUL))
  {
    match x
    case Raised(e) => Failure(Escaped(e))
    case Replied(reply) =>
      if !reply.Successful() then
        Failure(Instantiation(ServerInfoRetrievalFromResponse(reply, Some(INFO_UNSUCCESSFUL))))
      else
        match decode(reply.body)
        case Failure(e) => Failure(Escaped(e))
        case Success(server) => Success(server)
  }

  /** `getServerInfoUrl`: one request to the well-known location; its response is closed on every path. */
  method GetServerInfoUrl(http: HttpClient, host: string, scheme: string, port: Int32,
                          decode: string -> Result<Option<NodeInfoDocument>, Throwable>)
    returns (r: Result<string, DiscoveryError>)
    modifies http
    ensures http.calls == old(http.calls) + [WellKnownRequest(host, scheme, port)]
    ensures r == UrlOutcome(http.serve(WellKnownRequest(host, scheme, port)), decode)
    ensures |http.received| <= old(|http.received|) + 1
    ensures old(http.received) <= http.received
    ensures forall i | old(|http.received|) <= i < |http.received| :: http.received[i].closed
  {
    var request := WellKnownRequest(host, scheme, port);
    var executed := http.Execute(request);
    if executed.Failure? {
      return Failure(Escaped(executed.error));
    }
    var response := executed.value;
    var reply := response.ToReply();
    if !response.Successful() {
      r := Failure(Instantiation(ServerInfoUrlRetrievalFromResponse(reply, Some(WELL_KNOWN_UNSUCCESSFUL))));
    } else {
      var decoded := decode(response.body);
      if decoded.Failure? {
        r := Failure(Escaped(decoded.error));
      } else if decoded.value.None? || |decoded.value.value.links| == 0 {
        r := Failure(Instantiation(ServerInfoUrlRetrievalFromResponse(reply, Some(EMPTY_LINK_LIST))));
      } else {
        r := Success(SelectLink(decoded.value.value.links));
      }
    }
    response.Close();
  }

  /**
   * `retrieveServerInfo`: the second request is made only once the first step has produced a URL;
   * a failed first step is the call's failure. Every response received is closed.
   */
  method RetrieveServerInfo<S>(http: HttpClient, host: string, decodeNodeInfo: string -> Result<Option<NodeInfoDocument>, Throwable>,
                               decodeServer: string -> Result<Option<S>, Throwable>,
                               scheme: string := DEFAULT_SCHEME, port: Int32 := DEFAULT_PORT)
    returns (r: Result<Option<S>, DiscoveryError>)
    modifies http
    ensures var first := UrlOutcome(http.serve(WellKnownRequest(host, scheme, port)), decodeNodeInfo);
      && (first.Failure? ==>
            http.calls == old(http.calls) + [WellKnownRequest(host, scheme, port)] && r == Failure(first.error))
      && (first.Success? ==>
            && http.calls == old(http.calls) + [WellKnownRequest(host, scheme, port), InfoRequest(first.value)]
            && r == InfoOutcome(http.serve(InfoRequest(first.value)), decodeServer))
    ensures old(http.received) <= http.received
    ensures forall i | old(|http.received|) <= i < |http.received| :: http.received[i].closed
  {
    var url := GetServerInfoUrl(http, host, scheme, port, decodeNodeInfo);
    if url.Failure? {
      return Failure(url.error);
    }
    ghost var before := http.received;
    var executed := http.Execute(InfoRequest(url.value));
    if executed.Failure? {
      return Failure(Escaped(executed.error));
    }
    var response := executed.value;
    if !response.Successful() {
      r := Failure(Instantiation(ServerInfoRetrievalFromResponse(response.ToReply(), Some(INFO_UNSUCCESSFUL))));
    } else {
      var decoded := decodeServer(response.body);
      r := if decoded.Failure? then Failure(Escaped(decoded.error)) else Success(decoded.value);
    }
    response.Close();
    assert http.received == before + [response];
  }

  /** The defaults address the well-known location over HTTPS on port 443. */
  lemma {:induction false} DefaultWellKnownUrl(host: string)
    ensures WellKnownUrl(host, DEFAULT_SCHEME, DEFAULT_PORT) == "https://" + host + ":" + "443" + "/.well-known/nodeinfo"
  {
    DefaultPortRendered();
    var authority := DEFAULT_SCHEME + "://" + host + ":";
    assert WellKnownUrl(host, DEFAULT_SCHEME, DEFAULT_PORT) == authority + "443" + WELL_KNOWN_PATH;
  }

  lemma {:induction false} DefaultPortRendered()
    ensures IntToString(DEFAULT_PORT) == "443"
  {
    assert NatToString(4) == "4";
    assert NatToString(44) == "44";
  }

  /**
   * The two steps fail with distinct exceptions for an unsuccessful answer: the URL step with
   * `ServerInfoUrlRetrievalException`, the information step with `ServerInfoRetrievalException`,
   * each carrying its own prefix before the status message.
   */
  lemma {:induction false} UnsuccessfulStepsDistinct<S>(reply: Reply, decodeNodeInfo: string -> Result<Option<NodeInfoDocument>, Throwable>,
                                                        decodeServer: string -> Result<Option<S>, Throwable>)
    requires !reply.Successful()
    ensures UrlOutcome(Replied(reply), decodeNodeInfo)
         == Failure(Instantiation(ClientInstantiationException(ServerInfoUrlRetrieval, Some(WELL_KNOWN_UNSUCCESSFUL + reply.message), None)))
    ensures InfoOutcome(Replied(reply), decodeServer)
         == Failure(Instantiation(ClientInstantiationException(ServerInfoRetrieval, Some(INFO_UNSUCCESSFUL + reply.message), None)))
  {
  }

  /** A successful first step always yields the href of one of the document's links. */
  lemma {:induction false} UrlFromDocument(x: Exchange, decode: string -> Result<Option<NodeInfoDocument>, Throwable>)
    requires UrlOutcome(x, decode).Success?
    ensures x.Replied? && x.reply.Successful()
    ensures decode(x.reply.body).Success? && decode(x.reply.body).value.Some?
    ensures exists i | 0 <= i < |decode(x.reply.body).value.value.links| ::
      decode(x.reply.body).value.value.links[i].href == UrlOutcome(x, decode).value
  {
  }
}
