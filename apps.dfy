/**
 * `Apps`: the older registration and token helpers, which write their form bodies by hand as
 * `key=value` pieces joined by "&", with no percent-encoding of the values.
 */
module Apps {
  import opened Wrappers
  import opened Throwables
  import opened Text
  import opened ParameterLists
  import opened Http
  import opened Client
  import opened Scopes

  const APPS_PATH := "api/v1/apps"
  const DEFAULT_REDIRECT_URI := "urn:ietf:wg:oauth:2.0:oob"
  const DEFAULT_GRANT_TYPE := "authorization_code"
  const AMPERSAND: set<char> := {'&'}

  /** A deferred POST to an absolute URL (`client.postUrl`), which this model does not run. */
  datatype UrlPost = UrlPost(url: string, body: Body)

  // createApp.

  /** The pieces of the registration form, in order; the website only when one is given. */
  function RegistrationPieces(clientName: string, redirectUris: string, scope: Scope, website: Option<string>): seq<string> {
    ["client_name=" + clientName, "scopes=" + scope.text, "redirect_uris=" + redirectUris]
    + (if website.Some? then ["website=" + website.value] else [])
  }

  /** The form body `createApp` posts: the list it builds, with the website added when given, joined by "&". */
  method RegistrationForm(clientName: string, redirectUris: string, scope: Scope, website: Option<string>)
    returns (form: string)
    ensures form == Join(RegistrationPieces(clientName, redirectUris, scope, website), "&")
  {
    var pieces := ["client_name=" + clientName, "scopes=" + scope.text, "redirect_uris=" + redirectUris];
    if website.Some? {
      pieces := pieces + ["website=" + website.value];
    } else {
      assert pieces == pieces + [];
    }
    form := Join(pieces, "&");
  }

  /**
   * `createApp`: the scope is validated before anything else, and a rejected scope is the call's
   * exception; otherwise the deferred call posts the form to "api/v1/apps".
   */
  method CreateApp(clientName: string, redirectUris: string := DEFAULT_REDIRECT_URI, scope: Scope,
                   website: Option<string> := None)
    returns (r: Result<Call, Throwable>)
    ensures r.Failure? <==> scope.rejection.Some?
    ensures r.Failure? ==> r.error == scope.rejection.value
    ensures r.Success? ==>
      r.value == PostCall(APPS_PATH, TextBody(FORM_MEDIA_TYPE, Join(RegistrationPieces(clientName, redirectUris, scope, website), "&")))
  {
    var thrown := scope.Validate();
    if thrown.Some? {
      return Failure(thrown.value);
    }
    var form := RegistrationForm(clientName, redirectUris, scope, website);
    r := Success(PostCall(APPS_PATH, TextBody(FORM_MEDIA_TYPE, form)));
  }

  /** A registration as decoded, with the instance name the helper sets on it. */
  class AppRegistration<D> {
    const details: D
    var instanceName: string

    constructor(details: D, instanceName: string)
      ensures this.details == details && this.instanceName == instanceName
    {
      this.details := details;
      this.instanceName := instanceName;
    }
  }

  /**
   * The decoding half of `createApp`: decode the body (the decoder is a parameter, giving the
   * registration's fields and whatever instance name it read), then overwrite the instance name
   * with the client's.
   */
  method DecodeRegistration<D>(body: string, decode: string -> Result<(D, string), Throwable>, instanceName: string)
    returns (r: Result<AppRegistration<D>, Throwable>)
    ensures r.Failure? <==> decode(body).Failure?
    ensures r.Failure? ==> r.error == decode(body).error
    ensures r.Success? ==> fresh(r.value) && r.value.details == decode(body).value.0 && r.value.instanceName == instanceName
  {
    var decoded := decode(body);
    if decoded.Failure? {
      return Failure(decoded.error);
    }
    var registration := new AppRegistration(decoded.value.0, decoded.value.1);
    registration.instanceName := instanceName;
    r := Success(registration);
  }

  /** A string with no character of `delims`, extended by another such string, still has none. */
  lemma {:induction false} FreeConcat(a: string, b: string, delims: set<char>)
    requires Free(a, delims) && Free(b, delims)
    ensures Free(a + b, delims)
  {
    forall i | 0 <= i < |a + b| ensures (a + b)[i] !in delims {
      if i >= |a| {
        assert (a + b)[i] == b[i - |a|];
      }
    }
  }

  /**
   * When no value contains "&", splitting the form on "&" gives back exactly its pieces: three,
   * or four with a website.
   */
  lemma {:induction false} RegistrationFormReadsBack(clientName: string, redirectUris: string, scope: Scope,
                                                     website: Option<string>)
    requires Free(clientName, AMPERSAND) && Free(redirectUris, AMPERSAND) && Free(scope.text, AMPERSAND)
    requires website.Some? ==> Free(website.value, AMPERSAND)
    ensures var pieces := RegistrationPieces(clientName, redirectUris, scope, website);
      && Split(Join(pieces, "&"), AMPERSAND) == pieces
      && |pieces| == (if website.Some? then 4 else 3)
  {
    var pieces := RegistrationPieces(clientName, redirectUris, scope, website);
    FreeConcat("client_name=", clientName, AMPERSAND);
    FreeConcat("scopes=", scope.text, AMPERSAND);
    FreeConcat("redirect_uris=", redirectUris, AMPERSAND);
    if website.Some? {
      FreeConcat("website=", website.value, AMPERSAND);
    }
    SplitJoin(pieces, '&', AMPERSAND);
  }

  /**
   * The values go in unescaped: a client name with an "&" in it ends the first piece early, so
   * the first piece read back is not `client_name=<clientName>`.
   */
  lemma {:induction false} AmpersandInNameCutsIt(head: string, tail: string, redirectUris: string, scope: Scope,
                                                 website: Option<string>)
    requires Free(head, AMPERSAND)
    ensures var pieces := RegistrationPieces(head + "&" + tail, redirectUris, scope, website);
      var parts := Split(Join(pieces, "&"), AMPERSAND);
      && parts[0] == "client_name=" + head
      && parts[0] != "client_name=" + (head + "&" + tail)
  {
    var pieces := RegistrationPieces(head + "&" + tail, redirectUris, scope, website);
    var rest := Join(pieces[1..], "&");
    assert Join(pieces, "&") == ("client_name=" + head) + ['&'] + (tail + "&" + rest);
    FreeConcat("client_name=", head, AMPERSAND);
    SplitHead("client_name=" + head, '&', tail + "&" + rest, AMPERSAND);
    assert |"client_name=" + head| != |"client_name=" + (head + "&" + tail)|;
  }

  // getOAuthUrl.

  function OAuthQueryPieces(clientId: string, scope: Scope, redirectUri: string): seq<string> {
    ["client_id=" + clientId, "redirect_uri=" + redirectUri, "response_type=code", "scope=" + scope.text]
  }

  /** `getOAuthUrl`: the authorize page of the client's instance over HTTPS, with its query written out by hand. */
  function GetOAuthUrl(instanceName: string, clientId: string, scope: Scope, redirectUri: string := DEFAULT_REDIRECT_URI): (url: string)
    ensures var prefix := "https://" + instanceName + "/oauth/authorize" + "?" + ("client_id=" + clientId) + "&" + "redirect_uri=";
      var suffix := "&" + "response_type=code" + "&" + ("scope=" + scope.text);
      && |url| == |prefix| + |redirectUri| + |suffix|
      && url[..|prefix|] == prefix
      && url[|prefix|..|prefix| + |redirectUri|] == redirectUri
      && url[|prefix| + |redirectUri|..] == suffix
  {
    QuerySplitsAround("https://" + instanceName + "/oauth/authorize" + "?", "client_id=" + clientId, "redirect_uri=",
                      redirectUri, "response_type=code", "scope=" + scope.text);
    "https://" + instanceName + "/oauth/authorize" + "?" + Join(OAuthQueryPieces(clientId, scope, redirectUri), "&")
  }

  /** A head followed by four "&"-joined pieces, cut around the value inside the second piece. */
  lemma {:induction false} QuerySplitsAround(head: string, a: string, key: string, value: string, c: string, d: string)
    ensures var url := head + Join([a, key + value, c, d], "&");
      var prefix := head + a + "&" + key;
      var suffix := "&" + c + "&" + d;
      && |url| == |prefix| + |value| + |suffix|
      && url[..|prefix|] == prefix
      && url[|prefix|..|prefix| + |value|] == value
      && url[|prefix| + |value|..] == suffix
  {
    var prefix := head + a + "&" + key;
    var suffix := "&" + c + "&" + d;
    JoinFour(a, key + value, c, d, "&");
    assert head + Join([a, key + value, c, d], "&") == prefix + value + suffix;
    ThreeParts(prefix, value, suffix);
  }

  lemma {:induction false} JoinFour(a: string, b: string, c: string, d: string, sep: string)
    ensures Join([a, b, c, d], sep) == a + sep + (b + sep + (c + sep + d))
  {
    var parts := [a, b, c, d];
    assert parts[1..] == [b, c, d] && parts[1..][1..] == [c, d] && parts[1..][1..][1..] == [d];
    assert Join([c, d], sep) == c + sep + d;
    assert Join([b, c, d], sep) == b + sep + (c + sep + d);
  }

  lemma {:induction false} ThreeParts(a: string, b: string, c: string)
    ensures |a + b + c| == |a| + |b| + |c|
    ensures (a + b + c)[..|a|] == a && (a + b + c)[|a|..|a| + |b|] == b && (a + b + c)[|a| + |b|..] == c
  {
    var s := a + b + c;
    assert s[..|a|] == a;
    assert s[|a|..|a| + |b|] == b;
    assert s[|a| + |b|..] == c;
  }

  /**
   * The URL is "https://", the instance, "/oauth/authorize?", then the query; with "&"-free
   * values the query reads back as its four pieces, the third asking for a code.
   */
  lemma {:induction false} OAuthUrlShape(instanceName: string, clientId: string, scope: Scope, redirectUri: string)
    requires Free(clientId, AMPERSAND) && Free(redirectUri, AMPERSAND) && Free(scope.text, AMPERSAND)
    ensures var url := GetOAuthUrl(instanceName, clientId, scope, redirectUri);
      var prefix := "https://" + instanceName + "/oauth/authorize?";
      && |prefix| <= |url| && url[..|prefix|] == prefix
      && Split(url[|prefix|..], AMPERSAND) == OAuthQueryPieces(clientId, scope, redirectUri)
      && Split(url[|prefix|..], AMPERSAND)[2] == "response_type=code"
  {
    var url := GetOAuthUrl(instanceName, clientId, scope, redirectUri);
    var prefix := "https://" + instanceName + "/oauth/authorize?";
    var query := Join(OAuthQueryPieces(clientId, scope, redirectUri), "&");
    assert url == prefix + query;
    assert url[|prefix|..] == query;
    FreeConcat("client_id=", clientId, AMPERSAND);
    FreeConcat("redirect_uri=", redirectUri, AMPERSAND);
    FreeConcat("scope=", scope.text, AMPERSAND);
    SplitJoin(OAuthQueryPieces(clientId, scope, redirectUri), '&', AMPERSAND);
  }

  // getAccessToken.

  function AccessTokenPieces(clientId: string, clientSecret: string, redirectUri: string, code: string, grantType: string): seq<string> {
    ["client_id=" + clientId, "client_secret=" + clientSecret, "redirect_uri=" + redirectUri,
     "code=" + code, "grant_type=" + grantType]
  }

  function TokenUrl(instanceName: string): string {
    "https://" + instanceName + "/oauth/token"
  }

  /** `getAccessToken`: a deferred POST of the hand-written form to the instance's token URL. */
  function GetAccessToken(instanceName: string, clientId: string, clientSecret: string,
                          redirectUri: string := DEFAULT_REDIRECT_URI, code: string,
                          grantType: string := DEFAULT_GRANT_TYPE): (post: UrlPost)
    ensures post.url == TokenUrl(instanceName)
    ensures post.body.TextBody? && post.body.mediaType == FORM_MEDIA_TYPE
  {
    UrlPost(TokenUrl(instanceName),
            TextBody(FORM_MEDIA_TYPE, Join(AccessTokenPieces(clientId, clientSecret, redirectUri, code, grantType), "&")))
  }

  /**
   * With "&"-free values the token form reads back as client_id, client_secret, redirect_uri,
   * code and grant_type, in that order, whatever the grant type.
   */
  lemma {:induction false} AccessTokenFormReadsBack(instanceName: string, clientId: string, clientSecret: string,
                                                    redirectUri: string, code: string, grantType: string)
    requires Free(clientId, AMPERSAND) && Free(clientSecret, AMPERSAND) && Free(redirectUri, AMPERSAND)
    requires Free(code, AMPERSAND) && Free(grantType, AMPERSAND)
    ensures var parts := Split(GetAccessToken(instanceName, clientId, clientSecret, redirectUri, code, grantType).body.text, AMPERSAND);
      && parts == AccessTokenPieces(clientId, clientSecret, redirectUri, code, grantType)
      && parts[4] == "grant_type=" + grantType
  {
    var pieces := AccessTokenPieces(clientId, clientSecret, redirectUri, code, grantType);
    assert GetAccessToken(instanceName, clientId, clientSecret, redirectUri, code, grantType).body.text == Join(pieces, "&");
    AccessTokenPiecesFree(clientId, clientSecret, redirectUri, code, grantType);
    SplitJoin(pieces, '&', AMPERSAND);
  }

  /** Without a grant type the form's last piece is "grant_type=authorization_code". */
  lemma {:induction false} DefaultGrantReadsBack(instanceName: string, clientId: string, clientSecret: string,
                                                 redirectUri: string, code: string)
    requires Free(clientId, AMPERSAND) && Free(clientSecret, AMPERSAND) && Free(redirectUri, AMPERSAND)
    requires Free(code, AMPERSAND)
    ensures var parts := Split(GetAccessToken(instanceName, clientId, clientSecret, redirectUri, code).body.text, AMPERSAND);
      && parts == AccessTokenPieces(clientId, clientSecret, redirectUri, code, DEFAULT_GRANT_TYPE)
      && parts[4] == "grant_type=authorization_code"
  {
    var post := GetAccessToken(instanceName, clientId, clientSecret, redirectUri, code);
    assert post == GetAccessToken(instanceName, clientId, clientSecret, redirectUri, code, DEFAULT_GRANT_TYPE);
    DefaultGrantFree();
    AccessTokenFormReadsBack(instanceName, clientId, clientSecret, redirectUri, code, DEFAULT_GRANT_TYPE);
    DefaultGrantPiece();
  }

  lemma {:induction false} DefaultGrantPiece()
    ensures "grant_type=" + DEFAULT_GRANT_TYPE == "grant_type=authorization_code"
  {
  }

  lemma {:induction false} DefaultGrantFree()
    ensures Free(DEFAULT_GRANT_TYPE, AMPERSAND)
  {
    forall k | 0 <= k < |DEFAULT_GRANT_TYPE| ensures DEFAULT_GRANT_TYPE[k] !in AMPERSAND {
      assert DEFAULT_GRANT_TYPE[k] in "authorization_code";
    }
  }

  lemma {:induction false} AccessTokenPiecesFree(clientId: string, clientSecret: string, redirectUri: string, code: string,
                                                 grantType: string)
    requires Free(clientId, AMPERSAND) && Free(clientSecret, AMPERSAND) && Free(redirectUri, AMPERSAND)
    requires Free(code, AMPERSAND) && Free(grantType, AMPERSAND)
    ensures var pieces := AccessTokenPieces(clientId, clientSecret, redirectUri, code, grantType);
      forall k | 0 <= k < |pieces| :: Free(pieces[k], AMPERSAND)
  {
    var pieces := AccessTokenPieces(clientId, clientSecret, redirectUri, code, grantType);
    FreeConcat("client_id=", clientId, AMPERSAND);
    FreeConcat("client_secret=", clientSecret, AMPERSAND);
    FreeConcat("redirect_uri=", redirectUri, AMPERSAND);
    FreeConcat("code=", code, AMPERSAND);
    FreeConcat("grant_type=", grantType, AMPERSAND);
    forall k | 0 <= k < |pieces| ensures Free(pieces[k], AMPERSAND) {
      if k == 4 { assert pieces[k] == "grant_type=" + grantType; }
    }
  }

  // postUserNameAndPassword.

  function PasswordEntries(clientId: string, clientSecret: string, scope: Scope, userName: string, password: string): seq<Entry> {
    [Entry("client_id", Text(clientId)), Entry("client_secret", Text(clientSecret)), Entry("scope", Text(scope.text)),
     Entry("username", Text(userName)), Entry("password", Text(password)), Entry("grant_type", Text("password"))]
  }

  /**
   * `postUserNameAndPassword`: six appends to a fresh parameter list, posted as a form to the
   * instance's token URL. How `Parameter.build()` renders the form is not part of this model.
   */
  method PostUserNameAndPassword(instanceName: string, clientId: string, clientSecret: string, scope: Scope,
                                 userName: string, password: string)
    returns (post: UrlPost)
    ensures post == UrlPost(TokenUrl(instanceName),
                            FormBody(FORM_MEDIA_TYPE, PasswordEntries(clientId, clientSecret, scope, userName, password)))
  {
    var parameters := new Parameters();
    var _ := parameters.Append("client_id", Text(clientId));
    var _ := parameters.Append("client_secret", Text(clientSecret));
    var _ := parameters.Append("scope", Text(scope.text));
    var _ := parameters.Append("username", Text(userName));
    var _ := parameters.Append("password", Text(password));
    var _ := parameters.Append("grant_type", Text("password"));
    assert parameters.entries == PasswordEntries(clientId, clientSecret, scope, userName, password);
    post := UrlPost(TokenUrl(instanceName), FormBody(FORM_MEDIA_TYPE, parameters.entries));
  }

  /** The password form has six entries ending with `grant_type=password`, and no redirect URI. */
  lemma {:induction false} PasswordFormShape(clientId: string, clientSecret: string, scope: Scope, userName: string, password: string)
    ensures var entries := PasswordEntries(clientId, clientSecret, scope, userName, password);
      && Keys(entries) == ["client_id", "client_secret", "scope", "username", "password", "grant_type"]
      && entries[5] == Entry("grant_type", Text("password"))
      && Lookup(entries, "redirect_uri").None?
  {
    var entries := PasswordEntries(clientId, clientSecret, scope, userName, password);
    assert Keys(entries) == ["client_id", "client_secret", "scope", "username", "password", "grant_type"];
    assert "redirect_uri" !in Keys(entries);
  }
}
