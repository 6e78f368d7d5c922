/**
 * `OAuthMethods`: the authorization URL's parameters and the three token grants. Every builder
 * fills a fresh `Parameters` with a fixed sequence of appends; only the client-credentials grant
 * has an optional entry, its scope.
 */
module OAuthMethods {
  import opened Wrappers
  import opened ParameterLists
  import opened Http
  import opened Client
  import opened Scopes

  const AUTHORIZE_ENDPOINT := "oauth/authorize"
  const TOKEN_ENDPOINT := "oauth/token"
  const DEFAULT_REDIRECT_URI := "urn:ietf:wg:oauth:2.0:oob"

  /** `GrantTypes`: the grant types and the `grant_type` value each sends. */
  datatype GrantType = AUTHORIZATION_CODE | CLIENT_CREDENTIALS | PASSWORD
  {
    function Value(): string {
      match this
      case AUTHORIZATION_CODE => "authorization_code"
      case CLIENT_CREDENTIALS => "client_credentials"
      case PASSWORD => "password"
    }
  }

  /** Each grant type sends its own value: no two share one. */
  lemma {:induction false} GrantValuesDistinct(a: GrantType, b: GrantType)
    ensures a.Value() == b.Value() <==> a == b
  {
    if a != b {
      assert a.Value()[0] != b.Value()[0];
    }
  }

  /** The entries of `getOAuthUrl`. */
  function OAuthUrlEntries(clientId: string, scope: Scope, redirectUri: string): seq<Entry> {
    [Entry("client_id", Text(clientId)), Entry("redirect_uri", Text(redirectUri)),
     Entry("response_type", Text("code")), Entry("scope", Text(scope.text))]
  }

  /**
   * `getOAuthUrl`, up to the URL it renders: the endpoint and the parameters it is given. The
   * five-argument `fullUrl` that renders them is not part of this model.
   */
  method GetOAuthUrl(clientId: string, scope: Scope, redirectUri: string := DEFAULT_REDIRECT_URI)
    returns (endpoint: string, parameters: Parameters)
    ensures fresh(parameters)
    ensures endpoint == AUTHORIZE_ENDPOINT
    ensures parameters.entries == OAuthUrlEntries(clientId, scope, redirectUri)
  {
    endpoint := AUTHORIZE_ENDPOINT;
    parameters := new Parameters();
    parameters := parameters.Append("client_id", Text(clientId));
    parameters := parameters.Append("redirect_uri", Text(redirectUri));
    parameters := parameters.Append("response_type", Text("code"));
    parameters := parameters.Append("scope", Text(scope.text));
    assert parameters.entries == OAuthUrlEntries(clientId, scope, redirectUri);
  }

  /** The authorization URL asks for a code, and carries the client and the scope it is given. */
  lemma {:induction false} OAuthUrlAsksForCode(clientId: string, scope: Scope, redirectUri: string)
    ensures var entries := OAuthUrlEntries(clientId, scope, redirectUri);
      && Keys(entries) == ["client_id", "redirect_uri", "response_type", "scope"]
      && Lookup(entries, "response_type") == Some(Text("code"))
      && Lookup(entries, "scope") == Some(Text(scope.text))
      && Lookup(entries, "client_id") == Some(Text(clientId))
  {
    var entries := OAuthUrlEntries(clientId, scope, redirectUri);
    assert entries[1..][1..][1..] == [Entry("scope", Text(scope.text))];
  }

  // The token grants.

  function AuthorizationCodeEntries(clientId: string, clientSecret: string, redirectUri: string, code: string): seq<Entry> {
    [Entry("client_id", Text(clientId)), Entry("client_secret", Text(clientSecret)),
     Entry("redirect_uri", Text(redirectUri)), Entry("code", Text(code)),
     Entry("grant_type", Text(AUTHORIZATION_CODE.Value()))]
  }

  /** `getUserAccessTokenWithAuthorizationCodeGrant`: a POST to the token endpoint. */
  method GetUserAccessTokenWithAuthorizationCodeGrant(clientId: string, clientSecret: string,
                                                      redirectUri: string := DEFAULT_REDIRECT_URI, code: string)
    returns (request: MastodonRequest)
    ensures request == GetMastodonRequest(TOKEN_ENDPOINT, POST,
      Some(AuthorizationCodeEntries(clientId, clientSecret, redirectUri, code)))
  {
    var p := new Parameters();
    var _ := p.Append("client_id", Text(clientId));
    var _ := p.Append("client_secret", Text(clientSecret));
    var _ := p.Append("redirect_uri", Text(redirectUri));
    var _ := p.Append("code", Text(code));
    var _ := p.Append("grant_type", Text(AUTHORIZATION_CODE.Value()));
    assert p.entries == AuthorizationCodeEntries(clientId, clientSecret, redirectUri, code);
    request := GetMastodonRequest(TOKEN_ENDPOINT, POST, Some(p.entries));
  }

  function ClientCredentialsEntries(clientId: string, clientSecret: string, redirectUri: string, scope: Option<Scope>): seq<Entry> {
    [Entry("client_id", Text(clientId)), Entry("client_secret", Text(clientSecret)),
     Entry("redirect_uri", Text(redirectUri))]
    + Contribution(Slot(scope.Some?, Entry("scope", Text(if scope.Some? then scope.value.text else ""))))
    + [Entry("grant_type", Text(CLIENT_CREDENTIALS.Value()))]
  }

  /** `getAccessTokenWithClientCredentialsGrant`: a POST to the token endpoint. */
  method GetAccessTokenWithClientCredentialsGrant(clientId: string, clientSecret: string,
                                                  redirectUri: string := DEFAULT_REDIRECT_URI, scope: Option<Scope> := None)
    returns (request: MastodonRequest)
    ensures request == GetMastodonRequest(TOKEN_ENDPOINT, POST,
      Some(ClientCredentialsEntries(clientId, clientSecret, redirectUri, scope)))
  {
    var p := new Parameters();
    var _ := p.Append("client_id", Text(clientId));
    var _ := p.Append("client_secret", Text(clientSecret));
    var _ := p.Append("redirect_uri", Text(redirectUri));
    assert p.entries == [Entry("client_id", Text(clientId)), Entry("client_secret", Text(clientSecret)),
                         Entry("redirect_uri", Text(redirectUri))];
    p.AppendWhen(scope.Some?, "scope", Text(if scope.Some? then scope.value.text else ""));
    var _ := p.Append("grant_type", Text(CLIENT_CREDENTIALS.Value()));
    request := GetMastodonRequest(TOKEN_ENDPOINT, POST, Some(p.entries));
  }

  function PasswordEntries(clientId: string, clientSecret: string, scope: Scope, redirectUri: string,
                           username: string, password: string): seq<Entry>
  {
    [Entry("client_id", Text(clientId)), Entry("client_secret", Text(clientSecret)),
     Entry("scope", Text(scope.text)), Entry("redirect_uri", Text(redirectUri)),
     Entry("username", Text(username)), Entry("password", Text(password)),
     Entry("grant_type", Text(PASSWORD.Value()))]
  }

  /** `getUserAccessTokenWithPasswordGrant`: a POST to the token endpoint. */
  method GetUserAccessTokenWithPasswordGrant(clientId: string, clientSecret: string, scope: Scope,
                                             redirectUri: string := DEFAULT_REDIRECT_URI, username: string, password: string)
    returns (request: MastodonRequest)
    ensures request == GetMastodonRequest(TOKEN_ENDPOINT, POST,
      Some(PasswordEntries(clientId, clientSecret, scope, redirectUri, username, password)))
  {
    var p := new Parameters();
    var _ := p.Append("client_id", Text(clientId));
    var _ := p.Append("client_secret", Text(clientSecret));
    var _ := p.Append("scope", Text(scope.text));
    var _ := p.Append("redirect_uri", Text(redirectUri));
    var _ := p.Append("username", Text(username));
    var _ := p.Append("password", Text(password));
    var _ := p.Append("grant_type", Text(PASSWORD.Value()));
    assert p.entries == PasswordEntries(clientId, clientSecret, scope, redirectUri, username, password);
    request := GetMastodonRequest(TOKEN_ENDPOINT, POST, Some(p.entries));
  }

  /** The grant type a token request names: the value of its first "grant_type" entry. */
  function GrantOf(entries: seq<Entry>): Option<Value> {
    Lookup(entries, "grant_type")
  }

  /** A table that ends with "grant_type" and has it nowhere else names that grant. */
  lemma {:induction false} LastGrant(entries: seq<Entry>)
    requires |entries| > 0 && entries[|entries| - 1].key == "grant_type"
    requires "grant_type" !in Keys(entries[..|entries| - 1])
    ensures GrantOf(entries) == Some(entries[|entries| - 1].value)
  {
    var n := |entries| - 1;
    LookupConcat(entries[..n], entries[n..], "grant_type");
    assert entries[..n] + entries[n..] == entries;
  }

  /** The authorization-code grant sends five entries and ends with `grant_type=authorization_code`. */
  lemma {:induction false} AuthorizationCodeGrant(clientId: string, clientSecret: string, redirectUri: string, code: string)
    ensures var entries := AuthorizationCodeEntries(clientId, clientSecret, redirectUri, code);
      && Keys(entries) == ["client_id", "client_secret", "redirect_uri", "code", "grant_type"]
      && entries[4] == Entry("grant_type", Text("authorization_code"))
      && GrantOf(entries) == Some(Text("authorization_code"))
  {
    var entries := AuthorizationCodeEntries(clientId, clientSecret, redirectUri, code);
    assert Keys(entries[..4]) == ["client_id", "client_secret", "redirect_uri", "code"];
    LastGrant(entries);
  }

  /** The password grant sends seven entries and ends with `grant_type=password`. */
  lemma {:induction false} PasswordGrant(clientId: string, clientSecret: string, scope: Scope, redirectUri: string,
                                        username: string, password: string)
    ensures var entries := PasswordEntries(clientId, clientSecret, scope, redirectUri, username, password);
      && Keys(entries) == ["client_id", "client_secret", "scope", "redirect_uri", "username", "password", "grant_type"]
      && entries[6] == Entry("grant_type", Text("password"))
      && GrantOf(entries) == Some(Text("password"))
  {
    var entries := PasswordEntries(clientId, clientSecret, scope, redirectUri, username, password);
    assert Keys(entries[..6]) == ["client_id", "client_secret", "scope", "redirect_uri", "username", "password"];
    LastGrant(entries);
  }

  /**
   * The client-credentials grant sends "scope" exactly when one is given, always right before
   * `grant_type=client_credentials`, which comes last.
   */
  lemma {:induction false} ClientCredentialsScope(clientId: string, clientSecret: string, redirectUri: string,
                                                 scope: Option<Scope>)
    ensures var entries := ClientCredentialsEntries(clientId, clientSecret, redirectUri, scope);
      && |entries| == (if scope.Some? then 5 else 4)
      && entries[|entries| - 1] == Entry("grant_type", Text("client_credentials"))
      && (scope.Some? ==> entries[|entries| - 2] == Entry("scope", Text(scope.value.text)))
      && ("scope" in Keys(entries) <==> scope.Some?)
  {
    var entries := ClientCredentialsEntries(clientId, clientSecret, redirectUri, scope);
    if scope.Some? {
      assert Keys(entries) == ["client_id", "client_secret", "redirect_uri", "scope", "grant_type"];
    } else {
      assert Keys(entries) == ["client_id", "client_secret", "redirect_uri", "grant_type"];
    }
  }
}
