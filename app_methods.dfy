/** `AppMethods`: the "api/v1/apps" endpoints built on the client's parameter lists. */
module AppMethods {
  import opened Wrappers
  import opened Throwables
  import opened ParameterLists
  import opened Http
  import opened Client
  import opened Scopes

  const APPS_ENDPOINT := "api/v1/apps"
  const VERIFY_CREDENTIALS_ENDPOINT := "api/v1/apps/verify_credentials"

  /** client_name, scopes and redirect_uris, then the website when one is given. */
  function CreateAppEntries(clientName: string, redirectUris: string, scope: Scope, website: Option<string>): seq<Entry> {
    [Entry("client_name", Text(clientName)), Entry("scopes", Text(scope.text)), Entry("redirect_uris", Text(redirectUris))]
    + Contribution(Slot(website.Some?, Entry("website", Text(website.GetOr("")))))
  }

  /**
   * `createApp`: the scope is validated first and a rejected scope is the call's exception;
   * otherwise a POST to "api/v1/apps" carrying the registration's parameters.
   */
  method CreateApp(clientName: string, redirectUris: string, scope: Scope, website: Option<string> := None)
    returns (r: Result<MastodonRequest, Throwable>)
    ensures r.Failure? <==> scope.rejection.Some?
    ensures r.Failure? ==> r.error == scope.rejection.value
    ensures r.Success? ==>
      r.value == GetMastodonRequest(APPS_ENDPOINT, POST, Some(CreateAppEntries(clientName, redirectUris, scope, website)))
  {
    var thrown := scope.Validate();
    if thrown.Some? {
      return Failure(thrown.value);
    }
    var p := new Parameters();
    var _ := p.Append("client_name", Text(clientName));
    var _ := p.Append("scopes", Text(scope.text));
    var _ := p.Append("redirect_uris", Text(redirectUris));
    assert p.entries == [Entry("client_name", Text(clientName)), Entry("scopes", Text(scope.text)),
                         Entry("redirect_uris", Text(redirectUris))];
    p.AppendWhen(website.Some?, "website", Text(website.GetOr("")));
    r := Success(GetMastodonRequest(APPS_ENDPOINT, POST, Some(p.entries)));
  }

  /**
   * The registration always names the client, its scopes and its redirect URIs, in that order,
   * each with the value given; the website is the fourth and last entry exactly when one is given.
   */
  lemma {:induction false} CreateAppLayout(clientName: string, redirectUris: string, scope: Scope, website: Option<string>)
    ensures var entries := CreateAppEntries(clientName, redirectUris, scope, website);
      && |entries| == (if website.Some? then 4 else 3)
      && Keys(entries)[..3] == ["client_name", "scopes", "redirect_uris"]
      && Lookup(entries, "client_name") == Some(Text(clientName))
      && Lookup(entries, "scopes") == Some(Text(scope.text))
      && Lookup(entries, "redirect_uris") == Some(Text(redirectUris))
      && (website.Some? <==> "website" in Keys(entries))
      && (website.Some? ==> entries[3] == Entry("website", Text(website.value)))
  {
    var entries := CreateAppEntries(clientName, redirectUris, scope, website);
    var mandatory := entries[..3];
    var optional := Contribution(Slot(website.Some?, Entry("website", Text(website.GetOr("")))));
    assert entries == mandatory + optional;
    assert Keys(entries)[..3] == ["client_name", "scopes", "redirect_uris"];
    MandatoryLookups(clientName, redirectUris, scope);
    LookupConcat(mandatory, optional, "client_name");
    LookupConcat(mandatory, optional, "scopes");
    LookupConcat(mandatory, optional, "redirect_uris");
    if website.None? {
      assert entries == mandatory;
      assert "website" !in Keys(entries);
    } else {
      assert Keys(entries)[3] == "website";
    }
  }

  /** Each of the three mandatory keys finds its own value. */
  lemma {:induction false} MandatoryLookups(clientName: string, redirectUris: string, scope: Scope)
    ensures var mandatory := [Entry("client_name", Text(clientName)), Entry("scopes", Text(scope.text)),
                              Entry("redirect_uris", Text(redirectUris))];
      && Lookup(mandatory, "client_name") == Some(Text(clientName))
      && Lookup(mandatory, "scopes") == Some(Text(scope.text))
      && Lookup(mandatory, "redirect_uris") == Some(Text(redirectUris))
  {
    var mandatory := [Entry("client_name", Text(clientName)), Entry("scopes", Text(scope.text)),
                      Entry("redirect_uris", Text(redirectUris))];
    assert "scopes" != "client_name" && "redirect_uris" != "client_name" && "redirect_uris" != "scopes" by {
      assert |"client_name"| == 11 && |"scopes"| == 6 && |"redirect_uris"| == 13;
    }
    assert Lookup(mandatory, "scopes") == Lookup(mandatory[1..], "scopes");
    assert Lookup(mandatory, "redirect_uris") == Lookup(mandatory[1..][1..], "redirect_uris");
  }

  /** `verifyCredentials`: a GET of "api/v1/apps/verify_credentials" with no parameters. */
  function VerifyCredentials(): (request: MastodonRequest)
    ensures request.verb == GET && request.parameters.None? && request.shape == Single
    ensures request.endpoint == APPS_ENDPOINT + "/verify_credentials"
  {
    GetMastodonRequest(VERIFY_CREDENTIALS_ENDPOINT, GET)
  }
}
