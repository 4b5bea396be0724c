/**
 * Extension helpers on the `RestSharp` Authenticator: two refreshes that,
 * unlike the instance methods of the same names, send no `Extras`, and
 * impersonation, a resource-owner exchange under the fixed username
 * "impersonate" that passes the target user and an access token in
 * `acr_values`.
 */
module AuthenticatorExtensions {
  import opened Wrappers
  import opened Tokens
  import opened RestSharpAuthenticator

  /** The extension `GetClientCredentialsAuthenticatorAsync`: the options' scope and no extra values. */
  function GetClientCredentialsAuthenticator(a: Authenticator, issuer: Issuer, now: int): (r: Authenticator)
    ensures var q := TokenRequest.ClientCredentialsRequest(a.TokenClientFor(), a.theOptions.scope, None);
      r == Renewed(a, issuer(q), now)
    ensures r.theOptions == a.theOptions && r.initializedAt == now
  {
    Renewed(a, issuer(TokenRequest.ClientCredentialsRequest(a.TokenClientFor(), a.theOptions.scope, None)), now)
  }

  /** The extension `GetResourceOwnerAuthenticatorAsync`: the options' username, password and scope, no extra values. */
  function GetResourceOwnerAuthenticator(a: Authenticator, issuer: Issuer, now: int): (r: Authenticator)
    ensures var q := ResourceOwnerPasswordRequest(a.TokenClientFor(), a.theOptions.username, a.theOptions.password, a.theOptions.scope, None);
      r == Renewed(a, issuer(q), now)
    ensures r.theOptions == a.theOptions && r.initializedAt == now
  {
    Renewed(a, issuer(ResourceOwnerPasswordRequest(a.TokenClientFor(), a.theOptions.username, a.theOptions.password, a.theOptions.scope, None)), now)
  }

  /** The instance refreshes and the extension ones agree exactly when the options carry no `Extras`. */
  lemma ExtensionRefreshIgnoresExtras(a: Authenticator, issuer: Issuer, now: int)
    ensures a.ClientCredentialsRequest() == TokenRequest.ClientCredentialsRequest(a.TokenClientFor(), a.theOptions.scope, None)
            <==> a.theOptions.extras.None?
    ensures a.theOptions.extras.None? ==>
      && a.GetClientCredentialsAuthenticator(issuer, now) == GetClientCredentialsAuthenticator(a, issuer, now)
      && a.GetResourceOwnerAuthenticator(issuer, now) == GetResourceOwnerAuthenticator(a, issuer, now)
  {
  }

  /** The username impersonation always signs in as. */
  const ImpersonateUsername: string := "impersonate"

  /** The `acr_values` text: `Impersonate:<username> access_token:<accessToken>`. */
  function AcrValues(username: string, accessToken: string): string {
    "Impersonate:" + username + " access_token:" + accessToken
  }

  /** The layout of the `acr_values` text: a fixed prefix, the username, a fixed separator, the token. */
  lemma AcrValuesLayout(username: string, accessToken: string)
    ensures var s := AcrValues(username, accessToken);
      && |s| == 26 + |username| + |accessToken|
      && s[..12] == "Impersonate:"
      && s[12..12 + |username|] == username
      && s[12 + |username|..26 + |username|] == " access_token:"
      && s[26 + |username|..] == accessToken
  {
  }

  /**
   * `ImpersonateAsync`. Fails on a null or empty username, then on a null or
   * empty access token, sending nothing in either case. Otherwise sends one
   * resource-owner request, whose token client is built from the authority's
   * absolute path (not the token endpoint), with username "impersonate", the
   * one-time `password` the caller generated, the options' scope and a single
   * extra value `acr_values`; the result is built from the original
   * authenticator and the response.
   */
  method ImpersonateAsync(a: Authenticator, username: NString, accessToken: NString, password: string, issuer: Issuer, now: int)
    returns (r: Result<Authenticator, Error>, sent: Option<TokenRequest>)
    ensures IsNullOrEmpty(username) ==> r == Failure(ArgumentNull("username")) && sent.None?
    ensures !IsNullOrEmpty(username) && IsNullOrEmpty(accessToken) ==> r == Failure(ArgumentNull("accessToken")) && sent.None?
    ensures r.Success? <==> sent.Some?
    ensures r.Success? <==> !IsNullOrEmpty(username) && !IsNullOrEmpty(accessToken)
    ensures sent.Some? ==>
      && sent.value == ResourceOwnerPasswordRequest(
           TokenClient(AbsolutePathOf(a.theOptions.authority), a.theOptions.clientId, a.theOptions.clientSecret, BasicAuthentication),
           ImpersonateUsername, password, a.theOptions.scope,
           Some(map["acr_values" := AcrValues(username.value, accessToken.value)]))
      && r.value == Renewed(a, issuer(sent.value), now)
      && r.value.theOptions == a.theOptions
  {
    if IsNullOrEmpty(username) {
      return Failure(ArgumentNull("username")), None;
    }
    if IsNullOrEmpty(accessToken) {
      return Failure(ArgumentNull("accessToken")), None;
    }
    var options := a.theOptions;
    var values: map<string, string> := map[];
    values := values["acr_values" := AcrValues(username.value, accessToken.value)];
    var client := TokenClient(AbsolutePathOf(options.authority), options.clientId, options.clientSecret, BasicAuthentication);
    var request := ResourceOwnerPasswordRequest(client, ImpersonateUsername, password, options.scope, Some(values));
    var tokenResponse := issuer(request);
    sent := Some(request);
    r := Success(Renewed(a, tokenResponse, now));
  }
}
