/**
 * The Authenticator variant in the `Infrastructure` namespace: options built by
 * two guarded factories (the endpoint path is a required positional argument,
 * the resource-owner scope defaults to "", there are no extra form values), an
 * authenticator that starts in an "Unauthorized" error state, and refreshes
 * that return a new authenticator instead of changing the old one.
 *
 * Every field of this variant is assigned only by a constructor, so options
 * and authenticators are values here.
 */
module InfrastructureAuthenticator {
  import opened Wrappers
  import opened Tokens

  /** The immutable configuration. In the source its constructor is private, so only the factories build one. */
  datatype Options = Options(
    authority: Uri,
    authorizationEndpointRelativePath: string,
    clientId: string,
    clientSecret: string,
    scope: NString,
    username: string,
    password: string,
    authenticationFlow: Flow)
  {
    /** What the factories guarantee of every options value they return. */
    predicate Valid() {
      && authorizationEndpointRelativePath != ""
      && clientId != ""
      && clientSecret != ""
      && match authenticationFlow
         case ResourceOwnerPassword => username != "" && password != ""
         case ClientCredentials => scope.Some? && username == "" && password == ""
         case Undefined(_) => false
    }
  }

  /**
   * `Options.UseResourceOwnerPassword`: fails on the first null or empty
   * argument among authority, path, client id, client secret, username and
   * password; the scope is stored without being checked.
   */
  function UseResourceOwnerPassword(authority: Option<Uri>, authorizationEndpointRelativePath: NString, clientId: NString,
                                    clientSecret: NString, username: NString, password: NString, scope: NString): (r: Result<Options, Error>)
    ensures r.Success? <==>
      authority.Some? && !IsNullOrEmpty(authorizationEndpointRelativePath) && !IsNullOrEmpty(clientId)
      && !IsNullOrEmpty(clientSecret) && !IsNullOrEmpty(username) && !IsNullOrEmpty(password)
    ensures r.Success? ==>
      && r.value.Valid()
      && r.value == Options(authority.value, authorizationEndpointRelativePath.value, clientId.value, clientSecret.value,
                            scope, username.value, password.value, ResourceOwnerPassword)
  {
    if authority.None? then Failure(ArgumentNull("authority"))
    else if IsNullOrEmpty(authorizationEndpointRelativePath) then Failure(ArgumentNull("authorizationEndpointRelativePath"))
    else if IsNullOrEmpty(clientId) then Failure(ArgumentNull("clientId"))
    else if IsNullOrEmpty(clientSecret) then Failure(ArgumentNull("clientSecret"))
    else if IsNullOrEmpty(username) then Failure(ArgumentNull("username"))
    else if IsNullOrEmpty(password) then Failure(ArgumentNull("password"))
    else Success(Options(authority.value, authorizationEndpointRelativePath.value, clientId.value, clientSecret.value,
                         scope, username.value, password.value, ResourceOwnerPassword))
  }

  /** `UseResourceOwnerPassword` called without its optional last argument: the scope is "". */
  function UseResourceOwnerPasswordDefaultScope(authority: Option<Uri>, authorizationEndpointRelativePath: NString, clientId: NString,
                                                clientSecret: NString, username: NString, password: NString): (r: Result<Options, Error>)
    ensures r.Success? ==> r.value.scope == Some("")
    ensures r == UseResourceOwnerPassword(authority, authorizationEndpointRelativePath, clientId, clientSecret, username, password, Some(""))
  {
    UseResourceOwnerPassword(authority, authorizationEndpointRelativePath, clientId, clientSecret, username, password, Some(""))
  }

  /**
   * `Options.UseClientCredentials`: fails on a null authority, on a null or
   * empty path, client id or client secret, and on a null scope (an empty
   * scope is accepted); the options carry empty credentials.
   */
  function UseClientCredentials(authority: Option<Uri>, authorizationEndpointRelativePath: NString, clientId: NString,
                                clientSecret: NString, scope: NString): (r: Result<Options, Error>)
    ensures r.Success? <==>
      authority.Some? && !IsNullOrEmpty(authorizationEndpointRelativePath) && !IsNullOrEmpty(clientId)
      && !IsNullOrEmpty(clientSecret) && scope.Some?
    ensures r.Success? ==>
      && r.value.Valid()
      && r.value == Options(authority.value, authorizationEndpointRelativePath.value, clientId.value, clientSecret.value,
                            scope, "", "", ClientCredentials)
  {
    if authority.None? then Failure(ArgumentNull("authority"))
    else if IsNullOrEmpty(authorizationEndpointRelativePath) then Failure(ArgumentNull("authorizationEndpointRelativePath"))
    else if IsNullOrEmpty(clientId) then Failure(ArgumentNull("clientId"))
    else if IsNullOrEmpty(clientSecret) then Failure(ArgumentNull("clientSecret"))
    else if scope.None? then Failure(ArgumentNull("scope"))
    else Success(Options(authority.value, authorizationEndpointRelativePath.value, clientId.value, clientSecret.value,
                         scope, "", "", ClientCredentials))
  }

  /**
   * `UseResourceOwnerPassword` fails exactly when some guard fails, and
   * reports the first failing one in the order of the checks.
   */
  lemma ResourceOwnerPasswordReportsFirstFailure(authority: Option<Uri>, authorizationEndpointRelativePath: NString, clientId: NString,
                                                 clientSecret: NString, username: NString, password: NString, scope: NString)
    ensures var r := UseResourceOwnerPassword(authority, authorizationEndpointRelativePath, clientId, clientSecret, username, password, scope);
      var guards := ResourceOwnerPasswordGuards(authority, authorizationEndpointRelativePath, clientId, clientSecret, username, password);
      var k := FirstFailingIndex(guards);
      && (r.Failure? <==> k < |guards|)
      && (r.Failure? ==> r.error == ArgumentNull(guards[k].name))
  {
    var guards := ResourceOwnerPasswordGuards(authority, authorizationEndpointRelativePath, clientId, clientSecret, username, password);
    if authority.None? { FirstFailingIndexIs(guards, 0); }
    else if IsNullOrEmpty(authorizationEndpointRelativePath) { FirstFailingIndexIs(guards, 1); }
    else if IsNullOrEmpty(clientId) { FirstFailingIndexIs(guards, 2); }
    else if IsNullOrEmpty(clientSecret) { FirstFailingIndexIs(guards, 3); }
    else if IsNullOrEmpty(username) { FirstFailingIndexIs(guards, 4); }
    else if IsNullOrEmpty(password) { FirstFailingIndexIs(guards, 5); }
    else { FirstFailingIndexIs(guards, 6); }
  }

  /**
   * `UseClientCredentials` fails exactly when some guard fails, and reports
   * the first failing one in the order of the checks.
   */
  lemma ClientCredentialsReportsFirstFailure(authority: Option<Uri>, authorizationEndpointRelativePath: NString, clientId: NString,
                                             clientSecret: NString, scope: NString)
    ensures var r := UseClientCredentials(authority, authorizationEndpointRelativePath, clientId, clientSecret, scope);
      var guards := ClientCredentialsGuards(authority, authorizationEndpointRelativePath, clientId, clientSecret, scope);
      var k := FirstFailingIndex(guards);
      && (r.Failure? <==> k < |guards|)
      && (r.Failure? ==> r.error == ArgumentNull(guards[k].name))
  {
    var guards := ClientCredentialsGuards(authority, authorizationEndpointRelativePath, clientId, clientSecret, scope);
    if authority.None? { FirstFailingIndexIs(guards, 0); }
    else if IsNullOrEmpty(authorizationEndpointRelativePath) { FirstFailingIndexIs(guards, 1); }
    else if IsNullOrEmpty(clientId) { FirstFailingIndexIs(guards, 2); }
    else if IsNullOrEmpty(clientSecret) { FirstFailingIndexIs(guards, 3); }
    else if scope.None? { FirstFailingIndexIs(guards, 4); }
    else { FirstFailingIndexIs(guards, 5); }
  }

  /** The scope never decides whether `UseResourceOwnerPassword` fails, nor which argument it reports. */
  lemma ResourceOwnerPasswordIgnoresScope(authority: Option<Uri>, authorizationEndpointRelativePath: NString, clientId: NString,
                                          clientSecret: NString, username: NString, password: NString, scope1: NString, scope2: NString)
    ensures var r1 := UseResourceOwnerPassword(authority, authorizationEndpointRelativePath, clientId, clientSecret, username, password, scope1);
            var r2 := UseResourceOwnerPassword(authority, authorizationEndpointRelativePath, clientId, clientSecret, username, password, scope2);
            r1.Failure? == r2.Failure? && (r1.Failure? ==> r1.error == r2.error)
  {
  }

  /** With every other argument valid, a null scope is rejected by name and an empty one is accepted. */
  lemma ClientCredentialsScopeRule(authority: Uri, authorizationEndpointRelativePath: string, clientId: string, clientSecret: string)
    requires authorizationEndpointRelativePath != "" && clientId != "" && clientSecret != ""
    ensures UseClientCredentials(Some(authority), Some(authorizationEndpointRelativePath), Some(clientId), Some(clientSecret), None)
            == Failure(ArgumentNull("scope"))
    ensures var r := UseClientCredentials(Some(authority), Some(authorizationEndpointRelativePath), Some(clientId), Some(clientSecret), Some(""));
            r.Success? && r.value.scope == Some("")
  {
  }

  /** An authenticator: shared options, the held token response, and its issue time in seconds (0 until the first refresh). */
  datatype Authenticator = Authenticator(options: Options, current: TokenResponse, initializedAt: int)
  {
    /** `new Uri(options.Authority, options.AuthorizationEndpointRelativePath)`. */
    function AuthorizationEndpoint(): Address {
      AbsoluteUriOf(options.authority, options.authorizationEndpointRelativePath)
    }

    /** The token client both refreshes build, addressed at the token endpoint's absolute URI. */
    function TokenClientFor(): TokenClient {
      TokenClient(AuthorizationEndpoint(), options.clientId, options.clientSecret, BasicAuthentication)
    }

    function AccessToken(): NString { current.accessToken }

    function IsError(): bool { current.isError }

    /** The issued lifetime minus the seconds elapsed since `initializedAt` at time `now`; not clamped. */
    function ExpiresIn(now: int): int {
      current.expiresIn - (now - initializedAt)
    }

    function GetAuthenticationFlow(): (f: Flow)
      ensures f == options.authenticationFlow
    {
      options.authenticationFlow
    }

    /** What `GetClientCredentialsAuthenticatorAsync` sends: the options' scope, no extra values. */
    function ClientCredentialsRequest(): (q: TokenRequest)
      ensures q.ClientCredentialsRequest? && q.extra.None?
      ensures q.client.address == AbsoluteUriOf(options.authority, options.authorizationEndpointRelativePath)
      ensures q.client.clientId == options.clientId && q.client.clientSecret == options.clientSecret
      ensures q.client.style == BasicAuthentication
      ensures q.scope == options.scope
    {
      TokenRequest.ClientCredentialsRequest(TokenClientFor(), options.scope, None)
    }

    /** What `GetResourceOwnerAuthenticatorAsync` sends: the options' username, password and scope. */
    function ResourceOwnerRequest(): (q: TokenRequest)
      ensures q.ResourceOwnerPasswordRequest? && q.extra.None?
      ensures q.client.address == AbsoluteUriOf(options.authority, options.authorizationEndpointRelativePath)
      ensures q.client.clientId == options.clientId && q.client.clientSecret == options.clientSecret
      ensures q.client.style == BasicAuthentication
      ensures q.username == options.username && q.password == options.password && q.scope == options.scope
    {
      ResourceOwnerPasswordRequest(TokenClientFor(), options.username, options.password, options.scope, None)
    }

    /** The client-credentials refresh: a new authenticator with the same options, the issued response, stamped `now`. */
    function GetClientCredentialsAuthenticator(issuer: Issuer, now: int): (a: Authenticator)
      ensures a.options == options && a.initializedAt == now
      ensures a.current == issuer(ClientCredentialsRequest())
      ensures a.ExpiresIn(now) == issuer(ClientCredentialsRequest()).expiresIn
    {
      Renewed(this, issuer(ClientCredentialsRequest()), now)
    }

    /** The resource-owner refresh: a new authenticator with the same options, the issued response, stamped `now`. */
    function GetResourceOwnerAuthenticator(issuer: Issuer, now: int): (a: Authenticator)
      ensures a.options == options && a.initializedAt == now
      ensures a.current == issuer(ResourceOwnerRequest())
      ensures a.ExpiresIn(now) == issuer(ResourceOwnerRequest()).expiresIn
    {
      Renewed(this, issuer(ResourceOwnerRequest()), now)
    }
  }

  /**
   * The public constructor: the "Unauthorized" error response and
   * `InitializedAt` left at its default. The library decides the lifetime of
   * that response; it is the parameter `initialExpiresIn`.
   */
  function New(options: Options, initialExpiresIn: int): (a: Authenticator)
    ensures a.options == options && a.initializedAt == 0
    ensures a.current == UnauthorizedResponse(initialExpiresIn, None)
  {
    Authenticator(options, UnauthorizedResponse(initialExpiresIn, None), 0)
  }

  /** The private constructor used by the refreshes: same options, new response, issued at `now`. */
  function Renewed(authenticator: Authenticator, tokenResponse: TokenResponse, now: int): (a: Authenticator)
    ensures a.options == authenticator.options && a.current == tokenResponse && a.initializedAt == now
  {
    Authenticator(authenticator.options, tokenResponse, now)
  }

  /** A new authenticator carries no token, is in error, and its remaining lifetime is its initial one minus `now`. */
  lemma NewIsUnauthorized(options: Options, initialExpiresIn: int, now: int)
    ensures var a := New(options, initialExpiresIn);
      && a.IsError() && a.AccessToken().None?
      && a.current.httpErrorReason == Some("Unauthorized")
      && a.ExpiresIn(now) == initialExpiresIn - now
      && a.GetAuthenticationFlow() == options.authenticationFlow
  {
  }

  /** Once `now` passes the initial lifetime, a new authenticator's remaining lifetime is negative. */
  lemma NewIsExpired(options: Options, initialExpiresIn: int, now: int)
    requires now > initialExpiresIn
    ensures New(options, initialExpiresIn).ExpiresIn(now) < 0
  {
  }

  /** The remaining lifetime drops by exactly the elapsed seconds, so it never grows as time passes. */
  lemma ExpiresInElapses(a: Authenticator, now: int, elapsed: int)
    ensures a.ExpiresIn(now + elapsed) == a.ExpiresIn(now) - elapsed
    ensures elapsed >= 0 ==> a.ExpiresIn(now + elapsed) <= a.ExpiresIn(now)
  {
  }

  /** A refresh keeps the flow, so the next refresh takes the same branch. */
  lemma RefreshKeepsFlow(a: Authenticator, issuer: Issuer, now: int)
    ensures a.GetClientCredentialsAuthenticator(issuer, now).GetAuthenticationFlow() == a.GetAuthenticationFlow()
    ensures a.GetResourceOwnerAuthenticator(issuer, now).GetAuthenticationFlow() == a.GetAuthenticationFlow()
  {
  }
}
