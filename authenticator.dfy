/**
 * The Authenticator in the `RestSharp` namespace: the same token lifecycle as
 * the `Infrastructure` variant, with the endpoint path as an optional last
 * argument defaulting to "connect/token", and options that carry an `Extras`
 * object with a public setter which both refreshes forward to the token
 * endpoint.
 *
 * Because `Extras` can be changed after construction, and every authenticator
 * made from an options object (including every refreshed one) shares that
 * object, `Options` is a class here; the authenticator is a value holding a
 * reference to it.
 */
module RestSharpAuthenticator {
  import opened Wrappers
  import opened Tokens

  /** The default of the optional `authorizationEndpointRelativePath` argument. */
  const DefaultRelativePath: string := "connect/token"

  /** The configuration: every property but `Extras` has a private setter and is fixed by the constructor. */
  class Options {
    const authority: Uri
    const authorizationEndpointRelativePath: string
    const clientId: string
    const clientSecret: string
    const scope: NString
    const username: string
    const password: string
    const authenticationFlow: Flow
    var extras: Extras

    /** The private constructor: stores every argument; `Extras` starts null. */
    constructor (authority: Uri, authorizationEndpointRelativePath: string, clientId: string, clientSecret: string,
                 scope: NString, username: string, password: string, authenticationFlow: Flow)
      ensures this.authority == authority && this.authorizationEndpointRelativePath == authorizationEndpointRelativePath
      ensures this.clientId == clientId && this.clientSecret == clientSecret && this.scope == scope
      ensures this.username == username && this.password == password && this.authenticationFlow == authenticationFlow
      ensures extras.None?
    {
      this.authority := authority;
      this.clientId := clientId;
      this.clientSecret := clientSecret;
      this.scope := scope;
      this.username := username;
      this.password := password;
      this.authenticationFlow := authenticationFlow;
      this.authorizationEndpointRelativePath := authorizationEndpointRelativePath;
      extras := None;
    }

    /** What the factories guarantee of every options object they return. */
    predicate Valid() {
      && authorizationEndpointRelativePath != ""
      && clientId != ""
      && clientSecret != ""
      && match authenticationFlow
         case ResourceOwnerPassword => username != "" && password != ""
         case ClientCredentials => scope.Some? && username == "" && password == ""
         case Undefined(_) => false
    }

    /** The public setter of `Extras`, the one property that changes after construction. */
    method SetExtras(value: Extras)
      modifies this
      ensures extras == value
    {
      extras := value;
    }
  }

  /**
   * `Options.UseResourceOwnerPassword`: fails on the first null or empty
   * argument among authority, path, client id, client secret, username and
   * password; the scope is stored without being checked.
   */
  method UseResourceOwnerPassword(authority: Option<Uri>, clientId: NString, clientSecret: NString, username: NString,
                                  password: NString, scope: NString, authorizationEndpointRelativePath: NString)
    returns (r: Result<Options, Error>)
    ensures r.Success? <==>
      authority.Some? && !IsNullOrEmpty(authorizationEndpointRelativePath) && !IsNullOrEmpty(clientId)
      && !IsNullOrEmpty(clientSecret) && !IsNullOrEmpty(username) && !IsNullOrEmpty(password)
    ensures var guards := ResourceOwnerPasswordGuards(authority, authorizationEndpointRelativePath, clientId, clientSecret, username, password);
      var k := FirstFailingIndex(guards);
      && (r.Failure? <==> k < |guards|)
      && (r.Failure? ==> r.error == ArgumentNull(guards[k].name))
    ensures r.Success? ==>
      && fresh(r.value) && r.value.Valid() && r.value.extras.None?
      && r.value.authenticationFlow == ResourceOwnerPassword
      && r.value.authority == authority.value
      && r.value.authorizationEndpointRelativePath == authorizationEndpointRelativePath.value
      && r.value.clientId == clientId.value && r.value.clientSecret == clientSecret.value
      && r.value.username == username.value && r.value.password == password.value
      && r.value.scope == scope
  {
    var guards := ResourceOwnerPasswordGuards(authority, authorizationEndpointRelativePath, clientId, clientSecret, username, password);
    if authority.None? { FirstFailingIndexIs(guards, 0); return Failure(ArgumentNull("authority")); }
    if IsNullOrEmpty(authorizationEndpointRelativePath) { FirstFailingIndexIs(guards, 1); return Failure(ArgumentNull("authorizationEndpointRelativePath")); }
    if IsNullOrEmpty(clientId) { FirstFailingIndexIs(guards, 2); return Failure(ArgumentNull("clientId")); }
    if IsNullOrEmpty(clientSecret) { FirstFailingIndexIs(guards, 3); return Failure(ArgumentNull("clientSecret")); }
    if IsNullOrEmpty(username) { FirstFailingIndexIs(guards, 4); return Failure(ArgumentNull("username")); }
    if IsNullOrEmpty(password) { FirstFailingIndexIs(guards, 5); return Failure(ArgumentNull("password")); }
    FirstFailingIndexIs(guards, 6);
    var options := new Options(authority.value, authorizationEndpointRelativePath.value, clientId.value, clientSecret.value,
                               scope, username.value, password.value, ResourceOwnerPassword);
    return Success(options);
  }

  /** `UseResourceOwnerPassword` called without its optional last argument: the path is "connect/token". */
  method UseResourceOwnerPasswordDefaultPath(authority: Option<Uri>, clientId: NString, clientSecret: NString, username: NString,
                                             password: NString, scope: NString)
    returns (r: Result<Options, Error>)
    ensures r.Success? <==>
      authority.Some? && !IsNullOrEmpty(clientId) && !IsNullOrEmpty(clientSecret) && !IsNullOrEmpty(username) && !IsNullOrEmpty(password)
    ensures var guards := ResourceOwnerPasswordGuards(authority, Some(DefaultRelativePath), clientId, clientSecret, username, password);
      var k := FirstFailingIndex(guards);
      && (r.Failure? <==> k < |guards|)
      && (r.Failure? ==> r.error == ArgumentNull(guards[k].name))
    ensures r.Success? ==>
      && fresh(r.value) && r.value.Valid() && r.value.extras.None?
      && r.value.authenticationFlow == ResourceOwnerPassword
      && r.value.authority == authority.value
      && r.value.authorizationEndpointRelativePath == DefaultRelativePath
      && r.value.clientId == clientId.value && r.value.clientSecret == clientSecret.value
      && r.value.username == username.value && r.value.password == password.value
      && r.value.scope == scope
  {
    r := UseResourceOwnerPassword(authority, clientId, clientSecret, username, password, scope, Some(DefaultRelativePath));
  }

  /**
   * `Options.UseClientCredentials`: fails on a null authority, on a null or
   * empty path, client id or client secret, and on a null scope (an empty
   * scope is accepted); the options carry empty credentials.
   */
  method UseClientCredentials(authority: Option<Uri>, clientId: NString, clientSecret: NString, scope: NString,
                              authorizationEndpointRelativePath: NString)
    returns (r: Result<Options, Error>)
    ensures r.Success? <==>
      authority.Some? && !IsNullOrEmpty(authorizationEndpointRelativePath) && !IsNullOrEmpty(clientId)
      && !IsNullOrEmpty(clientSecret) && scope.Some?
    ensures var guards := ClientCredentialsGuards(authority, authorizationEndpointRelativePath, clientId, clientSecret, scope);
      var k := FirstFailingIndex(guards);
      && (r.Failure? <==> k < |guards|)
      && (r.Failure? ==> r.error == ArgumentNull(guards[k].name))
    ensures r.Success? ==>
      && fresh(r.value) && r.value.Valid() && r.value.extras.None?
      && r.value.authenticationFlow == ClientCredentials
      && r.value.authority == authority.value
      && r.value.authorizationEndpointRelativePath == authorizationEndpointRelativePath.value
      && r.value.clientId == clientId.value && r.value.clientSecret == clientSecret.value
      && r.value.username == "" && r.value.password == ""
      && r.value.scope == scope
  {
    var guards := ClientCredentialsGuards(authority, authorizationEndpointRelativePath, clientId, clientSecret, scope);
    if authority.None? { FirstFailingIndexIs(guards, 0); return Failure(ArgumentNull("authority")); }
    if IsNullOrEmpty(authorizationEndpointRelativePath) { FirstFailingIndexIs(guards, 1); return Failure(ArgumentNull("authorizationEndpointRelativePath")); }
    if IsNullOrEmpty(clientId) { FirstFailingIndexIs(guards, 2); return Failure(ArgumentNull("clientId")); }
    if IsNullOrEmpty(clientSecret) { FirstFailingIndexIs(guards, 3); return Failure(ArgumentNull("clientSecret")); }
    if scope.None? { FirstFailingIndexIs(guards, 4); return Failure(ArgumentNull("scope")); }
    FirstFailingIndexIs(guards, 5);
    var options := new Options(authority.value, authorizationEndpointRelativePath.value, clientId.value, clientSecret.value,
                               scope, "", "", ClientCredentials);
    return Success(options);
  }

  /** `UseClientCredentials` called without its optional last argument: the path is "connect/token". */
  method UseClientCredentialsDefaultPath(authority: Option<Uri>, clientId: NString, clientSecret: NString, scope: NString)
    returns (r: Result<Options, Error>)
    ensures r.Success? <==> authority.Some? && !IsNullOrEmpty(clientId) && !IsNullOrEmpty(clientSecret) && scope.Some?
    ensures var guards := ClientCredentialsGuards(authority, Some(DefaultRelativePath), clientId, clientSecret, scope);
      var k := FirstFailingIndex(guards);
      && (r.Failure? <==> k < |guards|)
      && (r.Failure? ==> r.error == ArgumentNull(guards[k].name))
    ensures r.Success? ==>
      && fresh(r.value) && r.value.Valid() && r.value.extras.None?
      && r.value.authenticationFlow == ClientCredentials
      && r.value.authority == authority.value
      && r.value.authorizationEndpointRelativePath == DefaultRelativePath
      && r.value.clientId == clientId.value && r.value.clientSecret == clientSecret.value
      && r.value.username == "" && r.value.password == ""
      && r.value.scope == scope
  {
    r := UseClientCredentials(authority, clientId, clientSecret, scope, Some(DefaultRelativePath));
  }

  /** An authenticator: the shared options object, the held token response, and its issue time in seconds (0 until the first refresh). */
  datatype Authenticator = Authenticator(theOptions: Options, current: TokenResponse, initializedAt: int)
  {
    /** `new Uri(Authority, AuthorizationEndpointRelativePath)`, fixed since both are. */
    function AuthorizationEndpoint(): Address {
      AbsoluteUriOf(theOptions.authority, theOptions.authorizationEndpointRelativePath)
    }

    /** The token client both refreshes build, addressed at the token endpoint's absolute URI. */
    function TokenClientFor(): TokenClient {
      TokenClient(AuthorizationEndpoint(), theOptions.clientId, theOptions.clientSecret, BasicAuthentication)
    }

    function AccessToken(): NString { current.accessToken }

    function IsError(): bool { current.isError }

    /** The issued lifetime minus the seconds elapsed since `initializedAt` at time `now`; not clamped. */
    function ExpiresIn(now: int): int {
      current.expiresIn - (now - initializedAt)
    }

    function GetAuthenticationFlow(): (f: Flow)
      ensures f == theOptions.authenticationFlow
    {
      theOptions.authenticationFlow
    }

    /** What `GetClientCredentialsAuthenticatorAsync` sends: the scope and the current `Extras`. */
    function ClientCredentialsRequest(): (q: TokenRequest)
      reads theOptions
      ensures q.ClientCredentialsRequest?
      ensures q.client.address == AbsoluteUriOf(theOptions.authority, theOptions.authorizationEndpointRelativePath)
      ensures q.client.clientId == theOptions.clientId && q.client.clientSecret == theOptions.clientSecret
      ensures q.client.style == BasicAuthentication
      ensures q.scope == theOptions.scope && q.extra == theOptions.extras
    {
      TokenRequest.ClientCredentialsRequest(TokenClientFor(), theOptions.scope, theOptions.extras)
    }

    /** What `GetResourceOwnerAuthenticatorAsync` sends: username, password, scope and the current `Extras`. */
    function ResourceOwnerRequest(): (q: TokenRequest)
      reads theOptions
      ensures q.ResourceOwnerPasswordRequest?
      ensures q.client.address == AbsoluteUriOf(theOptions.authority, theOptions.authorizationEndpointRelativePath)
      ensures q.client.clientId == theOptions.clientId && q.client.clientSecret == theOptions.clientSecret
      ensures q.client.style == BasicAuthentication
      ensures q.username == theOptions.username && q.password == theOptions.password
      ensures q.scope == theOptions.scope && q.extra == theOptions.extras
    {
      ResourceOwnerPasswordRequest(TokenClientFor(), theOptions.username, theOptions.password, theOptions.scope, theOptions.extras)
    }

    /** The client-credentials refresh: a new authenticator sharing the options object, holding the issued response, stamped `now`. */
    function GetClientCredentialsAuthenticator(issuer: Issuer, now: int): (a: Authenticator)
      reads theOptions
      ensures a.theOptions == theOptions && a.initializedAt == now
      ensures a.current == issuer(ClientCredentialsRequest())
      ensures a.ExpiresIn(now) == issuer(ClientCredentialsRequest()).expiresIn
    {
      Renewed(this, issuer(ClientCredentialsRequest()), now)
    }

    /** The resource-owner refresh: a new authenticator sharing the options object, holding the issued response, stamped `now`. */
    function GetResourceOwnerAuthenticator(issuer: Issuer, now: int): (a: Authenticator)
      reads theOptions
      ensures a.theOptions == theOptions && a.initializedAt == now
      ensures a.current == issuer(ResourceOwnerRequest())
      ensures a.ExpiresIn(now) == issuer(ResourceOwnerRequest()).expiresIn
    {
      Renewed(this, issuer(ResourceOwnerRequest()), now)
    }
  }

  /**
   * The public constructor: the "Unauthorized" error response (built with
   * "Unauthorized" as its content, too) and `InitializedAt` left at its
   * default. The library decides the lifetime of that response; it is the
   * parameter `initialExpiresIn`.
   */
  function New(options: Options, initialExpiresIn: int): (a: Authenticator)
    ensures a.theOptions == options && a.initializedAt == 0
    ensures a.current == UnauthorizedResponse(initialExpiresIn, Some("Unauthorized"))
  {
    Authenticator(options, UnauthorizedResponse(initialExpiresIn, Some("Unauthorized")), 0)
  }

  /** The private constructor used by the refreshes: same options object, new response, issued at `now`. */
  function Renewed(authenticator: Authenticator, tokenResponse: TokenResponse, now: int): (a: Authenticator)
    ensures a.theOptions == authenticator.theOptions && a.current == tokenResponse && a.initializedAt == now
  {
    Authenticator(authenticator.theOptions, tokenResponse, now)
  }

  /** A new authenticator carries no token, is in error, and its remaining lifetime is its initial one minus `now`. */
  lemma NewIsUnauthorized(options: Options, initialExpiresIn: int, now: int)
    ensures var a := New(options, initialExpiresIn);
      && a.IsError() && a.AccessToken().None?
      && a.current.httpErrorReason == Some("Unauthorized")
      && a.ExpiresIn(now) == initialExpiresIn - now
      && a.GetAuthenticationFlow() == options.authenticationFlow
  {
  }

  /** Once `now` passes the initial lifetime, a new authenticator's remaining lifetime is negative. */
  lemma NewIsExpired(options: Options, initialExpiresIn: int, now: int)
    requires now > initialExpiresIn
    ensures New(options, initialExpiresIn).ExpiresIn(now) < 0
  {
  }

  /** The remaining lifetime drops by exactly the elapsed seconds, so it never grows as time passes. */
  lemma ExpiresInElapses(a: Authenticator, now: int, elapsed: int)
    ensures a.ExpiresIn(now + elapsed) == a.ExpiresIn(now) - elapsed
    ensures elapsed >= 0 ==> a.ExpiresIn(now + elapsed) <= a.ExpiresIn(now)
  {
  }

  /** A refresh keeps the flow, so the next refresh takes the same branch. */
  lemma RefreshKeepsFlow(a: Authenticator, issuer: Issuer, now: int)
    ensures a.GetClientCredentialsAuthenticator(issuer, now).GetAuthenticationFlow() == a.GetAuthenticationFlow()
    ensures a.GetResourceOwnerAuthenticator(issuer, now).GetAuthenticationFlow() == a.GetAuthenticationFlow()
  {
  }

  /**
   * The options object is shared, not copied: `Extras` set on it after an
   * authenticator was made is what that authenticator's next refresh sends.
   */
  method ExtrasSetLaterReachRefresh(options: Options, initialExpiresIn: int, value: Extras) returns (q: TokenRequest)
    modifies options
    ensures q == New(options, initialExpiresIn).ClientCredentialsRequest()
    ensures q.extra == value
  {
    var a := New(options, initialExpiresIn);
    options.SetExtras(value);
    q := a.ClientCredentialsRequest();
  }
}
