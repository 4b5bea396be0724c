/**
 * The vocabulary shared by both Authenticator variants: nullable strings,
 * the opaque addresses of the token endpoint, the requests handed to the
 * IdentityModel token client and the token responses it returns, the
 * authentication flows, and the exceptions the core throws.
 *
 * The token exchange itself belongs to the IdentityModel library and is not
 * modelled: every refresh takes an `issuer` function that plays the token
 * endpoint, mapping the request that would be sent to the response received.
 */
module Tokens {
  import opened Wrappers

  /** A .NET `string` reference: `None` is null. */
  type NString = Option<string>

  /** The semantics of `string.IsNullOrEmpty`. */
  predicate IsNullOrEmpty(s: NString) {
    s.None? || s.value == ""
  }

  /** The text a null-or-string contributes to a C# concatenation (null reads as ""). */
  function OrEmpty(s: NString): string {
    if s.None? then "" else s.value
  }

  /** A `System.Uri`, kept opaque: its parsing and composition are not modelled. */
  datatype Uri = Uri(text: string)

  /**
   * The address string a `TokenClient` is built with: either the absolute URI
   * of `new Uri(authority, relativePath)` or the `AbsolutePath` of the
   * authority alone.
   */
  datatype Address =
    | AbsoluteUriOf(base: Uri, relativePath: string)
    | AbsolutePathOf(authority: Uri)

  datatype AuthenticationStyle = BasicAuthentication | PostValues

  /** `new TokenClient(address, clientId, clientSecret, style)`. */
  datatype TokenClient = TokenClient(address: Address, clientId: string, clientSecret: string, style: AuthenticationStyle)

  /** The extra form values passed along with a token request (`object extra`; None is null). */
  type Extras = Option<map<string, string>>

  /** One call of `RequestClientCredentialsAsync` or `RequestResourceOwnerPasswordAsync`. */
  datatype TokenRequest =
    | ClientCredentialsRequest(client: TokenClient, scope: NString, extra: Extras)
    | ResourceOwnerPasswordRequest(client: TokenClient, username: string, password: string, scope: NString, extra: Extras)

  /**
   * IdentityModel's `TokenResponse`, reduced to the fields the core reads. The
   * lifetime is whole seconds.
   */
  datatype TokenResponse = TokenResponse(
    accessToken: NString,
    identityToken: NString,
    refreshToken: NString,
    tokenType: NString,
    error: NString,
    expiresIn: int,
    isError: bool,
    httpErrorStatus: int,
    httpErrorReason: NString,
    raw: NString)

  /** The token endpoint: what the issuer answers to a request. */
  type Issuer = TokenRequest -> TokenResponse

  /** `HttpStatusCode.Unauthorized`. */
  const Unauthorized: int := 401

  /**
   * `new TokenResponse(HttpStatusCode.Unauthorized, "Unauthorized"[, content])`:
   * an HTTP-error response carrying no token. Its lifetime is computed by the
   * library from the absent JSON body and is left as the parameter `expiresIn`.
   */
  function UnauthorizedResponse(expiresIn: int, content: NString): (r: TokenResponse)
    ensures r.isError && r.accessToken.None?
    ensures r.httpErrorStatus == Unauthorized && r.httpErrorReason == Some("Unauthorized")
    ensures r.expiresIn == expiresIn && r.raw == content
  {
    TokenResponse(None, None, None, None, None, expiresIn, true, Unauthorized, Some("Unauthorized"), content)
  }

  /**
   * `AuthenticationFlow`. A C# enum is an integer, so a cast can produce a
   * value outside the two named ones: `Undefined` stands for those. The
   * integers 0 and 1 are `ResourceOwnerPassword` and `ClientCredentials`.
   */
  datatype Flow = ResourceOwnerPassword | ClientCredentials | Undefined(value: UndefinedFlowValue)

  /** An integer that is not one of the two named `AuthenticationFlow` members. */
  type UndefinedFlowValue = v: int | v != 0 && v != 1 witness 2

  /** The exceptions the core throws: `ArgumentNullException(paramName)` and `NotImplementedException`. */
  datatype Error = ArgumentNull(paramName: string) | NotImplemented

  /**
   * One guard of an argument-checking chain: the argument's name and whether
   * it passes. A chain of `if (...) throw new ArgumentNullException(nameof(x))`
   * statements reports the first failing guard.
   */
  datatype Guard = Guard(name: string, passes: bool)

  /**
   * The position of the first failing guard, or `|guards|` when every guard
   * passes: the argument a chain of checks reports. This is the reference
   * definition the option factories are proved against.
   */
  function FirstFailingIndex(guards: seq<Guard>): (k: nat)
    ensures k <= |guards|
    ensures forall j :: 0 <= j < k ==> guards[j].passes
    ensures k < |guards| ==> !guards[k].passes
  {
    if guards == [] then 0
    else if !guards[0].passes then 0
    else 1 + FirstFailingIndex(guards[1..])
  }

  /** The first failing guard is the one before which every guard passes. */
  lemma FirstFailingIndexIs(guards: seq<Guard>, k: nat)
    requires k <= |guards|
    requires forall j :: 0 <= j < k ==> guards[j].passes
    requires k < |guards| ==> !guards[k].passes
    ensures FirstFailingIndex(guards) == k
  {
  }

  /** A guard that passes exactly when the string argument is neither null nor empty. */
  function Required(name: string, s: NString): Guard {
    Guard(name, !IsNullOrEmpty(s))
  }

  /** A guard that passes exactly when the argument is not null. */
  function NotNull<T>(name: string, x: Option<T>): Guard {
    Guard(name, x.Some?)
  }

  /** The guards of both `UseResourceOwnerPassword` factories, in the order they are checked. */
  function ResourceOwnerPasswordGuards(authority: Option<Uri>, authorizationEndpointRelativePath: NString, clientId: NString,
                                       clientSecret: NString, username: NString, password: NString): seq<Guard>
  {
    [NotNull("authority", authority),
     Required("authorizationEndpointRelativePath", authorizationEndpointRelativePath),
     Required("clientId", clientId),
     Required("clientSecret", clientSecret),
     Required("username", username),
     Required("password", password)]
  }

  /** The guards of both `UseClientCredentials` factories, in the order they are checked. */
  function ClientCredentialsGuards(authority: Option<Uri>, authorizationEndpointRelativePath: NString, clientId: NString,
                                   clientSecret: NString, scope: NString): seq<Guard>
  {
    [NotNull("authority", authority),
     Required("authorizationEndpointRelativePath", authorizationEndpointRelativePath),
     Required("clientId", clientId),
     Required("clientSecret", clientSecret),
     NotNull("scope", scope)]
  }
}
