/**
 * The REST client wrapper: it holds an optional default authenticator,
 * resolves which authenticator a call uses, refreshes the stored default once
 * its remaining lifetime drops under 120 seconds, and attaches the resolved
 * authenticator's bearer header to each request it builds.
 *
 * `Authenticator` in this file is the `RestSharp` one (see README.md). Time is
 * `now` in whole seconds and the token endpoint is the `issuer` function.
 */
module IdentityClient {
  import opened Wrappers
  import opened Tokens
  import opened RestSharpAuthenticator
  import opened RestClientExtensions

  /** The serializer handed to RestSharp, kept opaque: the default Newtonsoft one or one the caller supplies. */
  datatype JsonSerializer = NewtonsoftDefault | Supplied(name: string)

  /** `Client.Options`: the API's base address and the JSON serializer. */
  datatype ClientOptions = ClientOptions(apiAddress: Uri, jsonSerializer: JsonSerializer)

  /** `new Client.Options(apiAddress)`: rejects a null address and uses the default serializer. */
  function NewClientOptions(apiAddress: Option<Uri>): (r: Result<ClientOptions, Error>)
    ensures r.Failure? <==> apiAddress.None?
    ensures r.Failure? ==> r.error == ArgumentNull("apiAddress")
    ensures r.Success? ==> r.value.apiAddress == apiAddress.value && r.value.jsonSerializer == NewtonsoftDefault
  {
    if apiAddress.None? then Failure(ArgumentNull("apiAddress"))
    else Success(ClientOptions(apiAddress.value, NewtonsoftDefault))
  }

  /**
   * `new Client.Options(apiAddress, jsonSerializer)`: runs the one-argument
   * constructor first, so a null address is reported before a null serializer.
   */
  function NewClientOptionsWithSerializer(apiAddress: Option<Uri>, jsonSerializer: Option<JsonSerializer>): (r: Result<ClientOptions, Error>)
    ensures r.Success? <==> apiAddress.Some? && jsonSerializer.Some?
    ensures apiAddress.None? ==> r == Failure(ArgumentNull("apiAddress"))
    ensures apiAddress.Some? && jsonSerializer.None? ==> r == Failure(ArgumentNull("jsonSerializer"))
    ensures r.Success? ==> r.value.apiAddress == apiAddress.value && r.value.jsonSerializer == jsonSerializer.value
  {
    match NewClientOptions(apiAddress)
    case Failure(e) => Failure(e)
    case Success(o) =>
      if jsonSerializer.None? then Failure(ArgumentNull("jsonSerializer"))
      else Success(o.(jsonSerializer := jsonSerializer.value))
  }

  /** The remaining lifetime, in seconds, below which the stored default is refreshed. */
  const RefreshThreshold: int := 120

  /** A call refreshes exactly when it has no inline authenticator and the stored default expires in under 120 seconds. */
  predicate NeedsRefresh(stored: Option<Authenticator>, inline: Option<Authenticator>, now: int) {
    inline.None? && stored.Some? && stored.value.ExpiresIn(now) < RefreshThreshold
  }

  /** What one resolution decides: the authenticator to use (or the exception) and the new stored default. */
  datatype Resolution = Resolution(result: Result<Authenticator, Error>, stored: Option<Authenticator>)

  /** The refresh that matches the authenticator's flow; a flow outside the two named ones is not implemented. */
  function RefreshByFlow(a: Authenticator, issuer: Issuer, now: int): (r: Result<Authenticator, Error>)
    reads a.theOptions
    ensures r.Failure? <==> a.GetAuthenticationFlow().Undefined?
    ensures r.Failure? ==> r.error == NotImplemented
    ensures r.Success? ==> r.value.theOptions == a.theOptions && r.value.initializedAt == now
    ensures r.Success? ==> r.value.current == issuer(
      if a.GetAuthenticationFlow().ClientCredentials? then a.ClientCredentialsRequest() else a.ResourceOwnerRequest())
  {
    match a.GetAuthenticationFlow()
    case ClientCredentials => Success(a.GetClientCredentialsAuthenticator(issuer, now))
    case ResourceOwnerPassword => Success(a.GetResourceOwnerAuthenticator(issuer, now))
    case Undefined(_) => Failure(NotImplemented)
  }

  /** The specification of `Eval` on the stored default `stored` and the per-call `inline` authenticator. */
  function Resolve(stored: Option<Authenticator>, inline: Option<Authenticator>, issuer: Issuer, now: int): (r: Resolution)
    reads if stored.Some? then {stored.value.theOptions} else {}
    ensures r.result.Failure? <==> (stored.None? && inline.None?) || (NeedsRefresh(stored, inline, now) && stored.value.GetAuthenticationFlow().Undefined?)
    ensures r.stored != stored ==> NeedsRefresh(stored, inline, now) && r.result.Success? && r.stored == Some(r.result.value)
    ensures r.result.Success? && inline.None? ==> r.stored == Some(r.result.value)
  {
    if stored.None? && inline.None? then Resolution(Failure(ArgumentNull("authenticator")), stored)
    else if inline.Some? then Resolution(Success(inline.value), stored)
    else if !NeedsRefresh(stored, inline, now) then Resolution(Success(stored.value), stored)
    else match RefreshByFlow(stored.value, issuer, now)
      case Failure(e) => Resolution(Failure(e), stored)
      case Success(a) => Resolution(Success(a), Some(a))
  }

  /** The wrapper: fixed options and the stored default authenticator, the one field `Eval` reassigns. */
  class Client {
    const options: ClientOptions
    var authenticator: Option<Authenticator>

    /** The constructor once `options` is known to be non-null; `NewClient` models the null check. */
    constructor (options: ClientOptions, authenticator: Option<Authenticator>)
      ensures this.options == options && this.authenticator == authenticator
    {
      this.options := options;
      this.authenticator := authenticator;
    }

    /**
     * Resolves the authenticator for one call: the inline one verbatim, else
     * the stored default, refreshed first (and stored) when it is stale.
     */
    method Eval(inline: Option<Authenticator>, issuer: Issuer, now: int) returns (r: Result<Authenticator, Error>)
      modifies this
      ensures Resolution(r, authenticator) == old(Resolve(authenticator, inline, issuer, now))
    {
      if authenticator.None? && inline.None? {
        return Failure(ArgumentNull("authenticator"));
      }
      if inline.Some? {
        return Success(inline.value);
      }
      if authenticator.value.ExpiresIn(now) < RefreshThreshold {
        var flow := authenticator.value.GetAuthenticationFlow();
        if flow == ClientCredentials {
          authenticator := Some(authenticator.value.GetClientCredentialsAuthenticator(issuer, now));
        } else if flow == ResourceOwnerPassword {
          authenticator := Some(authenticator.value.GetResourceOwnerAuthenticator(issuer, now));
        } else {
          return Failure(NotImplemented);
        }
      }
      return Success(authenticator.value);
    }

    /**
     * Builds a request for `resource` and attaches the bearer header of
     * exactly the authenticator `Eval` resolved; an exception from `Eval`
     * means no request.
     */
    method CreateRestRequest(resource: string, httpMethod: Method, inline: Option<Authenticator>, issuer: Issuer, now: int)
      returns (r: Result<RestRequest, Error>)
      modifies this
      ensures var res := old(Resolve(authenticator, inline, issuer, now));
        && authenticator == res.stored
        && (r.Success? <==> res.result.Success?)
        && (r.Failure? ==> r.error == res.result.error)
        && (r.Success? ==> fresh(r.value) && r.value.resource == resource && r.value.httpMethod == httpMethod
                           && r.value.headers == [BearerHeader(res.result.value)])
    {
      var request := new RestRequest(resource, httpMethod);
      var auth := Eval(inline, issuer, now);
      if auth.Failure? {
        return Failure(auth.error);
      }
      request := AddAuthorizationBearerHeader(request, auth.value);
      return Success(request);
    }
  }

  /** `new Client(options, authenticator = null)`: rejects null options; the default authenticator may be null. */
  method NewClient(options: Option<ClientOptions>, authenticator: Option<Authenticator>) returns (r: Result<Client, Error>)
    ensures options.None? ==> r == Failure(ArgumentNull("options"))
    ensures options.Some? ==> r.Success? && fresh(r.value) && r.value.options == options.value && r.value.authenticator == authenticator
  {
    if options.None? {
      return Failure(ArgumentNull("options"));
    }
    var c := new Client(options.value, authenticator);
    return Success(c);
  }

  /** Resolution fails for a missing authenticator exactly when neither a default nor an inline one is given. */
  lemma MissingAuthenticatorFails(stored: Option<Authenticator>, inline: Option<Authenticator>, issuer: Issuer, now: int)
    ensures var res := Resolve(stored, inline, issuer, now);
      res.result == Failure(ArgumentNull("authenticator")) <==> stored.None? && inline.None?
    ensures stored.None? && inline.None? ==> Resolve(stored, inline, issuer, now).stored == stored
  {
  }

  /** An inline authenticator is used as given, however expired, and the stored default is left alone. */
  lemma InlineUsedVerbatim(stored: Option<Authenticator>, inline: Option<Authenticator>, issuer: Issuer, now: int)
    requires inline.Some?
    ensures !NeedsRefresh(stored, inline, now)
    ensures Resolve(stored, inline, issuer, now) == Resolution(Success(inline.value), stored)
  {
  }

  /** A stored default that is not stale is returned as it is, and the field is unchanged. */
  lemma LiveDefaultKept(a: Authenticator, issuer: Issuer, now: int)
    requires a.ExpiresIn(now) >= RefreshThreshold
    ensures Resolve(Some(a), None, issuer, now) == Resolution(Success(a), Some(a))
  {
  }

  /**
   * A stale default is replaced by the refresh of its flow, and that new
   * authenticator is both stored and returned; any other flow fails and the
   * field is unchanged.
   */
  lemma StaleDefaultRefreshedByFlow(a: Authenticator, issuer: Issuer, now: int)
    requires a.ExpiresIn(now) < RefreshThreshold
    ensures var res := Resolve(Some(a), None, issuer, now);
      match a.GetAuthenticationFlow()
      case ClientCredentials =>
        res == Resolution(Success(a.GetClientCredentialsAuthenticator(issuer, now)), Some(a.GetClientCredentialsAuthenticator(issuer, now)))
      case ResourceOwnerPassword =>
        res == Resolution(Success(a.GetResourceOwnerAuthenticator(issuer, now)), Some(a.GetResourceOwnerAuthenticator(issuer, now)))
      case Undefined(_) =>
        res == Resolution(Failure(NotImplemented), Some(a))
  {
  }

  /** The comparison is strict: at exactly 120 seconds left there is no refresh, at 119 there is. */
  lemma ThresholdIsStrict(a: Authenticator, now: int)
    ensures a.ExpiresIn(now) == 120 ==> !NeedsRefresh(Some(a), None, now)
    ensures a.ExpiresIn(now) == 119 ==> NeedsRefresh(Some(a), None, now)
  {
  }

  /** Options built by the factories never reach the not-implemented branch. */
  lemma FactoryFlowsAreImplemented(stored: Option<Authenticator>, inline: Option<Authenticator>, issuer: Issuer, now: int)
    requires stored.Some? ==> stored.value.theOptions.Valid()
    ensures Resolve(stored, inline, issuer, now).result != Failure(NotImplemented)
  {
  }

  /**
   * A default fresh from the public constructor (issued at time 0) is stale
   * at any `now` later than its initial lifetime minus 120 seconds, so the
   * first call refreshes it.
   */
  lemma FirstCallRefreshesNewDefault(options: Options, initialExpiresIn: int, issuer: Issuer, now: int)
    requires now > initialExpiresIn - RefreshThreshold
    requires options.Valid()
    ensures NeedsRefresh(Some(New(options, initialExpiresIn)), None, now)
    ensures var res := Resolve(Some(New(options, initialExpiresIn)), None, issuer, now);
      && res.result.Success? && res.stored == Some(res.result.value)
      && res.result.value.initializedAt == now && res.result.value.theOptions == options
  {
  }

  /**
   * A client-credentials default: the first call makes one token exchange
   * and stores its result; a second call `elapsed` seconds later, with the
   * issued lifetime still at least 120 seconds ahead, makes none and resolves
   * to the same authenticator.
   */
  lemma ExchangeOnceThenReuse(options: Options, initialExpiresIn: int, issuer: Issuer, now: int, elapsed: int)
    requires options.authenticationFlow == ClientCredentials
    requires now > initialExpiresIn - RefreshThreshold
    requires elapsed >= 0
    requires issuer(New(options, initialExpiresIn).ClientCredentialsRequest()).expiresIn >= RefreshThreshold + elapsed
    ensures var first := Resolve(Some(New(options, initialExpiresIn)), None, issuer, now);
      && NeedsRefresh(Some(New(options, initialExpiresIn)), None, now)
      && first.result == Success(New(options, initialExpiresIn).GetClientCredentialsAuthenticator(issuer, now))
      && first.stored == Some(first.result.value)
      && !NeedsRefresh(first.stored, None, now + elapsed)
      && Resolve(first.stored, None, issuer, now + elapsed) == first
  {
  }
}
