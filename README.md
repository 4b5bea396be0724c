# RestSharp.IdentityModel.Extensions: token lifecycle model

This project models the bookkeeping an OAuth 2.0 client does around its access
tokens in RestSharp.IdentityModel.Extensions. The flows are client credentials
(section 4.4 of RFC 6749) and resource-owner password (section 4.3 of RFC 6749).
The token is sent as a bearer header (section 2.1 of RFC 6750). The model covers:

- the two option factories, `UseClientCredentials` and `UseResourceOwnerPassword`. Each is an
  ordered chain of argument checks that either throws `ArgumentNullException` for
  the first bad argument or builds the configuration with a fixed flow. There are
  two variants: the `RestSharp` one in `Authenticator.cs` and the `Infrastructure`
  one;
- the authenticator value. It starts in an "Unauthorized" error state issued at
  time 0. Its remaining lifetime is `ExpiresIn(now) = issued lifetime - (now - InitializedAt)`,
  with no clamping. A refresh builds a new authenticator that shares the options and is stamped `now`;
- `Client.Eval`: it resolves the authenticator for a call (the inline one verbatim,
  else the stored default) and refreshes the stored default once fewer than 120
  seconds remain. `CreateRestRequest` attaches the resolved authenticator's
  `Authorization: Bearer` header;
- status-code classification (`HasClientError`, `HasServerError`);
- impersonation and the extension refresh helpers.

Time is an explicit `now: int` in whole seconds. `DateTime`'s default value
(`InitializedAt` before any refresh) is 0. The token endpoint is an `issuer`
parameter of type `TokenRequest -> TokenResponse`. Each refresh builds a
`TokenRequest` that records everything the library call would receive: the token
client's address and credentials, the username and password, the scope, and the
extra form values. The issuer's answer to that request is the new token response.
A .NET `string` that may be null is `Option<string>` (`NString`), with `None` for null.

Modules, one per source file plus two shared ones:

- `Wrappers` is `Option` and `Result`.
- `Tokens` holds the vocabulary both variants share: opaque `Uri` and token-client addresses, token requests
  and responses, `Flow`, the exceptions (`ArgumentNull(paramName)`, `NotImplemented`),
  and `FirstFailingIndex`. That function is the reference definition of "the first failing
  guard of a chain", and both factory variants are proved against it.
- `RestSharpAuthenticator` models `Authenticator.cs`. There `Options` is a class, because
  `Extras` has a public setter and every authenticator made from one options object (refreshed
  ones included) shares it. The factories are methods that allocate it.
- `InfrastructureAuthenticator` models `Infrastructure/Authenticator.cs`. Everything in it
  is a value, and the factories are functions.
- `RestClientExtensions` models the status predicates, the bearer header, and a `RestRequest`
  class whose header list is appended in place.
- `IdentityClient` models `Client.cs`. `Client` is a class with one mutable field, the stored
  default `authenticator`. `Eval` is proved equal to the specification function `Resolve`,
  and the lemmas state the resolution and refresh rules about `Resolve`.
- `AuthenticatorExtensions` models `AuthenticatorExtensions.cs`.

Points where the model had to decide:

- `Client.cs` names `Authenticator` inside namespace `RestSharp.IdentityModel.Extensions`.
  C# looks a simple name up in the enclosing namespaces (`RestSharp` among them) before it
  looks at the file's `using` directives, so the name resolves to `RestSharp.Authenticator`
  and not to the `Infrastructure` one that the `using` line imports. The same type is the
  parameter of `AddAuthorizationBearerHeader`, which `CreateRestRequest` calls. `IdentityClient`
  is therefore modelled over `RestSharpAuthenticator`. The two variants share the 401 error
  state a new authenticator starts in, `InitializedAt` 0, the `ExpiresIn` rule, and refreshes
  that keep the options and are stamped with the current time. The lemmas for those are proved
  in both modules. The variants differ in two ways. The `RestSharp` initial response carries the
  content "Unauthorized" and the `Infrastructure` one carries none (line 20 of each file). The
  `RestSharp` refreshes send the options' `Extras` (Authenticator.cs:57,65); the
  `Infrastructure` ones send none.
- `AuthenticatorExtensions.cs` reads an `AuthorizationEndpoint` member (lines 13 and 22) and
  calls the two-argument `Authenticator` constructor. `Authenticator.cs` declares no
  `AuthorizationEndpoint`; C# names are case-sensitive, and the class has only the private field
  `authorizationEndpoint` (line 11). The model reads the member as that field, `new Uri(Authority,
  relative path)`. The two-argument constructor (line 23) is private; the model uses it as the
  class defines it, sharing the options and stamping the current time.
  The extension refreshes have the same names as the instance methods, and C# prefers the
  instance methods at call sites written as `a.M()`. Both are modelled. They differ in one way:
  the extension refreshes send no `Extras`.
- A C# enum value can be any integer, so `Flow` has a third case, `Undefined(value)`, for the
  values outside the two named ones. This makes `Eval`'s `NotImplementedException` branch
  reachable in the model. The factories never produce it (`FactoryFlowsAreImplemented`).
- The factories throw `ArgumentNullException` with the parameter's name, modelled as
  `ArgumentNull(name)`. They check the endpoint path as well as the credentials. For client
  credentials they reject only a null scope and accept an empty one. For resource-owner
  password they never check the scope.
- `HasClientError`'s doc comment says 400 to 499. The code also counts status 0 (no response)
  as a client error. The model follows the code.

## Model

| member | source | states |
|---|---|---|
| Tokens.FirstFailingIndex | src/RestSharp.IdentityModel.Extensions/Authenticator.cs:85-90 | the position a guard chain reports: every earlier guard passes and the guard at that position fails, or no guard fails |
| Tokens.UnauthorizedResponse | src/RestSharp.IdentityModel.Extensions/Authenticator.cs:20 | the initial response is an HTTP 401 error with reason "Unauthorized" and no access token |
| InfrastructureAuthenticator.UseResourceOwnerPassword | src/RestSharp.IdentityModel.Extensions/Infrastructure/Authenticator.cs:83-93 | succeeds iff authority is non-null and path, client id, secret, username and password are non-empty; on success every argument is stored unchanged (scope unchecked) with flow ResourceOwnerPassword |
| InfrastructureAuthenticator.UseResourceOwnerPasswordDefaultScope | src/RestSharp.IdentityModel.Extensions/Infrastructure/Authenticator.cs:83 | leaving out the scope gives scope "" |
| InfrastructureAuthenticator.UseClientCredentials | src/RestSharp.IdentityModel.Extensions/Infrastructure/Authenticator.cs:95-103 | succeeds iff authority and scope are non-null and path, client id and secret are non-empty; on success the arguments are stored, username and password are "" and the flow is ClientCredentials |
| InfrastructureAuthenticator.ResourceOwnerPasswordReportsFirstFailure | src/RestSharp.IdentityModel.Extensions/Infrastructure/Authenticator.cs:85-90 | the factory fails exactly when a guard fails, naming the first failing argument in the order authority, path, clientId, clientSecret, username, password |
| InfrastructureAuthenticator.ClientCredentialsReportsFirstFailure | src/RestSharp.IdentityModel.Extensions/Infrastructure/Authenticator.cs:97-101 | the factory fails exactly when a guard fails, naming the first failing argument in the order authority, path, clientId, clientSecret, scope |
| InfrastructureAuthenticator.ResourceOwnerPasswordIgnoresScope | src/RestSharp.IdentityModel.Extensions/Infrastructure/Authenticator.cs:85-92 | the scope never changes whether the factory fails or which argument it reports |
| InfrastructureAuthenticator.ClientCredentialsScopeRule | src/RestSharp.IdentityModel.Extensions/Infrastructure/Authenticator.cs:101-102 | with valid other arguments a null scope fails as "scope" and an empty scope is accepted and stored |
| InfrastructureAuthenticator.Authenticator.GetAuthenticationFlow | src/RestSharp.IdentityModel.Extensions/Infrastructure/Authenticator.cs:131-134 | returns exactly the stored options' flow |
| InfrastructureAuthenticator.Authenticator.ClientCredentialsRequest | src/RestSharp.IdentityModel.Extensions/Infrastructure/Authenticator.cs:55-57 | the request goes to the token endpoint's absolute URI with the client id and secret, carries the options' scope and no extra values |
| InfrastructureAuthenticator.Authenticator.ResourceOwnerRequest | src/RestSharp.IdentityModel.Extensions/Infrastructure/Authenticator.cs:63-65 | the request carries the options' username, password and scope, addressed like the client-credentials one |
| InfrastructureAuthenticator.Authenticator.GetClientCredentialsAuthenticator | src/RestSharp.IdentityModel.Extensions/Infrastructure/Authenticator.cs:53-59 | the new authenticator keeps the options, holds the issuer's answer to the request and is stamped now, so its remaining lifetime at now is the issued one |
| InfrastructureAuthenticator.Authenticator.GetResourceOwnerAuthenticator | src/RestSharp.IdentityModel.Extensions/Infrastructure/Authenticator.cs:61-67 | the same for the resource-owner request |
| InfrastructureAuthenticator.New | src/RestSharp.IdentityModel.Extensions/Infrastructure/Authenticator.cs:16-21 | keeps the options, holds the Unauthorized response and leaves InitializedAt at 0 |
| InfrastructureAuthenticator.Renewed | src/RestSharp.IdentityModel.Extensions/Infrastructure/Authenticator.cs:23-29 | shares the original's options, holds the given response, InitializedAt = now |
| InfrastructureAuthenticator.NewIsUnauthorized | src/RestSharp.IdentityModel.Extensions/Infrastructure/Authenticator.cs:16-37 | a new authenticator is in error, has no token, and ExpiresIn(now) = initial lifetime - now |
| InfrastructureAuthenticator.NewIsExpired | src/RestSharp.IdentityModel.Extensions/Infrastructure/Authenticator.cs:37 | past its initial lifetime a new authenticator's ExpiresIn is negative (not clamped) |
| InfrastructureAuthenticator.ExpiresInElapses | src/RestSharp.IdentityModel.Extensions/Infrastructure/Authenticator.cs:37 | ExpiresIn drops by exactly the elapsed seconds and is non-increasing in now |
| InfrastructureAuthenticator.Authenticator.AccessToken | src/RestSharp.IdentityModel.Extensions/Infrastructure/Authenticator.cs:33 | the access token of the held response (null while unauthorized) |
| InfrastructureAuthenticator.Authenticator.IsError | src/RestSharp.IdentityModel.Extensions/Infrastructure/Authenticator.cs:43 | whether the held response is an error |
| InfrastructureAuthenticator.Authenticator.ExpiresIn | src/RestSharp.IdentityModel.Extensions/Infrastructure/Authenticator.cs:37 | the issued lifetime minus the whole seconds elapsed since InitializedAt, not clamped at 0; its behaviour over time is stated by ExpiresInElapses and NewIsExpired |
| InfrastructureAuthenticator.RefreshKeepsFlow | src/RestSharp.IdentityModel.Extensions/Infrastructure/Authenticator.cs:23-29 | both refreshes keep the flow |
| RestSharpAuthenticator.Options.constructor | src/RestSharp.IdentityModel.Extensions/Authenticator.cs:71-81 | stores every argument, Extras starts null |
| RestSharpAuthenticator.Options.SetExtras | src/RestSharp.IdentityModel.Extensions/Authenticator.cs:122 | the public setter changes Extras and nothing else (every other property is constant) |
| RestSharpAuthenticator.UseResourceOwnerPassword | src/RestSharp.IdentityModel.Extensions/Authenticator.cs:83-93 | fails iff some guard fails, reporting the first failing argument; on success a fresh options object storing every argument unchanged, flow ResourceOwnerPassword, Extras null |
| RestSharpAuthenticator.UseResourceOwnerPasswordDefaultPath | src/RestSharp.IdentityModel.Extensions/Authenticator.cs:83 | without the path argument the path is "connect/token" and only the other guards decide |
| RestSharpAuthenticator.UseClientCredentials | src/RestSharp.IdentityModel.Extensions/Authenticator.cs:95-103 | fails iff some guard fails (null scope included, empty scope accepted), reporting the first; on success username and password are "" and the flow is ClientCredentials |
| RestSharpAuthenticator.UseClientCredentialsDefaultPath | src/RestSharp.IdentityModel.Extensions/Authenticator.cs:95 | without the path argument the path is "connect/token" |
| RestSharpAuthenticator.Authenticator.GetAuthenticationFlow | src/RestSharp.IdentityModel.Extensions/Authenticator.cs:133-136 | returns exactly the options' flow |
| RestSharpAuthenticator.Authenticator.ClientCredentialsRequest | src/RestSharp.IdentityModel.Extensions/Authenticator.cs:55-57 | the request goes to the token endpoint with the client credentials, the scope and the options' current Extras |
| RestSharpAuthenticator.Authenticator.ResourceOwnerRequest | src/RestSharp.IdentityModel.Extensions/Authenticator.cs:63-65 | the request carries username, password, scope and the current Extras |
| RestSharpAuthenticator.Authenticator.GetClientCredentialsAuthenticator | src/RestSharp.IdentityModel.Extensions/Authenticator.cs:53-59 | the new authenticator shares the options object, holds the issued response and is stamped now |
| RestSharpAuthenticator.Authenticator.GetResourceOwnerAuthenticator | src/RestSharp.IdentityModel.Extensions/Authenticator.cs:61-67 | the same for the resource-owner request |
| RestSharpAuthenticator.New | src/RestSharp.IdentityModel.Extensions/Authenticator.cs:16-21 | keeps the options, holds the Unauthorized response (content "Unauthorized") and leaves InitializedAt at 0 |
| RestSharpAuthenticator.Renewed | src/RestSharp.IdentityModel.Extensions/Authenticator.cs:23-29 | shares the original's options object, holds the given response, InitializedAt = now |
| RestSharpAuthenticator.NewIsUnauthorized | src/RestSharp.IdentityModel.Extensions/Authenticator.cs:16-37 | a new authenticator is in error, has no token, and ExpiresIn(now) = initial lifetime - now |
| RestSharpAuthenticator.NewIsExpired | src/RestSharp.IdentityModel.Extensions/Authenticator.cs:37 | past its initial lifetime a new authenticator's ExpiresIn is negative |
| RestSharpAuthenticator.ExpiresInElapses | src/RestSharp.IdentityModel.Extensions/Authenticator.cs:37 | ExpiresIn drops by exactly the elapsed seconds and is non-increasing in now |
| RestSharpAuthenticator.Authenticator.AccessToken | src/RestSharp.IdentityModel.Extensions/Authenticator.cs:33 | the access token of the held response (null while unauthorized) |
| RestSharpAuthenticator.Authenticator.IsError | src/RestSharp.IdentityModel.Extensions/Authenticator.cs:43 | whether the held response is an error |
| RestSharpAuthenticator.Authenticator.ExpiresIn | src/RestSharp.IdentityModel.Extensions/Authenticator.cs:37 | the issued lifetime minus the whole seconds elapsed since InitializedAt, not clamped at 0; its behaviour over time is stated by ExpiresInElapses and NewIsExpired |
| RestSharpAuthenticator.RefreshKeepsFlow | src/RestSharp.IdentityModel.Extensions/Authenticator.cs:23-29 | both refreshes keep the flow |
| RestSharpAuthenticator.ExtrasSetLaterReachRefresh | src/RestSharp.IdentityModel.Extensions/Authenticator.cs:122 | Extras set on the options after an authenticator was made are what its next refresh sends |
| RestClientExtensions.HasClientError | src/RestSharp.IdentityModel.Extensions/RestClientExtensions.cs:101-106 | the status code is in [400, 500) or is 0; tied to the status classes by ClientErrorIsClassFour |
| RestClientExtensions.HasServerError | src/RestSharp.IdentityModel.Extensions/RestClientExtensions.cs:115-120 | the status code is in [500, 600); tied to the status classes by ServerErrorIsClassFive |
| RestClientExtensions.ClientErrorIsClassFour | src/RestSharp.IdentityModel.Extensions/RestClientExtensions.cs:101-106 | HasClientError(code) iff code is 0 or in the 4xx class |
| RestClientExtensions.ServerErrorIsClassFive | src/RestSharp.IdentityModel.Extensions/RestClientExtensions.cs:115-120 | HasServerError(code) iff code is in the 5xx class |
| RestClientExtensions.ErrorClassesDisjoint | src/RestSharp.IdentityModel.Extensions/RestClientExtensions.cs:105-119 | no code is both a client error and a server error |
| RestClientExtensions.NeitherErrorIff | src/RestSharp.IdentityModel.Extensions/RestClientExtensions.cs:105-119 | a code is neither error iff it is non-zero and outside [400, 600) |
| RestClientExtensions.SampleCodes | src/RestSharp.IdentityModel.Extensions/RestClientExtensions.cs:105-119 | 200, 399 and 600 are neither; 0 and 499 are client errors; 500 and 599 server errors |
| RestClientExtensions.BearerHeader | src/RestSharp.IdentityModel.Extensions/RestClientExtensions.cs:124 | the header is named "Authorization" and its value is "Bearer " followed by the access token (nothing for a null token) |
| RestClientExtensions.RestRequest.AddHeader | src/RestSharp.IdentityModel.Extensions/RestClientExtensions.cs:124 | appends one header and returns the same request |
| RestClientExtensions.AddAuthorizationBearerHeader | src/RestSharp.IdentityModel.Extensions/RestClientExtensions.cs:122-125 | appends exactly the bearer header, leaves the earlier headers, returns the same request |
| IdentityClient.NewClientOptions | src/RestSharp.IdentityModel.Extensions/Client.cs:73-79 | fails iff apiAddress is null (as "apiAddress"); else stores it with the default serializer |
| IdentityClient.NewClientOptionsWithSerializer | src/RestSharp.IdentityModel.Extensions/Client.cs:81-85 | a null address fails first, then a null serializer; else both are stored |
| IdentityClient.NewClient | src/RestSharp.IdentityModel.Extensions/Client.cs:12-17 | null options fail as "options"; else a fresh client holding the options and the (possibly null) default authenticator |
| IdentityClient.Client.constructor | src/RestSharp.IdentityModel.Extensions/Client.cs:15-17 | stores the options and the default authenticator |
| IdentityClient.NeedsRefresh | src/RestSharp.IdentityModel.Extensions/Client.cs:56 | a call refreshes exactly when there is no inline authenticator and the stored default expires in under 120 seconds; ThresholdIsStrict pins the boundary |
| IdentityClient.RefreshByFlow | src/RestSharp.IdentityModel.Extensions/Client.cs:58-66 | fails, with NotImplemented, exactly for a flow outside the two named ones; otherwise the refreshed authenticator keeps the options, is stamped now and holds the issuer's answer to the client-credentials request for that flow and to the resource-owner request otherwise |
| IdentityClient.Resolve | src/RestSharp.IdentityModel.Extensions/Client.cs:50-68 | fails exactly when both authenticators are null, or a refresh is needed and the flow is not implemented; the stored default changes only by a refresh, and then to the returned authenticator; without an inline authenticator a success is the new stored default |
| IdentityClient.Client.Eval | src/RestSharp.IdentityModel.Extensions/Client.cs:48-69 | the returned authenticator or exception and the new stored default are exactly those of Resolve on the old stored default |
| IdentityClient.Client.CreateRestRequest | src/RestSharp.IdentityModel.Extensions/Client.cs:38-46 | the request's only header is the bearer header of exactly the authenticator Eval resolved; Eval's exception means no request |
| IdentityClient.MissingAuthenticatorFails | src/RestSharp.IdentityModel.Extensions/Client.cs:50-51 | resolution fails with ArgumentNull("authenticator") iff both the stored default and the inline authenticator are null |
| IdentityClient.InlineUsedVerbatim | src/RestSharp.IdentityModel.Extensions/Client.cs:53-54 | an inline authenticator is returned as given, with no expiry check, and the stored default is untouched |
| IdentityClient.LiveDefaultKept | src/RestSharp.IdentityModel.Extensions/Client.cs:56-68 | a default with ExpiresIn >= 120 is returned and the field is unchanged |
| IdentityClient.StaleDefaultRefreshedByFlow | src/RestSharp.IdentityModel.Extensions/Client.cs:56-66 | a default with ExpiresIn < 120 is replaced by (and resolves to) its client-credentials or resource-owner refresh by flow; any other flow fails with NotImplemented and leaves the field |
| IdentityClient.ThresholdIsStrict | src/RestSharp.IdentityModel.Extensions/Client.cs:56 | ExpiresIn 120 does not refresh, 119 does |
| IdentityClient.FactoryFlowsAreImplemented | src/RestSharp.IdentityModel.Extensions/Client.cs:58-65 | options built by the factories never reach the NotImplemented branch |
| IdentityClient.FirstCallRefreshesNewDefault | src/RestSharp.IdentityModel.Extensions/Client.cs:56-68 | a default from the public constructor is stale at any now after its initial lifetime minus 120, so the first call refreshes and stores it, stamped now |
| IdentityClient.ExchangeOnceThenReuse | src/RestSharp.IdentityModel.Extensions/Client.cs:56-68 | the first call makes one client-credentials exchange; a later call while the issued lifetime still leaves 120 seconds makes none and resolves to the same authenticator |
| AuthenticatorExtensions.GetClientCredentialsAuthenticator | src/RestSharp.IdentityModel.Extensions/AuthenticatorExtensions.cs:10-17 | sends the options' scope and no extra values, and wraps the response in an authenticator sharing the options, stamped now |
| AuthenticatorExtensions.GetResourceOwnerAuthenticator | src/RestSharp.IdentityModel.Extensions/AuthenticatorExtensions.cs:19-26 | sends the options' username, password and scope, no extra values, and wraps the response likewise |
| AuthenticatorExtensions.ExtensionRefreshIgnoresExtras | src/RestSharp.IdentityModel.Extensions/AuthenticatorExtensions.cs:15 | the extension and instance client-credentials requests agree iff Extras is null, and then both refreshes agree |
| AuthenticatorExtensions.AcrValues | src/RestSharp.IdentityModel.Extensions/AuthenticatorExtensions.cs:36 | "Impersonate:" then the username, " access_token:" then the token; the positions are stated by AcrValuesLayout |
| AuthenticatorExtensions.AcrValuesLayout | src/RestSharp.IdentityModel.Extensions/AuthenticatorExtensions.cs:36 | acr_values is "Impersonate:", the username, " access_token:", the token, in that order and nothing else |
| AuthenticatorExtensions.ImpersonateAsync | src/RestSharp.IdentityModel.Extensions/AuthenticatorExtensions.cs:28-42 | a null/empty username fails first, then a null/empty token, both before any request; otherwise one resource-owner request to the authority's absolute path with username "impersonate", the given one-time password, the scope and exactly one extra value acr_values; the result keeps the original options |

## Left out

- `ExecuteAsync` and `ExecuteAsync<T>` (RestClientExtensions.cs:11-78) and `Client.Execute<T>` are left out. They only bridge callbacks to tasks, log, and send through the HTTP transport, which is I/O.
- The token exchange itself (`TokenClient.Request*Async`) and the parsing in IdentityModel's `TokenResponse` are left out, because that library is not part of this model. The `issuer` parameter stands for them. Network failures and thrown exceptions from the exchange are not modelled.
- The lifetime of the initial "Unauthorized" response is decided by that library. It is the parameter `initialExpiresIn`.
- The model does not say how the library reads the third constructor argument of that response (its content) in `Authenticator.cs`. It is kept only as the raw body.
- `Uri` composition of authority and relative path (section 5.2 of RFC 3986, done by `System.Uri`) is left out. It is an opaque `Address`, and so is `AbsolutePath`. The model does not decide whether the impersonation address can reach a token endpoint at all.
- The blocking `.Result` waits and the unsynchronised reassignment of the stored default (Client.cs:61,63) are left out. They are concurrency concerns, and `Eval` is modelled single-threaded.
- `DateTime` and `double` arithmetic are left out. Time is whole seconds, so the fractional part of `TotalSeconds` is dropped.
- Eval: one clock reading `now` serves both the staleness check and the refreshed authenticator's `InitializedAt`. The source reads the clock at the check (Client.cs:56, through Authenticator.cs:37). It stamps `InitializedAt` only after the exchange returns (Authenticator.cs:28, after the wait at lines 57 and 65). The time the exchange takes is therefore not modelled.
- The RestSharp handler registration (Client.cs:19-25) is left out. So are `RequestFormat`, the request serializer and the JSON body (Client.cs:41-44), and `AddNewtonsoftJsonBody`. They are thin calls into the unseen RestSharp library, so `CreateRestRequest`'s `body` argument is not a parameter.
- Both `SerializerFactory.cs` files are left out. They are serializer configuration with no contract of their own, and `JsonSerializer` is opaque.
- New (both modules), ImpersonateAsync, AddAuthorizationBearerHeader: the null-reference and URI errors are not modelled. The model's types are non-null. So a null `options` passed to the constructor (a `NullReferenceException` at line 18 of both Authenticator files) a null `authenticator` passed to `ImpersonateAsync` (AuthenticatorExtensions.cs:33), and a null `authenticator` passed to `AddAuthorizationBearerHeader` (RestClientExtensions.cs:124) cannot be expressed. `Eval` never returns a null authenticator, so the core never passes one there. `new Uri(authority, path)` at line 18 throws `ArgumentOutOfRangeException` for a relative authority and `UriFormatException` for a combination that does not parse. Both are out, because `Uri` composition is opaque.
- The password `ImpersonateAsync` generates (`Guid.NewGuid().ToString("n")`) is a parameter supplied by the caller. Its format and randomness are not modelled.
- The accessors `Error`, `HttpErrorReason`, `IdentityToken`, `Json`, `Raw`, `RefreshToken` and `TokenType` are plain reads of the held response's fields. Only `AccessToken`, `IsError` and `ExpiresIn` are written out, and `Json` (a `JObject`) is not modelled.
- The exception messages (the long text at Client.cs:51) are left out. Only the exception kind and the parameter name are modelled.
