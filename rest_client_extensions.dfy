/**
 * The status-code classification of REST responses and the bearer header
 * attached to outgoing requests.
 */
module RestClientExtensions {
  import opened Tokens
  import opened RestSharpAuthenticator

  /** `HasClientError`: the status code, as an integer, is in [400, 500) or is 0 (no response). */
  predicate HasClientError(code: int) {
    (code >= 400 && code < 500) || code == 0
  }

  /** `HasServerError`: the status code, as an integer, is in [500, 600). */
  predicate HasServerError(code: int) {
    code >= 500 && code < 600
  }

  /** The HTTP status class: a non-negative code divided by 100. */
  function StatusClass(code: nat): nat {
    code / 100
  }

  /** A client error is the 4xx class, or the code 0 that a missing response carries. */
  lemma ClientErrorIsClassFour(code: int)
    ensures HasClientError(code) <==> code == 0 || (code >= 0 && StatusClass(code) == 4)
  {
  }

  /** A server error is exactly the 5xx class. */
  lemma ServerErrorIsClassFive(code: int)
    ensures HasServerError(code) <==> code >= 0 && StatusClass(code) == 5
  {
  }

  /** No status code is both a client and a server error. */
  lemma ErrorClassesDisjoint(code: int)
    ensures !(HasClientError(code) && HasServerError(code))
  {
  }

  /** A code is neither kind of error exactly when it is not 0 and lies outside [400, 600). */
  lemma NeitherErrorIff(code: int)
    ensures !HasClientError(code) && !HasServerError(code) <==> code != 0 && (code < 400 || code >= 600)
  {
  }

  /** 200, 399 and 600 are neither kind of error; 0 and 499 are client errors; 500 and 599 are server errors. */
  lemma SampleCodes()
    ensures !HasClientError(200) && !HasServerError(200)
    ensures !HasClientError(399) && !HasServerError(399)
    ensures !HasClientError(600) && !HasServerError(600)
    ensures HasClientError(0) && HasClientError(499) && HasServerError(500) && HasServerError(599)
  {
  }

  /** HTTP methods of RestSharp's `Method`. */
  datatype Method = GET | POST | PUT | DELETE | HEAD | OPTIONS | PATCH | MERGE | COPY

  /** An HTTP header parameter of a request. */
  datatype Header = Header(name: string, value: string)

  /**
   * The header `AddAuthorizationBearerHeader` adds. A null access token
   * contributes nothing to the concatenation, as in C#.
   */
  function BearerHeader(auth: Authenticator): (h: Header)
    ensures h.name == "Authorization"
    ensures |h.value| >= 7 && h.value[..7] == "Bearer " && h.value[7..] == OrEmpty(auth.AccessToken())
  {
    Header("Authorization", "Bearer " + OrEmpty(auth.AccessToken()))
  }

  /** A request under construction: resource and method are fixed, headers are appended in place. */
  class RestRequest {
    const resource: string
    const httpMethod: Method
    var headers: seq<Header>

    constructor (resource: string, httpMethod: Method)
      ensures this.resource == resource && this.httpMethod == httpMethod && headers == []
    {
      this.resource := resource;
      this.httpMethod := httpMethod;
      headers := [];
    }

    /** `AddHeader`: appends one header and returns the same request. */
    method AddHeader(name: string, value: string) returns (r: RestRequest)
      modifies this
      ensures r == this
      ensures headers == old(headers) + [Header(name, value)]
    {
      headers := headers + [Header(name, value)];
      r := this;
    }
  }

  /** Appends exactly one header, `Authorization: Bearer <access token>`, and returns the same request. */
  method AddAuthorizationBearerHeader(request: RestRequest, auth: Authenticator) returns (r: RestRequest)
    modifies request
    ensures r == request
    ensures request.headers == old(request.headers) + [BearerHeader(auth)]
  {
    var h := BearerHeader(auth);
    r := request.AddHeader(h.name, h.value);
  }
}
