/**
 * The HTTP client's bearer-token handling (services/apiClient.ts): the
 * request interceptor that attaches the stored token, the response
 * interceptor that clears it once per request on a 401, and the older
 * `authenticatedFetch` wrapper.
 */
module ApiClient {
  import opened Wrappers

  /** Request headers, by exact (case-sensitive) name. */
  type Headers = map<string, string>

  /** JavaScript truthiness of the stored token: absent and "" both count as no token. */
  predicate HasToken(token: Option<string>) {
    token.Some? && token.value != ""
  }

  /** The Authorization header value for a token. */
  function Bearer(token: string): (r: string)
    ensures |r| == 7 + |token| && r[..7] == "Bearer " && r[7..] == token
  {
    "Bearer " + token
  }

  /** The outcome of `await getToken()`. */
  datatype TokenRead = Read(token: Option<string>) | ReadFailed

  /**
   * The headers the request interceptor leaves on the config: with a token,
   * the old headers (or `{}`) plus `Authorization`; otherwise, and when the
   * token cannot be read, the headers as they were.
   */
  function InterceptedHeaders(headers: Option<Headers>, read: TokenRead): (r: Option<Headers>)
    ensures !(read.Read? && HasToken(read.token)) ==> r == headers
    ensures read.Read? && HasToken(read.token) ==>
              && r.Some?
              && r.value.Keys == headers.GetOr(map[]).Keys + {"Authorization"}
              && r.value["Authorization"] == Bearer(read.token.value)
              && forall k :: k in headers.GetOr(map[]) && k != "Authorization" ==> r.value[k] == headers.GetOr(map[])[k]
  {
    match read
    case Read(token) =>
      if HasToken(token) then Some(headers.GetOr(map[])["Authorization" := Bearer(token.value)]) else headers
    case ReadFailed => headers
  }

  /** The headers `authenticatedFetch` sends: a JSON content type the caller may override, then the token's Authorization over everything. */
  function FetchHeaders(callerHeaders: Headers, token: Option<string>): (r: Headers)
    ensures r.Keys == callerHeaders.Keys + {"Content-Type"} + (if HasToken(token) then {"Authorization"} else {})
    ensures r["Content-Type"] == if "Content-Type" in callerHeaders then callerHeaders["Content-Type"] else "application/json"
    ensures HasToken(token) ==> r["Authorization"] == Bearer(token.value)
    ensures forall k :: k in callerHeaders && k != "Content-Type" && (k == "Authorization" ==> !HasToken(token)) ==>
              r[k] == callerHeaders[k]
  {
    var headers := map["Content-Type" := "application/json"] + callerHeaders;
    if HasToken(token) then headers["Authorization" := Bearer(token.value)] else headers
  }

  /** The stored bearer token (the "token" storage key). */
  class TokenStore {
    var token: Option<string>
    /** How many times the token has been cleared. */
    ghost var clears: nat

    constructor (token: Option<string>)
      ensures this.token == token && clears == 0
    {
      this.token := token;
      clears := 0;
    }

    /** `storeToken`, called once an OTP is verified. */
    method StoreToken(t: string)
      modifies this`token
      ensures token == Some(t)
    {
      token := Some(t);
    }

    /** `removeToken`, which the client imports but which is not defined beside `getToken`: clearing the stored token. */
    method RemoveToken()
      modifies this
      ensures token == None && clears == old(clears) + 1
    {
      token := None;
      clears := clears + 1;
    }
  }

  /** The request config axios hands to both interceptors; the response interceptor sees it as `error.config`. */
  class RequestConfig {
    var headers: Option<Headers>
    var retry: bool

    constructor (headers: Option<Headers>)
      ensures this.headers == headers && !retry
    {
      this.headers := headers;
      retry := false;
    }
  }

  /** The request interceptor: `readFails` says whether `getToken()` threw, which only gets logged. */
  method InterceptRequest(config: RequestConfig, store: TokenStore, readFails: bool)
    modifies config`headers
    ensures config.headers == InterceptedHeaders(old(config.headers), if readFails then ReadFailed else Read(store.token))
  {
    if !readFails {
      var token := store.token;
      if HasToken(token) {
        var headers := if config.headers.Some? then config.headers.value else map[];
        config.headers := Some(headers["Authorization" := Bearer(token.value)]);
      }
    }
  }

  /** A settled axios request: a response, or an error with the response status when there was one. */
  datatype Settled = Fulfilled(status: int) | Failed(errorStatus: Option<int>)

  /** What the interceptor hands on to the caller. */
  datatype Delivered = Resolve(status: int) | Reject(errorStatus: Option<int>)

  /** The token is cleared exactly for a 401 on a request that has not cleared it yet. */
  predicate ClearsToken(settled: Settled, retry: bool) {
    settled.Failed? && settled.errorStatus == Some(401) && !retry
  }

  /** The response interceptor. */
  method InterceptResponse(settled: Settled, config: RequestConfig, store: TokenStore) returns (r: Delivered)
    modifies config`retry, store
    ensures r == match settled
                 case Fulfilled(status) => Resolve(status)
                 case Failed(status) => Reject(status)
    ensures ClearsToken(settled, old(config.retry)) ==>
              config.retry && store.token == None && store.clears == old(store.clears) + 1
    ensures !ClearsToken(settled, old(config.retry)) ==> unchanged(config) && unchanged(store)
  {
    match settled {
      case Fulfilled(status) =>
        return Resolve(status);
      case Failed(status) =>
        if status == Some(401) && !config.retry {
          config.retry := true;
          store.RemoveToken();
          return Reject(status);
        }
        // a 403 is only logged
        return Reject(status);
    }
  }

  /** Once a request has cleared the token, no later error on it clears it again. */
  lemma AtMostOneClear(settled: Settled)
    ensures !ClearsToken(settled, true)
  {
  }

  /** Only a 401 error clears the token: successes, 403s and other errors never do. */
  lemma OnlyUnauthorizedClears(settled: Settled, retry: bool)
    ensures ClearsToken(settled, retry) ==> settled == Failed(Some(401))
  {
  }

  /** Two 401 responses to the same request clear the token once. */
  method RepeatedUnauthorized(config: RequestConfig, store: TokenStore) returns (first: Delivered, second: Delivered)
    requires !config.retry
    modifies config, store
    ensures first == Reject(Some(401)) && second == Reject(Some(401))
    ensures store.token == None && store.clears == old(store.clears) + 1
  {
    first := InterceptResponse(Failed(Some(401)), config, store);
    second := InterceptResponse(Failed(Some(401)), config, store);
  }

  /** How `fetch` ends. */
  datatype FetchResult = Responded(status: int) | NetworkFailed

  /** Why `authenticatedFetch` throws. */
  datatype FetchError = TokenReadError | NetworkError | Unauthorized

  datatype FetchOutcome = Returned(status: int) | Thrown(error: FetchError)

  /**
   * `authenticatedFetch`: `readFails` says whether `getToken()` threw (then
   * nothing is sent and the error is rethrown); `sent` is the header set of
   * the request that went out.
   */
  method AuthenticatedFetch(store: TokenStore, callerHeaders: Headers, readFails: bool, fetch: FetchResult)
    returns (sent: Option<Headers>, r: FetchOutcome)
    modifies store
    ensures readFails ==> sent == None && r == Thrown(TokenReadError) && unchanged(store)
    ensures !readFails ==> sent == Some(FetchHeaders(callerHeaders, old(store.token)))
    ensures !readFails && fetch == Responded(401) ==>
              r == Thrown(Unauthorized) && store.token == None && store.clears == old(store.clears) + 1
    ensures !readFails && fetch.Responded? && fetch.status != 401 ==> r == Returned(fetch.status) && unchanged(store)
    ensures !readFails && fetch.NetworkFailed? ==> r == Thrown(NetworkError) && unchanged(store)
  {
    if readFails {
      return None, Thrown(TokenReadError);
    }
    var token := store.token;
    var headers := map["Content-Type" := "application/json"] + callerHeaders;
    if HasToken(token) {
      headers := headers["Authorization" := Bearer(token.value)];
    }
    sent := Some(headers);
    match fetch {
      case NetworkFailed =>
        r := Thrown(NetworkError);
      case Responded(status) =>
        if status == 401 {
          store.RemoveToken();
          r := Thrown(Unauthorized);
        } else {
          r := Returned(status);
        }
    }
  }

  /**
   * A session: once a token is stored, requests carry it; a 401 clears it,
   * and the next request goes out without an Authorization header.
   */
  method SessionAfterUnauthorized(t: string, store: TokenStore, first: RequestConfig, second: RequestConfig)
    returns (delivered: Delivered)
    requires t != "" && first.headers == None && second.headers == None && !first.retry
    requires first != second
    modifies store, first, second
    ensures first.headers == Some(map["Authorization" := "Bearer " + t])
    ensures delivered == Reject(Some(401)) && store.token == None
    ensures second.headers == None
  {
    store.StoreToken(t);
    InterceptRequest(first, store, false);
    delivered := InterceptResponse(Failed(Some(401)), first, store);
    InterceptRequest(second, store, false);
  }
}
