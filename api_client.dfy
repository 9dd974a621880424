/** The HTTP client (api/client.ts) and the browser's `localStorage` it reads
    the token from: the base configuration and the request interceptor that
    attaches the bearer token. */
module ApiClient {
  import opened Common

  /** `localStorage`, as a map from keys to stored strings. */
  class LocalStorage {
    var items: map<string, string>

    constructor ()
      ensures items == map[]
    {
      items := map[];
    }

    /** `getItem`: null for a missing key. */
    function GetItem(key: string): (r: Option<string>)
      reads this
      ensures r.Some? <==> key in items
      ensures r.Some? ==> r.value == items[key]
    {
      if key in items then Some(items[key]) else None
    }

    method SetItem(key: string, value: string)
      modifies this
      ensures items == old(items)[key := value]
    {
      items := items[key := value];
    }

    method RemoveItem(key: string)
      modifies this
      ensures items == old(items) - {key}
    {
      items := items - {key};
    }
  }

  const TokenKey := "token"
  const RefreshTokenKey := "refreshToken"

  const DefaultBaseUrl := "https://api.quantumlab.codes/api"
  const TimeoutMs := 10000

  /** `import.meta.env.VITE_API_BASE_URL || default`. */
  function BaseUrl(env: Option<string>): (r: string)
    ensures Truthy(env) ==> r == env.value
    ensures !Truthy(env) ==> r == DefaultBaseUrl
  {
    OrDefault(env, DefaultBaseUrl)
  }

  const DefaultHeaders: map<string, string> := map["Content-Type" := "application/json"]

  /** The request interceptor's effect on the headers: a bearer token when a
      non-empty token is stored, nothing otherwise. */
  function WithToken(headers: map<string, string>, token: Option<string>): (r: map<string, string>)
    ensures Truthy(token) ==> "Authorization" in r && r["Authorization"] == "Bearer " + token.value
    ensures Truthy(token) ==> forall k :: k in headers && k != "Authorization" ==> k in r && r[k] == headers[k]
    ensures Truthy(token) ==> r.Keys == headers.Keys + {"Authorization"}
    ensures !Truthy(token) ==> r == headers
  {
    if Truthy(token) then headers["Authorization" := "Bearer " + token.value] else headers
  }

  /** The value after "Bearer " is exactly the stored token. */
  lemma BearerRoundTrip(headers: map<string, string>, token: string)
    requires token != ""
    ensures var h := WithToken(headers, Some(token))["Authorization"];
            h[..7] == "Bearer " && h[7..] == token
  {
  }

  /** The configuration of one request as the interceptor sees it. */
  class RequestConfig {
    var headers: map<string, string>

    constructor ()
      ensures headers == DefaultHeaders
    {
      headers := DefaultHeaders;
    }

    /** The request interceptor: reads the token and writes the header. */
    method AttachToken(storage: LocalStorage)
      modifies this
      ensures headers == WithToken(old(headers), storage.GetItem(TokenKey))
    {
      var token := storage.GetItem(TokenKey);
      if token.Some? && token.value != "" {
        headers := headers["Authorization" := "Bearer " + token.value];
      }
    }
  }

  /** How a request or a response settles: its value, or the error it is
      rejected with. */
  datatype Settled<T, E> = Resolved(value: T) | Rejected(error: E)

  /** The response interceptor: a response is handed on unchanged, and an
      error is rejected again with the same error. */
  function ThroughResponseInterceptor<T, E>(s: Settled<T, E>): (r: Settled<T, E>)
    ensures r.Resolved? <==> s.Resolved?
    ensures s.Resolved? ==> r.value == s.value
    ensures s.Rejected? ==> r.error == s.error
  {
    match s
    case Resolved(response) => Resolved(response)
    case Rejected(e) => Rejected(e)
  }

  /** The request interceptor's error handler rejects with the error it got. */
  function RequestErrorHandler<T, E>(e: E): (r: Settled<T, E>)
    ensures r.Rejected? && r.error == e
  {
    Rejected(e)
  }

  /** Neither interceptor changes how an exchange ends: a rejected request
      stays rejected with the same error, and any outcome passes the
      response interceptor as it is, however often it is applied. */
  lemma InterceptorsPassThrough<T, E>(s: Settled<T, E>, e: E)
    ensures ThroughResponseInterceptor(RequestErrorHandler<T, E>(e)) == Rejected(e)
    ensures ThroughResponseInterceptor(ThroughResponseInterceptor(s)) == s
  {
  }

  /** With nothing stored, a fresh request goes out with the JSON content
      type and no authorization. */
  lemma SignedOutRequest(storage: map<string, string>)
    requires TokenKey !in storage
    ensures WithToken(DefaultHeaders, if TokenKey in storage then Some(storage[TokenKey]) else None) == DefaultHeaders
    ensures "Authorization" !in DefaultHeaders
  {
  }
}
