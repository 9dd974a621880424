/** The authentication endpoints (api/auth.api.ts): each call's outcome is a
    parameter; the model says what is stored and which message a failure
    becomes. */
module AuthApi {
  import opened Common
  import opened ApiClient

  /** Why a request failed: an HTTP error (with its status when a response
      arrived) or any other exception. */
  datatype Failure = HttpFailure(status: Option<int>) | OtherFailure

  datatype Outcome<T> = Ok(value: T) | Fail(failure: Failure)

  /** What the endpoint call resolves to, or the message it rejects with. */
  datatype Result<T> = Success(value: T) | Error(message: string)

  datatype Tokens = Tokens(access: Option<string>, refresh: Option<string>)

  /** The common shape of every catch block: two statuses with their own
      messages, everything else a fixed fallback. */
  function FailureMessage(f: Failure, s1: int, m1: string, s2: int, m2: string, fallback: string): (r: string)
    requires s1 != s2
    ensures f == HttpFailure(Some(s1)) ==> r == m1
    ensures f == HttpFailure(Some(s2)) ==> r == m2
    ensures f != HttpFailure(Some(s1)) && f != HttpFailure(Some(s2)) ==> r == fallback
  {
    match f
    case HttpFailure(Some(s)) => if s == s1 then m1 else if s == s2 then m2 else fallback
    case _ => fallback
  }

  function LoginMessage(f: Failure): string {
    FailureMessage(f, 400, "Invalid request", 401, "Invalid username or password", "Login failed")
  }

  function SendOtpMessage(f: Failure): string {
    FailureMessage(f, 400, "Validation Error or User Already Exists", 500, "Email Sending Failed", "Failed to send OTP")
  }

  function VerifyOtpMessage(f: Failure): string {
    FailureMessage(f, 400, "Invalid OTP or Expired", 404, "No Pending Registration", "Failed to verify OTP")
  }

  function RegisterMessage(f: Failure): string {
    FailureMessage(f, 400, "Validation Error or Invalid Token", 500, "Server Error", "Registration failed")
  }

  function LogoutMessage(f: Failure): string {
    FailureMessage(f, 400, "Invalid logout request", 401, "Unauthorized", "Logout failed")
  }

  /** Every failure message of the login call is one of its three texts, and
      the two statuses ask for different fixes. */
  lemma LoginMessages(f: Failure)
    ensures LoginMessage(f) in {"Invalid request", "Invalid username or password", "Login failed"}
    ensures LoginMessage(f) == "Invalid username or password" <==> f == HttpFailure(Some(401))
    ensures LoginMessage(f) == "Invalid request" <==> f == HttpFailure(Some(400))
  {
  }

  /** A request that got no response (a timeout, a network error) gets the
      fallback of every endpoint. */
  lemma NoResponseFallsBack()
    ensures LoginMessage(HttpFailure(None)) == "Login failed"
    ensures SendOtpMessage(HttpFailure(None)) == "Failed to send OTP"
    ensures VerifyOtpMessage(HttpFailure(None)) == "Failed to verify OTP"
    ensures RegisterMessage(HttpFailure(None)) == "Registration failed"
    ensures LogoutMessage(HttpFailure(None)) == "Logout failed"
  {
  }

  /** The storage after a successful login or registration: each non-empty
      token is written under its key, nothing else changes. */
  function StoreTokens(items: map<string, string>, t: Tokens): (r: map<string, string>)
    ensures Truthy(t.access) ==> TokenKey in r && r[TokenKey] == t.access.value
    ensures Truthy(t.refresh) ==> RefreshTokenKey in r && r[RefreshTokenKey] == t.refresh.value
    ensures forall k :: k in items ==> k in r
    ensures forall k :: k in r ==> k in items || (k == TokenKey && Truthy(t.access)) || (k == RefreshTokenKey && Truthy(t.refresh))
    ensures forall k :: k in items && k != TokenKey && k != RefreshTokenKey ==> r[k] == items[k]
    ensures !Truthy(t.access) && TokenKey in items ==> r[TokenKey] == items[TokenKey]
    ensures !Truthy(t.refresh) && RefreshTokenKey in items ==> r[RefreshTokenKey] == items[RefreshTokenKey]
  {
    var withAccess := if Truthy(t.access) then items[TokenKey := t.access.value] else items;
    if Truthy(t.refresh) then withAccess[RefreshTokenKey := t.refresh.value] else withAccess
  }

  method StoreTokensIn(storage: LocalStorage, t: Tokens)
    modifies storage
    ensures storage.items == StoreTokens(old(storage.items), t)
  {
    if t.access.Some? && t.access.value != "" {
      storage.SetItem(TokenKey, t.access.value);
    }
    if t.refresh.Some? && t.refresh.value != "" {
      storage.SetItem(RefreshTokenKey, t.refresh.value);
    }
  }

  /** `login`: POST /auth/login/. */
  method Login(storage: LocalStorage, outcome: Outcome<Tokens>) returns (r: Result<Tokens>)
    modifies storage
    ensures outcome.Ok? ==> r == Success(outcome.value) && storage.items == StoreTokens(old(storage.items), outcome.value)
    ensures outcome.Fail? ==> r == Error(LoginMessage(outcome.failure)) && storage.items == old(storage.items)
  {
    match outcome
    case Ok(tokens) =>
      StoreTokensIn(storage, tokens);
      r := Success(tokens);
    case Fail(f) =>
      r := Error(LoginMessage(f));
  }

  /** `sendOtp`: POST /auth/register/initiate/. */
  function SendOtp(outcome: Outcome<()>): (r: Result<()>)
    ensures outcome.Ok? <==> r.Success?
    ensures outcome.Fail? ==> r == Error(SendOtpMessage(outcome.failure))
  {
    match outcome
    case Ok(_) => Success(())
    case Fail(f) => Error(SendOtpMessage(f))
  }

  /** `verifyOtp`: POST /auth/register/verify/; the response body is passed
      through unchanged. */
  function VerifyOtp<T>(outcome: Outcome<T>): (r: Result<T>)
    ensures outcome.Ok? ==> r == Success(outcome.value)
    ensures outcome.Fail? ==> r == Error(VerifyOtpMessage(outcome.failure))
  {
    match outcome
    case Ok(v) => Success(v)
    case Fail(f) => Error(VerifyOtpMessage(f))
  }

  /** `registerUser`: POST /auth/register/complete/. */
  method RegisterUser(storage: LocalStorage, outcome: Outcome<Tokens>) returns (r: Result<Tokens>)
    modifies storage
    ensures outcome.Ok? ==> r == Success(outcome.value) && storage.items == StoreTokens(old(storage.items), outcome.value)
    ensures outcome.Fail? ==> r == Error(RegisterMessage(outcome.failure)) && storage.items == old(storage.items)
  {
    match outcome
    case Ok(tokens) =>
      StoreTokensIn(storage, tokens);
      r := Success(tokens);
    case Fail(f) =>
      r := Error(RegisterMessage(f));
  }

  /** The deprecated `register` rejects every call. */
  function RegisterLegacy<T>(): (r: Result<T>)
    ensures r == Error("Use registerUser instead")
  {
    Error("Use registerUser instead")
  }

  /** The deprecated `verifyEmail` rejects every call. */
  function VerifyEmailLegacy(): (r: Result<()>)
    ensures r == Error("Use verifyOtp instead")
  {
    Error("Use verifyOtp instead")
  }

  /** `logout`: POST /auth/logout/; the tokens are removed only when the server
      accepts the request. */
  method Logout(storage: LocalStorage, outcome: Outcome<()>) returns (r: Result<()>)
    modifies storage
    ensures outcome.Ok? ==> r.Success? && storage.items == old(storage.items) - {TokenKey, RefreshTokenKey}
    ensures outcome.Fail? ==> r == Error(LogoutMessage(outcome.failure)) && storage.items == old(storage.items)
  {
    match outcome
    case Ok(_) =>
      storage.RemoveItem(TokenKey);
      storage.RemoveItem(RefreshTokenKey);
      r := Success(());
    case Fail(f) =>
      r := Error(LogoutMessage(f));
  }

  /** After a login that returned an access token, the next request carries
      it as a bearer token. */
  lemma LoginThenRequestCarriesToken(items: map<string, string>, t: Tokens, headers: map<string, string>)
    requires Truthy(t.access)
    ensures var stored := StoreTokens(items, t);
            TokenKey in stored
            && WithToken(headers, Some(stored[TokenKey]))["Authorization"] == "Bearer " + t.access.value
  {
  }

  /** After a successful logout, requests go out without authorization
      (unless the caller had put one in the headers itself). */
  lemma LogoutThenRequestIsAnonymous(items: map<string, string>, headers: map<string, string>)
    ensures var stored := items - {TokenKey, RefreshTokenKey};
            TokenKey !in stored
            && WithToken(headers, if TokenKey in stored then Some(stored[TokenKey]) else None) == headers
  {
  }

  /** A successful login whose token is an empty string leaves an older token
      in place: the next request uses the previous session's token. */
  lemma EmptyAccessKeepsOldToken(items: map<string, string>, refresh: Option<string>)
    requires TokenKey in items
    ensures var stored := StoreTokens(items, Tokens(Some(""), refresh));
            TokenKey in stored && stored[TokenKey] == items[TokenKey]
  {
  }
}
