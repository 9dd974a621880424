/** The sign-in form (pages/auth/LoginPage.tsx): required-field validation
    and the submit sequence around the login call. */
module LoginPageForm {
  import opened Common
  import opened AppState
  import opened ApiClient
  import opened AuthApi

  const UsernameRequired := "Username is required"
  const PasswordRequired := "Password is required"
  const LoginFallback := "An error occurred during login. Please try again."

  /** The errors `validate` collects. */
  function LoginErrors(username: string, password: string): (r: map<string, string>)
    ensures "username" in r <==> username == ""
    ensures "password" in r <==> password == ""
    ensures r.Keys <= {"username", "password"}
    ensures "username" in r ==> r["username"] == UsernameRequired
    ensures "password" in r ==> r["password"] == PasswordRequired
  {
    var e: map<string, string> := if username == "" then map["username" := UsernameRequired] else map[];
    if password == "" then e["password" := PasswordRequired] else e
  }

  lemma LoginAcceptedIffFilled(username: string, password: string)
    ensures LoginErrors(username, password) == map[] <==> username != "" && password != ""
  {
    var r := LoginErrors(username, password);
    if r == map[] {
      assert "username" !in r && "password" !in r;
    }
  }

  datatype Toast = NoToast | SuccessToast(text: string) | ErrorToast(text: string)

  /** The toast a finished submit shows: `error.message || fallback`. */
  function SubmitToast(r: Result<Tokens>): (t: Toast)
    ensures r.Success? ==> t == SuccessToast("Logged in successfully")
    ensures r.Error? ==> t == ErrorToast(if r.message != "" then r.message else LoginFallback)
  {
    match r
    case Success(_) => SuccessToast("Logged in successfully")
    case Error(m) => ErrorToast(OrDefault(Some(m), LoginFallback))
  }

  /** Since every message of the login call is non-empty, the fallback text
      of the page never shows. */
  lemma FallbackNeverShown(f: Failure)
    ensures SubmitToast(Error(LoginMessage(f))) == ErrorToast(LoginMessage(f))
  {
  }

  class LoginForm {
    var username: string
    var password: string
    var showPassword: bool
    var rememberMe: bool
    var errors: map<string, string>
    var isLoading: bool

    constructor ()
      ensures username == "" && password == "" && !showPassword && !rememberMe
      ensures errors == map[] && !isLoading
    {
      username, password, showPassword, rememberMe := "", "", false, false;
      errors, isLoading := map[], false;
    }

    method Validate() returns (ok: bool)
      modifies this
      ensures errors == LoginErrors(username, password)
      ensures ok <==> errors == map[]
      ensures username == old(username) && password == old(password) && isLoading == old(isLoading)
      ensures showPassword == old(showPassword) && rememberMe == old(rememberMe)
    {
      var newErrors: map<string, string> := map[];
      if username == "" {
        newErrors := newErrors["username" := UsernameRequired];
      }
      if password == "" {
        newErrors := newErrors["password" := PasswordRequired];
      }
      errors := newErrors;
      ok := |newErrors| == 0;
      assert ok <==> newErrors == map[] by {
        if |newErrors| == 0 {
          assert newErrors.Keys == {};
        }
      }
    }

    /** `handleSubmit`: with both fields filled, calls the login endpoint
        (whose outcome is a parameter), signs the user in when it succeeds,
        and always ends with the loading flag cleared. */
    method HandleSubmit(storage: LocalStorage, outcome: Outcome<Tokens>, ctx: AppContext) returns (toast: Toast)
      modifies this, storage, ctx
      ensures errors == LoginErrors(old(username), old(password))
      ensures username == old(username) && password == old(password)
      ensures showPassword == old(showPassword) && rememberMe == old(rememberMe)
      ensures LoginErrors(username, password) != map[] ==>
                toast == NoToast && isLoading == old(isLoading)
                && storage.items == old(storage.items) && ctx.State() == old(ctx.State())
      ensures LoginErrors(username, password) == map[] ==> !isLoading
      ensures LoginErrors(username, password) == map[] && outcome.Ok? ==>
                toast == SuccessToast("Logged in successfully")
                && storage.items == StoreTokens(old(storage.items), outcome.value)
                && ctx.State() == SignIn(old(ctx.State()))
      ensures LoginErrors(username, password) == map[] && outcome.Fail? ==>
                toast == ErrorToast(LoginMessage(outcome.failure))
                && storage.items == old(storage.items) && ctx.State() == old(ctx.State())
    {
      toast := NoToast;
      var ok := Validate();
      if ok {
        isLoading := true;
        var response := Login(storage, outcome);
        if response.Success? {
          ctx.Login();
        }
        toast := SubmitToast(response);
        isLoading := false;
      }
    }
  }
}
