/** The auth provider the app uses, src/authProvider.ts: yup validation, then
    `loginUser`, then three storage writes; `check`, `getPermissions` and
    `getIdentity` read storage. yup's e-mail format test is an abstract
    predicate (`emailFormatOk`), and the messages yup reports for a rejected
    form are an oracle (`schemaErrors`). */
module AuthProvider {
  import opened Wrappers
  import opened Storage
  import opened JsText
  import AS = AuthService

  const InvalidCredentials := "Invalid credentials"
  const NoAccessTokenMessage := "No access token received from server."
  /** What destructuring `response.data` throws when the body has no `data` (V8's wording). */
  const NoDataMessage := "Cannot destructure property 'accessToken' of 'response.data' as it is undefined."

  /** `loginSchema`: the e-mail is required and well-formed, the password is
      required and its `length`, counted in UTF-16 code units, is at least six. */
  predicate Acceptable(email: string, password: string, emailFormatOk: bool): (ok: bool)
    ensures ok ==> email != "" && emailFormatOk && |password| >= 3
    ensures email != "" && emailFormatOk && |password| >= 6 ==> ok
    ensures (forall i :: 0 <= i < |password| ==> password[i] as int <= 0xFFFF) ==>
              (ok <==> email != "" && emailFormatOk && |password| >= 6)
  {
    email != "" && emailFormatOk && password != "" && Utf16Length(password) >= 6
  }

  /** Three emoji make a password of length 6, which the schema accepts. */
  lemma PasswordLengthInCodeUnits()
    ensures |"\U{1F600}\U{1F600}\U{1F600}"| == 3
    ensures Acceptable("a@b.c", "\U{1F600}\U{1F600}\U{1F600}", true)
  {
    var p := "\U{1F600}\U{1F600}\U{1F600}";
    assert p[1..][1..] == "\U{1F600}";
    assert Utf16Length(p[1..][1..]) == 2;
  }

  /** The ValidationError yup throws; its summary message is not read by `login`. */
  function ValidationError(errors: seq<string>): AS.JsError {
    AS.JsError("ValidationError", "", errors)
  }

  /** The message `login`'s `catch` shows. */
  function ErrorMessage(e: AS.JsError): (m: string)
    ensures e.name == "ValidationError" ==> m == Join(e.errors, ", ")
    ensures e.name != "ValidationError" && e.message != "" ==> m == e.message
    ensures e.name != "ValidationError" && e.message == "" ==> m == InvalidCredentials
  {
    var errorMessage := InvalidCredentials;
    if e.name == "ValidationError" then Join(e.errors, ", ")
    else if e.message != "" then e.message
    else errorMessage
  }

  datatype Grant = Granted(accessToken: string, role: string) | Denied(message: string)

  /** Everything `login` decides before it writes storage. */
  function LoginGrant(email: string, password: string, emailFormatOk: bool, schemaErrors: seq<string>,
                      http: AS.HttpOutcome): (g: Grant)
    // a rejected form never reaches the request
    ensures !Acceptable(email, password, emailFormatOk) ==> g == Denied(Join(schemaErrors, ", "))
    // a granted login has a truthy access token from a 2xx body, and `role || ""`
    ensures g.Granted? <==>
              && Acceptable(email, password, emailFormatOk)
              && http.Ok? && http.body.data.Some? && Truthy(http.body.data.value.accessToken)
    ensures g.Granted? ==>
              && g.accessToken == http.body.data.value.accessToken.value
              && g.role == http.body.data.value.role.GetOr("")
    ensures (Acceptable(email, password, emailFormatOk) && http.Ok? && http.body.data.Some?
             && !Truthy(http.body.data.value.accessToken)) ==> g == Denied(NoAccessTokenMessage)
    ensures Acceptable(email, password, emailFormatOk) && (http.NetworkFailure? || http.NotOk?) ==>
              g == Denied(AS.LoginFailedMessage)
  {
    if !Acceptable(email, password, emailFormatOk) then Denied(ErrorMessage(ValidationError(schemaErrors)))
    else
      match AS.LoginUser(email, password, http)
      case Failure(e) => Denied(ErrorMessage(e))
      case Success(body) =>
        if body.data.None? then Denied(ErrorMessage(AS.JsError("TypeError", NoDataMessage, [])))
        else
          var accessToken := body.data.value.accessToken;
          var role := body.data.value.role;
          if !Truthy(accessToken) then Denied(ErrorMessage(AS.PlainError(NoAccessTokenMessage)))
          else Granted(accessToken.value, role.GetOr(""))
  }

  /** Validation comes before the request: its outcome cannot matter. */
  lemma ValidationPrecedesRequest(email: string, password: string, emailFormatOk: bool,
                                  schemaErrors: seq<string>, h1: AS.HttpOutcome, h2: AS.HttpOutcome)
    requires email == "" || password == "" || Utf16Length(password) < 6 || !emailFormatOk
    ensures LoginGrant(email, password, emailFormatOk, schemaErrors, h1)
         == LoginGrant(email, password, emailFormatOk, schemaErrors, h2)
         == Denied(Join(schemaErrors, ", "))
  {
  }

  /** The storage after a granted login. */
  function LoginWrites(s: Store, accessToken: string, role: string): (r: Store)
    ensures r.Keys == s.Keys + {"token", "role", "loginSuccess"}
    ensures r["token"] == accessToken && r["role"] == role && r["loginSuccess"] == "true"
    ensures forall k :: k in s && k !in {"token", "role", "loginSuccess"} ==> r[k] == s[k]
  {
    s["token" := accessToken]["role" := role]["loginSuccess" := "true"]
  }

  /** `authProvider.login`. */
  method Login(storage: LocalStorage, email: string, password: string, emailFormatOk: bool,
               schemaErrors: seq<string>, http: AS.HttpOutcome) returns (r: AS.AuthActionResponse)
    modifies storage
    ensures match LoginGrant(email, password, emailFormatOk, schemaErrors, http)
            case Granted(t, role) => r == AS.Succeeded("/") && storage.items == LoginWrites(old(storage.items), t, role)
            case Denied(msg) => r == AS.FailedWith("Login Error", msg) && storage.items == old(storage.items)
  {
    var g := LoginGrant(email, password, emailFormatOk, schemaErrors, http);
    match g
    case Granted(accessToken, role) =>
      storage.SetItem("token", accessToken);
      storage.SetItem("role", role);
      storage.SetItem("loginSuccess", "true");
      r := AS.Succeeded("/");
    case Denied(errorMessage) =>
      r := AS.FailedWith("Login Error", errorMessage);
  }

  /** `authProvider.logout`: `logoutUser`, which removes only `token`. */
  method Logout(storage: LocalStorage) returns (r: AS.AuthActionResponse)
    modifies storage
    ensures r == AS.Succeeded("/login")
    ensures storage.items == AS.LoggedOut(old(storage.items))
  {
    AS.LogoutUser(storage);
    r := AS.Succeeded("/login");
  }

  /** `authProvider.check`. */
  function Check(s: Store): (r: AS.CheckResponse)
    ensures r.authenticated <==> Truthy(GetItem(s, "token"))
    ensures !r.authenticated ==>
              r == AS.CheckResponse(false, true, Some("/login"), Some(AS.ErrorInfo("Not Authenticated", "You must be logged in")))
    ensures r.authenticated ==> r == AS.CheckResponse(true, false, None, None)
  {
    var token := GetItem(s, "token");
    if !Truthy(token) then
      AS.CheckResponse(false, true, Some("/login"), Some(AS.ErrorInfo("Not Authenticated", "You must be logged in")))
    else
      AS.CheckResponse(true, false, None, None)
  }

  /** `authProvider.getPermissions`: `localStorage.getItem("role") || null`. */
  function GetPermissions(s: Store): (r: Option<string>)
    ensures r.Some? <==> Truthy(GetItem(s, "role"))
    ensures r.Some? ==> r.value == s["role"]
  {
    var role := GetItem(s, "role");
    if Truthy(role) then role else None
  }

  /** `authProvider.getIdentity`: `token && role ? { token, role } : null`. */
  function GetIdentity(s: Store): (r: Option<AS.Identity>)
    ensures r.Some? <==> Truthy(GetItem(s, "token")) && Truthy(GetItem(s, "role"))
    ensures r.Some? ==> r.value == AS.Identity(s["token"], s["role"])
  {
    var token := GetItem(s, "token");
    var role := GetItem(s, "role");
    if Truthy(token) && Truthy(role) then Some(AS.Identity(token.value, role.value)) else None
  }

  /** After a granted login, `check` passes, and `getPermissions` and
      `getIdentity` report the stored role exactly when it is non-empty. */
  lemma {:induction false} LoginThenQueries(s: Store, t: string, role: string)
    requires t != ""
    ensures Check(LoginWrites(s, t, role)).authenticated
    ensures GetPermissions(LoginWrites(s, t, role)) == (if role != "" then Some(role) else None)
    ensures GetIdentity(LoginWrites(s, t, role)) == (if role != "" then Some(AS.Identity(t, role)) else None)
  {
    var s' := LoginWrites(s, t, role);
    assert GetItem(s', "token") == Some(t);
    assert GetItem(s', "role") == Some(role);
  }

  /** After logout, `check` fails and there is no identity, but the role and
      the `loginSuccess` flag stay stored and `getPermissions` still returns
      the role. */
  lemma LogoutThenQueries(s: Store)
    ensures !Check(AS.LoggedOut(s)).authenticated
    ensures GetIdentity(AS.LoggedOut(s)).None?
    ensures GetPermissions(AS.LoggedOut(s)) == GetPermissions(s)
    ensures GetItem(AS.LoggedOut(s), "loginSuccess") == GetItem(s, "loginSuccess")
  {
    assert GetItem(AS.LoggedOut(s), "role") == GetItem(s, "role");
  }
}
