/** The older auth service of src/services/authService.ts: `loginUser`,
    `registerUser`, `logoutUser`, and the `authProvider` object built on them.
    `fetch` is an oracle: its outcome is a parameter. */
module AuthService {
  import opened Wrappers
  import opened Storage

  /** A thrown JavaScript error: its `name`, its `message`, and, for yup's
      ValidationError, its `errors` list. */
  datatype JsError = JsError(name: string, message: string, errors: seq<string>)

  /** `new Error(message)`. */
  function PlainError(message: string): JsError {
    JsError("Error", message, [])
  }

  /** The fields of a login response's JSON body that the providers read. */
  datatype LoginData = LoginData(accessToken: Option<string>, role: Option<string>)
  datatype Body = Body(token: Option<string>, data: Option<LoginData>)

  /** What the `fetch` call produced. */
  datatype HttpOutcome =
    | NetworkFailure                      // fetch rejected
    | NotOk(serverMessage: Option<string>) // a non-2xx response and the `message` of its body
    | Ok(body: Body)                      // a 2xx response with a JSON body
    | OkMalformed(parseError: JsError)    // a 2xx response whose body `response.json()` rejects

  const RequiredMessage := "Email and password are required."
  const LoginFailedMessage := "Incorrect email or password."
  const RegisterFailedMessage := "Registration failed. Please try again."

  /** `loginUser`. The body of a 2xx response is returned from inside the
      `try` without `await`, so a body that fails to parse escapes the `catch`. */
  function LoginUser(email: string, password: string, http: HttpOutcome): (r: Result<Body, JsError>)
    ensures email == "" || password == "" ==> r == Failure(PlainError(RequiredMessage))
    ensures email != "" && password != "" ==>
              && (http.NetworkFailure? || http.NotOk? ==> r == Failure(PlainError(LoginFailedMessage)))
              && (http.Ok? ==> r == Success(http.body))
              && (http.OkMalformed? ==> r == Failure(http.parseError))
  {
    if email == "" || password == "" then Failure(PlainError(RequiredMessage))
    else
      match http
      case NetworkFailure => Failure(PlainError(LoginFailedMessage))
      case NotOk(_) => Failure(PlainError(LoginFailedMessage))
      case Ok(body) => Success(body)
      case OkMalformed(e) => Failure(e)
  }

  /** The required-fields check comes before any request: the outcome of the
      request cannot matter. */
  lemma RequiredCheckPrecedesRequest(email: string, password: string, h1: HttpOutcome, h2: HttpOutcome)
    requires email == "" || password == ""
    ensures LoginUser(email, password, h1) == LoginUser(email, password, h2)
  {
  }

  /** Whatever a failed response says, the caller sees the same message. */
  lemma ServerMessageDiscarded(email: string, password: string, m1: Option<string>, m2: Option<string>)
    requires email != "" && password != ""
    ensures LoginUser(email, password, NotOk(m1)) == LoginUser(email, password, NotOk(m2))
                                                  == LoginUser(email, password, NetworkFailure)
  {
  }

  /** `registerUser`: no input check, and every failure of the request reads
      the same; a malformed 2xx body escapes the `catch` as in `loginUser`. */
  function RegisterUser(email: string, password: string, http: HttpOutcome): (r: Result<Body, JsError>)
    ensures http.NetworkFailure? || http.NotOk? ==> r == Failure(PlainError(RegisterFailedMessage))
    ensures http.Ok? ==> r == Success(http.body)
    ensures http.OkMalformed? ==> r == Failure(http.parseError)
  {
    match http
    case NetworkFailure => Failure(PlainError(RegisterFailedMessage))
    case NotOk(_) => Failure(PlainError(RegisterFailedMessage))
    case Ok(body) => Success(body)
    case OkMalformed(e) => Failure(e)
  }

  /** The storage after `logoutUser()`: only `token` is removed. */
  function LoggedOut(s: Store): (r: Store)
    ensures r.Keys == s.Keys - {"token"}
    ensures forall k :: k in r ==> r[k] == s[k]
  {
    s - {"token"}
  }

  /** `logoutUser`. */
  method LogoutUser(storage: LocalStorage)
    modifies storage
    ensures storage.items == LoggedOut(old(storage.items))
  {
    storage.RemoveItem("token");
  }

  // ---------------------------------------------------------------------
  // authProvider

  datatype ErrorInfo = ErrorInfo(name: string, message: string)

  /** What `login`, `register` and `logout` resolve to. */
  datatype AuthActionResponse = AuthActionResponse(success: bool, redirectTo: Option<string>, error: Option<ErrorInfo>)

  function Succeeded(path: string): AuthActionResponse {
    AuthActionResponse(true, Some(path), None)
  }

  function FailedWith(name: string, message: string): AuthActionResponse {
    AuthActionResponse(false, None, Some(ErrorInfo(name, message)))
  }

  /** What `check` resolves to. */
  datatype CheckResponse = CheckResponse(authenticated: bool, logout: bool, redirectTo: Option<string>, error: Option<ErrorInfo>)

  datatype Identity = Identity(token: string, role: string)

  /** Whether a login or registration yields a token to store. */
  datatype Grant = Granted(token: string) | Denied(message: string)

  /** `error.message || fallback`. */
  function MessageOr(e: JsError, fallback: string): string {
    if e.message != "" then e.message else fallback
  }

  /** The decision of `authProvider.login` and `register`: store `response.token`
      when it is truthy, and otherwise fail with `fallback`, or with the thrown
      error's message. */
  function TokenGrant(response: Result<Body, JsError>, fallback: string): (g: Grant)
    ensures g.Granted? <==> response.Success? && Truthy(response.value.token)
    ensures g.Granted? ==> g.token == response.value.token.value && g.token != ""
    ensures response.Success? && !Truthy(response.value.token) ==> g == Denied(fallback)
    ensures response.Failure? ==> g == Denied(MessageOr(response.error, fallback))
  {
    match response
    case Success(body) => if Truthy(body.token) then Granted(body.token.value) else Denied(fallback)
    case Failure(e) => Denied(MessageOr(e, fallback))
  }

  /** The messages a login can fail with: the two of `loginUser`, the
      fallback, or the parse error of a malformed body. */
  lemma LoginDenials(email: string, password: string, http: HttpOutcome)
    ensures var g := TokenGrant(LoginUser(email, password, http), "Invalid credentials");
            g.Denied? ==>
              || g.message == RequiredMessage
              || g.message == LoginFailedMessage
              || g.message == "Invalid credentials"
              || (http.OkMalformed? && g.message == http.parseError.message)
  {
  }

  class Provider {
    const storage: LocalStorage

    constructor (storage: LocalStorage)
      ensures this.storage == storage
    {
      this.storage := storage;
    }

    /** `authProvider.login`. */
    method Login(email: string, password: string, http: HttpOutcome) returns (r: AuthActionResponse)
      modifies storage
      ensures match TokenGrant(LoginUser(email, password, http), "Invalid credentials")
              case Granted(t) => r == Succeeded("/") && storage.items == old(storage.items)["token" := t]
              case Denied(msg) => r == FailedWith("Login Error", msg) && storage.items == old(storage.items)
    {
      var response := LoginUser(email, password, http);
      match response
      case Success(body) =>
        if Truthy(body.token) {
          storage.SetItem("token", body.token.value);
          return Succeeded("/");
        }
        return FailedWith("Login Error", "Invalid credentials");
      case Failure(error) =>
        return FailedWith("Login Error", MessageOr(error, "Invalid credentials"));
    }

    /** `authProvider.register`. */
    method Register(email: string, password: string, http: HttpOutcome) returns (r: AuthActionResponse)
      modifies storage
      ensures match TokenGrant(RegisterUser(email, password, http), "Registration failed")
              case Granted(t) => r == Succeeded("/") && storage.items == old(storage.items)["token" := t]
              case Denied(msg) => r == FailedWith("Register Error", msg) && storage.items == old(storage.items)
    {
      var response := RegisterUser(email, password, http);
      match response
      case Success(body) =>
        if Truthy(body.token) {
          storage.SetItem("token", body.token.value);
          return Succeeded("/");
        }
        return FailedWith("Register Error", "Registration failed");
      case Failure(error) =>
        return FailedWith("Register Error", MessageOr(error, "Registration failed"));
    }

    /** `authProvider.logout`. */
    method Logout() returns (r: AuthActionResponse)
      modifies storage
      ensures r == Succeeded("/login")
      ensures storage.items == LoggedOut(old(storage.items))
    {
      LogoutUser(storage);
      r := Succeeded("/login");
    }
  }

  /** `authProvider.check`, over the stored values. */
  function Check(s: Store): (r: CheckResponse)
    ensures r.authenticated <==> Truthy(GetItem(s, "token"))
    ensures !r.authenticated ==>
              r == CheckResponse(false, true, Some("/login"), Some(ErrorInfo("Token Not Found", "Token not found")))
    ensures r.authenticated ==> r == CheckResponse(true, false, None, None)
  {
    if !Truthy(GetItem(s, "token")) then
      CheckResponse(false, true, Some("/login"), Some(ErrorInfo("Token Not Found", "Token not found")))
    else
      CheckResponse(true, false, None, None)
  }

  /** `authProvider.getPermissions`: null with or without a token. */
  function GetPermissions(s: Store): (r: Option<string>)
    ensures r.None?
  {
    var token := GetItem(s, "token");
    if !Truthy(token) then None else None
  }

  /** `authProvider.getIdentity`: null with or without a token. */
  function GetIdentity(s: Store): (r: Option<Identity>)
    ensures r.None?
  {
    var token := GetItem(s, "token");
    if !Truthy(token) then None else None
  }

  /** A granted login makes `check` pass; logging out makes it fail. */
  lemma CheckFollowsLoginAndLogout(s: Store, email: string, password: string, http: HttpOutcome)
    ensures var g := TokenGrant(LoginUser(email, password, http), "Invalid credentials");
            g.Granted? ==> Check(s["token" := g.token]).authenticated
    ensures !Check(LoggedOut(s)).authenticated
  {
  }
}
