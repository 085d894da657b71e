/** The authenticated request layer of src/lib/api/config/axios-client.tsx:
    the request interceptor that attaches the bearer token, and the response
    interceptor's single-flight token refresh on HTTP 401.

    JavaScript runs one piece of code at a time, so each interceptor call up to
    its `await`, and the completion of the renewal call, is one atomic step.
    The steps are first given as functions over a `Machine` value (the module
    state `isRefreshing` / `failedQueue`, the suspended leader, `localStorage`
    and the redux user), and then as the methods of class `Client`, which update
    the same state in place and are proved to agree with those functions. */
module AxiosClient {
  import opened Wrappers
  import opened Storage
  import opened UserSlice

  type Headers = map<string, string>

  /** A request config: its headers object, when axios gave it one, and the
      `_retry` mark (`undefined` reads as false). */
  datatype Request = Request(id: nat, headers: Option<Headers>, retry: bool)

  /** An AxiosError: the status of the response, absent when none arrived, and
      the config of the request that failed. */
  datatype AxiosError = AxiosError(status: Option<int>, config: Request)

  /** The body of a successful renewal call. */
  datatype TokenPair = TokenPair(token: string, refreshToken: string)

  /** What a rejected promise is rejected with. */
  datatype Reason =
    | Axios(error: AxiosError)       // the leader's AxiosError
    | InvalidToken(token: string)    // what `jwtDecode` throws on a malformed token

  /** The `{ resolve, reject }` pair that a queued request waits on. */
  datatype Waiter = Waiter(request: Request)

  /** How `processQueue` settled one waiter. */
  datatype Settlement =
    | Resolved(waiter: Waiter, token: Option<string>)
    | Rejected(waiter: Waiter, reason: Reason)

  /** A side effect of ending the session: a toast or a page navigation. */
  datatype Notice = Toast(text: string) | Navigate(path: string)

  const SessionExpiredText := "Session expired. Please log in again."
  const SessionExpiredNotices: seq<Notice> := [Toast(SessionExpiredText), Navigate("/login")]

  /** Everything the refresh protocol reads and writes. `leader` is the
      suspended frame of the interceptor call that is awaiting `renewToken`. */
  datatype Machine = Machine(
    isRefreshing: bool,
    failedQueue: seq<Waiter>,
    leader: Option<AxiosError>,
    store: Store,
    currentUser: Option<User>,
    notices: seq<Notice>)

  /** The invariant the protocol keeps: waiters exist only during a refresh,
      and a leader exists only during a refresh and has been marked `_retry`. */
  predicate Consistent(m: Machine) {
    && (m.failedQueue != [] ==> m.isRefreshing)
    && (m.leader.Some? ==> m.isRefreshing && m.leader.value.config.retry)
  }

  /** The protocol after a refresh that no renewal call will end; only the
      page reload caused by the `/login` navigation resets it. */
  predicate Stuck(m: Machine) {
    m.isRefreshing && m.leader.None?
  }

  // ---------------------------------------------------------------------
  // Headers

  /** `Bearer ${token}`, where a `null` token prints as "null". */
  function Bearer(token: Option<string>): string {
    "Bearer " + token.GetOr("null")
  }

  /** `if (config.headers) config.headers.Authorization = value`. */
  function WithAuthorization(r: Request, value: string): (c: Request)
    ensures c.id == r.id && c.retry == r.retry
    ensures r.headers.Some? ==> c.headers == Some(r.headers.value["Authorization" := value])
    ensures r.headers.None? ==> c == r
  {
    match r.headers
    case Some(h) => r.(headers := Some(h["Authorization" := value]))
    case None => r
  }

  /** The request interceptor, given what `localStorage.getItem("token")` returned. */
  function AttachToken(config: Request, token: Option<string>): (c: Request)
    ensures Truthy(token) && config.headers.Some? ==>
              c == config.(headers := Some(config.headers.value["Authorization" := "Bearer " + token.value]))
    ensures !(Truthy(token) && config.headers.Some?) ==> c == config
  {
    if Truthy(token) && config.headers.Some? then WithAuthorization(config, Bearer(token)) else config
  }

  /** `renewToken`: the body of the refresh-token response, or `null` when the
      call threw (network failure, non-2xx status). */
  datatype RenewalResponse = Responded(data: Option<TokenPair>) | Threw

  function RenewToken(r: RenewalResponse): (tokens: Option<TokenPair>)
    ensures r.Threw? ==> tokens.None?
    ensures r.Responded? ==> tokens == r.data
  {
    match r
    case Responded(data) => data
    case Threw => None
  }

  // ---------------------------------------------------------------------
  // processQueue

  function Settle(w: Waiter, error: Option<Reason>, token: Option<string>): Settlement {
    if error.Some? then Rejected(w, error.value) else Resolved(w, token)
  }

  /** What `processQueue(error, token)` does to the queue `q`: every waiter is
      settled once, in insertion order, all the same way. */
  function SettleAll(q: seq<Waiter>, error: Option<Reason>, token: Option<string>): (r: seq<Settlement>)
    ensures |r| == |q|
    ensures forall i :: 0 <= i < |r| ==> r[i].waiter == q[i]
    ensures error.Some? ==> forall i :: 0 <= i < |r| ==> r[i] == Rejected(q[i], error.value)
    ensures error.None? ==> forall i :: 0 <= i < |r| ==> r[i] == Resolved(q[i], token)
  {
    if q == [] then [] else SettleAll(q[..|q| - 1], error, token) + [Settle(q[|q| - 1], error, token)]
  }

  /** The request a waiter replays once resolved: the header is set, `_retry` is not. */
  function Replay(w: Waiter, token: Option<string>): (r: Request)
    ensures r.id == w.request.id && r.retry == w.request.retry
  {
    WithAuthorization(w.request, Bearer(token))
  }

  // ---------------------------------------------------------------------
  // The response interceptor

  /** What the promise returned by the response interceptor's error handler does. */
  datatype Reaction =
    | PassedThrough(reason: Reason)          // rejected unchanged
    | Queued(waiter: Waiter)                 // waits for the refresh in progress
    | RenewalRequested(refreshToken: string) // this call leads: renewToken was called
    | SessionExpired(reason: Reason)         // no refresh token: rejected, session ended

  predicate IsFresh401(err: AxiosError) {
    err.status == Some(401) && !err.config.retry
  }

  /** Clearing the user and credentials, the toast and the redirect to /login. */
  function SessionEnded(m: Machine): (m': Machine)
    ensures m'.store == ClearCredentials(m.store) && m'.currentUser.None?
    ensures m'.notices == m.notices + SessionExpiredNotices
    ensures m'.isRefreshing == m.isRefreshing && m'.failedQueue == m.failedQueue && m'.leader == m.leader
  {
    m.(store := ClearCredentials(m.store), currentUser := None, notices := m.notices + SessionExpiredNotices)
  }

  /** One call of the response interceptor's error handler, up to its `await`. */
  function OnAuthError(m: Machine, err: AxiosError): (res: (Machine, Reaction))
    // not a fresh 401: rejected unchanged, nothing else moves
    ensures !IsFresh401(err) ==> res == (m, PassedThrough(Axios(err)))
    // a fresh 401 during a refresh: exactly one waiter appended, nothing else moves
    ensures IsFresh401(err) && m.isRefreshing ==>
              && res.1 == Queued(Waiter(err.config))
              && |res.0.failedQueue| == |m.failedQueue| + 1
              && res.0.failedQueue[..|m.failedQueue|] == m.failedQueue
              && res.0.failedQueue[|m.failedQueue|] == Waiter(err.config)
              && res.0 == m.(failedQueue := res.0.failedQueue)
    // a fresh 401 while idle: a refresh starts and the request is marked
    ensures IsFresh401(err) && !m.isRefreshing ==>
              && res.0.isRefreshing
              && res.0.failedQueue == m.failedQueue
              && (Truthy(GetItem(m.store, "refreshToken")) ==>
                    && res.1 == RenewalRequested(m.store["refreshToken"])
                    && res.0 == m.(isRefreshing := true, leader := Some(AxiosError(err.status, err.config.(retry := true)))))
              && (!Truthy(GetItem(m.store, "refreshToken")) ==>
                    && res.1 == SessionExpired(Axios(AxiosError(err.status, err.config.(retry := true))))
                    && res.0 == SessionEnded(m.(isRefreshing := true)))
  {
    if IsFresh401(err) then
      if m.isRefreshing then
        var w := Waiter(err.config);
        (m.(failedQueue := m.failedQueue + [w]), Queued(w))
      else
        var error := AxiosError(err.status, err.config.(retry := true));
        var m1 := m.(isRefreshing := true);
        var refreshToken := GetItem(m.store, "refreshToken");
        if !Truthy(refreshToken) then
          (SessionEnded(m1), SessionExpired(Axios(error)))
        else
          (m1.(leader := Some(error)), RenewalRequested(refreshToken.value))
    else
      (m, PassedThrough(Axios(err)))
  }

  /** How the leader's promise ends. */
  datatype LeaderOutcome = Retried(request: Request) | Failed(reason: Reason)

  /** What the end of a refresh does: the waiters as `processQueue` settled
      them, and the leader. */
  datatype Completion = Completion(settled: seq<Settlement>, leader: LeaderOutcome)

  /** True when a refresh ends with new credentials: the renewal returned a
      pair whose access token `jwtDecode` accepts. */
  predicate Renewed(result: Option<TokenPair>, decode: string -> Option<User>) {
    result.Some? && decode(result.value.token).Some?
  }

  /** The end of a refresh: `renewToken` returned `result`, and `decode` is `jwtDecode`. */
  function OnRenewal(m: Machine, result: Option<TokenPair>, decode: string -> Option<User>): (res: (Machine, Completion))
    requires m.leader.Some?
    // the cycle is over and every waiter was settled exactly once, in order
    ensures !res.0.isRefreshing && res.0.failedQueue == [] && res.0.leader.None?
    ensures |res.1.settled| == |m.failedQueue|
    ensures forall i :: 0 <= i < |m.failedQueue| ==> res.1.settled[i].waiter == m.failedQueue[i]
    // success: both tokens overwritten, the user stored, all waiters resolved, the leader retried
    ensures Renewed(result, decode) ==>
              var p := result.value;
              && res.0.store == StoreUser(m.store["token" := p.token]["refreshToken" := p.refreshToken], decode(p.token).value)
              && res.0.currentUser == decode(p.token)
              && res.0.notices == m.notices
              && (forall i :: 0 <= i < |m.failedQueue| ==> res.1.settled[i] == Resolved(m.failedQueue[i], Some(p.token)))
              && res.1.leader == Retried(WithAuthorization(m.leader.value.config, "Bearer " + p.token))
    // failure: credentials cleared, all waiters and the leader rejected with one reason
    ensures !Renewed(result, decode) ==>
              && res.0.store == ClearCredentials(m.store)
              && res.0.currentUser.None?
              && res.0.notices == m.notices + SessionExpiredNotices
              && res.1.leader.Failed?
              && (forall i :: 0 <= i < |m.failedQueue| ==> res.1.settled[i] == Rejected(m.failedQueue[i], res.1.leader.reason))
    ensures result.None? ==> res.1.leader == Failed(Axios(m.leader.value))
  {
    var error := m.leader.value;
    var done := m.(isRefreshing := false, failedQueue := [], leader := None);
    match result
    case Some(p) =>
      var store1 := m.store["token" := p.token]["refreshToken" := p.refreshToken];
      (match decode(p.token)
       case Some(u) =>
         var settled := SettleAll(m.failedQueue, None, Some(p.token));
         (done.(store := StoreUser(store1, u), currentUser := Some(u)),
          Completion(settled, Retried(WithAuthorization(error.config, Bearer(Some(p.token))))))
       case None =>
         var reason := InvalidToken(p.token);
         var settled := SettleAll(m.failedQueue, Some(reason), None);
         ClearCredentialsAbsorbsWrites(m.store, p.token, p.refreshToken, "");
         assert ClearCredentials(store1) == ClearCredentials(m.store);
         (SessionEnded(done.(store := store1)), Completion(settled, Failed(reason))))
    case None =>
      var settled := SettleAll(m.failedQueue, Some(Axios(error)), None);
      (SessionEnded(done), Completion(settled, Failed(Axios(error))))
  }

  /** Both steps keep the protocol's invariant. */
  lemma StepsKeepConsistent(m: Machine, err: AxiosError, result: Option<TokenPair>, decode: string -> Option<User>)
    requires Consistent(m)
    ensures Consistent(OnAuthError(m, err).0)
    ensures m.leader.Some? ==> Consistent(OnRenewal(m, result, decode).0)
  {
  }

  // ---------------------------------------------------------------------
  // The module state, updated in place

  /** The module-level `isRefreshing` / `failedQueue` pair, the leader's
      suspended frame, the toasts and redirects issued, and the storage and
      redux slice the interceptors write. */
  class Client {
    var isRefreshing: bool
    var failedQueue: seq<Waiter>
    var leader: Option<AxiosError>
    var notices: seq<Notice>
    const storage: LocalStorage
    const users: UsersSlice

    ghost predicate Valid()
      reads this, storage, users
    {
      users.storage == storage && Consistent(State())
    }

    function State(): (m: Machine)
      reads this, storage, users
    {
      Machine(isRefreshing, failedQueue, leader, storage.items, users.currentUser, notices)
    }

    /** The module as loaded: `isRefreshing = false`, `failedQueue = []`. */
    constructor (users: UsersSlice)
      ensures Valid() && this.users == users
      ensures !isRefreshing && failedQueue == [] && leader.None? && notices == []
    {
      isRefreshing := false;
      failedQueue := [];
      leader := None;
      notices := [];
      this.users := users;
      this.storage := users.storage;
    }

    /** The request interceptor (lines 48-63). */
    method RequestInterceptor(config: Request) returns (c: Request)
      ensures c == AttachToken(config, GetItem(storage.items, "token"))
    {
      var token := GetItem(storage.items, "token");
      c := config;
      if Truthy(token) && config.headers.Some? {
        c := WithAuthorization(config, "Bearer " + token.value);
      }
    }

    /** `processQueue` (lines 24-34). */
    method ProcessQueue(error: Option<Reason>, token: Option<string>) returns (settled: seq<Settlement>)
      modifies this
      ensures settled == SettleAll(old(failedQueue), error, token)
      ensures failedQueue == []
      ensures isRefreshing == old(isRefreshing) && leader == old(leader) && notices == old(notices)
    {
      settled := [];
      var i := 0;
      while i < |failedQueue|
        invariant 0 <= i <= |failedQueue|
        invariant settled == SettleAll(failedQueue[..i], error, token)
      {
        var prom := failedQueue[i];
        if error.Some? {
          settled := settled + [Rejected(prom, error.value)];
        } else {
          settled := settled + [Resolved(prom, token)];
        }
        assert failedQueue[..i + 1][..i] == failedQueue[..i];
        i := i + 1;
      }
      assert failedQueue[..i] == failedQueue;
      failedQueue := [];
    }

    method EndSession()
      requires Valid()
      modifies this, storage, users
      ensures Valid()
      ensures State() == SessionEnded(old(State()))
    {
      users.ClearCurrentUser();
      notices := notices + SessionExpiredNotices;
    }

    /** The response interceptor's error handler up to its `await` (lines 69-103, 131). */
    method HandleError(err: AxiosError) returns (reaction: Reaction)
      requires Valid()
      modifies this, storage, users
      ensures Valid()
      ensures (State(), reaction) == OnAuthError(old(State()), err)
    {
      var originalRequest := err.config;
      if err.status == Some(401) && !originalRequest.retry {
        if isRefreshing {
          var w := Waiter(originalRequest);
          failedQueue := failedQueue + [w];
          return Queued(w);
        }
        originalRequest := originalRequest.(retry := true);
        var error := AxiosError(err.status, originalRequest);
        isRefreshing := true;
        var refreshToken := GetItem(storage.items, "refreshToken");
        if !Truthy(refreshToken) {
          EndSession();
          return SessionExpired(Axios(error));
        }
        leader := Some(error);
        return RenewalRequested(refreshToken.value);
      }
      reaction := PassedThrough(Axios(err));
    }

    /** The rest of the leader's call, once `renewToken` has returned `result`
        (lines 103-128); `decode` is `jwtDecode`. */
    method CompleteRenewal(result: Option<TokenPair>, decode: string -> Option<User>) returns (c: Completion)
      requires Valid() && leader.Some?
      modifies this, storage, users
      ensures Valid()
      ensures (State(), c) == OnRenewal(old(State()), result, decode)
    {
      var error := leader.value;
      var originalRequest := error.config;
      if result.Some? {
        var newTokens := result.value;
        storage.SetItem("token", newTokens.token);
        storage.SetItem("refreshToken", newTokens.refreshToken);
        var decoded := decode(newTokens.token);
        if decoded.Some? {
          users.SetCurrentUser(decoded.value);
          var settled := ProcessQueue(None, Some(newTokens.token));
          originalRequest := WithAuthorization(originalRequest, "Bearer " + newTokens.token);
          c := Completion(settled, Retried(originalRequest));
        } else {
          var err := InvalidToken(newTokens.token);
          var settled := ProcessQueue(Some(err), None);
          EndSession();
          c := Completion(settled, Failed(err));
        }
      } else {
        var settled := ProcessQueue(Some(Axios(error)), None);
        EndSession();
        c := Completion(settled, Failed(Axios(error)));
      }
      // finally
      isRefreshing := false;
      leader := None;
    }
  }
}
