/** Runs of the refresh protocol of src/lib/api/config/axios-client.tsx: any
    interleaving of failed responses and renewal completions, and what the
    source's single-flight design does and does not guarantee over them. */
module RefreshProtocol {
  import opened Wrappers
  import opened Storage
  import opened UserSlice
  import opened AxiosClient
  import AuthProvider

  /** What can happen next: a request fails, or the renewal call returns
      (`renewToken`'s result). */
  datatype Event = ResponseError(err: AxiosError) | RenewalReturned(response: RenewalResponse)

  /** What the step did. A renewal result with no renewal call in flight cannot
      occur and is `Ignored`. */
  datatype Output = Reacted(reaction: Reaction) | Completed(completion: Completion) | Ignored

  function Step(m: Machine, e: Event, decode: string -> Option<User>): (Machine, Output) {
    match e
    case ResponseError(err) =>
      var res := OnAuthError(m, err);
      (res.0, Reacted(res.1))
    case RenewalReturned(response) =>
      if m.leader.Some? then
        var res := OnRenewal(m, RenewToken(response), decode);
        (res.0, Completed(res.1))
      else (m, Ignored)
  }

  function Run(m: Machine, evs: seq<Event>, decode: string -> Option<User>): Machine
    decreases |evs|
  {
    if evs == [] then m else Run(Step(m, evs[0], decode).0, evs[1..], decode)
  }

  function Trace(m: Machine, evs: seq<Event>, decode: string -> Option<User>): (outs: seq<Output>)
    ensures |outs| == |evs|
    decreases |evs|
  {
    if evs == [] then [] else [Step(m, evs[0], decode).1] + Trace(Step(m, evs[0], decode).0, evs[1..], decode)
  }

  predicate IsRenewalCall(o: Output) {
    o.Reacted? && o.reaction.RenewalRequested?
  }

  /** How many times `renewToken` was called. */
  function RenewalCalls(outs: seq<Output>): nat {
    if outs == [] then 0 else (if IsRenewalCall(outs[0]) then 1 else 0) + RenewalCalls(outs[1..])
  }

  /** How many refresh cycles were completed. */
  function CompletedCount(outs: seq<Output>): nat {
    if outs == [] then 0 else (if outs[0].Completed? then 1 else 0) + CompletedCount(outs[1..])
  }

  /** The waiter an event adds to the queue while a refresh is in progress:
      one for a fresh 401, none otherwise. */
  function Joins(e: Event): seq<Waiter> {
    if e.ResponseError? && IsFresh401(e.err) then [Waiter(e.err.config)] else []
  }

  /** The waiters the fresh 401s among `evs` would add to the queue, in order. */
  function QueuedBy(evs: seq<Event>): seq<Waiter> {
    if evs == [] then [] else Joins(evs[0]) + QueuedBy(evs[1..])
  }

  function Failures(errs: seq<AxiosError>): (evs: seq<Event>)
    ensures |evs| == |errs|
    ensures forall i :: 0 <= i < |errs| ==> evs[i] == ResponseError(errs[i])
  {
    seq(|errs|, i requires 0 <= i < |errs| => ResponseError(errs[i]))
  }

  function WaitersOf(errs: seq<AxiosError>): (ws: seq<Waiter>)
    ensures |ws| == |errs|
    ensures forall i :: 0 <= i < |errs| ==> ws[i] == Waiter(errs[i].config)
  {
    seq(|errs|, i requires 0 <= i < |errs| => Waiter(errs[i].config))
  }

  // ---------------------------------------------------------------------
  // Composition of runs

  lemma {:induction false} RunAppend(m: Machine, a: seq<Event>, b: seq<Event>, decode: string -> Option<User>)
    ensures Run(m, a + b, decode) == Run(Run(m, a, decode), b, decode)
    ensures Trace(m, a + b, decode) == Trace(m, a, decode) + Trace(Run(m, a, decode), b, decode)
    decreases |a|
  {
    if a == [] {
      assert a + b == b;
    } else {
      assert (a + b)[0] == a[0];
      assert (a + b)[1..] == a[1..] + b;
      RunAppend(Step(m, a[0], decode).0, a[1..], b, decode);
    }
  }

  lemma {:induction false} RenewalCallsAppend(a: seq<Output>, b: seq<Output>)
    ensures RenewalCalls(a + b) == RenewalCalls(a) + RenewalCalls(b)
  {
    if a == [] {
      assert a + b == b;
    } else {
      assert (a + b)[1..] == a[1..] + b;
      RenewalCallsAppend(a[1..], b);
    }
  }

  lemma {:induction false} QueuedByFailures(errs: seq<AxiosError>)
    requires forall i :: 0 <= i < |errs| ==> IsFresh401(errs[i])
    ensures QueuedBy(Failures(errs)) == WaitersOf(errs)
  {
    if errs != [] {
      assert Failures(errs)[1..] == Failures(errs[1..]);
      assert WaitersOf(errs) == [Waiter(errs[0].config)] + WaitersOf(errs[1..]);
      QueuedByFailures(errs[1..]);
    }
  }

  // ---------------------------------------------------------------------
  // Single flight

  /** `renewToken` is called at most once more than refresh cycles complete,
      and not even once more when a refresh is already in progress. */
  lemma {:induction false} SingleFlight(m: Machine, evs: seq<Event>, decode: string -> Option<User>)
    ensures RenewalCalls(Trace(m, evs, decode)) <= CompletedCount(Trace(m, evs, decode)) + (if m.isRefreshing then 0 else 1)
    decreases |evs|
  {
    if evs != [] {
      var next := Step(m, evs[0], decode);
      SingleFlight(next.0, evs[1..], decode);
      assert Trace(m, evs, decode)[1..] == Trace(next.0, evs[1..], decode);
    }
  }

  /** A run of outputs with no renewal call in it counts none. */
  lemma {:induction false} NoRenewalCalls(outs: seq<Output>)
    requires forall i :: 0 <= i < |outs| ==> !IsRenewalCall(outs[i])
    ensures RenewalCalls(outs) == 0
  {
    if outs != [] {
      NoRenewalCalls(outs[1..]);
    }
  }

  /** The protocol is waiting: a refresh is in progress, and none of `evs` can
      end it (each is a failed response, or there is no leader to complete). */
  predicate Waits(m: Machine, evs: seq<Event>) {
    m.isRefreshing && forall i :: 0 <= i < |evs| ==> evs[i].ResponseError? || m.leader.None?
  }

  /** One event while waiting: a fresh 401 joins the end of the queue, and
      nothing else changes; no renewal is called and nothing completes. */
  lemma WaitStep(m: Machine, e: Event, decode: string -> Option<User>)
    requires m.isRefreshing && (e.ResponseError? || m.leader.None?)
    ensures Step(m, e, decode).0 == m.(failedQueue := m.failedQueue + Joins(e))
    ensures !IsRenewalCall(Step(m, e, decode).1) && !Step(m, e, decode).1.Completed?
  {
  }

  lemma AppendAssoc(a: seq<Waiter>, b: seq<Waiter>, c: seq<Waiter>)
    ensures (a + b) + c == a + (b + c)
  {
  }

  lemma {:induction false} WaitingRun(m: Machine, evs: seq<Event>, decode: string -> Option<User>)
    requires Waits(m, evs)
    ensures Run(m, evs, decode) == m.(failedQueue := m.failedQueue + QueuedBy(evs))
    decreases |evs|
  {
    if evs == [] {
      assert m.failedQueue + [] == m.failedQueue;
    } else {
      var e, rest := evs[0], evs[1..];
      var m1 := m.(failedQueue := m.failedQueue + Joins(e));
      assert Run(m, evs, decode) == Run(m1, rest, decode) by {
        WaitStep(m, e, decode);
      }
      assert Waits(m1, rest) by {
        forall i | 0 <= i < |rest|
          ensures rest[i].ResponseError? || m1.leader.None?
        {
          assert rest[i] == evs[i + 1];
        }
      }
      WaitingRun(m1, rest, decode);
      assert QueuedBy(evs) == Joins(e) + QueuedBy(rest);
      AppendAssoc(m.failedQueue, Joins(e), QueuedBy(rest));
    }
  }

  lemma {:induction false} WaitingOutputs(m: Machine, evs: seq<Event>, decode: string -> Option<User>)
    requires Waits(m, evs)
    ensures forall i :: 0 <= i < |evs| ==>
              !IsRenewalCall(Trace(m, evs, decode)[i]) && !Trace(m, evs, decode)[i].Completed?
    decreases |evs|
  {
    if evs != [] {
      WaitStep(m, evs[0], decode);
      var m1 := Step(m, evs[0], decode).0;
      assert Waits(m1, evs[1..]);
      WaitingOutputs(m1, evs[1..], decode);
      var outs := Trace(m, evs, decode);
      assert outs[1..] == Trace(m1, evs[1..], decode);
      forall i | 0 <= i < |evs|
        ensures !IsRenewalCall(outs[i]) && !outs[i].Completed?
      {
        if i > 0 {
          assert outs[i] == outs[1..][i - 1];
        }
      }
    }
  }

  /** While a refresh is in progress and no renewal result arrives, no renewal
      call is made, every fresh 401 joins the end of the queue, and nothing else
      changes. */
  lemma WhileRefreshing(m: Machine, evs: seq<Event>, decode: string -> Option<User>)
    requires m.isRefreshing
    requires forall i :: 0 <= i < |evs| ==> !evs[i].RenewalReturned?
    ensures RenewalCalls(Trace(m, evs, decode)) == 0
    ensures Run(m, evs, decode) == m.(failedQueue := m.failedQueue + QueuedBy(evs))
  {
    assert Waits(m, evs);
    WaitingRun(m, evs, decode);
    WaitingOutputs(m, evs, decode);
    NoRenewalCalls(Trace(m, evs, decode));
  }

  /** After a 401 found no refresh token, nothing in this module resets
      `isRefreshing`: until the `/login` navigation reloads the page (and with
      it the module state), no renewal call is made, every later fresh 401 is
      queued and no waiter is settled. */
  lemma StuckForever(m: Machine, evs: seq<Event>, decode: string -> Option<User>)
    requires Stuck(m)
    ensures RenewalCalls(Trace(m, evs, decode)) == 0
    ensures Run(m, evs, decode) == m.(failedQueue := m.failedQueue + QueuedBy(evs))
    ensures forall i :: 0 <= i < |evs| ==> !Trace(m, evs, decode)[i].Completed?
  {
    assert Waits(m, evs);
    WaitingRun(m, evs, decode);
    WaitingOutputs(m, evs, decode);
    NoRenewalCalls(Trace(m, evs, decode));
  }

  /** The 401 that finds no refresh token ends the session and leaves the
      protocol stuck with its queue as it was. */
  lemma MissingRefreshTokenSticks(m: Machine, err: AxiosError)
    requires Consistent(m) && IsFresh401(err) && !m.isRefreshing
    requires !Truthy(GetItem(m.store, "refreshToken"))
    ensures OnAuthError(m, err).1.SessionExpired?
    ensures Stuck(OnAuthError(m, err).0)
    ensures OnAuthError(m, err).0.failedQueue == m.failedQueue
    ensures CredentialKeys !! OnAuthError(m, err).0.store.Keys
  {
  }

  // ---------------------------------------------------------------------
  // A burst of 401s followed by one renewal

  /** N requests failing with 401 while idle: the first leads and calls
      `renewToken` once, with the stored refresh token; the others queue in
      arrival order. */
  lemma {:induction false} BurstStartsOneRenewal(m: Machine, first: AxiosError, rest: seq<AxiosError>,
                                                 decode: string -> Option<User>)
    requires !m.isRefreshing && m.failedQueue == []
    requires Truthy(GetItem(m.store, "refreshToken"))
    requires IsFresh401(first) && forall i :: 0 <= i < |rest| ==> IsFresh401(rest[i])
    ensures var evs := Failures([first] + rest);
            var m' := Run(m, evs, decode);
            && RenewalCalls(Trace(m, evs, decode)) == 1
            && Trace(m, evs, decode)[0] == Reacted(RenewalRequested(m.store["refreshToken"]))
            && m' == m.(isRefreshing := true, failedQueue := WaitersOf(rest),
                        leader := Some(AxiosError(first.status, first.config.(retry := true))))
  {
    var evs := Failures([first] + rest);
    assert evs == [ResponseError(first)] + Failures(rest);
    var m1 := OnAuthError(m, first).0;
    RunAppend(m, [ResponseError(first)], Failures(rest), decode);
    assert Run(m, [ResponseError(first)], decode) == m1;
    assert Trace(m, [ResponseError(first)], decode) == [Reacted(RenewalRequested(m.store["refreshToken"]))];
    WhileRefreshing(m1, Failures(rest), decode);
    QueuedByFailures(rest);
    RenewalCallsAppend(Trace(m, [ResponseError(first)], decode), Trace(m1, Failures(rest), decode));
    assert RenewalCalls([Reacted(RenewalRequested(m.store["refreshToken"]))]) == 1;
  }

  /** ... and when the renewal returns a pair whose token decodes, every queued
      request is resolved with the new token and replayed with
      `Bearer <token>`, the leader is retried with the same header, both tokens
      are stored and the cycle is over: one renewal call for all N. */
  lemma {:induction false} BurstThenRenewed(m: Machine, first: AxiosError, rest: seq<AxiosError>,
                                            p: TokenPair, decode: string -> Option<User>)
    requires !m.isRefreshing && m.failedQueue == []
    requires Truthy(GetItem(m.store, "refreshToken"))
    requires IsFresh401(first) && forall i :: 0 <= i < |rest| ==> IsFresh401(rest[i])
    requires decode(p.token).Some?
    ensures var evs := Failures([first] + rest) + [RenewalReturned(Responded(Some(p)))];
            var outs := Trace(m, evs, decode);
            var m' := Run(m, evs, decode);
            && RenewalCalls(outs) == 1
            && outs[|rest| + 1].Completed?
            && (var c := outs[|rest| + 1].completion;
                && |c.settled| == |rest|
                && (forall i :: 0 <= i < |rest| ==> c.settled[i] == Resolved(Waiter(rest[i].config), Some(p.token)))
                && (forall i :: 0 <= i < |rest| ==>
                      Replay(c.settled[i].waiter, Some(p.token)) == WithAuthorization(rest[i].config, "Bearer " + p.token))
                && c.leader == Retried(WithAuthorization(first.config.(retry := true), "Bearer " + p.token)))
            && !m'.isRefreshing && m'.failedQueue == [] && m'.leader.None?
            && GetItem(m'.store, "token") == Some(p.token)
            && GetItem(m'.store, "refreshToken") == Some(p.refreshToken)
            && m'.currentUser == decode(p.token)
  {
    var burst := Failures([first] + rest);
    var tail := [RenewalReturned(Responded(Some(p)))];
    BurstStartsOneRenewal(m, first, rest, decode);
    var m1 := Run(m, burst, decode);
    RunAppend(m, burst, tail, decode);
    assert Trace(m1, tail, decode) == [Completed(OnRenewal(m1, Some(p), decode).1)];
    RenewalCallsAppend(Trace(m, burst, decode), Trace(m1, tail, decode));
    assert RenewalCalls(Trace(m1, tail, decode)) == 0;
  }

  /** ... and when the renewal fails (or its token does not decode), every
      queued request and the leader are rejected with the same reason, the
      credentials are gone, and the session-expired toast and redirect happen
      exactly once. */
  lemma {:induction false} BurstThenRenewalFailed(m: Machine, first: AxiosError, rest: seq<AxiosError>,
                                                  response: RenewalResponse, decode: string -> Option<User>)
    requires !m.isRefreshing && m.failedQueue == []
    requires Truthy(GetItem(m.store, "refreshToken"))
    requires IsFresh401(first) && forall i :: 0 <= i < |rest| ==> IsFresh401(rest[i])
    requires !Renewed(RenewToken(response), decode)
    ensures var evs := Failures([first] + rest) + [RenewalReturned(response)];
            var outs := Trace(m, evs, decode);
            var m' := Run(m, evs, decode);
            && RenewalCalls(outs) == 1
            && outs[|rest| + 1].Completed?
            && (var c := outs[|rest| + 1].completion;
                && c.leader.Failed?
                && |c.settled| == |rest|
                && (forall i :: 0 <= i < |rest| ==> c.settled[i] == Rejected(Waiter(rest[i].config), c.leader.reason)))
            && !m'.isRefreshing && m'.failedQueue == [] && m'.leader.None?
            && m'.store == ClearCredentials(m.store) && m'.currentUser.None?
            && m'.notices == m.notices + SessionExpiredNotices
  {
    var burst := Failures([first] + rest);
    var tail := [RenewalReturned(response)];
    BurstStartsOneRenewal(m, first, rest, decode);
    var m1 := Run(m, burst, decode);
    RunAppend(m, burst, tail, decode);
    assert Trace(m1, tail, decode) == [Completed(OnRenewal(m1, RenewToken(response), decode).1)];
    RenewalCallsAppend(Trace(m, burst, decode), Trace(m1, tail, decode));
    assert RenewalCalls(Trace(m1, tail, decode)) == 0;
  }

  // ---------------------------------------------------------------------
  // Retries

  /** The leader's retry carries `_retry`, so a 401 on it is rejected
      unchanged: the leader is retried at most once. */
  lemma LeaderRetriedOnce(m: Machine, result: Option<TokenPair>, decode: string -> Option<User>,
                          later: Machine, status: Option<int>)
    requires Consistent(m) && m.leader.Some? && Renewed(result, decode)
    ensures var c := OnRenewal(m, result, decode).1;
            && c.leader.Retried? && c.leader.request.retry
            && OnAuthError(later, AxiosError(status, c.leader.request))
               == (later, PassedThrough(Axios(AxiosError(status, c.leader.request))))
  {
  }

  /** A queued request is replayed without `_retry`, so a 401 on its replay
      after the cycle has ended starts a new refresh. */
  lemma ReplayMayRefreshAgain(m: Machine, err: AxiosError, token: Option<string>, later: Machine)
    requires IsFresh401(err) && m.isRefreshing
    requires !later.isRefreshing && Truthy(GetItem(later.store, "refreshToken"))
    ensures var w := OnAuthError(m, err).1.waiter;
            OnAuthError(later, AxiosError(Some(401), Replay(w, token))).1 == RenewalRequested(later.store["refreshToken"])
  {
  }

  /** After a successful cycle the protocol is idle again, and the next fresh
      401 starts a new cycle with the refresh token just stored. */
  lemma {:induction false} RenewedThenNextCycle(m: Machine, p: TokenPair, decode: string -> Option<User>, err: AxiosError)
    requires m.leader.Some? && decode(p.token).Some? && p.refreshToken != ""
    requires IsFresh401(err)
    ensures var m1 := OnRenewal(m, Some(p), decode).0;
            OnAuthError(m1, err).1 == RenewalRequested(p.refreshToken)
  {
    var m1 := OnRenewal(m, Some(p), decode).0;
    assert m1.store["refreshToken"] == p.refreshToken;
  }

  /** After a failed cycle the refresh token is gone, so the next fresh 401
      ends the session again and leaves the protocol stuck until the `/login`
      navigation reloads the page. */
  lemma {:induction false} FailedThenStuck(m: Machine, result: Option<TokenPair>, decode: string -> Option<User>,
                                           err: AxiosError, evs: seq<Event>)
    requires m.leader.Some? && !Renewed(result, decode)
    requires IsFresh401(err)
    ensures var m1 := OnRenewal(m, result, decode).0;
            var m2 := OnAuthError(m1, err).0;
            && OnAuthError(m1, err).1.SessionExpired?
            && Stuck(m2)
            && RenewalCalls(Trace(m2, evs, decode)) == 0
  {
    var m1 := OnRenewal(m, result, decode).0;
    assert "refreshToken" !in m1.store;
    var m2 := OnAuthError(m1, err).0;
    StuckForever(m2, evs, decode);
  }

  /** Neither login writes a refresh token: `authProvider.login` stores
      `token`, `role` and `loginSuccess`, and `authService`'s login stores only
      `token`. So the first fresh 401 of a session opened by a login, before any
      renewal, finds no refresh token: the session ends and the protocol stays
      stuck until the `/login` navigation reloads the page. */
  lemma LoginSessionSticks(m: Machine, s: Store, accessToken: string, role: string,
                           err: AxiosError, evs: seq<Event>, decode: string -> Option<User>)
    requires "refreshToken" !in s
    requires m.store == AuthProvider.LoginWrites(s, accessToken, role) || m.store == s["token" := accessToken]
    requires !m.isRefreshing && m.failedQueue == [] && m.leader.None?
    requires IsFresh401(err)
    ensures var m2 := OnAuthError(m, err).0;
            && OnAuthError(m, err).1.SessionExpired?
            && Stuck(m2)
            && RenewalCalls(Trace(m2, evs, decode)) == 0
  {
    assert "refreshToken" !in m.store;
    MissingRefreshTokenSticks(m, err);
    StuckForever(OnAuthError(m, err).0, evs, decode);
  }
}
