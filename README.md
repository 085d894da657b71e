# BFarm admin dashboard: token refresh and credential store

This project is a Dafny model of the authentication core of the BFarm admin
dashboard. The dashboard is a React/refine application written in TypeScript.

- **Request layer** (`src/lib/api/config/axios-client.tsx`). A request
  interceptor attaches `Authorization: Bearer <token>`, in the header form of
  section 2.1 of RFC 6750. A response interceptor runs a single-flight token
  refresh whenever a request fails with HTTP 401. The module state is an
  `isRefreshing` flag and a `failedQueue` of waiters. JavaScript runs one piece
  of code at a time, so each interceptor call up to its `await` is one atomic
  step, and so is the completion of the renewal call.
  - These steps are first written as functions over a `Machine` value
    (`AxiosClient.OnAuthError`, `AxiosClient.OnRenewal`).
  - They are then written as the methods of class `AxiosClient.Client`, which
    update the same state in place. Each method is proved to agree with its
    function.
  - Module `RefreshProtocol` runs sequences of events through those functions.
    Its lemmas prove the single-flight bound, the full drain of the queue, and
    the paths that leave the protocol stuck.
- **Credential store.** `localStorage` is modelled as class
  `Storage.LocalStorage` over a `map<string,string>`. The redux `users` slice
  (`src/lib/redux/userSlice.tsx`) is `UserSlice.UsersSlice`.
- **Auth providers.** The live one is `src/authProvider.ts`, modelled as
  `AuthProvider`. The older one is `src/services/authService.ts`, modelled as
  `AuthService`.
- **UI helpers.** The test-kit colour tag (`TestKit`), the inspector list
  card's status colour and join (`ListCard`), the inspector drawer's filter and
  tags (`DrawerShow`), and the document title (`App`).

Some things are outside the model and become parameters:
- the renewal HTTP call: its outcome is a `RenewalResponse` (a body, or a
  throw), which `RenewToken` turns into what `renewToken` returns;
- `jwtDecode` (`decode: string -> Option<User>`);
- `fetch` (`HttpOutcome`);
- yup's e-mail test (`emailFormatOk`) and yup's messages (`schemaErrors`).

Toasts and redirects are recorded as `Notice` values in the machine state.

### Where the code departs from a textbook single-flight refresh

The model follows the code in each of these places.
- A 401 that finds no stored refresh token returns before the `try/finally`
  (axios-client.tsx:93-100). `isRefreshing` therefore stays true until the
  `/login` navigation reloads the page and with it the module state. Until
  then every later 401 on a request not yet marked `_retry` is queued, and no
  waiter is settled (`RefreshProtocol.StuckForever`). A 401 on a request
  already marked `_retry` is still rejected at once (axios-client.tsx:74).
- A single-flight refresh usually releases the leader through the queue along
  with the other waiters. In the code the leader is not queued: it retries
  itself (axios-client.tsx:109-112).
- Replayed queued requests are not marked `_retry` (axios-client.tsx:79-84). A
  401 on a replay can therefore start a second cycle
  (`RefreshProtocol.ReplayMayRefreshAgain`).
- Waiters are rejected with the leader's `AxiosError`, or with whatever
  `jwtDecode` threw. They are not rejected with a dedicated "session expired"
  error.
- The code has no timeout and no cancellation.
- After a failed renewal the refresh token is gone. A 401 arriving before the
  `/login` navigation takes effect therefore takes the stuck path
  (`RefreshProtocol.FailedThenStuck`).
- No login writes a refresh token. `authProvider.login` stores `token`, `role`
  and `loginSuccess` (authProvider.ts:25-27), and `authService`'s login stores
  only `token` (authService.ts:59). Only a successful renewal stores
  `refreshToken`. So in a session opened by a login, the first fresh 401 takes
  the stuck path (`RefreshProtocol.LoginSessionSticks`).

## Model

| member | source | states |
|---|---|---|
| Storage.GetItem | src/lib/api/config/axios-client.tsx:52 | `getItem` returns the stored value, or null for a missing key |
| Storage.LocalStorage.SetItem | src/lib/redux/userSlice.tsx:24 | `setItem` overwrites one key and leaves every other key unchanged |
| Storage.LocalStorage.RemoveItem | src/lib/redux/userSlice.tsx:28-30 | `removeItem` deletes one key and leaves every other key unchanged |
| AxiosClient.AttachToken | src/lib/api/config/axios-client.tsx:52-58 | `Authorization` is set to `"Bearer " + token` exactly when a non-empty token is stored and the config has headers; otherwise the config is unchanged |
| AxiosClient.WithAuthorization | src/lib/api/config/axios-client.tsx:80-82 | the header is written only when a headers object exists; the rest of the request is unchanged |
| AxiosClient.Client.RequestInterceptor | src/lib/api/config/axios-client.tsx:48-63 | the interceptor reads `token` from storage and returns `AttachToken` of it |
| AxiosClient.RenewToken | src/lib/api/config/axios-client.tsx:36-46 | a call that throws gives null; otherwise the response body; every renewal event of the protocol passes through it |
| AxiosClient.SettleAll | src/lib/api/config/axios-client.tsx:24-31 | every waiter is settled exactly once, in insertion order: all rejected with the error, or all resolved with the token |
| AxiosClient.Client.ProcessQueue | src/lib/api/config/axios-client.tsx:24-34 | the loop returns `SettleAll` of the old queue; the queue becomes empty; nothing else changes |
| AxiosClient.Replay | src/lib/api/config/axios-client.tsx:79-84 | a replayed waiter keeps its id and its `_retry` mark (not set) |
| AxiosClient.SessionEnded | src/lib/api/config/axios-client.tsx:96-98 | the credential keys are cleared, the user becomes null, and the toast and the `/login` redirect are recorded; the flag, queue and leader are unchanged |
| AxiosClient.OnAuthError | src/lib/api/config/axios-client.tsx:69-103 | a non-401 or already-retried error is rejected unchanged. A fresh 401 while refreshing appends exactly one waiter at the end and changes nothing else. A fresh 401 while idle marks `_retry` and sets `isRefreshing`. It then either requests one renewal with the stored refresh token, or, with none stored, ends the session with the flag left set |
| AxiosClient.OnRenewal | src/lib/api/config/axios-client.tsx:103-128 | the cycle always ends idle with an empty queue, and every waiter is settled in order. On success both tokens and the user are stored, all waiters are resolved with the new token, and the leader is retried with `Bearer <token>`. On failure the credentials are cleared, the waiters and the leader are rejected with one reason, and the toast and redirect are recorded |
| AxiosClient.StepsKeepConsistent | src/lib/api/config/axios-client.tsx:74-128 | both steps keep the invariant: waiters and a leader exist only during a refresh, and the leader is marked `_retry` |
| AxiosClient.Client.constructor | src/lib/api/config/axios-client.tsx:21-22 | the module starts idle with an empty queue |
| AxiosClient.Client.HandleError | src/lib/api/config/axios-client.tsx:69-103 | the in-place handler leaves state and reaction equal to `OnAuthError` of the old state |
| AxiosClient.Client.CompleteRenewal | src/lib/api/config/axios-client.tsx:103-128 | the in-place completion leaves state and result equal to `OnRenewal` of the old state |
| AxiosClient.Client.EndSession | src/lib/api/config/axios-client.tsx:96-98 | the in-place session end equals `SessionEnded` |
| RefreshProtocol.Trace | src/lib/api/config/axios-client.tsx:69-128 | a run produces one output per event |
| RefreshProtocol.RunAppend | src/lib/api/config/axios-client.tsx:69-128 | running two event sequences one after the other is running their concatenation |
| RefreshProtocol.SingleFlight | src/lib/api/config/axios-client.tsx:74-128 | over any event sequence, `renewToken` is called at most once more than refresh cycles complete (not at all more when already refreshing) |
| RefreshProtocol.WhileRefreshing | src/lib/api/config/axios-client.tsx:75-88 | while refreshing and no result arrives, no renewal is called and the only change is the fresh 401s appended to the queue |
| RefreshProtocol.WaitStep | src/lib/api/config/axios-client.tsx:75-88 | while refreshing, a failed response (or any event when there is no leader) only appends its waiter, if it is a fresh 401; it calls no renewal and completes nothing |
| RefreshProtocol.WaitingRun | src/lib/api/config/axios-client.tsx:75-88 | over a whole run of such events, the only change is the fresh 401s appended to the queue in order |
| RefreshProtocol.WaitingOutputs | src/lib/api/config/axios-client.tsx:75-88 | over a whole run of such events, no output is a renewal call or a completion |
| RefreshProtocol.StuckForever | src/lib/api/config/axios-client.tsx:93-100 | once refreshing with no leader, no renewal is ever called, no cycle completes, and waiters only accumulate |
| RefreshProtocol.MissingRefreshTokenSticks | src/lib/api/config/axios-client.tsx:93-100 | with no refresh token, the leader is rejected and credentials are cleared, but `isRefreshing` stays true and the queue is unchanged |
| RefreshProtocol.QueuedByFailures | src/lib/api/config/axios-client.tsx:77 | a run of fresh 401s queues exactly their requests, in order |
| RefreshProtocol.BurstStartsOneRenewal | src/lib/api/config/axios-client.tsx:74-103 | N fresh 401s while idle cause one renewal call with the stored refresh token; the other N-1 requests queue in arrival order |
| RefreshProtocol.BurstThenRenewed | src/lib/api/config/axios-client.tsx:104-112 | after a successful renewal every queued request is resolved and replayed with `Bearer <token>`, and the leader is retried with the same header. Both tokens and the user are stored, and the protocol is idle; there was one renewal call for all N |
| RefreshProtocol.BurstThenRenewalFailed | src/lib/api/config/axios-client.tsx:113-128 | after a failed renewal every queued request and the leader are rejected with one reason, the credentials are cleared, the toast and redirect are recorded once, and the protocol is idle |
| RefreshProtocol.LeaderRetriedOnce | src/lib/api/config/axios-client.tsx:90-112 | the leader's retry carries `_retry`, so a 401 on it is rejected unchanged |
| RefreshProtocol.ReplayMayRefreshAgain | src/lib/api/config/axios-client.tsx:79-84 | a queued request is replayed without `_retry`, so a 401 on the replay starts a new refresh |
| RefreshProtocol.RenewedThenNextCycle | src/lib/api/config/axios-client.tsx:104-128 | after a successful cycle the next fresh 401 starts a new renewal with the refresh token just stored |
| RefreshProtocol.LoginSessionSticks | src/lib/api/config/axios-client.tsx:93-100 | after either login, which stores no refresh token, the first fresh 401 ends the session and leaves the protocol stuck, with no renewal call over any later events |
| RefreshProtocol.FailedThenStuck | src/lib/api/config/axios-client.tsx:93-127 | after a failed cycle the next fresh 401 ends the session and leaves the protocol stuck (no renewal call over any later events) until the `/login` navigation reloads the page |
| UserSlice.UsersSlice.constructor | src/lib/redux/userSlice.tsx:14-16 | `currentUser` starts null |
| UserSlice.Stringify | src/lib/redux/userSlice.tsx:24 | `JSON.stringify` of the payload is a JSON object text, opening with `{` and closing with `}` |
| UserSlice.StringifyRoundTrip | src/lib/redux/userSlice.tsx:24 | the stored text reads back, as `JSON.parse` reads it, as the very user that was stored, whatever quotes, backslashes or control characters its fields hold |
| UserSlice.StoreUser | src/lib/redux/userSlice.tsx:24 | only the `user` key changes, and it holds the JSON text of the payload |
| UserSlice.UsersSlice.SetCurrentUser | src/lib/redux/userSlice.tsx:22-25 | `currentUser` becomes the payload and storage becomes `StoreUser` of the old storage |
| UserSlice.ClearCredentials | src/lib/redux/userSlice.tsx:28-30 | exactly `token`, `user` and `refreshToken` are removed; every other key, such as `role`, keeps its value |
| UserSlice.UsersSlice.ClearCurrentUser | src/lib/redux/userSlice.tsx:26-31 | `currentUser` becomes null; storage becomes `ClearCredentials` of the old storage |
| UserSlice.ClearCredentialsIdempotent | src/lib/redux/userSlice.tsx:26-31 | clearing twice equals clearing once |
| UserSlice.ClearCredentialsAbsorbsWrites | src/lib/redux/userSlice.tsx:28-30 | clearing forgets the credentials written just before it |
| AuthProvider.ErrorMessage | src/authProvider.ts:35-42 | a ValidationError gives its errors joined by `", "`; otherwise a non-empty `message`; otherwise `"Invalid credentials"` |
| AuthProvider.Acceptable | src/authProvider.ts:7-10 | `loginSchema` accepts only a non-empty, well-formed e-mail with a password of at least 3 characters; any password of 6 characters or more passes; and for a password in the Basic Multilingual Plane the rule is exactly "at least 6 characters" |
| AuthProvider.LoginGrant | src/authProvider.ts:13-42 | login is granted exactly when the form is valid (the password's `length` counted in UTF-16 code units, as yup's `min` does) and a 2xx body has a non-empty `accessToken`; the role is `role \|\| ""`. An invalid form is denied with the schema errors, a missing token with the no-token message, and a failed request with `loginUser`'s message |
| AuthProvider.ValidationPrecedesRequest | src/authProvider.ts:7-16 | an empty e-mail or password, a password whose `length` (in UTF-16 code units) is below 6, or a malformed e-mail is denied whatever the request would have returned |
| AuthProvider.PasswordLengthInCodeUnits | src/authProvider.ts:9 | a password of three emoji has three characters but `length` 6, and the schema accepts it |
| AuthProvider.LoginWrites | src/authProvider.ts:25-27 | `token`, `role` and `loginSuccess = "true"` are written and nothing else changes |
| AuthProvider.Login | src/authProvider.ts:12-52 | a granted login writes `LoginWrites` and returns success with redirect `/`; a denial writes nothing and returns the failure `"Login Error"` with its message |
| AuthProvider.Logout | src/authProvider.ts:55-62 | only `token` is removed; the call returns success with redirect `/login` |
| AuthProvider.Check | src/authProvider.ts:64-83 | authenticated exactly when a non-empty token is stored; otherwise `logout: true`, `redirectTo: "/login"` and the "Not Authenticated" error |
| AuthProvider.GetPermissions | src/authProvider.ts:85-87 | the stored role, or null when it is absent or empty |
| AuthProvider.GetIdentity | src/authProvider.ts:89-94 | `{token, role}` exactly when both are non-empty, otherwise null |
| AuthProvider.LoginThenQueries | src/authProvider.ts:25-94 | after a granted login `check` passes, and permissions and identity report the role exactly when it is non-empty |
| AuthProvider.LogoutThenQueries | src/authProvider.ts:55-94 | after logout `check` fails and there is no identity, but the role and `loginSuccess` are still stored |
| AuthService.LoginUser | src/services/authService.ts:4-25 | an empty e-mail or password fails with the required message before any request. A network or non-ok failure gives `"Incorrect email or password."`. A 2xx body is returned, and a body that does not parse escapes the `catch` |
| AuthService.RequiredCheckPrecedesRequest | src/services/authService.ts:5-7 | with an empty field the request outcome does not matter |
| AuthService.ServerMessageDiscarded | src/services/authService.ts:16-24 | every failed response, whatever its message, and a network failure all give the same error |
| AuthService.RegisterUser | src/services/authService.ts:29-46 | every request failure gives `"Registration failed. Please try again."`; there is no input check |
| AuthService.LoggedOut | src/services/authService.ts:49-51 | only `token` is removed |
| AuthService.LogoutUser | src/services/authService.ts:49-51 | storage becomes `LoggedOut` of the old storage |
| AuthService.TokenGrant | src/services/authService.ts:56-81 | granted exactly when the call succeeded with a truthy `token`, otherwise the fallback or the thrown message |
| AuthService.LoginDenials | src/services/authService.ts:4-81 | a denied login carries one of `loginUser`'s two messages, `"Invalid credentials"`, or the parse error of a malformed body |
| AuthService.Provider.Login | src/services/authService.ts:54-82 | a granted login stores `token` only and redirects to `/`; a denial leaves storage unchanged and fails with "Login Error" |
| AuthService.Provider.Register | src/services/authService.ts:84-112 | the same as login, with `registerUser` and "Register Error" / "Registration failed" |
| AuthService.Provider.Logout | src/services/authService.ts:114-120 | only `token` is removed; the call returns success with redirect `/login` |
| AuthService.Check | src/services/authService.ts:122-141 | authenticated exactly when a non-empty token is stored; otherwise `logout: true`, `/login` and "Token Not Found" |
| AuthService.GetPermissions | src/services/authService.ts:143-148 | null whether or not a token is stored |
| AuthService.GetIdentity | src/services/authService.ts:150-160 | null whether or not a token is stored |
| AuthService.CheckFollowsLoginAndLogout | src/services/authService.ts:54-141 | a granted login makes `check` pass; logging out makes it fail |
| JsText.ToLowerCase | src/components/inspection/testkit/index.tsx:8 | the result has the same length, is lower case, and changes only upper-case letters |
| JsText.ToUpperCase | src/components/inspection/drawer-show/index.tsx:43 | the result has the same length, is upper case, and changes only lower-case letters |
| JsText.Join | src/authProvider.ts:39 | joining no items gives `""`; joining one item gives that item |
| JsText.Utf16Length | src/authProvider.ts:9 | `length` counts UTF-16 code units: between one and two per character, and exactly one per character when all lie in the Basic Multilingual Plane |
| JsObject.Get | src/components/inspection/testkit/index.tsx:19 | an own key gives its value, an `Object.prototype` member name gives that member, and any other name gives `undefined` |
| TestKit.ColorTagAsWritten | src/components/inspection/testkit/index.tsx:4-21 | the component as written: an absent or empty colour gives `default`/"N/A"; otherwise the label is the input |
| TestKit.ConstructorHitsPrototype | src/components/inspection/testkit/index.tsx:19 | "Constructor" gets `Object.prototype.constructor` as its tag colour |
| TestKit.ColorTag | src/components/inspection/testkit/index.tsx:4-21 | an absent or empty colour gives a `default` tag labelled "N/A"; the tag colour is always lower case; the label is the input unchanged |
| TestKit.CaseInsensitive | src/components/inspection/testkit/index.tsx:8-19 | names that differ only in case get the same tag colour |
| TestKit.KnownColors | src/components/inspection/testkit/index.tsx:11-16 | blue, red and orange in any casing map to themselves in lower case; yellow maps to `gold` |
| TestKit.UnknownFallsBack | src/components/inspection/testkit/index.tsx:19 | any other name falls back to itself in lower case |
| TestKit.AsWrittenAgrees | src/components/inspection/testkit/index.tsx:19 | the component as written equals the corrected one on every name that is not an `Object.prototype` member |
| ListCard.GetStatusColor | src/components/inspection/list-card/index.tsx:41-49 | each of completed/ongoing/pending/cancel maps to green/blue/gold/red, in both directions; a status named like an `Object.prototype` member gets that inherited member; a missing or any other status maps to gray |
| ListCard.FindTask | src/components/inspection/list-card/index.tsx:76 | the result is the first task with a matching `inspectorID`, or undefined exactly when no task matches |
| ListCard.CombinedData | src/components/inspection/list-card/index.tsx:74-78 | one entry per inspector, in order, keeping its fields, with `task` from `FindTask`; no inspector data gives `[]`, no task data gives no tasks |
| ListCard.CombinedTaskBelongs | src/components/inspection/list-card/index.tsx:75-77 | an entry's task comes from the task list and is assigned to that inspector; it is undefined exactly when no task is assigned to the inspector |
| DrawerShow.TasksOf | src/components/inspection/drawer-show/index.tsx:93 | exactly the tasks whose `inspectorID` matches are kept |
| DrawerShow.TasksOfAppend | src/components/inspection/drawer-show/index.tsx:93 | filtering distributes over concatenation, so the original order is kept |
| DrawerShow.TasksOfCounts | src/components/inspection/drawer-show/index.tsx:93 | each matching task is kept as often as it occurs, and every other task is dropped |
| DrawerShow.InspectorTasks | src/components/inspection/drawer-show/index.tsx:93 | missing task data or no inspector gives `[]`; otherwise the inspector's tasks |
| DrawerShow.Section | src/components/inspection/drawer-show/index.tsx:159-198 | the "no tasks" text is shown exactly when the inspector has no tasks, in particular when task data is missing |
| DrawerShow.TaskStatusTag | src/components/inspection/drawer-show/index.tsx:35-44 | each of completed/ongoing/pending/cancel maps to green/blue/gold/red, in both directions; an `Object.prototype` member name gets that inherited member; anything else maps to gray; the label is the status in upper case |
| DrawerShow.AvailabilityTag | src/components/inspection/drawer-show/index.tsx:47-54 | "Available" gives a green "Available" tag, and anything else a red "Not Available" tag |
| DrawerShow.KitColorTag | src/components/inspection/drawer-show/index.tsx:57-68 | an absent colour gives `default`/"N/A", and Yellow gives gold. Lookup is case-sensitive; an `Object.prototype` member name such as "toString" gets that inherited member; any other unknown name gets gray; the label is the input |
| DrawerShow.KitColorCaseSensitive | src/components/inspection/drawer-show/index.tsx:60-67 | lower-case "yellow" and "blue" are unknown here and give gray |
| DrawerShow.KitColorPrototypeMember | src/components/inspection/drawer-show/index.tsx:67 | "toString" gets the inherited `Object.prototype.toString` as its tag colour, labelled "toString" |
| App.CustomTitleHandler | src/App.tsx:67-73 | the title is never empty and ends with "BFarm". A non-empty label L gives `L + " \| BFarm"`, and a missing or empty label gives "BFarm" |
| App.TitleDeterminesLabel | src/App.tsx:67-73 | equal titles come from equal labels, with a missing label counted as "" |

## Left out

- HTTP I/O is not modelled. The axios and `fetch` calls, the base URL and the
  request replay calls (`axiosClient(originalRequest)`) are outside the model;
  their outcomes become parameters (`RenewalResponse`, the `result` of
  `OnRenewal`, `HttpOutcome`). What a replayed request returns is not modelled.
- `jwtDecode` is a parameter. The user it yields is taken to have the four
  fields of the slice's `User`; other claims are dropped.
- `toast`, antd's `message` and `window.location.href` are recorded as `Notice`
  values in the refresh protocol and are omitted in the providers.
- The page reload that the `/login` navigation causes is not modelled. A
  `Navigate` notice is inert, so the model does not reset `isRefreshing` and
  `failedQueue` to their initial values when the page reloads. The stuck-state
  lemmas describe the events that arrive before that reload.
- `console.error` is omitted.
- The redux store, redux-persist and the dispatch machinery are not modelled:
  a dispatch is a direct call of the reducer on the one slice.
- Request configs are values. The model does not capture two parts of the
  program sharing one config object (aliasing), only the fields the
  interceptors read and write.
- Real interleaving, timeouts and cancellation are not modelled. The code has
  none beyond the event loop, so each step is atomic.
- yup's e-mail regex and its message texts are not modelled. E-mail validity is
  the predicate `emailFormatOk`, and the messages of a rejected form are the
  parameter `schemaErrors`.
- Case mapping is ASCII only (`JsText.ToLowerCase`, `JsText.ToUpperCase`); the
  Unicode case tables of `toLowerCase` / `toUpperCase` are not modelled.
- `JSON.stringify` is modelled for a `User` of four string fields, with the
  standard escapes; non-string JSON values are not modelled.
- `localStorage` quota and security exceptions are not modelled.
- `onError` in both providers is left out. In `authService` it logs the error
  and returns `{ error }`. In `authProvider` it also shows antd's
  `message.error` with the error's `message`, or "Something went wrong" when
  that is empty (authProvider.ts:96-100).
- `renewToken` is modelled by its result only. The `refreshToken` it is called
  with is the reaction `RenewalRequested(refreshToken)`.
- AxiosClient.OnRenewal does not model a truthy renewal body without a string
  `token`. Its `result` is either a token pair or null.

## Findings

| source | as written | input that shows it | evidently intended | confidence | as-written member | corrected member |
|---|---|---|---|---|---|---|
| src/components/inspection/testkit/index.tsx:19 | `colorMap[colorLower] \|\| colorLower` looks the name up on an object literal, so member names of `Object.prototype` are found too | colour "Constructor": `colorMap["constructor"]` is the `Object` function, which is truthy, so the tag colour is a function and not a colour string | only the four own keys map, and any other name falls back to itself in lower case | not executed | TestKit.ConstructorHitsPrototype | TestKit.ColorTag |
