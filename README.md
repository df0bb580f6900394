# Token-refresh coordinator of the two axios clients

This project models and proves properties of the single-flight token-refresh
coordinator of the web application. It appears twice, in two divergent
copies: `src/app/api/axiosClient.ts` and `src/app/api/axiosInstance.ts`. Each
copy is an axios response interceptor over two module-level variables:

- `isRefreshing`, a boolean;
- `failedQueue`, the resolve/reject pairs of callers waiting for a refresh.

On a 401 for a request not yet marked `_retry`, the interceptor does one of
two things:

- if a refresh is running, it parks the caller in the queue;
- if none is running, it issues one `POST /auth/tokens`. When that POST ends,
  it drains the queue, replays or rejects the caller, and lowers the flag in a
  `finally`.

`axiosClient.ts` also reads the `refreshToken` cookie with a hand-written
`document.cookie` parser.

Files and modules:

- `axios.dfy`, module `Axios`: the shared vocabulary. It defines request
  configs with their `_retry` marker, the errors a response interceptor
  receives, waiters and their fates, and the interceptor's synchronous
  reaction. `Release` is the `forEach` over the queue.
- `cookie_parser.dfy`, module `CookieParser`: the cookie parser as a pure
  left fold. `Split` and `Join` model JavaScript's `split` and `join` for one
  separator character. `Trim` uses the exact ECMAScript whitespace set. The
  `__proto__` key is a special case: assigning a string or `undefined` to it
  on a plain object changes nothing.
- `axios_client.dfy`, module `AxiosClient`, and `axios_instance.dfy`, module
  `AxiosInstance`: one module per file. Each module has:
  - a `State` datatype;
  - the pure specification functions `Intercept` (an error arrives) and
    `Settle` (the awaited refresh POST ends);
  - lemmas about those functions;
  - a class `Coordinator` that holds the module-level variables as fields.
    Its methods `OnError`, `ProcessQueue` and `CompleteRefresh` update the
    fields in place, and their `ensures` equate the new state and the result
    with the specification functions.

How the asynchronous code is modelled:

- The interceptor's async run is cut at its one `await` into two discrete
  events.
- `OnError(err)` models everything the handler does before the `await`. It
  returns `Rejected`, `Enqueued` or `StartedRefresh`.
- `CompleteRefresh(outcome)` models the rest of the run. The caller passes
  the refresh outcome in as a parameter. `Failed` also covers an exception or
  a timeout.
- The suspended run keeps its `originalRequest` in a closure. The model keeps
  it in a field, `inFlight`.
- The model also counts refresh POSTs in `refreshCalls`.
- The client copy has one more field, `expiredCookiesWritten`. It records that the
  catch block wrote expired `accessToken` and `refreshToken` cookies through
  `document.cookie`. Whether the browser applies those writes is not modelled.
- `_retry` is a field of the request config object. Only the interceptor and
  the waiter's closure ever hold that object, and a replay copies it. So the
  model carries the config as a value, with the marker as axios would see it
  on the replay.

What the two copies do differently, modelled as written:

- **Where `_retry` is set.** `axiosClient.ts` marks every qualifying request
  before it checks the flag. So every parked or replayed request is marked
  (`AxiosClient.ReplayIsNeverRetriedTwice`). `axiosInstance.ts` marks only
  the request that starts the refresh. So a parked request is replayed
  unmarked, and a second 401 on it starts another refresh
  (`AxiosInstance.ReplayedWaiterMayRefreshAgain`).
- **What happens to waiters on success.** `axiosClient.ts`'s `processQueue`
  names `resolve` but never calls it. On success every waiter is dropped from
  the queue with its promise pending (`AxiosClient.SuccessStrandsWaiters`).
  `axiosInstance.ts` replays each waiter's own request in arrival order
  (`AxiosInstance.SuccessReplaysInOrder`).
- **Cookies on failure.** Only `axiosClient.ts` writes expired cookies when the
  refresh fails.
- **How the refresh POST is sent.** `axiosClient.ts` sends it with
  `axiosClient.post`, so the POST's own error passes through the same
  interceptor (see Findings). `axiosInstance.ts` sends it with plain `axios`.

What the coordinator is expected to do, and where the code differs. The
model follows the code:

- An already-retried request that gets another 401 is expected to fail with
  a distinct "authentication expired" error. Both files reject it with the
  original error object.
- Every qualifying request is expected to be marked retried before the queue
  check. `axiosInstance.ts` does not mark the requests it parks.
- The credentials are expected to be cleared when a refresh fails.
  `axiosInstance.ts` clears nothing.
- Every waiter is expected to be released when the refresh ends.
  `axiosClient.ts` never resolves its waiters.

## Model

| member | source | states |
|---|---|---|
| `Axios.Release` | src/app/api/axiosInstance.ts:19-22 | `forEach` over the queue, here and in the client copy at src/app/api/axiosClient.ts:17 through `AxiosClient.QueueFates`: exactly one fate per waiter, and the k-th fate is that of the k-th waiter (FIFO, none dropped, none twice). |
| `CookieParser.IsTrimmable` | src/app/api/axiosClient.ts:60 | No contract of its own; it is the set of characters `trim` removes, the ECMAScript WhiteSpace and LineTerminator code points. `TrimStart` and `TrimEnd` use it, in their bodies and in their `ensures`. |
| `CookieParser.TrimStart` | src/app/api/axiosClient.ts:60 | The leading part of `trim`: the result is a suffix of the input, everything removed is ECMAScript whitespace, and the result does not start with whitespace. |
| `CookieParser.TrimEnd` | src/app/api/axiosClient.ts:60 | The trailing part of `trim`: the result is a prefix of the input, everything removed is whitespace, and the result does not end with whitespace. |
| `CookieParser.Split` | src/app/api/axiosClient.ts:58 | `split(sep)` always yields at least one piece, and no piece contains the separator. |
| `CookieParser.Trim` | src/app/api/axiosClient.ts:60 | No contract of its own; `TrimStart` and `TrimEnd` state what `trim` removes and keeps, and `EntryShape` states the entry it yields. |
| `CookieParser.JoinSplit` | src/app/api/axiosClient.ts:58 | Joining the pieces of a split with the separator gives back the original cookie string. |
| `CookieParser.SplitJoin` | src/app/api/axiosClient.ts:58 | Splitting a join of separator-free pieces gives back exactly those pieces (the other direction of the round trip). |
| `CookieParser.ParseEntry` | src/app/api/axiosClient.ts:60 | No contract of its own; `EntryShape` states the key and value that `const [key, value] = cookie.trim().split('=')` yields. |
| `CookieParser.EntryShape` | src/app/api/axiosClient.ts:60 | The key is the trimmed entry up to its first `=`. The value is present exactly when the entry has a `=`, and it is the text between the first and the second `=` (or the end of the entry). |
| `CookieParser.Assign` | src/app/api/axiosClient.ts:61 | No contract of its own; `FoldLastWins`, `FoldKeeps` and `FoldSkipsProto` state its effect on the parsed map, the `__proto__` case included. |
| `CookieParser.Fold` | src/app/api/axiosClient.ts:58-65 | No contract of its own; `FoldLastWins`, `FoldKeeps` and `FoldSkipsProto` state what the reduce leaves under each key. |
| `CookieParser.Parse` | src/app/api/axiosClient.ts:58-65 | No contract of its own; `RefreshTokenAbsent` and `RefreshTokenIsLastEntry` state what the parsed object holds for `refreshToken`. |
| `CookieParser.RefreshToken` | src/app/api/axiosClient.ts:67 | No contract of its own; `RefreshTokenAbsent` and `RefreshTokenIsLastEntry` state its value: undefined without a `refreshToken` entry, else the last such entry's value. |
| `CookieParser.FoldLastWins` | src/app/api/axiosClient.ts:58-65 | For a key other than `__proto__`, the value the reduce leaves is the value of the last entry with that key: a later duplicate overwrites an earlier one. |
| `CookieParser.FoldKeeps` | src/app/api/axiosClient.ts:58-65 | A key that no entry carries keeps its presence and value from the accumulator, so the parsed map has only keys that some entry carries. |
| `CookieParser.FoldSkipsProto` | src/app/api/axiosClient.ts:61 | `acc['__proto__'] = value` never creates an own `__proto__` property. |
| `CookieParser.RefreshTokenAbsent` | src/app/api/axiosClient.ts:67 | With no `refreshToken` entry, `cookies.refreshToken` is undefined. |
| `CookieParser.RefreshTokenIsLastEntry` | src/app/api/axiosClient.ts:58-67 | `cookies.refreshToken` is the value of the last `refreshToken` entry of `document.cookie`. |
| `AxiosClient.Initial` | src/app/api/axiosClient.ts:9-10 | No contract of its own; it is the state at module load, idle with an empty queue. `Coordinator.constructor` establishes it and proves it `Valid`. |
| `AxiosClient.Qualifies` | src/app/api/axiosClient.ts:36-42 | No contract of its own; it is the guard of lines 36 and 42: a config is present, the status is 401 and `_retry` is unset. `Intercept` and `Settle` branch on it, and `GuardRejectsUnchanged` states both directions of that split. |
| `AxiosClient.Marked` | src/app/api/axiosClient.ts:43 | No contract of its own; it is the request after `_retry = true`. `Intercept`, `Settle`, `Parked`, `RefreshUnauthorizedWedges`, `BurstWhileRefreshing`, `BurstFromIdle`, `RefreshCycle` and `Coordinator.CompleteRefresh` use it; `EnqueueWhileRefreshing` and `StartWhenIdle` write the marked request out as `err.config.value.(retry := true)`. |
| `AxiosClient.Intercept` | src/app/api/axiosClient.ts:34-96 | No contract of its own; `GuardRejectsUnchanged`, `EnqueueWhileRefreshing`, `StartWhenIdle` and `InterceptPreservesValid` state its three outcomes and the invariant it keeps; `Coordinator.OnError` implements it. |
| `AxiosClient.WaiterFate` | src/app/api/axiosClient.ts:17 | No contract of its own; `ProcessQueueRejectsAll` and `SuccessStrandsWaiters` state that a waiter is rejected with the error, or left pending on success. |
| `AxiosClient.QueueFates` | src/app/api/axiosClient.ts:16-19 | No contract of its own; `ProcessQueueRejectsAll` and `SuccessStrandsWaiters` state the fates `processQueue` gives the queue; `Coordinator.ProcessQueue` implements it. |
| `AxiosClient.SuccessPath` | src/app/api/axiosClient.ts:74-77 | No contract of its own; `SuccessStrandsWaiters`, `SettlePreservesValid` and `RefreshCycle` state the state and fates after a successful POST and the `finally` at line 93. |
| `AxiosClient.CatchPath` | src/app/api/axiosClient.ts:78-94 | No contract of its own; `RefreshFailureWritesExpiredCookies` and `SettlePreservesValid` state the state and fates after the catch block and `finally`. |
| `AxiosClient.Settle` | src/app/api/axiosClient.ts:70-94 | No contract of its own; `SuccessStrandsWaiters`, `RefreshFailureWritesExpiredCookies`, `SettlePreservesValid`, `RefreshUnauthorizedWedges` and `ReplayIsNeverRetriedTwice` state its outcomes; `Coordinator.CompleteRefresh` implements it. |
| `AxiosClient.WaiterFateIntended` | src/app/api/axiosClient.ts:49 | No contract of its own; `IntendedSuccessReplaysEach` states that on success each waiter replays its own request. |
| `AxiosClient.SettleIntended` | src/app/api/axiosClient.ts:70-94 | No contract of its own; `IntendedSuccessReplaysEach` and `IntendedFailureResets` state the corrected settlement. |
| `AxiosClient.GuardRejectsUnchanged` | src/app/api/axiosClient.ts:36-42 | An error without config, with a status other than 401, or on a request already marked `_retry` is rejected with that same error, and the flag, queue, refresh count and cookies are unchanged (line 96). Every qualifying error is taken on. |
| `AxiosClient.EnqueueWhileRefreshing` | src/app/api/axiosClient.ts:43-53 | While refreshing, a qualifying 401 appends exactly one waiter to the end of the queue, with its request already marked `_retry`. Nothing else changes and no POST is issued. |
| `AxiosClient.StartWhenIdle` | src/app/api/axiosClient.ts:54-72 | When idle, a qualifying 401 raises the flag and issues exactly one `POST /auth/tokens`. The POST's body carries the parsed `refreshToken` cookie. The marked request is the one in flight, and the queue is untouched. |
| `AxiosClient.InterceptPreservesValid` | src/app/api/axiosClient.ts:42-72 | Interception keeps the coordinator invariant: the flag is up exactly while a run awaits the POST, the queue is empty when idle, and every parked or in-flight request is marked. |
| `AxiosClient.ReplayIsNeverRetriedTwice` | src/app/api/axiosClient.ts:42-43 | The request the settlement replays is marked, so a 401 on the replay is rejected unchanged, never retried a second time. |
| `AxiosClient.ProcessQueueRejectsAll` | src/app/api/axiosClient.ts:16-19 | `processQueue(err)` rejects every waiter, once and in order, with that same error. |
| `AxiosClient.SuccessStrandsWaiters` | src/app/api/axiosClient.ts:17 | As written, `processQueue(null)` calls no `resolve`. Every waiter's fate is pending, the queue is emptied anyway, and the property that every waiter is settled fails. |
| `AxiosClient.RefreshFailureWritesExpiredCookies` | src/app/api/axiosClient.ts:78-94 | A refresh failure that reaches the catch block rejects every waiter and the initiator with the same refresh error, writes expired `accessToken` and `refreshToken` cookies, empties the queue and lowers the flag. |
| `AxiosClient.SettlePreservesValid` | src/app/api/axiosClient.ts:74-94 | Success, and failures that reach the catch block, return a consistent idle state with an empty queue and the flag down. |
| `AxiosClient.RefreshUnauthorizedWedges` | src/app/api/axiosClient.ts:70-72 | A 401 from the refresh POST itself re-enters this interceptor and is parked behind its own refresh. The initiator and the waiters are never settled, and the flag stays up with no run left to lower it. |
| `AxiosClient.WedgeIsPermanent` | src/app/api/axiosClient.ts:46-54 | Once wedged, the coordinator stays wedged under any later errors, issues no further POST, and parks every qualifying caller. |
| `AxiosClient.IntendedSuccessReplaysEach` | src/app/api/axiosClient.ts:49 | The corrected settlement replays each waiter's own request in queue order on success, as the `resolve` closure built at line 49 means to. |
| `AxiosClient.IntendedFailureResets` | src/app/api/axiosClient.ts:92-94 | The corrected settlement lowers the flag, empties the queue and settles everyone on every outcome, so a later independent 401 starts a new refresh. |
| `AxiosClient.BurstWhileRefreshing` | src/app/api/axiosClient.ts:46-53 | While refreshing, any sequence of errors issues no POST and parks exactly the qualifying ones, marked and in arrival order, behind the existing waiters. |
| `AxiosClient.BurstOfRejected` | src/app/api/axiosClient.ts:96 | A sequence of non-qualifying errors leaves the state unchanged. |
| `AxiosClient.BurstFromIdle` | src/app/api/axiosClient.ts:46-72 | Single flight: from idle, the first qualifying 401 of a burst issues the one POST, and every later qualifying 401 is parked. Exactly one POST per burst. |
| `AxiosClient.RefreshCycle` | src/app/api/axiosClient.ts:54-94 | A full successful cycle issues exactly one POST and replays only the initiator. The later callers are dropped unsettled, and the coordinator ends idle and consistent. |
| `AxiosClient.Coordinator.constructor` | src/app/api/axiosClient.ts:9-10 | The module starts idle with an empty queue, and that state satisfies the coordinator invariant `Valid`. |
| `AxiosClient.Coordinator.OnError` | src/app/api/axiosClient.ts:34-96 | The handler updates `isRefreshing`, `failedQueue` and the in-flight request in place, exactly as `Intercept` specifies. |
| `AxiosClient.Coordinator.ProcessQueue` | src/app/api/axiosClient.ts:16-19 | The loop gives each waiter its fate in queue order, then resets the queue to empty. |
| `AxiosClient.Coordinator.CompleteRefresh` | src/app/api/axiosClient.ts:70-94 | The try, catch and finally after the await update the fields and return the fates exactly as `Settle` specifies, including the re-entry of the POST's own 401. |
| `AxiosInstance.Initial` | src/app/api/axiosInstance.ts:11-12 | No contract of its own; it is the state at module load, idle with an empty queue. `Coordinator.constructor` establishes it and proves it `Valid`. |
| `AxiosInstance.Qualifies` | src/app/api/axiosInstance.ts:47 | No contract of its own; it is line 47's condition: the status is 401, a config is present and `_retry` is unset. `Intercept` branches on it, and `GuardRejectsUnchanged` states both directions of that split. |
| `AxiosInstance.Intercept` | src/app/api/axiosInstance.ts:43-88 | No contract of its own; `GuardRejectsUnchanged`, `EnqueueWhileRefreshing`, `StartWhenIdle` and `InterceptPreservesValid` state its three outcomes and the invariant it keeps; `Coordinator.OnError` implements it. |
| `AxiosInstance.WaiterFate` | src/app/api/axiosInstance.ts:19-22 | No contract of its own; `ProcessQueueReleasesEach` states that a waiter is rejected with the error, or replays its own request on success. |
| `AxiosInstance.QueueFates` | src/app/api/axiosInstance.ts:18-24 | No contract of its own; `ProcessQueueReleasesEach` and `ReplaysOfQueue` state the fates `processQueue` gives the queue; `Coordinator.ProcessQueue` implements it. |
| `AxiosInstance.Settle` | src/app/api/axiosInstance.ts:61-85 | No contract of its own; `SuccessReplaysInOrder`, `FailureRejectsAll`, `SettleResets` and `ReplayedInitiatorNotRetriedTwice` state its outcomes; `Coordinator.CompleteRefresh` implements it. |
| `AxiosInstance.GuardRejectsUnchanged` | src/app/api/axiosInstance.ts:47 | An error that is not a 401, has no config, or is on a marked request is rejected with that same error, and nothing changes (line 87). Every qualifying error is taken on. |
| `AxiosInstance.EnqueueWhileRefreshing` | src/app/api/axiosInstance.ts:48-55 | While refreshing, a qualifying 401 appends exactly one waiter to the end of the queue, without marking its request, and issues no POST. |
| `AxiosInstance.StartWhenIdle` | src/app/api/axiosInstance.ts:56-61 | When idle, a qualifying 401 marks its request, raises the flag and issues exactly one `POST /auth/tokens` with an empty body. |
| `AxiosInstance.InterceptPreservesValid` | src/app/api/axiosInstance.ts:47-61 | Interception keeps the invariant: the flag is up exactly while a run awaits the POST, the queue is empty when idle, the in-flight request is marked and parked ones are not. |
| `AxiosInstance.ReplayedInitiatorNotRetriedTwice` | src/app/api/axiosInstance.ts:56 | The initiator's replay is marked, so a 401 on it is rejected unchanged. |
| `AxiosInstance.ReplayedWaiterMayRefreshAgain` | src/app/api/axiosInstance.ts:51 | A parked request is replayed unmarked, so a 401 on that replay starts another refresh. |
| `AxiosInstance.ProcessQueueReleasesEach` | src/app/api/axiosInstance.ts:18-24 | `processQueue(null)` resolves every waiter once, in FIFO order, each replaying its own request. `processQueue(err)` rejects every waiter once with that error. |
| `AxiosInstance.ReplaysOfQueue` | src/app/api/axiosInstance.ts:51 | Resolving a queue sends again exactly the queue's requests, in order. |
| `AxiosInstance.SuccessReplaysInOrder` | src/app/api/axiosInstance.ts:64-65 | On success the requests sent again are the waiters' own, in arrival order, followed by the initiator's, each exactly once. |
| `AxiosInstance.FailureRejectsAll` | src/app/api/axiosInstance.ts:66-82 | On failure every waiter and the initiator receive the same refresh error. |
| `AxiosInstance.SettleResets` | src/app/api/axiosInstance.ts:83-85 | On success and on failure the flag is lowered, the queue emptied and everyone settled. A later independent 401 then issues a new POST. |
| `AxiosInstance.BurstWhileRefreshing` | src/app/api/axiosInstance.ts:48-55 | While refreshing, any sequence of errors issues no POST and parks exactly the qualifying ones, in arrival order. |
| `AxiosInstance.BurstFromIdle` | src/app/api/axiosInstance.ts:47-61 | Single flight: from idle, the first qualifying 401 of a burst issues the one POST, and every later qualifying 401 is parked. |
| `AxiosInstance.RefreshCycle` | src/app/api/axiosInstance.ts:47-85 | A full successful cycle issues exactly one POST. It replays the parked callers' requests in arrival order, then the initiator's, and ends idle and consistent. |
| `AxiosInstance.Coordinator.constructor` | src/app/api/axiosInstance.ts:11-12 | The module starts idle with an empty queue, and that state satisfies the coordinator invariant `Valid`. |
| `AxiosInstance.Coordinator.OnError` | src/app/api/axiosInstance.ts:43-88 | The handler updates `isRefreshing`, `failedQueue` and the in-flight request in place, exactly as `Intercept` specifies. |
| `AxiosInstance.Coordinator.ProcessQueue` | src/app/api/axiosInstance.ts:18-24 | The `forEach` loop gives each waiter its fate in queue order, then resets the queue to empty. |
| `AxiosInstance.Coordinator.CompleteRefresh` | src/app/api/axiosInstance.ts:61-85 | The try, catch and finally after the await update the fields and return the fates exactly as `Settle` specifies. The flag is lowered on both paths. |

## Left out

- The axios machinery: `axios.create`, base URLs, headers, the 10-second
  timeout, `withCredentials`, the network itself. The refresh POST is an event
  with a success or failure outcome. A timeout or a thrown exception is a
  `Failed` outcome.
- What a replayed request returns: the model records that a request is sent
  again, not its response.
- Promise and event-loop semantics. Interleavings are modelled as sequential
  `OnError` and `CompleteRefresh` events.
- The `console.error` classification of refresh errors by status in
  `axiosInstance.ts` (lines 70-76). It only logs.
- The `document.cookie` writes in `axiosClient.ts`. They are recorded only as
  the `expiredCookiesWritten` bit. `document.cookie` itself is read as a parameter.
- Running `axiosClient.ts` outside a browser, where `document` is undefined
  and the parser would throw. The model assumes a browser.
- The identity request interceptor of `axiosInstance.ts` (lines 35-38).
- The proxy route, the OAuth route, the SSR, user and auth wrappers, and the
  React pages and components. They are not part of this model.

## Findings

| source | as written | input that shows it | evidently intended | confidence | as-written member | corrected member |
|---|---|---|---|---|---|---|
| src/app/api/axiosClient.ts:17 | `error ? reject(error) : resolve` only names `resolve` on success and is then discarded with the queue | two requests get 401 together, and the refresh succeeds: the second caller's promise never settles | `resolve()` is called, so each waiter replays its request (as in axiosInstance.ts:21) | high, not executed | `AxiosClient.SuccessStrandsWaiters` | `AxiosClient.IntendedSuccessReplaysEach` |
| src/app/api/axiosClient.ts:70 | the refresh POST is sent through `axiosClient`, whose own interceptor sees its 401 with a fresh config while `isRefreshing` is true, and parks it in `failedQueue` | a request gets 401 and the refresh token has expired, so `POST /auth/tokens` answers 401: the awaited POST never settles, `finally` never runs, and `isRefreshing` stays true, so every later 401 is parked forever | any refresh failure reaches the catch block, which rejects the waiters, writes the expired cookies and lowers the flag (send the POST with plain `axios`, as axiosInstance.ts:61 does) | high, not executed | `AxiosClient.RefreshUnauthorizedWedges` | `AxiosClient.IntendedFailureResets` |

The `AxiosClient.Coordinator` class follows `axiosClient.ts` as written. The
corrected definitions `AxiosClient.WaiterFateIntended` and
`AxiosClient.SettleIntended` say what the two defects should have been.
`AxiosInstance` already behaves that way.
