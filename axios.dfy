/** Vocabulary shared by the two response interceptors: request configs with
    their `_retry` marker, the errors axios hands to a response interceptor,
    the waiters parked in `failedQueue` and what eventually becomes of each. */
module Axios {

  datatype Option<+T> = None | Some(value: T)

  /** A request config as the interceptor sees it. `id` stands for everything
      about the request except the `_retry` marker (method, url, body). */
  datatype Config = Config(id: nat, retry: bool)

  /** The value a response interceptor's error handler receives: `config` is
      absent for errors raised before any request existed, `status` is
      `error.response?.status` (absent when no response arrived). `id` gives
      the error object its identity, so "the same error" is `==`. */
  datatype AxiosError = AxiosError(id: nat, config: Option<Config>, status: Option<int>)

  /** The status that hands control to the refresh coordinator. */
  const Unauthorized: int := 401

  /** The token-exchange endpoint both files POST to. */
  const RefreshPath: string := "/auth/tokens"

  /** One `{ resolve, reject }` pair of `failedQueue`. Its `resolve` replays
      `config`; its `reject` forwards whatever error it is given. */
  datatype Waiter = Waiter(config: Config)

  /** What becomes of a suspended caller: its request is sent again, its
      promise is rejected with an error, or its promise never settles. */
  datatype Fate = Replay(config: Config) | Reject(error: AxiosError) | Pending

  /** Body of the refresh POST: `{}` or `{ refreshToken }` (absent when the
      cookie is missing, which JSON serialisation drops). */
  datatype RefreshBody = EmptyBody | TokenBody(refreshToken: Option<string>)

  /** What the interceptor does synchronously with an error, up to its first
      `await`: reject it, park the caller, or issue the refresh POST. */
  datatype Reaction =
    | Rejected(error: AxiosError)
    | Enqueued
    | StartedRefresh(path: string, body: RefreshBody)

  /** How the awaited refresh POST ends; `Failed` covers a thrown exception. */
  datatype RefreshOutcome = Succeeded | Failed(error: AxiosError)

  /** The coordinator state after an error was intercepted, and the reaction. */
  datatype Stepped<S> = Stepped(state: S, reaction: Reaction)

  /** The coordinator state after the refresh completed, one fate per waiter
      that was in the queue (queue order), and the fate of the initiator. */
  datatype Settlement<S> = Settlement(state: S, waiters: seq<Fate>, caller: Fate)

  /** `failedQueue.forEach(settle)`: every waiter is visited once, in order. */
  function Release(q: seq<Waiter>, settle: Waiter -> Fate): (r: seq<Fate>)
    ensures |r| == |q|
    ensures forall k :: 0 <= k < |q| ==> r[k] == settle(q[k])
  {
    if q == [] then [] else [settle(q[0])] + Release(q[1..], settle)
  }

  /** No fate in `fates` is left pending. */
  predicate EverySettled(fates: seq<Fate>)
  {
    forall k :: 0 <= k < |fates| ==> !fates[k].Pending?
  }

  /** The requests sent again, in the order their fates are listed. */
  function Replays(fates: seq<Fate>): seq<Config>
  {
    if fates == [] then []
    else (if fates[0].Replay? then [fates[0].config] else []) + Replays(fates[1..])
  }

  /** The requests behind a sequence of waiters, in queue order. */
  function Configs(q: seq<Waiter>): seq<Config>
  {
    if q == [] then [] else [q[0].config] + Configs(q[1..])
  }

  lemma {:induction false} ReplaysAppend(a: seq<Fate>, b: seq<Fate>)
    ensures Replays(a + b) == Replays(a) + Replays(b)
  {
    if a == [] {
      assert a + b == b;
    } else {
      var head := if a[0].Replay? then [a[0].config] else [];
      assert (a + b)[0] == a[0];
      assert (a + b)[1..] == a[1..] + b;
      calc {
        Replays(a + b);
        head + Replays(a[1..] + b);
        { ReplaysAppend(a[1..], b); }
        head + (Replays(a[1..]) + Replays(b));
        Replays(a) + Replays(b);
      }
    }
  }
}
