/** The response interceptor of axiosInstance.ts: the same module-level
    `isRefreshing` flag and `failedQueue`, but `_retry` is set only on the
    request that starts the refresh, the refresh POST is sent with plain
    `axios` (so it never re-enters this interceptor) and carries an empty
    body, waiters are resolved on success, and no cookie is touched.

    As in AxiosClient, the asynchronous run is cut at its one `await` into
    Intercept (the error arrives) and Settle (the refresh POST ends);
    `inFlight` is the request of the run suspended at that `await`. */
module AxiosInstance {

  import opened Axios

  /** `isRefreshing`, `failedQueue`, the number of refresh POSTs issued and
      the suspended initiator. */
  datatype State = State(
    isRefreshing: bool,
    queue: seq<Waiter>,
    refreshCalls: nat,
    inFlight: Option<Config>)

  /** The module's state when it is first loaded. */
  function Initial(): State
  {
    State(false, [], 0, None)
  }

  /** The flag is up exactly while an initiator awaits the POST, nobody waits
      without a refresh, the initiator is marked and no parked request is. */
  predicate Valid(s: State)
  {
    && (s.isRefreshing <==> s.inFlight.Some?)
    && (!s.isRefreshing ==> s.queue == [])
    && (s.inFlight.Some? ==> s.inFlight.value.retry)
    && forall k :: 0 <= k < |s.queue| ==> !s.queue[k].config.retry
  }

  /** `error.response?.status === 401 && originalRequest && !originalRequest._retry` */
  predicate Qualifies(err: AxiosError)
  {
    err.status == Some(Unauthorized) && err.config.Some? && !err.config.value.retry
  }

  /** The interceptor's error handler up to its `await`. */
  function Intercept(s: State, err: AxiosError): Stepped<State>
  {
    if Qualifies(err) then
      var originalRequest := err.config.value;
      if s.isRefreshing then
        Stepped(s.(queue := s.queue + [Waiter(originalRequest)]), Enqueued)
      else
        Stepped(s.(isRefreshing := true, refreshCalls := s.refreshCalls + 1,
                   inFlight := Some(originalRequest.(retry := true))),
                StartedRefresh(RefreshPath, EmptyBody))
    else Stepped(s, Rejected(err))
  }

  /** `if (error) reject(error); else resolve();`, where `resolve` replays the
      waiter's own request. */
  function WaiterFate(w: Waiter, error: Option<AxiosError>): Fate
  {
    if error.Some? then Reject(error.value) else Replay(w.config)
  }

  /** The fates `processQueue(error)` gives the waiters of `q`. */
  function QueueFates(q: seq<Waiter>, error: Option<AxiosError>): seq<Fate>
  {
    Release(q, w => WaiterFate(w, error))
  }

  /** The rest of the initiator's run: the try block (`processQueue(null)`,
      then the replay) or the catch block (`processQueue(refreshError)`, then
      the rejection), and in both the `finally` that lowers the flag. */
  function Settle(s: State, outcome: RefreshOutcome): Settlement<State>
    requires s.inFlight.Some?
  {
    var idle := s.(isRefreshing := false, queue := [], inFlight := None);
    match outcome
    case Succeeded => Settlement(idle, QueueFates(s.queue, None), Replay(s.inFlight.value))
    case Failed(e) => Settlement(idle, QueueFates(s.queue, Some(e)), Reject(e))
  }

  /** Errors intercepted one after another. */
  function Burst(s: State, errs: seq<AxiosError>): State
    decreases |errs|
  {
    if errs == [] then s else Burst(Intercept(s, errs[0]).state, errs[1..])
  }

  /** The waiters the qualifying errors of `errs` park, in arrival order. */
  function Parked(errs: seq<AxiosError>): seq<Waiter>
  {
    if errs == [] then []
    else (if Qualifies(errs[0]) then [Waiter(errs[0].config.value)] else []) + Parked(errs[1..])
  }

  // ---------------------------------------------------------------------------
  // One interception

  /** An error that is not a 401, has no config, or whose request is already
      marked `_retry` is rejected with that same error and changes nothing;
      every qualifying error is taken on. */
  lemma GuardRejectsUnchanged(s: State, err: AxiosError)
    ensures !Qualifies(err) ==> Intercept(s, err) == Stepped(s, Rejected(err))
    ensures Qualifies(err) ==> !Intercept(s, err).reaction.Rejected?
  {
  }

  /** While a refresh runs, a qualifying error appends exactly one waiter to
      the end of the queue, WITHOUT marking its request, and issues no POST. */
  lemma EnqueueWhileRefreshing(s: State, err: AxiosError)
    requires Qualifies(err) && s.isRefreshing
    ensures var t := Intercept(s, err);
      && t.reaction == Enqueued
      && t.state == s.(queue := s.queue + [Waiter(err.config.value)])
      && !t.state.queue[|t.state.queue| - 1].config.retry
  {
  }

  /** When idle, a qualifying error marks its request `_retry`, raises the
      flag and issues exactly one `POST /auth/tokens` with an empty body. */
  lemma StartWhenIdle(s: State, err: AxiosError)
    requires Qualifies(err) && !s.isRefreshing
    ensures var t := Intercept(s, err);
      && t.reaction == StartedRefresh("/auth/tokens", EmptyBody)
      && t.state.isRefreshing && t.state.refreshCalls == s.refreshCalls + 1
      && t.state.inFlight == Some(err.config.value.(retry := true))
      && t.state.queue == s.queue
  {
  }

  /** Interception keeps the coordinator consistent. */
  lemma InterceptPreservesValid(s: State, err: AxiosError)
    requires Valid(s)
    ensures Valid(Intercept(s, err).state)
  {
  }

  /** The initiator's replay is marked, so a 401 on it is rejected unchanged. */
  lemma ReplayedInitiatorNotRetriedTwice(s: State, again: AxiosError)
    requires Valid(s) && s.isRefreshing && again.config == s.inFlight
    ensures Intercept(Settle(s, Succeeded).state, again)
      == Stepped(Settle(s, Succeeded).state, Rejected(again))
  {
  }

  /** A parked request is replayed unmarked: a 401 on that replay qualifies
      again and, the flag being down, starts another refresh. */
  lemma ReplayedWaiterMayRefreshAgain(s: State, k: nat, again: AxiosError)
    requires Valid(s) && s.isRefreshing && k < |s.queue|
    requires again.config == Some(s.queue[k].config) && again.status == Some(Unauthorized)
    ensures Settle(s, Succeeded).waiters[k] == Replay(s.queue[k].config)
    ensures Intercept(Settle(s, Succeeded).state, again).reaction.StartedRefresh?
  {
  }

  // ---------------------------------------------------------------------------
  // processQueue and the end of a refresh

  /** `processQueue(null)` resolves each waiter once, in FIFO order, each
      replaying its own request; `processQueue(err)` rejects each once with
      that same error. */
  lemma ProcessQueueReleasesEach(q: seq<Waiter>, e: AxiosError)
    ensures |QueueFates(q, None)| == |q| && |QueueFates(q, Some(e))| == |q|
    ensures forall k :: 0 <= k < |q| ==> QueueFates(q, None)[k] == Replay(q[k].config)
    ensures forall k :: 0 <= k < |q| ==> QueueFates(q, Some(e))[k] == Reject(e)
  {
  }

  /** The requests replayed by resolving a queue are the queue's requests in
      order. */
  lemma {:induction false} ReplaysOfQueue(q: seq<Waiter>)
    ensures Replays(QueueFates(q, None)) == Configs(q)
  {
    if q != [] {
      var fates := QueueFates(q, None);
      assert fates == [Replay(q[0].config)] + QueueFates(q[1..], None);
      ReplaysOfQueue(q[1..]);
      assert fates[1..] == QueueFates(q[1..], None);
    }
  }

  /** On success the queue is drained before the initiator's request is
      replayed: the requests sent again are the waiters' own, in arrival
      order, followed by the initiator's, each exactly once. */
  lemma SuccessReplaysInOrder(s: State)
    requires s.inFlight.Some?
    ensures var st := Settle(s, Succeeded);
      Replays(st.waiters + [st.caller]) == Configs(s.queue) + [s.inFlight.value]
  {
    var st := Settle(s, Succeeded);
    ReplaysOfQueue(s.queue);
    ReplaysAppend(st.waiters, [st.caller]);
    assert Replays([st.caller]) == [s.inFlight.value];
  }

  /** On failure every waiter and the initiator receive the same error. */
  lemma FailureRejectsAll(s: State, e: AxiosError)
    requires s.inFlight.Some?
    ensures var st := Settle(s, Failed(e));
      && st.caller == Reject(e) && |st.waiters| == |s.queue|
      && forall k :: 0 <= k < |s.queue| ==> st.waiters[k] == Reject(e)
  {
  }

  /** On success and failure alike the flag is lowered, the queue emptied,
      every waiter and the initiator settled, and a later independent 401
      starts a fresh refresh. */
  lemma SettleResets(s: State, outcome: RefreshOutcome, err: AxiosError)
    requires Valid(s) && s.isRefreshing && Qualifies(err)
    ensures var st := Settle(s, outcome);
      && Valid(st.state) && !st.state.isRefreshing && st.state.queue == []
      && st.state.refreshCalls == s.refreshCalls
      && EverySettled(st.waiters) && !st.caller.Pending?
      && Intercept(st.state, err).reaction.StartedRefresh?
      && Intercept(st.state, err).state.refreshCalls == s.refreshCalls + 1
  {
  }

  // ---------------------------------------------------------------------------
  // Several interceptions: one refresh per cycle

  /** While a refresh runs, any number of errors issue no POST and park
      exactly the qualifying ones, in arrival order. */
  lemma {:induction false} BurstWhileRefreshing(s: State, errs: seq<AxiosError>)
    requires s.isRefreshing
    ensures var t := Burst(s, errs);
      && t.isRefreshing && t.refreshCalls == s.refreshCalls
      && t.queue == s.queue + Parked(errs) && t.inFlight == s.inFlight
    decreases |errs|
  {
    if errs != [] {
      var s1 := Intercept(s, errs[0]).state;
      BurstWhileRefreshing(s1, errs[1..]);
      var head := if Qualifies(errs[0]) then [Waiter(errs[0].config.value)] else [];
      assert s1.queue == s.queue + head;
      assert Parked(errs) == head + Parked(errs[1..]);
      assert s.queue + head + Parked(errs[1..]) == s.queue + (head + Parked(errs[1..]));
    }
  }

  /** Single flight: from idle, the first qualifying error of a burst issues
      the one POST; every later qualifying error is parked. */
  lemma {:induction false} BurstFromIdle(s: State, errs: seq<AxiosError>, i: nat)
    requires !s.isRefreshing
    requires i < |errs| && Qualifies(errs[i])
    requires forall j :: 0 <= j < i ==> !Qualifies(errs[j])
    ensures var t := Burst(s, errs);
      && t.isRefreshing && t.refreshCalls == s.refreshCalls + 1
      && t.inFlight == Some(errs[i].config.value.(retry := true))
      && t.queue == s.queue + Parked(errs[i + 1..])
    decreases |errs|
  {
    if i == 0 {
      BurstWhileRefreshing(Intercept(s, errs[0]).state, errs[1..]);
    } else {
      BurstFromIdle(s, errs[1..], i - 1);
      assert errs[1..][i..] == errs[i + 1..];
    }
  }

  /** A whole cycle from a consistent idle state: N errors arrive, the first
      qualifying one issues the single POST, and when it succeeds the
      requests sent again are those of the later qualifying errors, in
      arrival order, then the initiator's; the coordinator is idle again
      having issued exactly one POST. */
  lemma RefreshCycle(s: State, errs: seq<AxiosError>, i: nat)
    requires Valid(s) && !s.isRefreshing
    requires i < |errs| && Qualifies(errs[i])
    requires forall j :: 0 <= j < i ==> !Qualifies(errs[j])
    ensures Burst(s, errs).inFlight.Some?
    ensures var t := Burst(s, errs); var st := Settle(t, Succeeded);
      && Replays(st.waiters + [st.caller]) == Configs(Parked(errs[i + 1..])) + [errs[i].config.value.(retry := true)]
      && Valid(st.state) && !st.state.isRefreshing && st.state.queue == []
      && st.state.refreshCalls == s.refreshCalls + 1
  {
    BurstFromIdle(s, errs, i);
    var t := Burst(s, errs);
    assert t.queue == Parked(errs[i + 1..]);
    SuccessReplaysInOrder(t);
  }

  // ---------------------------------------------------------------------------
  // The module-level state, updated in place

  /** The module's `isRefreshing` and `failedQueue` with the bookkeeping the
      model adds (POSTs issued, the suspended initiator). */
  class Coordinator {
    var isRefreshing: bool
    var queue: seq<Waiter>
    var refreshCalls: nat
    var inFlight: Option<Config>

    function Snapshot(): State
      reads this
    {
      State(isRefreshing, queue, refreshCalls, inFlight)
    }

    constructor ()
      ensures Snapshot() == Initial() && Valid(Snapshot())
    {
      isRefreshing, queue, refreshCalls, inFlight := false, [], 0, None;
    }

    /** The error handler registered with `interceptors.response.use`, up to
        its `await`. */
    method OnError(err: AxiosError) returns (r: Reaction)
      modifies this
      ensures Stepped(Snapshot(), r) == Intercept(old(Snapshot()), err)
    {
      ghost var s := Snapshot();
      var originalRequest := err.config;
      if err.status == Some(Unauthorized) && originalRequest.Some? && !originalRequest.value.retry {
        if isRefreshing {
          queue := queue + [Waiter(originalRequest.value)];
          return Enqueued;
        }
        var marked := originalRequest.value.(retry := true);
        isRefreshing := true;
        refreshCalls := refreshCalls + 1;
        inFlight := Some(marked);
        r := StartedRefresh(RefreshPath, EmptyBody);
        assert Snapshot() == s.(isRefreshing := true, refreshCalls := s.refreshCalls + 1, inFlight := Some(marked));
        return;
      }
      return Rejected(err);
    }

    /** `processQueue(error)`: each waiter settled once in queue order, then
        the queue is reset to empty. */
    method ProcessQueue(error: Option<AxiosError>) returns (fates: seq<Fate>)
      modifies this`queue
      ensures fates == QueueFates(old(queue), error)
      ensures queue == []
    {
      fates := [];
      for i := 0 to |queue|
        invariant |fates| == i
        invariant forall k :: 0 <= k < i ==> fates[k] == WaiterFate(queue[k], error)
      {
        if error.Some? {
          fates := fates + [Reject(error.value)];
        } else {
          fates := fates + [Replay(queue[i].config)];
        }
      }
      queue := [];
    }

    /** The rest of the initiator's run once the awaited POST ends; the
        `finally` lowers the flag on both paths. */
    method CompleteRefresh(outcome: RefreshOutcome) returns (waiters: seq<Fate>, caller: Fate)
      requires inFlight.Some?
      modifies this
      ensures Settlement(Snapshot(), waiters, caller) == Settle(old(Snapshot()), outcome)
    {
      var originalRequest := inFlight.value;
      match outcome {
        case Succeeded =>
          waiters := ProcessQueue(None);
          caller := Replay(originalRequest);
        case Failed(refreshError) =>
          waiters := ProcessQueue(Some(refreshError));
          caller := Reject(refreshError);
      }
      isRefreshing := false;
      inFlight := None;
    }
  }
}
