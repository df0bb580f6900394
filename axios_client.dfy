/** The response interceptor of axiosClient.ts: a module-level `isRefreshing`
    flag and `failedQueue`, the `_retry` marker set as soon as a 401 passes the
    guard, a refresh POST that carries the `refreshToken` cookie and is itself
    sent through this interceptor, and expired cookies written on failure.

    The interceptor's asynchronous run is cut at its one `await` into two
    events: Intercept (the error arrives) and Settle (the refresh POST ends).
    `inFlight` is the request of the run suspended at that `await`. */
module AxiosClient {

  import opened Axios
  import CookieParser

  /** `isRefreshing`, `failedQueue`, the number of refresh POSTs issued, the
      suspended initiator, and whether the catch block wrote expired
      `accessToken` and `refreshToken` cookies through `document.cookie`. */
  datatype State = State(
    isRefreshing: bool,
    queue: seq<Waiter>,
    refreshCalls: nat,
    inFlight: Option<Config>,
    expiredCookiesWritten: bool)

  /** The module's state when it is first loaded. */
  function Initial(): State
  {
    State(false, [], 0, None, false)
  }

  /** The condition under which a refresh run exists and can complete:
      the flag is up exactly while an initiator awaits the POST, nobody waits
      without a refresh, and every parked or in-flight request is marked. */
  predicate Valid(s: State)
  {
    && (s.isRefreshing <==> s.inFlight.Some?)
    && (!s.isRefreshing ==> s.queue == [])
    && (s.inFlight.Some? ==> s.inFlight.value.retry)
    && forall k :: 0 <= k < |s.queue| ==> s.queue[k].config.retry
  }

  /** The flag is up but no run is left to lower it. */
  predicate Wedged(s: State)
  {
    s.isRefreshing && s.inFlight.None?
  }

  /** An error the coordinator takes on: it has a config, its status is 401
      and the request is not yet marked `_retry`. */
  predicate Qualifies(err: AxiosError)
  {
    err.config.Some? && err.status == Some(Unauthorized) && !err.config.value.retry
  }

  /** The request of a qualifying error after `originalRequest._retry = true`. */
  function Marked(err: AxiosError): Config
    requires err.config.Some?
  {
    err.config.value.(retry := true)
  }

  /** The interceptor's error handler up to its `await`. */
  function Intercept(s: State, err: AxiosError, documentCookie: string): Stepped<State>
  {
    if Qualifies(err) then
      var originalRequest := Marked(err);
      if s.isRefreshing then
        Stepped(s.(queue := s.queue + [Waiter(originalRequest)]), Enqueued)
      else
        Stepped(s.(isRefreshing := true, refreshCalls := s.refreshCalls + 1, inFlight := Some(originalRequest)),
                StartedRefresh(RefreshPath, TokenBody(CookieParser.RefreshToken(documentCookie))))
    else Stepped(s, Rejected(err))
  }

  /** `error ? reject(error) : resolve`: on success `resolve` is only named,
      never called, so the waiter's promise stays pending. */
  function WaiterFate(w: Waiter, error: Option<AxiosError>): Fate
  {
    if error.Some? then Reject(error.value) else Pending
  }

  /** The fates `processQueue(error)` gives the waiters of `q`. */
  function QueueFates(q: seq<Waiter>, error: Option<AxiosError>): seq<Fate>
  {
    Release(q, w => WaiterFate(w, error))
  }

  /** The try block after the POST resolved, then `finally`. */
  function SuccessPath(s: State): Settlement<State>
    requires s.inFlight.Some?
  {
    Settlement(s.(isRefreshing := false, queue := [], inFlight := None),
               QueueFates(s.queue, None), Replay(s.inFlight.value))
  }

  /** The catch block with `refreshError`, then `finally`. */
  function CatchPath(s: State, refreshError: AxiosError): Settlement<State>
  {
    Settlement(s.(isRefreshing := false, queue := [], inFlight := None, expiredCookiesWritten := true),
               QueueFates(s.queue, Some(refreshError)), Reject(refreshError))
  }

  /** The end of the awaited `axiosClient.post('/auth/tokens', ...)`. That POST
      goes through this very interceptor: a failure that qualifies (its 401,
      on a fresh config) is parked in `failedQueue` like any other, so the
      awaiting initiator never resumes and its `finally` never runs. Any other
      failure reaches the catch block unchanged. */
  function Settle(s: State, outcome: RefreshOutcome): Settlement<State>
    requires s.isRefreshing && s.inFlight.Some?
  {
    match outcome
    case Succeeded => SuccessPath(s)
    case Failed(e) =>
      if Qualifies(e) then
        Settlement(s.(queue := s.queue + [Waiter(Marked(e))], inFlight := None), [], Pending)
      else CatchPath(s, e)
  }

  /** What `resolve` was evidently meant to do: replay the waiter's request. */
  function WaiterFateIntended(w: Waiter, error: Option<AxiosError>): Fate
  {
    if error.Some? then Reject(error.value) else Replay(w.config)
  }

  /** Settle with both defects of the file removed: waiters are resolved on
      success, and the POST's failure reaches the catch block whatever its
      status (as when it is sent with plain `axios`). */
  function SettleIntended(s: State, outcome: RefreshOutcome): Settlement<State>
    requires s.inFlight.Some?
  {
    match outcome
    case Succeeded =>
      Settlement(s.(isRefreshing := false, queue := [], inFlight := None),
                 Release(s.queue, w => WaiterFateIntended(w, None)), Replay(s.inFlight.value))
    case Failed(e) => CatchPath(s, e)
  }

  /** Errors intercepted one after another, all seeing the same cookie string. */
  function Burst(s: State, errs: seq<AxiosError>, documentCookie: string): State
    decreases |errs|
  {
    if errs == [] then s else Burst(Intercept(s, errs[0], documentCookie).state, errs[1..], documentCookie)
  }

  /** The waiters the qualifying errors of `errs` park, in arrival order. */
  function Parked(errs: seq<AxiosError>): seq<Waiter>
  {
    if errs == [] then []
    else (if Qualifies(errs[0]) then [Waiter(Marked(errs[0]))] else []) + Parked(errs[1..])
  }

  // ---------------------------------------------------------------------------
  // One interception

  /** An error without config, a status other than 401, or a request already
      marked `_retry` is rejected with that same error and changes nothing;
      every qualifying error is taken on. */
  lemma GuardRejectsUnchanged(s: State, err: AxiosError, documentCookie: string)
    ensures !Qualifies(err) ==> Intercept(s, err, documentCookie) == Stepped(s, Rejected(err))
    ensures Qualifies(err) ==> !Intercept(s, err, documentCookie).reaction.Rejected?
  {
  }

  /** While a refresh runs, a qualifying error appends exactly one waiter, its
      request already marked, to the end of the queue and issues no POST. */
  lemma EnqueueWhileRefreshing(s: State, err: AxiosError, documentCookie: string)
    requires Qualifies(err) && s.isRefreshing
    ensures var t := Intercept(s, err, documentCookie);
      && t.reaction == Enqueued
      && t.state == s.(queue := s.queue + [Waiter(err.config.value.(retry := true))])
  {
  }

  /** When idle, a qualifying error raises the flag, issues exactly one
      `POST /auth/tokens` carrying the `refreshToken` cookie's value, becomes
      the marked in-flight request, and leaves the queue alone. */
  lemma StartWhenIdle(s: State, err: AxiosError, documentCookie: string)
    requires Qualifies(err) && !s.isRefreshing
    ensures var t := Intercept(s, err, documentCookie);
      && t.reaction == StartedRefresh("/auth/tokens", TokenBody(CookieParser.RefreshToken(documentCookie)))
      && t.state.isRefreshing && t.state.refreshCalls == s.refreshCalls + 1
      && t.state.inFlight == Some(err.config.value.(retry := true))
      && t.state.queue == s.queue && t.state.expiredCookiesWritten == s.expiredCookiesWritten
  {
  }

  /** Interception keeps the coordinator consistent. */
  lemma InterceptPreservesValid(s: State, err: AxiosError, documentCookie: string)
    requires Valid(s)
    ensures Valid(Intercept(s, err, documentCookie).state)
  {
  }

  /** Every request a settlement sends again is marked `_retry`, so a 401 on
      the replay is rejected unchanged instead of being retried a second time. */
  lemma ReplayIsNeverRetriedTwice(s: State, outcome: RefreshOutcome, again: AxiosError, documentCookie: string)
    requires Valid(s) && s.isRefreshing
    requires Settle(s, outcome).caller.Replay? && again.config == Some(Settle(s, outcome).caller.config)
    ensures Intercept(Settle(s, outcome).state, again, documentCookie)
      == Stepped(Settle(s, outcome).state, Rejected(again))
  {
  }

  // ---------------------------------------------------------------------------
  // processQueue and the end of a refresh

  /** `processQueue(error)` rejects every waiter with that same error. */
  lemma ProcessQueueRejectsAll(q: seq<Waiter>, e: AxiosError)
    ensures |QueueFates(q, Some(e))| == |q|
    ensures forall k :: 0 <= k < |q| ==> QueueFates(q, Some(e))[k] == Reject(e)
  {
  }

  /** `processQueue(null)` settles no waiter and replays none of them, and the
      queue it empties leaves them stranded: this is how the file is written,
      and it fails the intended property that every waiter is settled. */
  lemma SuccessStrandsWaiters(s: State)
    requires s.isRefreshing && s.inFlight.Some? && s.queue != []
    ensures var st := Settle(s, Succeeded);
      && st.state.queue == [] && |st.waiters| == |s.queue|
      && !EverySettled(st.waiters)
      && forall k :: 0 <= k < |st.waiters| ==> st.waiters[k] == Pending
  {
  }

  /** A refresh failure that reaches the catch block rejects every waiter and
      the initiator with that same error, writes expired `accessToken` and
      `refreshToken` cookies,
      empties the queue and lowers the flag. */
  lemma RefreshFailureWritesExpiredCookies(s: State, e: AxiosError)
    requires s.isRefreshing && s.inFlight.Some? && !Qualifies(e)
    ensures var st := Settle(s, Failed(e));
      && st.caller == Reject(e)
      && |st.waiters| == |s.queue| && (forall k :: 0 <= k < |s.queue| ==> st.waiters[k] == Reject(e))
      && st.state.expiredCookiesWritten
      && !st.state.isRefreshing && st.state.queue == [] && st.state.inFlight == None
      && st.state.refreshCalls == s.refreshCalls
  {
  }

  /** Every settlement that the catch block or the success path produces
      returns the coordinator to a consistent idle state. */
  lemma SettlePreservesValid(s: State, outcome: RefreshOutcome)
    requires Valid(s) && s.isRefreshing
    requires !(outcome.Failed? && Qualifies(outcome.error))
    ensures var t := Settle(s, outcome).state;
      Valid(t) && !t.isRefreshing && t.queue == [] && t.refreshCalls == s.refreshCalls
  {
  }

  /** As written, a 401 from the refresh POST itself is parked behind the
      refresh it belongs to: the initiator and the waiters are never
      settled, and the flag stays up with nobody left to lower it. */
  lemma RefreshUnauthorizedWedges(s: State, e: AxiosError)
    requires Valid(s) && s.isRefreshing && Qualifies(e)
    ensures var st := Settle(s, Failed(e));
      && Wedged(st.state) && !Valid(st.state)
      && st.caller == Pending && st.waiters == []
      && st.state.queue == s.queue + [Waiter(Marked(e))]
  {
  }

  /** Once wedged, any later errors leave it wedged and issue no POST: every
      qualifying one is parked for good. */
  lemma WedgeIsPermanent(s: State, errs: seq<AxiosError>, documentCookie: string)
    requires Wedged(s)
    ensures var t := Burst(s, errs, documentCookie);
      && Wedged(t) && t.refreshCalls == s.refreshCalls && t.queue == s.queue + Parked(errs)
  {
    BurstWhileRefreshing(s, errs, documentCookie);
  }

  /** The corrected settlement replays each waiter's own request, in queue
      order, when the refresh succeeds. */
  lemma IntendedSuccessReplaysEach(s: State)
    requires s.inFlight.Some?
    ensures var st := SettleIntended(s, Succeeded);
      && |st.waiters| == |s.queue| && EverySettled(st.waiters)
      && (forall k :: 0 <= k < |s.queue| ==> st.waiters[k] == Replay(s.queue[k].config))
      && st.caller == Replay(s.inFlight.value)
  {
  }

  /** The corrected settlement lowers the flag, empties the queue and settles
      every waiter and the initiator on every outcome, so a later independent
      401 starts a fresh refresh. */
  lemma IntendedFailureResets(s: State, outcome: RefreshOutcome, err: AxiosError, documentCookie: string)
    requires Valid(s) && s.isRefreshing && Qualifies(err)
    ensures var st := SettleIntended(s, outcome);
      && Valid(st.state) && !st.state.isRefreshing && st.state.queue == []
      && EverySettled(st.waiters) && !st.caller.Pending?
      && Intercept(st.state, err, documentCookie).reaction.StartedRefresh?
  {
  }

  // ---------------------------------------------------------------------------
  // Several interceptions: one refresh per cycle

  /** While a refresh runs, any number of errors issue no POST and park
      exactly the qualifying ones, in arrival order, behind those already
      waiting. */
  lemma {:induction false} BurstWhileRefreshing(s: State, errs: seq<AxiosError>, documentCookie: string)
    requires s.isRefreshing
    ensures var t := Burst(s, errs, documentCookie);
      && t.isRefreshing && t.refreshCalls == s.refreshCalls
      && t.queue == s.queue + Parked(errs)
      && t.inFlight == s.inFlight && t.expiredCookiesWritten == s.expiredCookiesWritten
    decreases |errs|
  {
    if errs != [] {
      var s1 := Intercept(s, errs[0], documentCookie).state;
      BurstWhileRefreshing(s1, errs[1..], documentCookie);
      var head := if Qualifies(errs[0]) then [Waiter(Marked(errs[0]))] else [];
      assert s1.queue == s.queue + head;
      assert Parked(errs) == head + Parked(errs[1..]);
      assert s.queue + head + Parked(errs[1..]) == s.queue + (head + Parked(errs[1..]));
    }
  }

  /** Errors that do not qualify change nothing. */
  lemma {:induction false} BurstOfRejected(s: State, errs: seq<AxiosError>, documentCookie: string)
    requires forall j :: 0 <= j < |errs| ==> !Qualifies(errs[j])
    ensures Burst(s, errs, documentCookie) == s
    decreases |errs|
  {
    if errs != [] {
      BurstOfRejected(s, errs[1..], documentCookie);
    }
  }

  /** Single flight: from idle, the first qualifying error of a burst issues
      the one POST and becomes the in-flight request; every later qualifying
      error is parked, so the burst issues exactly one POST. */
  lemma {:induction false} BurstFromIdle(s: State, errs: seq<AxiosError>, documentCookie: string, i: nat)
    requires !s.isRefreshing
    requires i < |errs| && Qualifies(errs[i])
    requires forall j :: 0 <= j < i ==> !Qualifies(errs[j])
    ensures var t := Burst(s, errs, documentCookie);
      && t.isRefreshing && t.refreshCalls == s.refreshCalls + 1
      && t.inFlight == Some(Marked(errs[i]))
      && t.queue == s.queue + Parked(errs[i + 1..])
    decreases |errs|
  {
    if i == 0 {
      var s1 := Intercept(s, errs[0], documentCookie).state;
      BurstWhileRefreshing(s1, errs[1..], documentCookie);
    } else {
      BurstFromIdle(s, errs[1..], documentCookie, i - 1);
      assert errs[1..][i..] == errs[i + 1..];
    }
  }

  /** A whole successful cycle from a consistent idle state: N errors arrive,
      the first qualifying one issues the single POST, and on success only
      the initiator's request is sent again; the later qualifying callers are
      dropped from the queue unsettled. */
  lemma RefreshCycle(s: State, errs: seq<AxiosError>, documentCookie: string, i: nat)
    requires Valid(s) && !s.isRefreshing
    requires i < |errs| && Qualifies(errs[i])
    requires forall j :: 0 <= j < i ==> !Qualifies(errs[j])
    ensures Burst(s, errs, documentCookie).isRefreshing && Burst(s, errs, documentCookie).inFlight.Some?
    ensures var t := Burst(s, errs, documentCookie); var st := Settle(t, Succeeded);
      && Replays(st.waiters + [st.caller]) == [Marked(errs[i])]
      && |st.waiters| == |Parked(errs[i + 1..])|
      && (forall k :: 0 <= k < |st.waiters| ==> st.waiters[k] == Pending)
      && Valid(st.state) && !st.state.isRefreshing && st.state.queue == []
      && st.state.refreshCalls == s.refreshCalls + 1
  {
    BurstFromIdle(s, errs, documentCookie, i);
    var t := Burst(s, errs, documentCookie);
    var st := Settle(t, Succeeded);
    assert t.queue == Parked(errs[i + 1..]);
    NoReplays(st.waiters);
    ReplaysAppend(st.waiters, [st.caller]);
    assert Replays([st.caller]) == [Marked(errs[i])];
  }

  /** Fates that are all pending replay nothing. */
  lemma {:induction false} NoReplays(fates: seq<Fate>)
    requires forall k :: 0 <= k < |fates| ==> fates[k] == Pending
    ensures Replays(fates) == []
  {
    if fates != [] {
      NoReplays(fates[1..]);
    }
  }

  // ---------------------------------------------------------------------------
  // The module-level state, updated in place

  /** The module's `isRefreshing` and `failedQueue` with the bookkeeping the
      model adds (POSTs issued, the suspended initiator, the expired-cookie
      writes). */
  class Coordinator {
    var isRefreshing: bool
    var queue: seq<Waiter>
    var refreshCalls: nat
    var inFlight: Option<Config>
    var expiredCookiesWritten: bool

    function Snapshot(): State
      reads this
    {
      State(isRefreshing, queue, refreshCalls, inFlight, expiredCookiesWritten)
    }

    constructor ()
      ensures Snapshot() == Initial() && Valid(Snapshot())
    {
      isRefreshing, queue, refreshCalls, inFlight, expiredCookiesWritten := false, [], 0, None, false;
    }

    /** The error handler registered with `interceptors.response.use`, up to
        its `await`; `documentCookie` is the current `document.cookie`. */
    method OnError(err: AxiosError, documentCookie: string) returns (r: Reaction)
      modifies this
      ensures Stepped(Snapshot(), r) == Intercept(old(Snapshot()), err, documentCookie)
    {
      ghost var s := Snapshot();
      if err.config.None? {
        return Rejected(err);
      }
      var originalRequest := err.config.value;
      if err.status == Some(Unauthorized) && !originalRequest.retry {
        originalRequest := originalRequest.(retry := true);
        if isRefreshing {
          queue := queue + [Waiter(originalRequest)];
          return Enqueued;
        }
        isRefreshing := true;
        var refreshToken := CookieParser.RefreshToken(documentCookie);
        refreshCalls := refreshCalls + 1;
        inFlight := Some(originalRequest);
        r := StartedRefresh(RefreshPath, TokenBody(refreshToken));
        assert Snapshot() == s.(isRefreshing := true, refreshCalls := s.refreshCalls + 1, inFlight := Some(originalRequest));
        return;
      }
      return Rejected(err);
    }

    /** `processQueue(error)`: one fate per waiter in queue order, then the
        queue is reset to empty. */
    method ProcessQueue(error: Option<AxiosError>) returns (fates: seq<Fate>)
      modifies this`queue
      ensures fates == QueueFates(old(queue), error)
      ensures queue == []
    {
      fates := [];
      for i := 0 to |queue|
        invariant |fates| == i
        invariant forall k :: 0 <= k < i ==> fates[k] == WaiterFate(queue[k], error)
      {
        fates := fates + [WaiterFate(queue[i], error)];
      }
      queue := [];
    }

    /** The rest of the initiator's run once the awaited POST ends. */
    method CompleteRefresh(outcome: RefreshOutcome) returns (waiters: seq<Fate>, caller: Fate)
      requires isRefreshing && inFlight.Some?
      modifies this
      ensures Settlement(Snapshot(), waiters, caller) == Settle(old(Snapshot()), outcome)
    {
      var originalRequest := inFlight.value;
      match outcome
      case Succeeded =>
        waiters := ProcessQueue(None);
        caller := Replay(originalRequest);
        isRefreshing := false;
        inFlight := None;
      case Failed(e) =>
        if Qualifies(e) {
          queue := queue + [Waiter(Marked(e))];
          inFlight := None;
          waiters, caller := [], Pending;
        } else {
          waiters := ProcessQueue(Some(e));
          expiredCookiesWritten := true;
          caller := Reject(e);
          isRefreshing := false;
          inFlight := None;
        }
    }
  }
}
