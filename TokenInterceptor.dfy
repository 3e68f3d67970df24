/**
 * The response interceptor that `registerInterceptTokenManager` installs on the
 * backend's axios instance: a 401 carrying `token.expired` or `token.invalid`
 * either starts the one refresh of the session token or waits for it in a
 * FIFO queue; every other error is normalised into an `AppError`.
 *
 * Each step of the interceptor runs without suspending between reading and
 * writing `isRefreshing` and the queue, so one call of the error handler, the
 * settling of a successful refresh and the settling of a failed refresh are
 * each one atomic event here. `Gate` is the state as a value and `HandleError`,
 * `CompleteRefresh` and `FailRefresh` are the events as functions; the class
 * `TokenManager` holds the same state in fields and is proved to follow them.
 */
module TokenInterceptor {
  import opened Wrappers

  /** Each call of the error handler (one failing request) gets its own id. */
  type ReqId = nat

  /** The parts of an axios error that the handler inspects. */
  datatype HttpError = HttpError(
    hasResponse: bool,            // `requestError.response` is set
    status: int,                  // `response.status`
    hasData: bool,                // `response.data` is truthy
    dataMessage: Option<string>,  // `response.data.message`, possibly undefined
    message: Option<string>,      // `requestError.message`
    hasBody: bool)                // `requestError.config.data` is truthy

  /** The front end's `AppError`: a message that may be undefined. */
  datatype AppError = AppError(message: Option<string>)

  /** Why the promise returned for a failing request was rejected. */
  datatype Rejection =
    | Normalized(app: AppError)   // the AppError built from the error
    | Original(err: HttpError)    // the error itself, untouched
    | RefreshError(cause: string) // what the refresh attempt threw

  type Headers = map<string, string>

  /** The fate of the promise returned for one failing request. */
  datatype Outcome =
    | Waiting                    // not settled: waiting for the refresh
    | Rejected(reason: Rejection)
    | Resumed(headers: Headers)  // resolved with a replay whose config's headers were replaced by these

  /** The token pair in the credential store. */
  datatype Pair = Pair(token: string, refreshToken: string)

  /** The request whose 401 started the refresh and awaits it directly. */
  datatype Driver = Driver(id: ReqId, hasBody: bool)

  /** What the interceptor has done outside its own variables. */
  datatype Effects = Effects(
    signOutCalls: nat,
    refreshRequests: seq<string>,
    settledRefreshes: nat,
    defaultAuth: Option<string>,
    stored: Option<Pair>,
    replays: seq<ReqId>,
    parsedBodies: seq<ReqId>,
    rejections: seq<ReqId>)

  datatype Gate = Gate(
    isRefreshing: bool,
    queue: seq<ReqId>,               // `failedQueue`, oldest first
    driver: Option<Driver>,
    signOutCalls: nat,
    refreshRequests: seq<string>,    // the refresh token sent by each refresh call
    settledRefreshes: nat,           // refresh calls that have succeeded or failed
    defaultAuth: Option<string>,     // `axiosInstance.defaults.headers.common['Authorization']`
    stored: Option<Pair>,            // the pair last saved by the interceptor
    outcomes: map<ReqId, Outcome>,
    replays: seq<ReqId>,             // requests re-sent after a refresh, in order
    parsedBodies: seq<ReqId>,        // requests whose body was JSON-parsed
    rejections: seq<ReqId>,          // requests rejected with a refresh error, in order
    nextId: ReqId)

  const Expired := "token.expired"
  const Invalid := "token.invalid"
  const UnknownError := "Unknown error"

  /** A JavaScript value that is a string is truthy when it is not empty. */
  predicate Truthy(s: Option<string>)
  {
    s.Some? && s.value != ""
  }

  predicate Is401(e: HttpError)
  {
    e.hasResponse && e.status == 401
  }

  /** `response.data?.message` is one of the two sentinels. */
  predicate IsSentinel(e: HttpError)
  {
    e.hasData && (e.dataMessage == Some(Expired) || e.dataMessage == Some(Invalid))
  }

  /** The headers a replay is sent with: the old headers object is replaced, not merged. */
  function BearerHeaders(token: string): (h: Headers)
    ensures h.Keys == {"Authorization"} && h["Authorization"] == "Bearer " + token
  {
    map["Authorization" := "Bearer " + token]
  }

  /** A successful response goes through the interceptor unchanged. */
  function OnFulfilled<R>(response: R): (r: R)
    ensures r == response
  {
    response
  }

  /**
   * The error every non-refresh path rejects with: the backend's message when
   * the error has a response with data (even an undefined one), otherwise the
   * error's own message, or "Unknown error" when that is empty or missing.
   */
  function Normalize(e: HttpError): (a: AppError)
    ensures e.hasResponse && e.hasData ==> a.message == e.dataMessage
    ensures !(e.hasResponse && e.hasData) ==> Truthy(a.message)
    ensures !(e.hasResponse && e.hasData) && Truthy(e.message) ==> a.message == e.message
    ensures !(e.hasResponse && e.hasData) && !Truthy(e.message) ==> a.message == Some(UnknownError)
  {
    if e.hasResponse && e.hasData then AppError(e.dataMessage)
    else if Truthy(e.message) then AppError(e.message)
    else AppError(Some(UnknownError))
  }

  function Init(stored: Option<Pair>, defaultAuth: Option<string>): Gate
  {
    Gate(false, [], None, 0, [], 0, defaultAuth, stored, map[], [], [], [], 0)
  }

  predicate IsDriver(g: Gate, id: ReqId)
  {
    g.driver.Some? && g.driver.value.id == id
  }

  /** The ids of a queue strictly increase: it is in arrival order and holds no id twice. */
  predicate Increasing(q: seq<ReqId>)
  {
    forall i, j :: 0 <= i < j < |q| ==> q[i] < q[j]
  }

  /**
   * The refresh state's invariant: the queue is empty and there is no driver
   * unless a refresh is in flight; exactly one refresh call is outstanding
   * while refreshing and none otherwise; the waiting promises are exactly the
   * queued requests and the driver.
   */
  ghost predicate Inv(g: Gate)
  {
    && (!g.isRefreshing ==> g.queue == [] && g.driver.None?)
    && (g.isRefreshing ==> g.driver.Some?)
    && |g.refreshRequests| == g.settledRefreshes + (if g.isRefreshing then 1 else 0)
    && Increasing(g.queue)
    && (forall id :: id in g.outcomes ==> id < g.nextId)
    && (forall id :: id in g.queue ==> id in g.outcomes)
    && (g.driver.Some? ==> g.driver.value.id in g.outcomes && g.driver.value.id !in g.queue)
    && (forall id :: id in g.outcomes ==>
          (g.outcomes[id] == Waiting <==> id in g.queue || IsDriver(g, id)))
  }

  lemma InitInv(stored: Option<Pair>, defaultAuth: Option<string>)
    ensures Inv(Init(stored, defaultAuth))
  {
  }

  /**
   * One call of the error handler for error `e`, with `storedRefresh` the
   * refresh token it read from the credential store. Returns the new state and
   * the id given to this call.
   */
  function HandleError(g: Gate, e: HttpError, storedRefresh: Option<string>): (res: (Gate, ReqId))
    // the call gets a fresh id and its promise settles now or waits
    ensures res.1 == g.nextId && res.0.nextId == g.nextId + 1
    ensures res.0.outcomes.Keys == g.outcomes.Keys + {res.1}
    ensures forall id :: id in g.outcomes && id != res.1 ==> res.0.outcomes[id] == g.outcomes[id]
    // nothing here touches the credentials, the replays or the parsed bodies
    ensures res.0.stored == g.stored && res.0.defaultAuth == g.defaultAuth
    ensures res.0.replays == g.replays && res.0.parsedBodies == g.parsedBodies
    ensures res.0.rejections == g.rejections
    ensures res.0.settledRefreshes == g.settledRefreshes
  {
    var id := g.nextId;
    var g1 := g.(nextId := id + 1);
    if Is401(e) then
      if IsSentinel(e) then
        if !Truthy(storedRefresh) then
          (g1.(signOutCalls := g.signOutCalls + 1, outcomes := g.outcomes[id := Rejected(Original(e))]), id)
        else if g.isRefreshing then
          (g1.(queue := g.queue + [id], outcomes := g.outcomes[id := Waiting]), id)
        else
          (g1.(isRefreshing := true, driver := Some(Driver(id, e.hasBody)),
               refreshRequests := g.refreshRequests + [storedRefresh.value],
               outcomes := g.outcomes[id := Waiting]), id)
      else
        (g1.(signOutCalls := g.signOutCalls + 1, outcomes := g.outcomes[id := Rejected(Normalized(Normalize(e)))]), id)
    else
      (g1.(outcomes := g.outcomes[id := Rejected(Normalized(Normalize(e)))]), id)
  }

  /**
   * What one call of the error handler does to its own promise and to the
   * refresh state, case by case: only a sentinel 401 with a refresh token
   * waits, only such a 401 seen while idle starts a refresh call, and every
   * other 401 signs the user out once.
   */
  lemma HandleErrorCases(g: Gate, e: HttpError, storedRefresh: Option<string>)
    ensures var (r, id) := HandleError(g, e, storedRefresh);
      && (!Is401(e) ==>
            r.outcomes[id] == Rejected(Normalized(Normalize(e))) && r.signOutCalls == g.signOutCalls)
      && (Is401(e) && !IsSentinel(e) ==>
            r.outcomes[id] == Rejected(Normalized(Normalize(e))) && r.signOutCalls == g.signOutCalls + 1)
      && (Is401(e) && IsSentinel(e) && !Truthy(storedRefresh) ==>
            r.outcomes[id] == Rejected(Original(e)) && r.signOutCalls == g.signOutCalls + 1)
      && (Is401(e) && IsSentinel(e) && Truthy(storedRefresh) ==>
            r.outcomes[id] == Waiting && r.signOutCalls == g.signOutCalls && r.isRefreshing)
      && (Is401(e) && IsSentinel(e) && Truthy(storedRefresh) && g.isRefreshing ==>
            r.queue == g.queue + [id] && r.driver == g.driver && r.refreshRequests == g.refreshRequests)
      && (Is401(e) && IsSentinel(e) && Truthy(storedRefresh) && !g.isRefreshing ==>
            r.queue == g.queue && r.driver == Some(Driver(id, e.hasBody))
            && r.refreshRequests == g.refreshRequests + [storedRefresh.value])
      && (!(Is401(e) && IsSentinel(e) && Truthy(storedRefresh)) ==>
            r.isRefreshing == g.isRefreshing && r.queue == g.queue && r.driver == g.driver
            && r.refreshRequests == g.refreshRequests)
  {
  }

  /** `m` with every id of `ids` mapped to `o`, assigned in order. */
  function SettleAll(m: map<ReqId, Outcome>, ids: seq<ReqId>, o: Outcome): map<ReqId, Outcome>
    decreases |ids|
  {
    if ids == [] then m else SettleAll(m, ids[..|ids| - 1], o)[ids[|ids| - 1] := o]
  }

  /** Settling adds exactly `ids` to the domain, maps each of them to `o` and keeps every other entry. */
  lemma {:induction false} SettleAllFacts(m: map<ReqId, Outcome>, ids: seq<ReqId>, o: Outcome)
    ensures forall id :: id in SettleAll(m, ids, o) <==> id in m || id in ids
    ensures forall id :: id in ids ==> id in SettleAll(m, ids, o) && SettleAll(m, ids, o)[id] == o
    ensures forall id :: id in m && id !in ids ==> id in SettleAll(m, ids, o) && SettleAll(m, ids, o)[id] == m[id]
    decreases |ids|
  {
    if ids != [] {
      var init := ids[..|ids| - 1];
      SettleAllFacts(m, init, o);
      assert forall id :: id in ids <==> id in init || id == ids[|ids| - 1];
    }
  }

  /**
   * The refresh call returned `token`/`refreshToken` and saving them
   * succeeded: the pair is stored, the default header and every waiting
   * request's headers become `Bearer token`, the queue is replayed oldest
   * first and the driver last, only the driver's body is parsed, and the
   * refresh state is cleared.
   */
  function CompleteRefresh(g: Gate, token: string, refreshToken: string): (r: Gate)
    requires g.isRefreshing && g.driver.Some?
    ensures !r.isRefreshing && r.queue == [] && r.driver.None?
    ensures r.stored == Some(Pair(token, refreshToken))
    ensures r.defaultAuth == Some("Bearer " + token)
    ensures r.replays == g.replays + g.queue + [g.driver.value.id]
    ensures r.parsedBodies == g.parsedBodies + (if g.driver.value.hasBody then [g.driver.value.id] else [])
    ensures forall id :: id in g.queue || id == g.driver.value.id ==>
      id in r.outcomes && r.outcomes[id] == Resumed(BearerHeaders(token))
    ensures forall id :: id in g.outcomes && id !in g.queue && id != g.driver.value.id ==>
      id in r.outcomes && r.outcomes[id] == g.outcomes[id]
    ensures r.signOutCalls == g.signOutCalls && r.refreshRequests == g.refreshRequests
    ensures r.rejections == g.rejections
    ensures r.settledRefreshes == g.settledRefreshes + 1 && r.nextId == g.nextId
  {
    var d := g.driver.value;
    var h := BearerHeaders(token);
    SettleAllFacts(g.outcomes, g.queue + [d.id], Resumed(h));
    g.(isRefreshing := false, queue := [], driver := None,
       settledRefreshes := g.settledRefreshes + 1,
       defaultAuth := Some("Bearer " + token),
       stored := Some(Pair(token, refreshToken)),
       outcomes := SettleAll(g.outcomes, g.queue + [d.id], Resumed(h)),
       replays := g.replays + g.queue + [d.id],
       parsedBodies := g.parsedBodies + (if d.hasBody then [d.id] else []))
  }

  /**
   * The refresh call or saving its result threw `cause`: every queued request,
   * oldest first, and then the driver are rejected with it, the `catch` calls
   * signOut once, nothing is retried or replayed, and the refresh state is
   * cleared. This is the `catch` alone: a refresh call that failed with an
   * HTTP error has already passed through `HandleError`.
   */
  function FailRefresh(g: Gate, cause: string): (r: Gate)
    requires g.isRefreshing && g.driver.Some?
    ensures !r.isRefreshing && r.queue == [] && r.driver.None?
    ensures r.signOutCalls == g.signOutCalls + 1
    ensures r.rejections == g.rejections + g.queue + [g.driver.value.id]
    ensures forall id :: id in g.queue || id == g.driver.value.id ==>
      id in r.outcomes && r.outcomes[id] == Rejected(RefreshError(cause))
    ensures forall id :: id in g.outcomes && id !in g.queue && id != g.driver.value.id ==>
      id in r.outcomes && r.outcomes[id] == g.outcomes[id]
    ensures r.stored == g.stored && r.defaultAuth == g.defaultAuth
    ensures r.replays == g.replays && r.parsedBodies == g.parsedBodies
    ensures r.refreshRequests == g.refreshRequests
    ensures r.settledRefreshes == g.settledRefreshes + 1 && r.nextId == g.nextId
  {
    var d := g.driver.value;
    SettleAllFacts(g.outcomes, g.queue + [d.id], Rejected(RefreshError(cause)));
    g.(isRefreshing := false, queue := [], driver := None,
       settledRefreshes := g.settledRefreshes + 1,
       signOutCalls := g.signOutCalls + 1,
       rejections := g.rejections + g.queue + [d.id],
       outcomes := SettleAll(g.outcomes, g.queue + [d.id], Rejected(RefreshError(cause))))
  }

  lemma HandleErrorInv(g: Gate, e: HttpError, storedRefresh: Option<string>)
    requires Inv(g)
    ensures Inv(HandleError(g, e, storedRefresh).0)
  {
    var (r, id) := HandleError(g, e, storedRefresh);
    if Is401(e) && IsSentinel(e) && Truthy(storedRefresh) && g.isRefreshing {
      forall i, j | 0 <= i < j < |r.queue| ensures r.queue[i] < r.queue[j] {
        if j == |g.queue| { assert r.queue[i] in g.outcomes; }
      }
    }
  }

  lemma CompleteRefreshInv(g: Gate, token: string, refreshToken: string)
    requires Inv(g) && g.isRefreshing
    ensures Inv(CompleteRefresh(g, token, refreshToken))
  {
    SettleAllFacts(g.outcomes, g.queue + [g.driver.value.id], Resumed(BearerHeaders(token)));
  }

  lemma FailRefreshInv(g: Gate, cause: string)
    requires Inv(g) && g.isRefreshing
    ensures Inv(FailRefresh(g, cause))
  {
    SettleAllFacts(g.outcomes, g.queue + [g.driver.value.id], Rejected(RefreshError(cause)));
  }

  /** The error handler applied to `errors` in turn, each reading `storedRefresh`. */
  function HandleAll(g: Gate, errors: seq<HttpError>, storedRefresh: Option<string>): Gate
    decreases |errors|
  {
    if errors == [] then g
    else HandleError(HandleAll(g, errors[..|errors| - 1], storedRefresh), errors[|errors| - 1], storedRefresh).0
  }

  /** The ids lo, lo+1, ..., hi-1. */
  function Ids(lo: nat, hi: nat): (s: seq<ReqId>)
    requires lo <= hi
    ensures |s| == hi - lo
    decreases hi - lo
  {
    if lo == hi then [] else Ids(lo, hi - 1) + [hi - 1]
  }

  /** A sentinel 401 with a refresh token, seen while refreshing, only joins the queue. */
  lemma QueueOne(g: Gate, e: HttpError, storedRefresh: Option<string>)
    requires g.isRefreshing && Truthy(storedRefresh) && Is401(e) && IsSentinel(e)
    ensures HandleError(g, e, storedRefresh).0 ==
      g.(nextId := g.nextId + 1, queue := g.queue + [g.nextId], outcomes := g.outcomes[g.nextId := Waiting])
  {
  }

  /** HandleAll unfolded once, at its last error. */
  lemma HandleAllLast(g: Gate, errors: seq<HttpError>, storedRefresh: Option<string>)
    requires |errors| > 0
    ensures HandleAll(g, errors, storedRefresh) ==
      HandleError(HandleAll(g, errors[..|errors| - 1], storedRefresh), errors[|errors| - 1], storedRefresh).0
  {
  }

  lemma SettleAllSnoc(m: map<ReqId, Outcome>, ids: seq<ReqId>, a: ReqId, o: Outcome)
    ensures SettleAll(m, ids + [a], o) == SettleAll(m, ids, o)[a := o]
  {
    assert (ids + [a])[..|ids|] == ids;
  }

  /** `g` after `c` more requests joined the queue and wait. */
  function Joined(g: Gate, c: nat): Gate
  {
    g.(nextId := g.nextId + c,
       queue := g.queue + Ids(g.nextId, g.nextId + c),
       outcomes := SettleAll(g.outcomes, Ids(g.nextId, g.nextId + c), Waiting))
  }

  /** One more request joining the queue, in terms of `Joined`. */
  lemma JoinedStep(g: Gate, c: nat)
    requires c > 0
    ensures Joined(g, c) ==
      var m := Joined(g, c - 1);
      m.(nextId := m.nextId + 1, queue := m.queue + [m.nextId], outcomes := m.outcomes[m.nextId := Waiting])
  {
    var n, j := g.nextId, g.nextId + c - 1;
    var ids := Ids(n, j);
    IdsSnoc(n, j);
    SettleAllSnoc(g.outcomes, ids, j, Waiting);
    AppendAssoc(g.queue, ids, j);
    IdsSame(n, j + 1, g.nextId + c);
  }

  /**
   * Sentinel 401s arriving while a refresh is in flight only join the end of
   * the queue, in arrival order, and wait; no refresh call is added, no one is
   * signed out and nothing else changes.
   */
  lemma {:induction false} JoinWhileRefreshing(g: Gate, errors: seq<HttpError>, storedRefresh: Option<string>)
    requires g.isRefreshing && Truthy(storedRefresh)
    requires forall k :: 0 <= k < |errors| ==> Is401(errors[k]) && IsSentinel(errors[k])
    ensures HandleAll(g, errors, storedRefresh) == Joined(g, |errors|)
    decreases |errors|
  {
    if errors == [] {
      assert g.queue + Ids(g.nextId, g.nextId) == g.queue;
    } else {
      var prefix := errors[..|errors| - 1];
      JoinWhileRefreshing(g, prefix, storedRefresh);
      HandleAllLast(g, errors, storedRefresh);
      QueueOne(Joined(g, |errors| - 1), errors[|errors| - 1], storedRefresh);
      JoinedStep(g, |errors|);
    }
  }

  /** Ids of equal bounds, stated apart so that the solver need not compare the sequences. */
  lemma IdsSame(lo: nat, hi: nat, hi': nat)
    requires lo <= hi && hi == hi'
    ensures Ids(lo, hi) == Ids(lo, hi')
  {
  }

  lemma IdsSnoc(lo: nat, hi: nat)
    requires lo <= hi
    ensures Ids(lo, hi + 1) == Ids(lo, hi) + [hi]
  {
  }

  lemma AppendAssoc(a: seq<ReqId>, b: seq<ReqId>, x: ReqId)
    ensures a + b + [x] == a + (b + [x])
  {
  }

  /** `g` after request `g.nextId` became the driver of a refresh sent with `refreshToken`. */
  function Driven(g: Gate, hasBody: bool, refreshToken: string): Gate
  {
    g.(nextId := g.nextId + 1, isRefreshing := true, driver := Some(Driver(g.nextId, hasBody)),
       refreshRequests := g.refreshRequests + [refreshToken],
       outcomes := g.outcomes[g.nextId := Waiting])
  }

  /** A sentinel 401 with a refresh token, seen while idle, drives a new refresh. */
  lemma DriveOne(g: Gate, e: HttpError, storedRefresh: Option<string>)
    requires !g.isRefreshing && Truthy(storedRefresh) && Is401(e) && IsSentinel(e)
    ensures HandleError(g, e, storedRefresh).0 == Driven(g, e.hasBody, storedRefresh.value)
  {
  }

  /**
   * The state a burst of `k` sentinel 401s leaves from `g` when no refresh
   * was in flight: the first request (id `g.nextId`) drives one refresh call
   * sent with `refreshToken`, the other k-1 wait in the queue in arrival
   * order, and all k promises wait.
   */
  function Burst(g: Gate, hasBody: bool, refreshToken: string, k: nat): Gate
    requires k >= 1
  {
    g.(nextId := g.nextId + k, isRefreshing := true,
       driver := Some(Driver(g.nextId, hasBody)),
       refreshRequests := g.refreshRequests + [refreshToken],
       queue := g.queue + Ids(g.nextId + 1, g.nextId + k),
       outcomes := SettleAll(g.outcomes, Ids(g.nextId, g.nextId + k), Waiting))
  }

  /** A drive followed by joins, `k` requests in all, is a burst. */
  lemma DrivenThenJoined(g: Gate, hasBody: bool, refreshToken: string, k: nat)
    requires k >= 1
    ensures Joined(Driven(g, hasBody, refreshToken), k - 1) == Burst(g, hasBody, refreshToken, k)
  {
    var n := g.nextId;
    var d := Driven(g, hasBody, refreshToken);
    IdsSame(n + 1, d.nextId + (k - 1), n + k);
    SettleAllCons(g.outcomes, n, Ids(n + 1, n + k), Waiting);
    IdsCons(n, n + k);
  }

  /**
   * The central property: when N requests fail with a sentinel 401 while no
   * refresh is in flight, the error handler ends in `Burst`: exactly one
   * refresh call, the other N-1 requests queued in order, no one signed out
   * and nothing else changed.
   */
  lemma {:induction false} OneRefreshPerBurst(g: Gate, errors: seq<HttpError>, storedRefresh: Option<string>)
    requires !g.isRefreshing && Truthy(storedRefresh) && |errors| >= 1
    requires forall k :: 0 <= k < |errors| ==> Is401(errors[k]) && IsSentinel(errors[k])
    ensures HandleAll(g, errors, storedRefresh) == Burst(g, errors[0].hasBody, storedRefresh.value, |errors|)
  {
    var first, rest := errors[..1], errors[1..];
    HandleAllLast(g, first, storedRefresh);
    assert first[..0] == [];
    DriveOne(g, errors[0], storedRefresh);
    JoinWhileRefreshing(Driven(g, errors[0].hasBody, storedRefresh.value), rest, storedRefresh);
    HandleAllSplit(g, first, rest, storedRefresh);
    assert first + rest == errors;
    DrivenThenJoined(g, errors[0].hasBody, storedRefresh.value, |errors|);
  }

  /** Handling `a` then `b` is handling `a + b`. */
  lemma {:induction false} HandleAllSplit(g: Gate, a: seq<HttpError>, b: seq<HttpError>, storedRefresh: Option<string>)
    ensures HandleAll(HandleAll(g, a, storedRefresh), b, storedRefresh) == HandleAll(g, a + b, storedRefresh)
    decreases |b|
  {
    if b == [] {
      assert a + b == a;
    } else {
      var k := |b|;
      HandleAllSplit(g, a, b[..k - 1], storedRefresh);
      assert (a + b)[..|a + b| - 1] == a + b[..k - 1];
      HandleAllLast(HandleAll(g, a, storedRefresh), b, storedRefresh);
      HandleAllLast(g, a + b, storedRefresh);
    }
  }

  /** Settling `a` first and then `ids` is settling `[a] + ids`. */
  lemma {:induction false} SettleAllCons(m: map<ReqId, Outcome>, a: ReqId, ids: seq<ReqId>, o: Outcome)
    ensures SettleAll(m[a := o], ids, o) == SettleAll(m, [a] + ids, o)
    decreases |ids|
  {
    if ids == [] {
      assert ([a] + ids)[..0] == [];
    } else {
      var init := ids[..|ids| - 1];
      SettleAllCons(m, a, init, o);
      assert ([a] + ids)[..|ids|] == [a] + init;
    }
  }

  lemma {:induction false} IdsCons(lo: nat, hi: nat)
    requires lo < hi
    ensures [lo] + Ids(lo + 1, hi) == Ids(lo, hi)
    decreases hi - lo
  {
    if lo + 1 < hi {
      IdsCons(lo, hi - 1);
    }
  }

  /** Every id from `lo` to `hi - 1` is listed. */
  lemma IdsMembers(lo: nat, hi: nat)
    requires lo <= hi
    ensures forall id :: lo <= id < hi ==> id in Ids(lo, hi)
  {
    forall id | lo <= id < hi ensures id in Ids(lo, hi) {
      IdsContains(lo, hi, id);
    }
  }

  lemma {:induction false} IdsContains(lo: nat, hi: nat, id: nat)
    requires lo <= id < hi
    ensures id in Ids(lo, hi)
    decreases hi - lo
  {
    if id < hi - 1 {
      IdsContains(lo, hi - 1, id);
    }
  }

  /**
   * A burst of `k` requests from an idle state, followed by a successful
   * refresh: all k requests are resumed with `Authorization: Bearer token`,
   * replayed queued ones first and the driver last, the store holds the new
   * pair and the refresh endpoint was called once.
   */
  lemma BurstThenSuccess(g: Gate, hasBody: bool, refreshToken: string, k: nat, token: string, newRefresh: string)
    requires g.queue == [] && k >= 1
    ensures var r := CompleteRefresh(Burst(g, hasBody, refreshToken, k), token, newRefresh);
      && !r.isRefreshing && r.queue == []
      && r.refreshRequests == g.refreshRequests + [refreshToken]
      && r.stored == Some(Pair(token, newRefresh))
      && r.defaultAuth == Some("Bearer " + token)
      && r.replays == g.replays + Ids(g.nextId + 1, g.nextId + k) + [g.nextId]
      && (forall id :: g.nextId <= id < g.nextId + k ==> id in r.outcomes && r.outcomes[id] == Resumed(BearerHeaders(token)))
      && r.signOutCalls == g.signOutCalls
  {
    var ids := Ids(g.nextId + 1, g.nextId + k);
    assert g.queue + ids == ids;
    IdsMembers(g.nextId + 1, g.nextId + k);
  }

  /**
   * A burst of `k` requests from an idle state, followed by a failed refresh:
   * all k requests are rejected with the refresh error, queued ones in
   * arrival order and the driver last, the driver's `catch` calls signOut
   * once and nothing is replayed. A refresh call that failed with a
   * non-sentinel 401 has signed out once more on its own way through the
   * handler (`RefreshRejectedBy401SignsOutTwice`).
   */
  lemma BurstThenFailure(g: Gate, hasBody: bool, refreshToken: string, k: nat, cause: string)
    requires g.queue == [] && k >= 1
    ensures var r := FailRefresh(Burst(g, hasBody, refreshToken, k), cause);
      && !r.isRefreshing && r.queue == []
      && r.refreshRequests == g.refreshRequests + [refreshToken]
      && r.signOutCalls == g.signOutCalls + 1
      && r.replays == g.replays && r.stored == g.stored
      && r.rejections == g.rejections + Ids(g.nextId + 1, g.nextId + k) + [g.nextId]
      && (forall id :: g.nextId <= id < g.nextId + k ==> id in r.outcomes && r.outcomes[id] == Rejected(RefreshError(cause)))
  {
    var ids := Ids(g.nextId + 1, g.nextId + k);
    assert g.queue + ids == ids;
    IdsMembers(g.nextId + 1, g.nextId + k);
  }

  /**
   * The refresh call is itself a request on the same axios instance. When it
   * fails with a 401 that is not a sentinel, its own pass through the error
   * handler signs out and rejects it with the normalised error, leaving the
   * refresh in flight; the driver's `catch` then signs out again, so a
   * refresh that fails this way signs out twice.
   */
  lemma RefreshRejectedBy401SignsOutTwice(g: Gate, e: HttpError, storedRefresh: Option<string>, cause: string)
    requires g.isRefreshing && g.driver.Some?
    requires Is401(e) && !IsSentinel(e)
    ensures var (h, id) := HandleError(g, e, storedRefresh);
      && h.isRefreshing && h.driver == g.driver && h.queue == g.queue
      && h.outcomes[id] == Rejected(Normalized(Normalize(e)))
      && h.signOutCalls == g.signOutCalls + 1
      && FailRefresh(h, cause).signOutCalls == g.signOutCalls + 2
  {
    HandleErrorCases(g, e, storedRefresh);
  }

  /** `failedQueue.forEach`: settles every queued promise with `o`, oldest first. */
  method ProcessQueue(outcomes: map<ReqId, Outcome>, queue: seq<ReqId>, o: Outcome) returns (settled: map<ReqId, Outcome>)
    ensures settled == SettleAll(outcomes, queue, o)
  {
    settled := outcomes;
    var i := 0;
    while i < |queue|
      invariant 0 <= i <= |queue|
      invariant settled == SettleAll(outcomes, queue[..i], o)
    {
      assert queue[..i + 1][..i] == queue[..i];
      settled := settled[queue[i] := o];
      i := i + 1;
    }
    assert queue[..i] == queue;
  }

  /**
   * axios's interceptor list: `use` appends a handler and returns its index,
   * `eject(id)` blanks that entry when it is installed. `true` marks an
   * installed handler.
   */
  function Ejected(handlers: seq<bool>, h: nat): (r: seq<bool>)
    ensures |r| == |handlers|
    ensures h < |r| ==> !r[h]
    ensures forall i :: 0 <= i < |r| && i != h ==> r[i] == handlers[i]
  {
    if h < |handlers| && handlers[h] then handlers[h := false] else handlers
  }

  /** Calling the function returned by registration a second time changes nothing. */
  lemma EjectTwiceIsEjectOnce(handlers: seq<bool>, h: nat)
    ensures Ejected(Ejected(handlers, h), h) == Ejected(handlers, h)
  {
  }

  /** The interceptor list of the axios instance. */
  class ResponseInterceptors {
    var handlers: seq<bool>

    constructor ()
      ensures handlers == []
    {
      handlers := [];
    }

    /** `registerInterceptTokenManager`: installs one handler and returns its index. */
    method Register() returns (h: nat)
      modifies this
      ensures h == |old(handlers)| && handlers == old(handlers) + [true]
    {
      h := |handlers|;
      handlers := handlers + [true];
    }

    /** The function registration returns: ejects exactly the handler it installed. */
    method Eject(h: nat)
      modifies this
      ensures handlers == Ejected(old(handlers), h)
    {
      if h < |handlers| && handlers[h] {
        handlers := handlers[h := false];
      }
    }
  }

  /**
   * The module-level refresh state (`isRefreshing`, `failedQueue`) together
   * with the effects the interceptor has on the world: signOut calls, refresh
   * calls, the credential store, the default header and each request's fate.
   * Each method is proved to move `State()` exactly as the matching event
   * function does; `InitInv`, `HandleErrorInv`, `CompleteRefreshInv` and
   * `FailRefreshInv` show that those events keep `Valid()`.
   */
  class TokenManager {
    // the module's own variables
    var isRefreshing: bool
    var queue: seq<ReqId>
    // the request awaiting the refresh in flight, and every request's promise
    var driver: Option<Driver>
    var outcomes: map<ReqId, Outcome>
    var nextId: ReqId
    // what the interceptor has done to the world outside it
    var fx: Effects

    function State(): Gate
      reads this
    {
      Gate(isRefreshing, queue, driver, fx.signOutCalls, fx.refreshRequests, fx.settledRefreshes,
           fx.defaultAuth, fx.stored, outcomes, fx.replays, fx.parsedBodies, fx.rejections, nextId)
    }

    ghost predicate Valid()
      reads this
    {
      Inv(State())
    }

    constructor (initialPair: Option<Pair>, initialAuth: Option<string>)
      ensures Valid() && State() == Init(initialPair, initialAuth)
    {
      isRefreshing, queue, driver := false, [], None;
      outcomes, nextId := map[], 0;
      fx := Effects(0, [], 0, initialAuth, initialPair, [], [], []);
    }

    /** The interceptor's error handler, for a request that failed with `e`. */
    method OnError(e: HttpError, storedRefresh: Option<string>) returns (id: ReqId)
      modifies this
      ensures id == old(nextId)
      ensures State() == HandleError(old(State()), e, storedRefresh).0
    {
      id := nextId;
      nextId := nextId + 1;
      var outcome;
      if Is401(e) {
        if IsSentinel(e) {
          if !Truthy(storedRefresh) {
            // no refresh token: sign out and reject with the error itself
            fx := fx.(signOutCalls := fx.signOutCalls + 1);
            outcome := Rejected(Original(e));
          } else if isRefreshing {
            // a refresh is in flight: wait for it in the queue
            queue := queue + [id];
            outcome := Waiting;
          } else {
            // start the refresh; this request awaits it directly
            isRefreshing := true;
            driver := Some(Driver(id, e.hasBody));
            fx := fx.(refreshRequests := fx.refreshRequests + [storedRefresh.value]);
            outcome := Waiting;
          }
        } else {
          fx := fx.(signOutCalls := fx.signOutCalls + 1);
          outcome := Rejected(Normalized(Normalize(e)));
        }
      } else {
        outcome := Rejected(Normalized(Normalize(e)));
      }
      outcomes := outcomes[id := outcome];
    }

    /** The refresh call returned a new pair and it was saved. */
    method RefreshSucceeded(token: string, refreshToken: string)
      requires isRefreshing && driver.Some?
      modifies this
      ensures State() == CompleteRefresh(old(State()), token, refreshToken)
    {
      var d := driver.value;
      var h := BearerHeaders(token);
      fx := fx.(stored := Some(Pair(token, refreshToken)));
      // only the driver's own body is parsed again
      if d.hasBody {
        fx := fx.(parsedBodies := fx.parsedBodies + [d.id]);
      }
      fx := fx.(defaultAuth := Some("Bearer " + token));
      // the queue's onSuccess callbacks, oldest first, each replaying its request
      var settled := ProcessQueue(outcomes, queue, Resumed(h));
      SettleAllSnoc(outcomes, queue, d.id, Resumed(h));
      // then the driver's own replay
      outcomes := settled[d.id := Resumed(h)];
      fx := fx.(replays := fx.replays + queue + [d.id], settledRefreshes := fx.settledRefreshes + 1);
      isRefreshing, queue, driver := false, [], None;
    }

    /** The refresh call, or saving its result, threw `cause`. */
    method RefreshFailed(cause: string)
      requires isRefreshing && driver.Some?
      modifies this
      ensures State() == FailRefresh(old(State()), cause)
    {
      var d := driver.value;
      var rejection := Rejected(RefreshError(cause));
      // the queue's onFailure callbacks, oldest first
      var settled := ProcessQueue(outcomes, queue, rejection);
      SettleAllSnoc(outcomes, queue, d.id, rejection);
      fx := fx.(signOutCalls := fx.signOutCalls + 1);
      // then the driver's own promise
      outcomes := settled[d.id := rejection];
      fx := fx.(rejections := fx.rejections + queue + [d.id], settledRefreshes := fx.settledRefreshes + 1);
      isRefreshing, queue, driver := false, [], None;
    }
  }
}
