/**
 * The response interceptor of the shared HTTP client (src/services/axios.ts):
 * on a 401 it either starts the single token refresh or queues the request
 * until that refresh settles.
 *
 * The client runs on one event loop, so the interceptor is a sequential
 * transition system. Its state is the `isRefreshing` flag, the queue of
 * waiting requests, the request whose 401 started the outstanding refresh,
 * and the auth store with its browser storage. Three events drive it: an
 * error response arrives, the refresh call succeeds, the refresh call fails.
 * Promise settlements, the refresh POST and the redirect are recorded as
 * effects, in the order the code performs them.
 */
module TokenRefresh {
  import opened Options
  import Text
  import Storage
  import AuthStore
  import RequestInterceptor

  type RequestId = nat

  /** An outgoing request as the interceptor sees it: its identity, URL and `_retry` mark. */
  datatype Request = Request(id: RequestId, url: string, retry: bool)

  /** The value a request's promise is rejected with. */
  datatype Failure =
    | ResponseError(id: RequestId, status: Option<int>)  // the original error, passed through
    | RefreshRejected(reason: string)                     // the refresh call's own error
    | NoRefreshToken                                      // `new Error("No refresh token")`

  /** An observable action of the interceptor. */
  datatype Effect =
    | Reject(id: RequestId, error: Failure)             // the request's promise rejects
    | Resend(request: Request, authorization: string)   // the request is dispatched again with this header
    | PostRefresh(refreshToken: string)                 // `POST /api/auth/refresh-token`
    | Redirect(path: string)                            // `window.location.replace(path)`

  datatype Coordinator = Coordinator(
    isRefreshing: bool,
    queue: seq<Request>,
    initiator: Option<Request>,
    session: AuthStore.Session)

  datatype Step = Step(state: Coordinator, effects: seq<Effect>)

  const LoginPath := "/api/auth/login"
  const RefreshPath := "/api/auth/refresh-token"
  const LoginPage := "/login"

  /** The state at module load: not refreshing, nothing queued. */
  function Start(session: AuthStore.Session): (c: Coordinator)
    ensures Valid(c) && !c.isRefreshing
  {
    Coordinator(false, [], None, session)
  }

  /**
   * The coordinator's invariant: the flag is set exactly while one request
   * awaits the refresh it started, the queue is empty when no refresh is
   * outstanding, and every waiting request is already marked `_retry`.
   */
  predicate Valid(c: Coordinator) {
    && (c.isRefreshing <==> c.initiator.Some?)
    && (!c.isRefreshing ==> c.queue == [])
    && (forall i :: 0 <= i < |c.queue| ==> c.queue[i].retry)
    && (c.initiator.Some? ==> c.initiator.value.retry)
  }

  /** The login and refresh endpoints are never refreshed for. */
  predicate IsAuthEndpoint(url: string) {
    Text.Contains(url, LoginPath) || Text.Contains(url, RefreshPath)
  }

  /** A response the interceptor tries to recover from: a first 401 on a non-auth endpoint. */
  predicate Recoverable(req: Request, status: Option<int>) {
    status == Some(401) && !req.retry && !IsAuthEndpoint(req.url)
  }

  /** `originalRequest._retry = true`. */
  function Mark(req: Request): Request {
    req.(retry := true)
  }

  /** How `processQueue` settles the waiters. */
  datatype Settlement = Resolved(token: string) | Rejected(error: Failure)

  /** How one waiter is settled: resent with the new bearer, or rejected. */
  function Settle(req: Request, outcome: Settlement): Effect {
    match outcome
    case Resolved(t) => Resend(req, RequestInterceptor.Bearer(t))
    case Rejected(e) => Reject(req.id, e)
  }

  /** `processQueue(error, token)`: settles every waiter once, in queue order. */
  function ProcessQueue(queue: seq<Request>, outcome: Settlement): (r: seq<Effect>)
    ensures |r| == |queue|
    ensures outcome.Resolved? ==> forall i :: 0 <= i < |queue| ==>
      r[i] == Resend(queue[i], RequestInterceptor.Bearer(outcome.token))
    ensures outcome.Rejected? ==> forall i :: 0 <= i < |queue| ==>
      r[i] == Reject(queue[i].id, outcome.error)
  {
    if queue == [] then []
    else [Settle(queue[0], outcome)] + ProcessQueue(queue[1..], outcome)
  }

  /**
   * The `catch` and `finally` blocks: reject every waiter with `err`, log the
   * store out, redirect to the login page, reject `req` with `err`, clear the flag.
   */
  function FailRefresh(c: Coordinator, req: Request, err: Failure): (r: Step)
    ensures !r.state.isRefreshing && r.state.queue == [] && r.state.initiator == None
    ensures r.state.session == AuthStore.Logout(c.session)
    ensures |r.effects| == |c.queue| + 2
    ensures forall i :: 0 <= i < |c.queue| ==> r.effects[i] == Reject(c.queue[i].id, err)
    ensures r.effects[|c.queue|..] == [Redirect(LoginPage), Reject(req.id, err)]
  {
    Step(Coordinator(false, [], None, AuthStore.Logout(c.session)),
         ProcessQueue(c.queue, Rejected(err)) + [Redirect(LoginPage), Reject(req.id, err)])
  }

  /** The response interceptor's error handler for `req` failing with `status`. */
  function OnResponse(c: Coordinator, req: Request, status: Option<int>): (r: Step)
    ensures !Recoverable(req, status) ==> r == Step(c, [Reject(req.id, ResponseError(req.id, status))])
    ensures Recoverable(req, status) && c.isRefreshing ==>
      r == Step(c.(queue := c.queue + [Mark(req)]), [])
    ensures Recoverable(req, status) && !c.isRefreshing && Storage.HasItem(c.session.storage, Storage.RefreshTokenKey) ==>
      r == Step(c.(isRefreshing := true, initiator := Some(Mark(req))),
                [PostRefresh(c.session.storage[Storage.RefreshTokenKey])])
    ensures Recoverable(req, status) && !c.isRefreshing && !Storage.HasItem(c.session.storage, Storage.RefreshTokenKey) ==>
      r == FailRefresh(c, Mark(req), NoRefreshToken)
  {
    if status != Some(401) || req.retry then
      Step(c, [Reject(req.id, ResponseError(req.id, status))])
    else if IsAuthEndpoint(req.url) then
      Step(c, [Reject(req.id, ResponseError(req.id, status))])
    else
      var marked := Mark(req);
      if c.isRefreshing then
        Step(c.(queue := c.queue + [marked]), [])
      else if !Storage.HasItem(c.session.storage, Storage.RefreshTokenKey) then
        FailRefresh(c, marked, NoRefreshToken)
      else
        Step(c.(isRefreshing := true, initiator := Some(marked)),
             [PostRefresh(c.session.storage[Storage.RefreshTokenKey])])
  }

  /**
   * The refresh call returned `accessToken` and `refreshToken`: store both,
   * mark the store authenticated, resume every waiter with the new token, then
   * resend the request that started the refresh.
   */
  function OnRefreshSucceeded(c: Coordinator, accessToken: string, refreshToken: string): (r: Step)
    requires c.initiator.Some?
    ensures !r.state.isRefreshing && r.state.queue == [] && r.state.initiator == None
    ensures Storage.GetItem(r.state.session.storage, Storage.AuthTokenKey) == Some(accessToken)
    ensures Storage.GetItem(r.state.session.storage, Storage.RefreshTokenKey) == Some(refreshToken)
    ensures Storage.AgreeExcept(r.state.session.storage, c.session.storage, {Storage.AuthTokenKey, Storage.RefreshTokenKey})
    ensures r.state.session.auth == c.session.auth.(token := Some(accessToken), isAuthenticated := true)
    ensures |r.effects| == |c.queue| + 1
    ensures forall i :: 0 <= i < |c.queue| ==>
      r.effects[i] == Resend(c.queue[i], RequestInterceptor.Bearer(accessToken))
    ensures r.effects[|c.queue|] == Resend(c.initiator.value, RequestInterceptor.Bearer(accessToken))
  {
    var storage := Storage.SetItem(Storage.SetItem(c.session.storage, Storage.AuthTokenKey, accessToken),
                                   Storage.RefreshTokenKey, refreshToken);
    var auth := c.session.auth.(token := Some(accessToken), isAuthenticated := true);
    Step(Coordinator(false, [], None, AuthStore.Session(auth, storage)),
         ProcessQueue(c.queue, Resolved(accessToken))
         + [Resend(c.initiator.value, RequestInterceptor.Bearer(accessToken))])
  }

  /** The refresh call threw: every waiter and the initiating request reject with its error. */
  function OnRefreshFailed(c: Coordinator, reason: string): (r: Step)
    requires c.initiator.Some?
    ensures r == FailRefresh(c, c.initiator.value, RefreshRejected(reason))
  {
    FailRefresh(c, c.initiator.value, RefreshRejected(reason))
  }

  // ---------------------------------------------------------------------------
  // Events and runs

  datatype Event =
    | Response(request: Request, status: Option<int>)
    | RefreshSucceeded(accessToken: string, refreshToken: string)
    | RefreshFailed(reason: string)

  /** A refresh can only settle while one is outstanding. */
  predicate Enabled(c: Coordinator, e: Event) {
    e.Response? || c.initiator.Some?
  }

  function Apply(c: Coordinator, e: Event): Step
    requires Enabled(c, e)
  {
    match e
    case Response(req, status) => OnResponse(c, req, status)
    case RefreshSucceeded(a, r) => OnRefreshSucceeded(c, a, r)
    case RefreshFailed(reason) => OnRefreshFailed(c, reason)
  }

  /** Every event of the sequence is enabled in the state the earlier ones lead to. */
  predicate Admissible(c: Coordinator, events: seq<Event>)
    decreases |events|
  {
    events == [] || (Enabled(c, events[0]) && Admissible(Apply(c, events[0]).state, events[1..]))
  }

  /** The state after `events` and every effect they produced, in order. */
  function Run(c: Coordinator, events: seq<Event>): Step
    requires Admissible(c, events)
    decreases |events|
  {
    if events == [] then Step(c, [])
    else
      var first := Apply(c, events[0]);
      var rest := Run(first.state, events[1..]);
      Step(rest.state, first.effects + rest.effects)
  }

  // ---------------------------------------------------------------------------
  // Accounting

  /** The identities of the queued requests, in queue order. */
  function IdList(queue: seq<Request>): (r: seq<RequestId>)
    ensures |r| == |queue|
    ensures forall i :: 0 <= i < |queue| ==> r[i] == queue[i].id
  {
    seq(|queue|, i requires 0 <= i < |queue| => queue[i].id)
  }

  lemma IdListCons(queue: seq<Request>)
    requires queue != []
    ensures IdList(queue) == [queue[0].id] + IdList(queue[1..])
  {
    var tail := IdList(queue[1..]);
    assert forall i :: 0 <= i < |tail| ==> tail[i] == queue[i + 1].id;
  }

  function Ids(queue: seq<Request>): multiset<RequestId> {
    multiset(IdList(queue))
  }

  lemma IdsConcat(a: seq<Request>, b: seq<Request>)
    ensures Ids(a + b) == Ids(a) + Ids(b)
  {
    assert IdList(a + b) == IdList(a) + IdList(b);
  }

  /** The requests whose promises are still unsettled inside the interceptor. */
  function Pending(c: Coordinator): multiset<RequestId> {
    Ids(c.queue) + (if c.initiator.Some? then multiset{c.initiator.value.id} else multiset{})
  }

  /** The request an effect settles, if any: a rejection, or a resend that resolves the waiter. */
  function SettledBy(e: Effect): seq<RequestId> {
    match e
    case Reject(id, _) => [id]
    case Resend(req, _) => [req.id]
    case _ => []
  }

  /** The requests the effects settle, in order. */
  function SettledList(effects: seq<Effect>): seq<RequestId> {
    if effects == [] then [] else SettledBy(effects[0]) + SettledList(effects[1..])
  }

  lemma {:induction false} SettledListConcat(a: seq<Effect>, b: seq<Effect>)
    ensures SettledList(a + b) == SettledList(a) + SettledList(b)
  {
    if a == [] {
      assert a + b == b;
    } else {
      var ab := a + b;
      assert ab[0] == a[0];
      assert ab[1..] == a[1..] + b;
      assert SettledList(ab) == SettledBy(a[0]) + SettledList(a[1..] + b);
      SettledListConcat(a[1..], b);
      assert SettledList(a) == SettledBy(a[0]) + SettledList(a[1..]);
    }
  }

  function Settled(effects: seq<Effect>): multiset<RequestId> {
    multiset(SettledList(effects))
  }

  lemma SettledConcat(a: seq<Effect>, b: seq<Effect>)
    ensures Settled(a + b) == Settled(a) + Settled(b)
  {
    SettledListConcat(a, b);
  }

  /** The number of refresh calls among the effects. */
  function RefreshCalls(effects: seq<Effect>): nat {
    if effects == [] then 0 else (if effects[0].PostRefresh? then 1 else 0) + RefreshCalls(effects[1..])
  }

  lemma {:induction false} RefreshCallsConcat(a: seq<Effect>, b: seq<Effect>)
    ensures RefreshCalls(a + b) == RefreshCalls(a) + RefreshCalls(b)
  {
    if a == [] {
      assert a + b == b;
    } else {
      var ab := a + b;
      assert ab[0] == a[0];
      assert ab[1..] == a[1..] + b;
      RefreshCallsConcat(a[1..], b);
    }
  }

  /** `processQueue` settles the queued requests, in queue order. */
  lemma {:induction false} ProcessQueueSettledList(queue: seq<Request>, outcome: Settlement)
    ensures SettledList(ProcessQueue(queue, outcome)) == IdList(queue)
  {
    if queue != [] {
      var first := Settle(queue[0], outcome);
      var rest := ProcessQueue(queue[1..], outcome);
      assert ProcessQueue(queue, outcome) == [first] + rest;
      ProcessQueueSettledList(queue[1..], outcome);
      SettledListConcat([first], rest);
      OneEffect(first);
      assert SettledList([first]) == [queue[0].id];
      IdListCons(queue);
    }
  }

  /** `processQueue` makes no refresh call. */
  lemma {:induction false} ProcessQueueCallsNoRefresh(queue: seq<Request>, outcome: Settlement)
    ensures RefreshCalls(ProcessQueue(queue, outcome)) == 0
  {
    if queue != [] {
      var first := Settle(queue[0], outcome);
      var rest := ProcessQueue(queue[1..], outcome);
      assert ProcessQueue(queue, outcome) == [first] + rest;
      ProcessQueueCallsNoRefresh(queue[1..], outcome);
      RefreshCallsConcat([first], rest);
      OneEffect(first);
    }
  }

  /** `processQueue` settles exactly the queued requests and calls no refresh. */
  lemma ProcessQueueSettlesQueue(queue: seq<Request>, outcome: Settlement)
    ensures SettledList(ProcessQueue(queue, outcome)) == IdList(queue)
    ensures Settled(ProcessQueue(queue, outcome)) == Ids(queue)
    ensures RefreshCalls(ProcessQueue(queue, outcome)) == 0
  {
    ProcessQueueSettledList(queue, outcome);
    ProcessQueueCallsNoRefresh(queue, outcome);
  }

  /** The request an event brings in, if any. */
  function ArrivalOf(e: Event): multiset<RequestId> {
    if e.Response? then multiset{e.request.id} else multiset{}
  }

  /** Whether an event is the outcome of a refresh call. */
  function OutcomeOf(e: Event): nat {
    if e.Response? then 0 else 1
  }

  /** The arriving requests of an event sequence. */
  function Arrivals(events: seq<Event>): multiset<RequestId> {
    if events == [] then multiset{} else ArrivalOf(events[0]) + Arrivals(events[1..])
  }

  /** The number of refresh outcomes in an event sequence. */
  function RefreshOutcomes(events: seq<Event>): nat {
    if events == [] then 0 else OutcomeOf(events[0]) + RefreshOutcomes(events[1..])
  }

  function Flag(b: bool): nat {
    if b then 1 else 0
  }

  lemma OneEffect(e: Effect)
    ensures SettledList([e]) == SettledBy(e)
    ensures RefreshCalls([e]) == if e.PostRefresh? then 1 else 0
  {
    assert [e][1..] == [];
  }

  lemma FailRefreshAccounting(c: Coordinator, req: Request, err: Failure)
    ensures SettledList(FailRefresh(c, req, err).effects) == IdList(c.queue) + [req.id]
    ensures RefreshCalls(FailRefresh(c, req, err).effects) == 0
  {
    var head := ProcessQueue(c.queue, Rejected(err));
    var redirect: seq<Effect> := [Redirect(LoginPage)];
    var reject: seq<Effect> := [Reject(req.id, err)];
    assert FailRefresh(c, req, err).effects == head + redirect + reject;
    ProcessQueueSettledList(c.queue, Rejected(err));
    ProcessQueueCallsNoRefresh(c.queue, Rejected(err));
    OneEffect(Redirect(LoginPage));
    OneEffect(Reject(req.id, err));
    SettledListConcat(head, redirect);
    SettledListConcat(head + redirect, reject);
    assert SettledList(head + redirect) == IdList(c.queue);
    RefreshCallsConcat(head, redirect);
    RefreshCallsConcat(head + redirect, reject);
  }

  lemma SucceedAccounting(c: Coordinator, accessToken: string, refreshToken: string)
    requires c.initiator.Some?
    ensures SettledList(OnRefreshSucceeded(c, accessToken, refreshToken).effects) == IdList(c.queue) + [c.initiator.value.id]
    ensures RefreshCalls(OnRefreshSucceeded(c, accessToken, refreshToken).effects) == 0
  {
    var last := Resend(c.initiator.value, RequestInterceptor.Bearer(accessToken));
    ProcessQueueSettledList(c.queue, Resolved(accessToken));
    ProcessQueueCallsNoRefresh(c.queue, Resolved(accessToken));
    OneEffect(last);
    SettledListConcat(ProcessQueue(c.queue, Resolved(accessToken)), [last]);
    RefreshCallsConcat(ProcessQueue(c.queue, Resolved(accessToken)), [last]);
  }

  /** The accounting of one step: valid afterwards, nothing lost or settled twice, refresh calls match the flag. */
  predicate Accounted(c: Coordinator, arrived: multiset<RequestId>, outcomes: nat, r: Step) {
    && Valid(r.state)
    && Pending(c) + arrived == Pending(r.state) + Settled(r.effects)
    && RefreshCalls(r.effects) + Flag(c.isRefreshing) == Flag(r.state.isRefreshing) + outcomes
  }

  lemma IdsEmpty()
    ensures Ids([]) == multiset{}
  {
    assert IdList([]) == [];
  }

  lemma RejectedStep(c: Coordinator, req: Request, status: Option<int>)
    requires Valid(c) && !Recoverable(req, status)
    ensures Accounted(c, multiset{req.id}, 0, OnResponse(c, req, status))
  {
    OneEffect(Reject(req.id, ResponseError(req.id, status)));
  }

  lemma QueuedAccounting(c: Coordinator, req: Request, status: Option<int>)
    requires Valid(c) && Recoverable(req, status) && c.isRefreshing
    ensures Accounted(c, multiset{req.id}, 0, OnResponse(c, req, status))
  {
    var q := c.queue + [Mark(req)];
    assert OnResponse(c, req, status) == Step(c.(queue := q), []);
    assert forall i :: 0 <= i < |q| ==> q[i].retry by {
      forall i | 0 <= i < |q|
        ensures q[i].retry
      {
        if i < |c.queue| {
          assert q[i] == c.queue[i];
        }
      }
    }
    IdsConcat(c.queue, [Mark(req)]);
    IdListCons([Mark(req)]);
    assert IdList([Mark(req)]) == [req.id];
    assert SettledList([]) == [];
  }

  lemma NoTokenStep(c: Coordinator, req: Request, status: Option<int>)
    requires Valid(c) && Recoverable(req, status) && !c.isRefreshing
    requires !Storage.HasItem(c.session.storage, Storage.RefreshTokenKey)
    ensures Accounted(c, multiset{req.id}, 0, OnResponse(c, req, status))
  {
    assert OnResponse(c, req, status) == FailRefresh(c, Mark(req), NoRefreshToken);
    FailRefreshAccounting(c, Mark(req), NoRefreshToken);
    IdsEmpty();
    assert multiset(IdList(c.queue) + [req.id]) == Ids(c.queue) + multiset{req.id};
  }

  lemma StartStep(c: Coordinator, req: Request, status: Option<int>)
    requires Valid(c) && Recoverable(req, status) && !c.isRefreshing
    requires Storage.HasItem(c.session.storage, Storage.RefreshTokenKey)
    ensures Accounted(c, multiset{req.id}, 0, OnResponse(c, req, status))
  {
    var call := PostRefresh(c.session.storage[Storage.RefreshTokenKey]);
    assert OnResponse(c, req, status) == Step(c.(isRefreshing := true, initiator := Some(Mark(req))), [call]);
    OneEffect(call);
    IdsEmpty();
  }

  /** The step invariant for an arriving response (see `StepInvariant`). */
  lemma ResponseStep(c: Coordinator, req: Request, status: Option<int>)
    requires Valid(c)
    ensures var r := OnResponse(c, req, status);
      && Valid(r.state)
      && Pending(c) + multiset{req.id} == Pending(r.state) + Settled(r.effects)
      && RefreshCalls(r.effects) + Flag(c.isRefreshing) == Flag(r.state.isRefreshing)
  {
    if !Recoverable(req, status) {
      RejectedStep(c, req, status);
    } else if c.isRefreshing {
      QueuedAccounting(c, req, status);
    } else if !Storage.HasItem(c.session.storage, Storage.RefreshTokenKey) {
      NoTokenStep(c, req, status);
    } else {
      StartStep(c, req, status);
    }
  }

  /** The step invariant for a refresh outcome (see `StepInvariant`). */
  lemma OutcomeStep(c: Coordinator, e: Event)
    requires Valid(c) && !e.Response? && Enabled(c, e)
    ensures var r := Apply(c, e);
      && Valid(r.state) && !r.state.isRefreshing && c.isRefreshing
      && Pending(r.state) == multiset{}
      && Settled(r.effects) == Pending(c)
      && RefreshCalls(r.effects) == 0
  {
    assert multiset(IdList(c.queue) + [c.initiator.value.id]) == Pending(c);
    assert Ids([]) == multiset{} by {
      assert IdList([]) == [];
    }
    match e
    case RefreshSucceeded(a, rt) =>
      SucceedAccounting(c, a, rt);
    case RefreshFailed(reason) =>
      FailRefreshAccounting(c, c.initiator.value, RefreshRejected(reason));
  }

  /**
   * One event keeps the invariant; every request that was pending or arrives
   * is afterwards either still pending or settled by the step's effects, and
   * only once; a refresh call is issued exactly when the step starts the
   * refresh, and a refresh outcome ends it.
   */
  lemma StepInvariant(c: Coordinator, e: Event)
    requires Valid(c) && Enabled(c, e)
    ensures var r := Apply(c, e);
      && Valid(r.state)
      && Pending(c) + ArrivalOf(e) == Pending(r.state) + Settled(r.effects)
      && RefreshCalls(r.effects) + Flag(c.isRefreshing) == Flag(r.state.isRefreshing) + OutcomeOf(e)
  {
    if e.Response? {
      ResponseStep(c, e.request, e.status);
    } else {
      OutcomeStep(c, e);
    }
  }

  /** Conservation composes: what one step settles plus what the rest settles. */
  lemma Chain<T>(p0: multiset<T>, a0: multiset<T>, a1: multiset<T>, p1: multiset<T>, s0: multiset<T>,
                 p2: multiset<T>, s1: multiset<T>)
    requires p0 + a0 == p1 + s0 && p1 + a1 == p2 + s1
    ensures p0 + (a0 + a1) == p2 + (s0 + s1)
  {
    forall x
      ensures (p0 + (a0 + a1))[x] == (p2 + (s0 + s1))[x]
    {
      assert (p0 + a0)[x] == (p1 + s0)[x];
      assert (p1 + a1)[x] == (p2 + s1)[x];
    }
  }

  /**
   * Over any admissible run from a valid state: the invariant holds at the
   * end; every request that arrived or was pending is settled exactly once or
   * still pending; and refresh calls issued minus refresh outcomes received is
   * the flag, so at most one refresh is ever outstanding.
   */
  lemma {:induction false} RunInvariant(c: Coordinator, events: seq<Event>)
    requires Valid(c) && Admissible(c, events)
    decreases |events|
    ensures var r := Run(c, events);
      && Valid(r.state)
      && Pending(c) + Arrivals(events) == Pending(r.state) + Settled(r.effects)
      && RefreshCalls(r.effects) + Flag(c.isRefreshing) == Flag(r.state.isRefreshing) + RefreshOutcomes(events)
  {
    if events != [] {
      var e := events[0];
      var first := Apply(c, e);
      StepInvariant(c, e);
      RunInvariant(first.state, events[1..]);
      var rest := Run(first.state, events[1..]);
      assert Run(c, events) == Step(rest.state, first.effects + rest.effects);
      assert Arrivals(events) == ArrivalOf(e) + Arrivals(events[1..]);
      assert RefreshOutcomes(events) == OutcomeOf(e) + RefreshOutcomes(events[1..]);
      SettledConcat(first.effects, rest.effects);
      RefreshCallsConcat(first.effects, rest.effects);
      Chain(Pending(c), ArrivalOf(e), Arrivals(events[1..]), Pending(first.state), Settled(first.effects),
            Pending(rest.state), Settled(rest.effects));
    }
  }

  /** From the start state, refresh calls never run more than one ahead of refresh outcomes. */
  lemma AtMostOneRefreshOutstanding(session: AuthStore.Session, events: seq<Event>)
    requires Admissible(Start(session), events)
    ensures RefreshOutcomes(events) <= RefreshCalls(Run(Start(session), events).effects) <= RefreshOutcomes(events) + 1
  {
    RunInvariant(Start(session), events);
  }

  // ---------------------------------------------------------------------------
  // Scenarios

  /** A request that was already retried is rejected unchanged on a second 401, so it never loops. */
  lemma SecondUnauthorizedIsTerminal(c: Coordinator, req: Request)
    requires req.retry
    ensures OnResponse(c, req, Some(401)) == Step(c, [Reject(req.id, ResponseError(req.id, Some(401)))])
  {
  }

  /** Every request resent after a successful refresh carries the `_retry` mark. */
  lemma ResentRequestsAreMarked(c: Coordinator, accessToken: string, refreshToken: string)
    requires Valid(c) && c.initiator.Some?
    ensures forall e :: e in OnRefreshSucceeded(c, accessToken, refreshToken).effects ==>
      e.Resend? && e.request.retry && e.authorization == RequestInterceptor.Bearer(accessToken)
  {
    var r := OnRefreshSucceeded(c, accessToken, refreshToken);
    forall e | e in r.effects
      ensures e.Resend? && e.request.retry && e.authorization == RequestInterceptor.Bearer(accessToken)
    {
      var i :| 0 <= i < |r.effects| && r.effects[i] == e;
      if i < |c.queue| {
        assert c.queue[i].retry;
      }
    }
  }

  /** `Response(req, 401)` for each request, in order. */
  function Unauthorized(reqs: seq<Request>): (es: seq<Event>)
    ensures |es| == |reqs|
  {
    if reqs == [] then [] else [Response(reqs[0], Some(401))] + Unauthorized(reqs[1..])
  }

  /** Each request with its `_retry` mark set, in order. */
  function Marks(reqs: seq<Request>): (r: seq<Request>)
    ensures |r| == |reqs|
  {
    if reqs == [] then [] else [Mark(reqs[0])] + Marks(reqs[1..])
  }

  lemma {:induction false} MarksAt(reqs: seq<Request>)
    ensures forall i :: 0 <= i < |reqs| ==> Marks(reqs)[i] == Mark(reqs[i])
  {
    if reqs != [] {
      var tail := Marks(reqs[1..]);
      assert Marks(reqs) == [Mark(reqs[0])] + tail;
      MarksAt(reqs[1..]);
      forall i | 1 <= i < |reqs|
        ensures Marks(reqs)[i] == Mark(reqs[i])
      {
        assert Marks(reqs)[i] == tail[i - 1];
        assert reqs[1..][i - 1] == reqs[i];
      }
    }
  }

  predicate AllRecoverable(reqs: seq<Request>) {
    forall i :: 0 <= i < |reqs| ==> !reqs[i].retry && !IsAuthEndpoint(reqs[i].url)
  }

  /** A first 401 during a refresh joins the queue and does nothing else. */
  lemma QueuedStep(c: Coordinator, req: Request)
    requires c.isRefreshing && !req.retry && !IsAuthEndpoint(req.url)
    ensures Enabled(c, Response(req, Some(401)))
    ensures Apply(c, Response(req, Some(401))) == Step(c.(queue := c.queue + [Mark(req)]), [])
  {
    assert Recoverable(req, Some(401));
  }

  /** A step that changes only the state, followed by a run, is that run from the new state. */
  lemma SilentStepThenRun(c: Coordinator, e: Event, next: Coordinator, rest: seq<Event>)
    requires Enabled(c, e) && Apply(c, e) == Step(next, []) && Admissible(next, rest)
    ensures Admissible(c, [e] + rest)
    ensures Run(c, [e] + rest) == Run(next, rest)
  {
    var events := [e] + rest;
    assert events[0] == e && events[1..] == rest;
  }

  lemma AllRecoverableTail(reqs: seq<Request>)
    requires reqs != [] && AllRecoverable(reqs)
    ensures AllRecoverable(reqs[1..])
  {
    forall i | 0 <= i < |reqs| - 1
      ensures !reqs[1..][i].retry && !IsAuthEndpoint(reqs[1..][i].url)
    {
      assert reqs[1..][i] == reqs[i + 1];
    }
  }

  /** While a refresh is outstanding, first 401s only join the queue, in arrival order. */
  lemma {:induction false} UnauthorizedWhileRefreshing(c: Coordinator, reqs: seq<Request>)
    requires c.isRefreshing && AllRecoverable(reqs)
    decreases |reqs|
    ensures Admissible(c, Unauthorized(reqs))
    ensures Run(c, Unauthorized(reqs)) == Step(c.(queue := c.queue + Marks(reqs)), [])
  {
    if reqs == [] {
      assert c.queue + Marks(reqs) == c.queue;
    } else {
      var next := c.(queue := c.queue + [Mark(reqs[0])]);
      QueuedStep(c, reqs[0]);
      AllRecoverableTail(reqs);
      UnauthorizedWhileRefreshing(next, reqs[1..]);
      SilentStepThenRun(c, Response(reqs[0], Some(401)), next, Unauthorized(reqs[1..]));
      assert next.queue + Marks(reqs[1..]) == c.queue + Marks(reqs);
    }
  }

  /**
   * N requests that fail with a first 401 while no refresh is outstanding and
   * a refresh token is stored cause exactly one refresh call: the first
   * request starts it and the other N-1 wait in the queue.
   */
  lemma ConcurrentUnauthorized(c: Coordinator, reqs: seq<Request>)
    requires Valid(c) && !c.isRefreshing && Storage.HasItem(c.session.storage, Storage.RefreshTokenKey)
    requires 1 <= |reqs| && AllRecoverable(reqs)
    ensures Admissible(c, Unauthorized(reqs))
    ensures var r := Run(c, Unauthorized(reqs));
      && r.effects == [PostRefresh(c.session.storage[Storage.RefreshTokenKey])]
      && r.state.isRefreshing
      && r.state.initiator == Some(Mark(reqs[0]))
      && r.state.queue == Marks(reqs[1..])
      && r.state.session == c.session
  {
    var started := c.(isRefreshing := true, initiator := Some(Mark(reqs[0])));
    assert Recoverable(reqs[0], Some(401));
    UnauthorizedWhileRefreshing(started, reqs[1..]);
    assert started.queue + Marks(reqs[1..]) == Marks(reqs[1..]);
  }

  /**
   * The burst of 401s followed by a successful refresh: every one of the N
   * requests is resent exactly once with the new token, the waiters first and
   * the initiating request last, after exactly one refresh call.
   */
  lemma ConcurrentUnauthorizedThenSuccess(c: Coordinator, reqs: seq<Request>, accessToken: string, refreshToken: string)
    requires Valid(c) && !c.isRefreshing && Storage.HasItem(c.session.storage, Storage.RefreshTokenKey)
    requires 1 <= |reqs| && AllRecoverable(reqs)
    ensures Admissible(c, Unauthorized(reqs))
    ensures Run(c, Unauthorized(reqs)).state.initiator.Some?
    ensures var burst := Run(c, Unauthorized(reqs));
      var done := OnRefreshSucceeded(burst.state, accessToken, refreshToken);
      && RefreshCalls(burst.effects + done.effects) == 1
      && |done.effects| == |reqs|
      && (forall i :: 1 <= i < |reqs| ==>
            done.effects[i - 1] == Resend(Mark(reqs[i]), RequestInterceptor.Bearer(accessToken)))
      && done.effects[|reqs| - 1] == Resend(Mark(reqs[0]), RequestInterceptor.Bearer(accessToken))
      && Valid(done.state) && !done.state.isRefreshing
  {
    ConcurrentUnauthorized(c, reqs);
    var burst := Run(c, Unauthorized(reqs));
    var done := OnRefreshSucceeded(burst.state, accessToken, refreshToken);
    ProcessQueueSettlesQueue(burst.state.queue, Resolved(accessToken));
    var tail: seq<Effect> := [Resend(Mark(reqs[0]), RequestInterceptor.Bearer(accessToken))];
    RefreshCallsConcat(ProcessQueue(burst.state.queue, Resolved(accessToken)), tail);
    RefreshCallsConcat(burst.effects, done.effects);
    assert tail[1..] == [];
    assert burst.effects[1..] == [];
    MarksAt(reqs[1..]);
    forall i | 1 <= i < |reqs|
      ensures done.effects[i - 1] == Resend(Mark(reqs[i]), RequestInterceptor.Bearer(accessToken))
    {
      assert reqs[1..][i - 1] == reqs[i];
    }
  }

  /**
   * The burst of 401s followed by a failed refresh: every request rejects with
   * the refresh error, the store is logged out and the client is sent to the
   * login page.
   */
  lemma ConcurrentUnauthorizedThenFailure(c: Coordinator, reqs: seq<Request>, reason: string)
    requires Valid(c) && !c.isRefreshing && Storage.HasItem(c.session.storage, Storage.RefreshTokenKey)
    requires 1 <= |reqs| && AllRecoverable(reqs)
    ensures Admissible(c, Unauthorized(reqs))
    ensures Run(c, Unauthorized(reqs)).state.initiator.Some?
    ensures var burst := Run(c, Unauthorized(reqs));
      var done := OnRefreshFailed(burst.state, reason);
      && |done.effects| == |reqs| + 1
      && (forall i :: 1 <= i < |reqs| ==> done.effects[i - 1] == Reject(reqs[i].id, RefreshRejected(reason)))
      && done.effects[|reqs| - 1] == Redirect(LoginPage)
      && done.effects[|reqs|] == Reject(reqs[0].id, RefreshRejected(reason))
      && done.state.session == AuthStore.Logout(c.session)
      && Valid(done.state) && !done.state.isRefreshing
  {
    ConcurrentUnauthorized(c, reqs);
    var burst := Run(c, Unauthorized(reqs));
    var done := OnRefreshFailed(burst.state, reason);
    MarksAt(reqs[1..]);
    forall i | 1 <= i < |reqs|
      ensures done.effects[i - 1] == Reject(reqs[i].id, RefreshRejected(reason))
    {
      assert reqs[1..][i - 1] == reqs[i];
    }
  }

  /**
   * Logout keeps the refresh token, so a later first 401 from a logged-out
   * store still issues a refresh call with it.
   */
  lemma RefreshAfterLogout(c: Coordinator, req: Request)
    requires Valid(c) && !c.isRefreshing && Storage.HasItem(c.session.storage, Storage.RefreshTokenKey)
    requires Recoverable(req, Some(401))
    ensures var loggedOut := c.(session := AuthStore.Logout(c.session));
      OnResponse(loggedOut, req, Some(401)).effects == [PostRefresh(c.session.storage[Storage.RefreshTokenKey])]
  {
    var s := AuthStore.Logout(c.session);
    assert Storage.GetItem(s.storage, Storage.RefreshTokenKey) == Storage.GetItem(c.session.storage, Storage.RefreshTokenKey);
  }
}
