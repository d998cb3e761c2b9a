/**
 * services/api.ts: the request interceptor that attaches credentials, and the
 * response interceptor that refreshes the session once on a 401 and retries,
 * parking the 401s that arrive while a refresh is in flight.
 *
 * Requests are records; the server's answers are parameters. Promise chaining
 * is reduced to two steps: `OnResponseError` (the synchronous part up to the
 * `await`) and `FinishRefresh` (what runs when the refresh call settles).
 */
module Api {
  import opened Common
  import opened JsString
  import AuthStore

  const AUTHORIZATION := "Authorization"
  const DEVICE_ID_HEADER := "X-Device-Id"
  const REFRESH_PATH := "/api/auth/refresh"
  const SIGN_IN_HASH := "#/signin"

  /** An axios request config: `url`, `headers` and the `_retry` mark. */
  datatype Request = Request(url: Option<string>, headers: Option<map<string, string>>, retry: bool)

  /** The bearer credential syntax of section 2.1 of RFC 6750. */
  function Bearer(token: string): (h: string)
    ensures StartsWith(h, "Bearer ") && h[7..] == token
  {
    "Bearer " + token
  }

  predicate IsRefreshCall(url: Option<string>)
  {
    url.Some? && Contains(url.value, REFRESH_PATH)
  }

  /** The token `addAuthHeaders` puts in `Authorization`, if any. */
  function Credential(url: Option<string>, s: AuthStore.AuthState): (t: Option<string>)
    ensures IsRefreshCall(url) ==> t == (if Truthy(s.refreshToken) then s.refreshToken else None)
    ensures !IsRefreshCall(url) ==> t == (if Truthy(s.accessToken) then s.accessToken else None)
  {
    if IsRefreshCall(url) then (if Truthy(s.refreshToken) then s.refreshToken else None)
    else if Truthy(s.accessToken) then s.accessToken
    else None
  }

  /** The refresh call is never sent with the access token, nor any other call with the refresh token
      (when the two differ). */
  lemma CredentialNeverCrosses(url: Option<string>, s: AuthStore.AuthState)
    requires s.accessToken != s.refreshToken
    ensures IsRefreshCall(url) ==> Credential(url, s) != s.accessToken || s.accessToken.None?
    ensures !IsRefreshCall(url) ==> Credential(url, s) != s.refreshToken || s.refreshToken.None?
  {
  }

  /** `addAuthHeaders`: `headers ?? {}`, then the bearer credential and the device id when present.
      Every other header is left as it was. */
  function AddAuthHeaders(req: Request, s: AuthStore.AuthState): (r: Request)
    ensures r.url == req.url && r.retry == req.retry && r.headers.Some?
    ensures var base := req.headers.GetOr(map[]);
      && (forall k :: k != AUTHORIZATION && k != DEVICE_ID_HEADER ==> Lookup(r.headers.value, k) == Lookup(base, k))
      && Lookup(r.headers.value, AUTHORIZATION)
         == (match Credential(req.url, s)
             case Some(t) => Some(Bearer(t))
             case None => Lookup(base, AUTHORIZATION))
      && Lookup(r.headers.value, DEVICE_ID_HEADER)
         == (if Truthy(s.deviceId) then s.deviceId else Lookup(base, DEVICE_ID_HEADER))
  {
    var base := req.headers.GetOr(map[]);
    var withAuth := match Credential(req.url, s)
      case Some(t) => base[AUTHORIZATION := Bearer(t)]
      case None => base;
    var withDevice := if Truthy(s.deviceId) then withAuth[DEVICE_ID_HEADER := s.deviceId.value] else withAuth;
    req.(headers := Some(withDevice))
  }

  /** The decision at the top of the response interceptor. */
  predicate ShouldAttemptRefresh(status: Option<int>, req: Request)
  {
    status == Some(401) && !req.retry && !IsRefreshCall(req.url)
  }

  /** A request marked `_retry` is never refreshed again: each request is retried at most once. */
  lemma RetriedAtMostOnce(status: Option<int>, req: Request)
    ensures !ShouldAttemptRefresh(status, req.(retry := true))
    ensures ShouldAttemptRefresh(status, req) ==> status == Some(401)
  {
  }

  /** The request retried with a fresh access token. */
  function WithToken(req: Request, token: string): (r: Request)
    ensures r.url == req.url && r.retry == req.retry
    ensures r.headers.Some? && Lookup(r.headers.value, AUTHORIZATION) == Some(Bearer(token))
  {
    req.(headers := Some(req.headers.GetOr(map[])[AUTHORIZATION := Bearer(token)]))
  }

  datatype WaiterOutcome = Retried(request: Request) | Rejected(request: Request)

  /** `resolveQueue(token)`: every parked request in arrival order, retried with the token or
      rejected when there is none. */
  function ResolveQueue(queue: seq<Request>, token: Option<string>): (r: seq<WaiterOutcome>)
    ensures |r| == |queue|
    ensures forall i :: 0 <= i < |queue| ==>
      r[i] == if Truthy(token) then Retried(WithToken(queue[i], token.value)) else Rejected(queue[i])
  {
    if queue == [] then []
    else
      [if Truthy(token) then Retried(WithToken(queue[0], token.value)) else Rejected(queue[0])]
      + ResolveQueue(queue[1..], token)
  }

  /** Without a token every parked request is rejected; with one, none is. */
  lemma {:induction false} ResolveQueueAllOrNothing(queue: seq<Request>, token: Option<string>)
    ensures Truthy(token) ==> forall i :: 0 <= i < |queue| ==> ResolveQueue(queue, token)[i].Retried?
    ensures !Truthy(token) ==> forall i :: 0 <= i < |queue| ==> ResolveQueue(queue, token)[i].Rejected?
  {
  }

  /** What the refresh endpoint answered. */
  datatype RefreshResponse =
    | RefreshSucceeded(accessToken: string, refreshToken: string)
    | RefreshUnsuccessful                 // `res.data.success` is not true
    | RefreshRequestFailed                // the POST itself threw

  datatype RefreshError = MissingRefreshToken | RefreshFailed | RefreshRequestError

  datatype RefreshResult = Refreshed(accessToken: string) | RefreshThrew(error: RefreshError)

  /** The refresh POST: no interceptors, both headers set explicitly. */
  function RefreshRequest(s: AuthStore.AuthState): (r: Request)
    requires s.refreshToken.Some?
    ensures r.url == Some(REFRESH_PATH) && r.headers.Some?
    ensures Lookup(r.headers.value, AUTHORIZATION) == Some(Bearer(s.refreshToken.value))
  {
    Request(Some(REFRESH_PATH),
            Some(map[AUTHORIZATION := Bearer(s.refreshToken.value),
                     DEVICE_ID_HEADER := s.deviceId.GetOr("")]),
            false)
  }

  /** `performRefresh`. `sent` is the refresh POST, absent when there was no refresh token. */
  method PerformRefresh(store: AuthStore.Store, response: RefreshResponse)
    returns (result: RefreshResult, sent: Option<Request>)
    modifies store
    ensures !Truthy(old(store.refreshToken)) ==>
      && sent == None && result == RefreshThrew(MissingRefreshToken)
      && store.State() == old(store.State()).(accessToken := None, refreshToken := None, user := None)
    ensures Truthy(old(store.refreshToken)) ==>
      && sent == Some(RefreshRequest(old(store.State())))
      && match response
         case RefreshSucceeded(a, r) =>
           result == Refreshed(a)
           && store.State() == old(store.State()).(accessToken := Some(a), refreshToken := Some(r))
         case RefreshUnsuccessful =>
           result == RefreshThrew(RefreshFailed)
           && store.State() == old(store.State()).(accessToken := None, refreshToken := None, user := None)
         case RefreshRequestFailed =>
           result == RefreshThrew(RefreshRequestError) && store.State() == old(store.State())
  {
    if !Truthy(store.refreshToken) {
      store.Logout();
      return RefreshThrew(MissingRefreshToken), None;
    }
    sent := Some(RefreshRequest(store.State()));
    match response
    case RefreshRequestFailed =>
      result := RefreshThrew(RefreshRequestError);
    case RefreshUnsuccessful =>
      store.Logout();
      result := RefreshThrew(RefreshFailed);
    case RefreshSucceeded(a, r) =>
      store.SetAuth(a, r);
      result := Refreshed(a);
  }

  /** What the interceptor does with a failed response right away. */
  datatype ErrorDecision =
    | RejectedUnchanged     // not a refreshable 401
    | Parked                // a refresh is in flight: wait for it
    | RefreshStarted        // this request starts the refresh

  /** What finally happens to the request that started a refresh. */
  datatype OriginalOutcome = RetriedWith(request: Request) | RejectedAfterLogout

  /** The module-level `isRefreshing` flag and `refreshQueue`. */
  class RefreshCoordinator {
    var isRefreshing: bool
    var queue: seq<Request>

    constructor ()
      ensures !isRefreshing && queue == []
    {
      isRefreshing, queue := false, [];
    }

    /** The response interceptor up to its `await`. `marked` is the request with `_retry` set. */
    method OnResponseError(status: Option<int>, req: Request) returns (d: ErrorDecision, marked: Request)
      modifies this
      ensures !ShouldAttemptRefresh(status, req) ==>
        d == RejectedUnchanged && marked == req && isRefreshing == old(isRefreshing) && queue == old(queue)
      ensures ShouldAttemptRefresh(status, req) ==> marked == req.(retry := true) && isRefreshing
      ensures ShouldAttemptRefresh(status, req) && old(isRefreshing) ==>
        d == Parked && queue == old(queue) + [marked]
      ensures ShouldAttemptRefresh(status, req) && !old(isRefreshing) ==>
        d == RefreshStarted && queue == old(queue)
    {
      if !ShouldAttemptRefresh(status, req) {
        return RejectedUnchanged, req;
      }
      marked := req.(retry := true);
      if isRefreshing {
        queue := queue + [marked];
        return Parked, marked;
      }
      isRefreshing := true;
      d := RefreshStarted;
    }

    /** `resolveQueue`: every parked callback runs once, in order, and the queue is emptied. */
    method ResolveParked(token: Option<string>) returns (outcomes: seq<WaiterOutcome>)
      modifies this
      ensures outcomes == ResolveQueue(old(queue), token)
      ensures queue == [] && isRefreshing == old(isRefreshing)
    {
      var q := queue;
      outcomes := [];
      var i := 0;
      while i < |q|
        invariant 0 <= i <= |q|
        invariant outcomes == ResolveQueue(q[..i], token)
        invariant unchanged(this)
      {
        var cb := if Truthy(token) then Retried(WithToken(q[i], token.value)) else Rejected(q[i]);
        ResolveQueueSnoc(q[..i], q[i], token);
        assert q[..i + 1] == q[..i] + [q[i]];
        outcomes := outcomes + [cb];
        i := i + 1;
      }
      assert q[..i] == q;
      queue := [];
    }

    /** The rest of the interceptor once the refresh started by `original` settles. */
    method FinishRefresh(store: AuthStore.Store, response: RefreshResponse, original: Request)
      returns (outcome: OriginalOutcome, parked: seq<WaiterOutcome>, redirect: Option<string>)
      modifies this, store
      ensures !isRefreshing && queue == []
      ensures response.RefreshSucceeded? && Truthy(old(store.refreshToken)) ==>
        && outcome == RetriedWith(WithToken(original, response.accessToken))
        && parked == ResolveQueue(old(queue), Some(response.accessToken))
        && redirect == None
        && store.State() == old(store.State()).(accessToken := Some(response.accessToken),
                                                refreshToken := Some(response.refreshToken))
      ensures !(response.RefreshSucceeded? && Truthy(old(store.refreshToken))) ==>
        && outcome == RejectedAfterLogout
        && parked == ResolveQueue(old(queue), None)
        && (forall i :: 0 <= i < |parked| ==> parked[i].Rejected?)
        && redirect == Some(SIGN_IN_HASH)
        && store.State() == old(store.State()).(accessToken := None, refreshToken := None, user := None)
    {
      var result, _ := PerformRefresh(store, response);
      match result {
        case Refreshed(newAccess) =>
          parked := ResolveParked(Some(newAccess));
          outcome := RetriedWith(WithToken(original, newAccess));
          redirect := None;
        case RefreshThrew(_) =>
          store.Logout();
          parked := ResolveParked(None);
          ResolveQueueAllOrNothing(old(queue), None);
          outcome := RejectedAfterLogout;
          redirect := Some(SIGN_IN_HASH);
      }
      isRefreshing := false;
    }
  }

  lemma {:induction false} ResolveQueueSnoc(q: seq<Request>, x: Request, token: Option<string>)
    ensures ResolveQueue(q + [x], token)
         == ResolveQueue(q, token) + [if Truthy(token) then Retried(WithToken(x, token.value)) else Rejected(x)]
  {
    if q == [] {
      assert q + [x] == [x];
    } else {
      assert (q + [x])[1..] == q[1..] + [x];
      ResolveQueueSnoc(q[1..], x, token);
    }
  }
}
