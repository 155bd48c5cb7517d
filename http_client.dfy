/** The HTTP client of src/api/axios.js: a request interceptor that puts the
    access token of the auth store into the `Authorization` header, and a
    response interceptor that answers a 401 by refreshing the token once and
    replaying the request.  The transport is not modelled: what the server
    answers to the request, to the refresh call and to the replay are
    parameters.  Each interceptor runs to completion before anything else
    happens.

    The functions describe one request as a value; the methods perform it on a
    request configuration object and on the auth store, and are proved to
    agree with the functions. */
module HttpClient {
  import opened Common
  import opened AuthSpec
  import AuthStore

  /** The parts of a request configuration the interceptors touch: its
      headers and the `_retry` mark. */
  datatype Config = Config(headers: map<string, string>, retry: bool)

  datatype Response = Response(status: int, body: string)

  /** A rejected request.  `status` is `error.response?.status`: absent when
      no response arrived at all. */
  datatype HttpError = HttpError(status: Option<int>, message: string)

  /** What the transport does with one request. */
  datatype Reply = Received(response: Response) | Refused(failure: HttpError)

  /** Why the promise returned to the caller is rejected: the request's own
      error, or the error of the refresh that was attempted for it. */
  datatype Rejection = RequestFailed(failure: HttpError) | RefreshFailed(error: Error)

  /** The auth state and the request configuration once the caller's promise
      settles, that promise's result, and how many times the request went to
      the transport. */
  datatype Settled = Settled(auth: AuthState, config: Config, result: Result<Response, Rejection>, sends: nat)

  const Unauthorized := 401
  const Authorization := "Authorization"
  const BearerPrefix := "Bearer "

  /** The credentials of the Bearer scheme (section 2.1 of RFC 6750). */
  function BearerHeader(token: string): (h: string)
    ensures BearerToken(h) == Some(token)
  {
    BearerPrefix + token
  }

  /** The token of a Bearer `Authorization` value, if it is one. */
  function BearerToken(h: string): Option<string> {
    if |BearerPrefix| <= |h| && h[..|BearerPrefix|] == BearerPrefix then Some(h[|BearerPrefix|..]) else None
  }

  /** The request interceptor: with a token in the store the request carries
      it, otherwise the request goes out as it is. */
  function Authorize(config: Config, s: AuthState): (r: Config)
    ensures r.retry == config.retry
    ensures forall k :: k != Authorization ==> (k in r.headers <==> k in config.headers)
    ensures forall k :: k != Authorization && k in config.headers ==> r.headers[k] == config.headers[k]
    ensures IsAuthenticated(s) ==>
              Authorization in r.headers && BearerToken(r.headers[Authorization]) == Some(s.accessToken.value)
    ensures !IsAuthenticated(s) ==> r == config
  {
    if IsAuthenticated(s) then config.(headers := config.headers[Authorization := BearerHeader(s.accessToken.value)])
    else config
  }

  /** The condition of the response error handler: a 401, on a request not yet
      retried, while the store holds a token. */
  function ShouldRetry(failure: HttpError, retried: bool, s: AuthState): (b: bool)
    ensures b ==> failure.status == Some(Unauthorized)
    ensures retried || !IsAuthenticated(s) ==> !b
    ensures failure.status == Some(Unauthorized) && !retried && IsAuthenticated(s) ==> b
  {
    failure.status == Some(Unauthorized) && !retried && IsAuthenticated(s)
  }

  /** The response error handler.  It marks the request, waits on the
      store's refresh (its own or the pending one, which settles with
      `refresh`) and replays the request with the new token.  The replay is
      returned without being awaited, so its rejection reaches the caller
      unchanged (the handler runs again on it, but the mark makes it pass the
      error through) and does not end the session.  A failed refresh ends the
      session: the store's refresh handler logs out, and so does this one. */
  function OnRejected(s: AuthState, config: Config, failure: HttpError,
                      refresh: Result<Credentials, Error>, replay: Reply): (r: Settled)
    ensures r.sends <= 1
    ensures r.sends == 1 <==> ShouldRetry(failure, config.retry, s) && refresh.Success?
    ensures !ShouldRetry(failure, config.retry, s) ==> r == Settled(s, config, Failure(RequestFailed(failure)), 0)
    ensures ShouldRetry(failure, config.retry, s) ==> r.config.retry
    ensures ShouldRetry(failure, config.retry, s) && refresh.Success? ==>
              r.auth == CompleteRefresh(BeginRefresh(s).state, refresh).state
    ensures ShouldRetry(failure, config.retry, s) && refresh.Success? && replay.Received? ==>
              r.result == Success(replay.response)
    ensures r.auth.refreshCalls <= s.refreshCalls + 1
    decreases if config.retry then 0 else 1
  {
    if !ShouldRetry(failure, config.retry, s) then Settled(s, config, Failure(RequestFailed(failure)), 0)
    else
      var marked := config.(retry := true);
      var settled := CompleteRefresh(BeginRefresh(s).state, refresh);
      match settled.out
      case Failure(e) => Settled(Logout(settled.state), marked, Failure(RefreshFailed(e)), 0)
      case Success(_) =>
        var auth := settled.state;
        var replayed := Authorize(marked.(headers := marked.headers[Authorization := BearerHeader(auth.accessToken.value)]), auth);
        match replay
        case Received(response) => Settled(auth, replayed, Success(response), 1)
        case Refused(again) =>
          var passed := OnRejected(auth, replayed, again, refresh, replay);
          passed.(sends := passed.sends + 1)
  }

  /** One request through the client: the request interceptor, the transport
      answering with `reply`, then the success pass-through or the error
      handler. */
  function Deliver(s: AuthState, config: Config, reply: Reply,
                   refresh: Result<Credentials, Error>, replay: Reply): (r: Settled)
    ensures 1 <= r.sends <= 2
    ensures r.sends == 2 <==> reply.Refused? && ShouldRetry(reply.failure, config.retry, s) && refresh.Success?
    ensures reply.Received? ==> r == Settled(s, Authorize(config, s), Success(reply.response), 1)
    ensures reply.Refused? && ShouldRetry(reply.failure, config.retry, s) && refresh.Success? ==>
              r.auth == CompleteRefresh(BeginRefresh(s).state, refresh).state
    ensures reply.Refused? && ShouldRetry(reply.failure, config.retry, s) && refresh.Success? && replay.Received? ==>
              r.result == Success(replay.response)
    ensures r.auth.refreshCalls <= s.refreshCalls + 1
  {
    var sent := Authorize(config, s);
    match reply
    case Received(response) => Settled(s, sent, Success(response), 1)
    case Refused(failure) =>
      var handled := OnRejected(s, sent, failure, refresh, replay);
      handled.(sends := handled.sends + 1)
  }

  // ------------------------------------------------------------- lemmas

  /** A failed refresh rejects the request with the refresh's error and leaves
      the store logged out, so that later refreshes are refused. */
  lemma RefreshFailureEndsSession(s: AuthState, config: Config, failure: HttpError,
                                  refresh: Result<Credentials, Error>, replay: Reply)
    requires ShouldRetry(failure, config.retry, s) && refresh.Failure?
    ensures var r := OnRejected(s, config, failure, refresh, replay);
            && r.result == Failure(RefreshFailed(refresh.error))
            && r.auth == Logout(s).(refreshCalls := r.auth.refreshCalls)
            && Refusing(r.auth) && SlotCoherent(r.auth)
  {
  }

  /** After a successful refresh a failing replay is handed to the caller as
      it is, and the store keeps the refreshed session. */
  lemma ReplayFailureKeepsSession(s: AuthState, config: Config, failure: HttpError,
                                  refresh: Result<Credentials, Error>, replay: Reply)
    requires ShouldRetry(failure, config.retry, s) && refresh.Success? && replay.Refused?
    ensures var r := OnRejected(s, config, failure, refresh, replay);
            && r.result == Failure(RequestFailed(replay.failure))
            && r.auth.accessToken == Some(refresh.value.accessToken)
            && r.auth.user == refresh.value.user
            && !r.auth.isRefreshing
  {
  }

  /** The replayed request carries the refreshed token and the retry mark. */
  lemma ReplayCarriesRefreshedToken(s: AuthState, config: Config, failure: HttpError,
                                    refresh: Result<Credentials, Error>, replay: Reply)
    requires ShouldRetry(failure, config.retry, s) && refresh.Success?
    ensures var r := OnRejected(s, config, failure, refresh, replay);
            && r.config.retry
            && Authorization in r.config.headers
            && BearerToken(r.config.headers[Authorization]) == Some(refresh.value.accessToken)
  {
  }

  /** Headers other than `Authorization` reach the server as the caller set
      them, on the first send and on the replay. */
  lemma OtherHeadersUntouched(s: AuthState, config: Config, reply: Reply,
                              refresh: Result<Credentials, Error>, replay: Reply, k: string)
    requires k != Authorization
    ensures var r := Deliver(s, config, reply, refresh, replay);
            && (k in r.config.headers <==> k in config.headers)
            && (k in config.headers ==> r.config.headers[k] == config.headers[k])
  {
  }

  /** The interceptors keep the store's pending-refresh slot coherent. */
  lemma DeliverKeepsSlotCoherent(s: AuthState, config: Config, reply: Reply,
                                 refresh: Result<Credentials, Error>, replay: Reply)
    requires SlotCoherent(s)
    ensures SlotCoherent(Deliver(s, config, reply, refresh, replay).auth)
  {
  }

  // ------------------------------------------- the refresh call's own 401

  /** The configuration of the refresh call as src/services/authService.js
      sends it: through this same client, with no retry mark. */
  function RefreshCallConfig(): Config {
    Config(map[], false)
  }

  /** The refresh call's own 401, as written: once refresh number `n` is in
      flight, a 401 answering that very call satisfies the retry condition
      while the store still holds its old token, and the handler's
      `refreshToken` hands back the pending refresh, which is refresh `n`
      itself.  The handler waits on the refresh that waits on the handler, so
      neither settles and the slot stays full. */
  lemma RefreshCallWaitsOnItself(s: AuthState, message: string)
    requires IsAuthenticated(s) && !s.isRefreshing
    ensures var begun := BeginRefresh(s);
            && begun.out == Started(s.refreshCalls + 1)
            && ShouldRetry(HttpError(Some(Unauthorized), message), RefreshCallConfig().retry, begun.state)
            && BeginRefresh(begun.state) == Step(begun.state, Joined(Some(s.refreshCalls + 1)))
  {
  }

  /** The refresh call sent already marked, so that its rejection passes
      through the error handler. */
  function GuardedRefreshCallConfig(): Config {
    RefreshCallConfig().(retry := true)
  }

  /** With the mark, a 401 on the refresh call is handed back unchanged
      without touching the store; `refreshAccessToken` turns it into the
      error `thrown` (src/utils/errorHandler.js: the server's `detail`, or
      "Token refresh failed"), the pending refresh settles with that failure
      and the session ends, as for any failed refresh. */
  lemma GuardedRefreshCallSettles(s: AuthState, failure: HttpError, thrown: Error,
                                  refresh: Result<Credentials, Error>, replay: Reply)
    requires IsAuthenticated(s) && !s.isRefreshing
    ensures var begun := BeginRefresh(s);
            var handled := OnRejected(begun.state, GuardedRefreshCallConfig(), failure, refresh, replay);
            && handled == Settled(begun.state, GuardedRefreshCallConfig(), Failure(RequestFailed(failure)), 0)
            && CompleteRefresh(begun.state, Failure(thrown)).state
               == Logout(s).(refreshCalls := s.refreshCalls + 1)
  {
  }

  // ------------------------------------------------------------ objects

  /** The configuration object of one request, which the interceptors change
      in place. */
  class RequestConfig {
    var headers: map<string, string>
    var retry: bool

    constructor (headers: map<string, string>)
      ensures Snapshot() == Config(headers, false)
    {
      this.headers := headers;
      retry := false;
    }

    function Snapshot(): Config
      reads this
    {
      Config(headers, retry)
    }
  }

  /** The request interceptor. */
  method AttachToken(config: RequestConfig, store: AuthStore.Store)
    modifies config
    ensures config.Snapshot() == Authorize(old(config.Snapshot()), store.State())
  {
    if store.IsAuthenticated() {
      config.headers := config.headers[Authorization := BearerHeader(store.accessToken.value)];
    }
  }

  /** The response error handler. */
  method HandleRejection(config: RequestConfig, failure: HttpError, store: AuthStore.Store,
                         refresh: Result<Credentials, Error>, replay: Reply)
    returns (r: Result<Response, Rejection>, sends: nat)
    requires store.Valid()
    modifies config, store
    ensures Settled(store.State(), config.Snapshot(), r, sends)
            == OnRejected(old(store.State()), old(config.Snapshot()), failure, refresh, replay)
    ensures store.Valid()
    decreases if config.retry then 0 else 1
  {
    if !(failure.status == Some(Unauthorized) && !config.retry && store.IsAuthenticated()) {
      return Failure(RequestFailed(failure)), 0;
    }
    config.retry := true;
    var start := store.RefreshToken();
    assert !start.Rejected?;
    var settled := store.SettleRefresh(refresh);
    match settled {
      case Failure(e) =>
        store.Logout();
        return Failure(RefreshFailed(e)), 0;
      case Success(_) =>
        config.headers := config.headers[Authorization := BearerHeader(store.accessToken.value)];
        AttachToken(config, store);
        match replay {
          case Received(response) =>
            r, sends := Success(response), 1;
          case Refused(again) =>
            r, sends := HandleRejection(config, again, store, refresh, replay);
            sends := sends + 1;
        }
    }
  }

  /** One request through the client and its interceptors. */
  method Send(config: RequestConfig, store: AuthStore.Store, reply: Reply,
              refresh: Result<Credentials, Error>, replay: Reply)
    returns (r: Result<Response, Rejection>, sends: nat)
    requires store.Valid()
    modifies config, store
    ensures Settled(store.State(), config.Snapshot(), r, sends)
            == Deliver(old(store.State()), old(config.Snapshot()), reply, refresh, replay)
    ensures store.Valid()
  {
    AttachToken(config, store);
    match reply {
      case Received(response) =>
        r, sends := Success(response), 1;
      case Refused(failure) =>
        r, sends := HandleRejection(config, failure, store, refresh, replay);
        sends := sends + 1;
    }
  }
}
