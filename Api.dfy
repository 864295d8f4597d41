/**
 * `setupAPIClient`: an axios instance whose `Authorization` default comes from the session
 * cookies, and whose response interceptor coordinates token refresh. A `token.expired` 401 starts
 * at most one refresh and parks the failed request in the queue; when the refresh settles, every
 * parked request is replayed with the new token, or rejected with the refresh's error, in arrival
 * order. The promises of the source become event methods: `OnError` is the interceptor's error
 * half, `RefreshSucceeded` and `RefreshFailed` the two ways the refresh call settles.
 */
module Api {
  import opened Wrappers
  import opened Cookies
  import opened Runtime
  import AuthContext

  const Unauthorized: int := 401
  const TokenExpiredCode: string := "token.expired"

  /** The body of a successful `POST /auth/refreshtoken`. */
  datatype RefreshResponse = RefreshResponse(accessToken: string, refreshToken: string, tokenType: string)

  /** What the interceptor does with a failed request: reject it now, or park it in the queue
   *  (a promise that settles only when the refresh does). */
  datatype Interception = Fails(reason: Failure) | Queued

  /** How a parked request ends when the refresh settles: sent again with its new config, dropped
   *  without ever settling (its config had no headers), or rejected with the refresh's error. */
  datatype Settlement = Retried(config: RequestConfig) | Dropped(config: RequestConfig) | RejectedWith(config: RequestConfig, error: Failure)

  predicate IsUnauthorized(e: AxiosError) {
    e.response.Some? && e.response.value.status == Unauthorized
  }

  predicate IsTokenExpired(e: AxiosError) {
    IsUnauthorized(e) && e.response.value.code == Some(TokenExpiredCode)
  }

  /** The interceptor's success half: a response passes through unchanged. */
  function OnResponse<R>(response: R): (r: R)
    ensures r == response
  {
    response
  }

  /** The default headers a new client starts with. */
  function InitialHeaders(cookies: Store): (h: map<string, string>)
    ensures h.Keys <= {AuthorizationHeader}
    ensures AuthorizationHeader in h <==> Truthy(cookies, AccessTokenKey) && Truthy(cookies, TokenTypeKey)
  {
    if Truthy(cookies, AccessTokenKey) && Truthy(cookies, TokenTypeKey)
    then map[AuthorizationHeader := Value(cookies, TokenTypeKey) + " " + Value(cookies, AccessTokenKey)]
    else map[]
  }

  /** `Authorization` is the only default header a new client gets; it is there exactly when both
   *  the access token and the token type cookies are non-empty, and reads `tokenType accessToken`. */
  lemma InitialAuthorization(cookies: Store)
    ensures InitialHeaders(cookies).Keys <= {AuthorizationHeader}
    ensures AuthorizationHeader in InitialHeaders(cookies) <==> Truthy(cookies, AccessTokenKey) && Truthy(cookies, TokenTypeKey)
    ensures AuthorizationHeader in InitialHeaders(cookies) ==>
      InitialHeaders(cookies)[AuthorizationHeader] == cookies[TokenTypeKey].value + " " + cookies[AccessTokenKey].value
  {
  }

  /** The credential header set after a refresh: the scheme is always `Bearer`. */
  function Bearer(token: string): string {
    "Bearer " + token
  }

  /** A parked request's `onSuccess(token)`: the same request, sent again or dropped; never rejected. */
  function Replay(config: RequestConfig, token: string): (s: Settlement)
    ensures !s.RejectedWith? && s.config.id == config.id
    ensures s.Retried? <==> config.headers.Some?
  {
    match config.headers
    case None => Dropped(config)
    case Some(h) => Retried(RequestConfig(config.id, Some(h[AuthorizationHeader := Bearer(token)])))
  }

  /** A replay retries exactly the requests whose config has headers, as the same request, with
   *  `Authorization: Bearer <token>` and every other header kept; the others are dropped as they are. */
  lemma ReplayCarriesNewToken(config: RequestConfig, token: string)
    ensures Replay(config, token).Retried? <==> config.headers.Some?
    ensures Replay(config, token).config.id == config.id
    ensures Replay(config, token).Dropped? ==> Replay(config, token).config == config
    ensures config.headers.Some? ==>
      var h := Replay(config, token).config.headers;
      && h.Some?
      && h.value.Keys == config.headers.value.Keys + {AuthorizationHeader}
      && h.value[AuthorizationHeader] == "Bearer " + token
      && forall k :: k in config.headers.value && k != AuthorizationHeader ==> h.value[k] == config.headers.value[k]
  {
  }

  /** One client together with the refresh state it coordinates. */
  class ApiClient {
    /** The cookies `parseCookies(ctx)` reads: the request's on the server, the document's in the browser. */
    const jar: CookieJar
    const router: Router
    /** `api.defaults.headers.common`. */
    const defaults: HeaderDefaults
    /** `process.browser`. */
    const browser: bool
    var isRefreshing: bool
    var failedRequestsQueue: seq<RequestConfig>
    /** The refresh calls issued, each with the refresh token it posted (`undefined` when no cookie). */
    var refreshCalls: seq<Option<string>>
    /** How many of those calls have settled. */
    ghost var settledRefreshes: nat

    /** The flag is up exactly while requests are parked, and at most one refresh call is unsettled. */
    ghost predicate Valid()
      reads this
    {
      && (isRefreshing <==> failedRequestsQueue != [])
      && |refreshCalls| == settledRefreshes + (if isRefreshing then 1 else 0)
    }

    constructor (jar: CookieJar, router: Router, browser: bool)
      ensures Valid()
      ensures this.jar == jar && this.router == router && this.browser == browser
      ensures fresh(defaults) && defaults.common == InitialHeaders(jar.entries)
      ensures !isRefreshing && failedRequestsQueue == [] && refreshCalls == []
    {
      var d := new HeaderDefaults();
      d.common := InitialHeaders(jar.entries);
      this.jar, this.router, this.browser, defaults := jar, router, browser, d;
      isRefreshing, failedRequestsQueue, refreshCalls := false, [], [];
      settledRefreshes := 0;
    }

    /** The interceptor's error half. */
    method OnError(error: AxiosError) returns (result: Interception)
      requires Valid()
      modifies this, jar, router
      ensures Valid()
      ensures !IsUnauthorized(error) ==> result == Fails(Axios(error)) && unchanged(this, jar, router)
      ensures IsTokenExpired(error) ==>
        && result == Queued
        && isRefreshing
        && failedRequestsQueue == old(failedRequestsQueue) + [error.config]
        && refreshCalls == old(refreshCalls) + (if old(isRefreshing) then [] else [Lookup(old(jar.entries), RefreshTokenKey)])
        && unchanged(jar, router)
      ensures IsUnauthorized(error) && !IsTokenExpired(error) ==>
        && isRefreshing == old(isRefreshing)
        && failedRequestsQueue == old(failedRequestsQueue)
        && refreshCalls == old(refreshCalls)
        && (browser ==>
              && result == Fails(Axios(error))
              && jar.entries == WithoutSession(old(jar.entries))
              && router.history == old(router.history) + [HomeRoute])
        && (!browser ==> result == Fails(AuthTokenError) && unchanged(jar, router))
    {
      if !IsUnauthorized(error) {
        return Fails(Axios(error));
      }
      if IsTokenExpired(error) {
        var oldRefreshToken := Lookup(jar.entries, RefreshTokenKey);
        if !isRefreshing {
          isRefreshing := true;
          refreshCalls := refreshCalls + [oldRefreshToken];
        }
        failedRequestsQueue := failedRequestsQueue + [error.config];
        return Queued;
      }
      if browser {
        AuthContext.SignOut(jar, router);
      } else {
        return Fails(AuthTokenError);
      }
      return Fails(Axios(error));
    }

    /** The refresh call answered: store the new session (the browser's store; on the server
     *  `setCookie` without a context has none), switch the default header to `Bearer`, replay
     *  the queue in order, then empty it and lower the flag. */
    method RefreshSucceeded(response: RefreshResponse) returns (settlements: seq<Settlement>)
      requires Valid() && isRefreshing
      modifies this, jar, defaults
      ensures Valid()
      ensures !isRefreshing && failedRequestsQueue == [] && refreshCalls == old(refreshCalls)
      ensures |settlements| == |old(failedRequestsQueue)|
      ensures forall k :: 0 <= k < |settlements| ==> settlements[k] == Replay(old(failedRequestsQueue)[k], response.accessToken)
      ensures jar.entries == if browser
        then WithSession(old(jar.entries), Session(response.tokenType, response.accessToken, response.refreshToken))
        else old(jar.entries)
      ensures defaults.common == old(defaults.common)[AuthorizationHeader := Bearer(response.accessToken)]
    {
      if browser {
        jar.SetCookie(TokenTypeKey, response.tokenType);
        jar.SetCookie(AccessTokenKey, response.accessToken);
        jar.SetCookie(RefreshTokenKey, response.refreshToken);
      }
      defaults.common := defaults.common[AuthorizationHeader := Bearer(response.accessToken)];
      settlements := [];
      var i := 0;
      while i < |failedRequestsQueue|
        invariant 0 <= i <= |failedRequestsQueue|
        invariant |settlements| == i
        invariant forall k :: 0 <= k < i ==> settlements[k] == Replay(failedRequestsQueue[k], response.accessToken)
      {
        settlements := settlements + [Replay(failedRequestsQueue[i], response.accessToken)];
        i := i + 1;
      }
      failedRequestsQueue := [];
      isRefreshing := false;
      settledRefreshes := settledRefreshes + 1;
    }

    /** The refresh call failed: reject the queue in order with its error, empty it, sign out in the
     *  browser, lower the flag. `err` is what the refresh's own promise was rejected with, after
     *  this interceptor saw its failure (see `RefreshRejectedOnServer`). */
    method RefreshFailed(err: Failure) returns (settlements: seq<Settlement>)
      requires Valid() && isRefreshing
      modifies this, jar, router
      ensures Valid()
      ensures !isRefreshing && failedRequestsQueue == [] && refreshCalls == old(refreshCalls)
      ensures |settlements| == |old(failedRequestsQueue)|
      ensures forall k :: 0 <= k < |settlements| ==> settlements[k] == RejectedWith(old(failedRequestsQueue)[k], err)
      ensures browser ==> jar.entries == WithoutSession(old(jar.entries)) && router.history == old(router.history) + [HomeRoute]
      ensures !browser ==> unchanged(jar, router)
    {
      settlements := [];
      var i := 0;
      while i < |failedRequestsQueue|
        invariant 0 <= i <= |failedRequestsQueue|
        invariant |settlements| == i
        invariant forall k :: 0 <= k < i ==> settlements[k] == RejectedWith(failedRequestsQueue[k], err)
      {
        settlements := settlements + [RejectedWith(failedRequestsQueue[i], err)];
        i := i + 1;
      }
      failedRequestsQueue := [];
      if browser {
        AuthContext.SignOut(jar, router);
      }
      isRefreshing := false;
      settledRefreshes := settledRefreshes + 1;
    }
  }

  function ExpiredResponse(): Option<ErrorResponse> {
    Some(ErrorResponse(Unauthorized, Some(TokenExpiredCode)))
  }

  /** A client built from cookies without both an access token and a token type sends no credential. */
  lemma NoStoredCredentialsNoHeader(cookies: Store)
    requires !Truthy(cookies, AccessTokenKey) || !Truthy(cookies, TokenTypeKey)
    ensures AuthorizationHeader !in InitialHeaders(cookies)
  {
  }

  /** Any number of requests fail with an expired token before the refresh answers: exactly one
   *  refresh call is made, with the stored refresh token, and the replays follow the order of the
   *  failures, each retried request carrying `Bearer <new token>`. */
  method ExpiredBurst(stored: Store, configs: seq<RequestConfig>, refreshed: RefreshResponse)
    returns (refreshCalls: seq<Option<string>>, settlements: seq<Settlement>)
    requires configs != []
    ensures refreshCalls == [Lookup(stored, RefreshTokenKey)]
    ensures |settlements| == |configs|
    ensures forall k :: 0 <= k < |configs| ==> settlements[k] == Replay(configs[k], refreshed.accessToken)
    ensures forall k :: 0 <= k < |configs| && configs[k].headers.Some? ==>
      && settlements[k].Retried? && settlements[k].config.id == configs[k].id
      && settlements[k].config.headers.Some?
      && AuthorizationHeader in settlements[k].config.headers.value
      && settlements[k].config.headers.value[AuthorizationHeader] == "Bearer " + refreshed.accessToken
  {
    var jar := new CookieJar(stored);
    var router := new Router();
    var client := new ApiClient(jar, router, true);
    var i := 0;
    while i < |configs|
      invariant 0 <= i <= |configs|
      invariant client.Valid() && client.jar == jar && client.router == router && client.browser
      invariant jar.entries == stored
      invariant client.failedRequestsQueue == configs[..i]
      invariant client.refreshCalls == if i == 0 then [] else [Lookup(stored, RefreshTokenKey)]
    {
      var r := client.OnError(AxiosError(configs[i], ExpiredResponse()));
      assert configs[..i + 1] == configs[..i] + [configs[i]];
      i := i + 1;
    }
    assert configs[..i] == configs;
    refreshCalls := client.refreshCalls;
    settlements := client.RefreshSucceeded(refreshed);
    forall k | 0 <= k < |configs| {
      ReplayCarriesNewToken(configs[k], refreshed.accessToken);
    }
  }

  /** The refresh call fails in the browser: every parked request is rejected with that same
   *  error, in the order they failed; no session cookie is left, every other cookie is kept, and
   *  the user is sent to '/'. */
  method FailedRefresh(stored: Store, configs: seq<RequestConfig>, err: Failure)
    returns (settlements: seq<Settlement>, cookies: Store, routes: seq<string>)
    requires configs != []
    ensures |settlements| == |configs|
    ensures forall k :: 0 <= k < |configs| ==> settlements[k] == RejectedWith(configs[k], err)
    ensures ReadSession(cookies) == None
    ensures forall name :: name in stored && name !in SessionKeys ==> name in cookies && cookies[name] == stored[name]
    ensures routes == [HomeRoute]
  {
    var jar := new CookieJar(stored);
    var router := new Router();
    var client := new ApiClient(jar, router, true);
    var i := 0;
    while i < |configs|
      invariant 0 <= i <= |configs|
      invariant client.Valid() && client.jar == jar && client.router == router && client.browser
      invariant jar.entries == stored && router.history == []
      invariant client.failedRequestsQueue == configs[..i]
    {
      var r := client.OnError(AxiosError(configs[i], ExpiredResponse()));
      assert configs[..i + 1] == configs[..i] + [configs[i]];
      i := i + 1;
    }
    assert configs[..i] == configs;
    settlements := client.RefreshFailed(err);
    ClearSession(stored);
    cookies, routes := jar.entries, router.history;
  }

  /** A 401 without `token.expired` starts no refresh: in the browser the session is ended and the
   *  original error rejected; on the server an `AuthTokenError` is rejected and nothing else happens. */
  method RevokedToken(stored: Store, config: RequestConfig, code: Option<string>, browser: bool)
    returns (result: Interception, refreshCalls: seq<Option<string>>, cookies: Store, routes: seq<string>)
    requires code != Some(TokenExpiredCode)
    ensures refreshCalls == []
    ensures browser ==> result == Fails(Axios(AxiosError(config, Some(ErrorResponse(Unauthorized, code)))))
                        && ReadSession(cookies) == None && routes == [HomeRoute]
    ensures !browser ==> result == Fails(AuthTokenError) && cookies == stored && routes == []
  {
    var jar := new CookieJar(stored);
    var router := new Router();
    var client := new ApiClient(jar, router, browser);
    result := client.OnError(AxiosError(config, Some(ErrorResponse(Unauthorized, code))));
    ClearSession(stored);
    refreshCalls, cookies, routes := client.refreshCalls, jar.entries, router.history;
  }

  /** On the server, the refresh call itself is refused with a 401 that is not `token.expired`: its
   *  failure passes through this same interceptor, which turns it into an `AuthTokenError`, and the
   *  parked request is rejected with that, which is how `withSRRAuth` learns the session is over.
   *  No cookie is touched and no route is pushed. */
  method RefreshRejectedOnServer(stored: Store, config: RequestConfig, refreshConfig: RequestConfig, code: Option<string>)
    returns (settlements: seq<Settlement>, cookies: Store, routes: seq<string>)
    requires code != Some(TokenExpiredCode)
    ensures settlements == [RejectedWith(config, AuthTokenError)]
    ensures cookies == stored && routes == []
  {
    var jar := new CookieJar(stored);
    var router := new Router();
    var client := new ApiClient(jar, router, false);
    var parked := client.OnError(AxiosError(config, ExpiredResponse()));
    var refresh := client.OnError(AxiosError(refreshConfig, Some(ErrorResponse(Unauthorized, code))));
    settlements := client.RefreshFailed(refresh.reason);
    cookies, routes := jar.entries, router.history;
  }

  /** The refresh call itself fails with `token.expired`: the interceptor parks it behind the
   *  request that triggered it, starts no second refresh, and the flag stays up, so nothing parked
   *  ever settles and every later `token.expired` failure is parked too. */
  method RefreshParkedBehindItself(stored: Store, config: RequestConfig, refreshConfig: RequestConfig, later: RequestConfig, browser: bool)
    returns (refreshCalls: seq<Option<string>>, queue: seq<RequestConfig>, refreshing: bool)
    ensures refreshCalls == [Lookup(stored, RefreshTokenKey)]
    ensures queue == [config, refreshConfig, later]
    ensures refreshing
  {
    var jar := new CookieJar(stored);
    var router := new Router();
    var client := new ApiClient(jar, router, browser);
    var parked := client.OnError(AxiosError(config, ExpiredResponse()));
    var refresh := client.OnError(AxiosError(refreshConfig, ExpiredResponse()));
    var next := client.OnError(AxiosError(later, ExpiredResponse()));
    refreshCalls, queue, refreshing := client.refreshCalls, client.failedRequestsQueue, client.isRefreshing;
  }
}
