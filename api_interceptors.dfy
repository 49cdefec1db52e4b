/** The axios interceptors of the admin front end
    (healthcare_backend/healthcare-frontend/src/services/api.js): every
    outgoing request gets the stored access token as a bearer header, and a
    401 answer is retried at most once after refreshing the access token.

    A request's config is a `Config` object, shared between the failed call
    and its replay. The refresh POST is not performed: its outcome is the
    parameter `refresh`, consulted only when a refresh token is stored.
    `window.location.href` is the field `href` of a `Window`. */
module ApiInterceptors {
  import opened Js
  import opened TokenStore

  const LoginPath: string := "/login"

  /** The value of the `Authorization` header for `token`. */
  function Bearer(token: string): (h: string)
    ensures |h| == 7 + |token| && h[..7] == "Bearer " && h[7..] == token
  {
    "Bearer " + token
  }

  /** The headers a request leaves with, given the stored access token:
      a bearer header iff the token is present and non-empty; every other
      header is kept. */
  function WithBearer(headers: map<string, string>, token: Option<string>): (r: map<string, string>)
    ensures "Authorization" in r <==> "Authorization" in headers || Present(token)
    ensures Present(token) ==> r["Authorization"] == Bearer(token.value)
    ensures forall h :: h in headers && h != "Authorization" ==> h in r && r[h] == headers[h]
    ensures forall h :: h in r && h != "Authorization" ==> h in headers
    ensures !Present(token) ==> r == headers
  {
    if Present(token) then headers["Authorization" := Bearer(token.value)] else headers
  }

  class Config {
    var headers: map<string, string>
    /** `originalRequest._retry`; an unset property reads as `false`. */
    var retry: bool

    constructor (headers: map<string, string>)
      ensures this.headers == headers && !retry
    {
      this.headers := headers;
      retry := false;
    }
  }

  class Window {
    var href: string

    constructor (href: string)
      ensures this.href == href
    {
      this.href := href;
    }
  }

  /** What the refresh POST answers: the new access token, or the error it
      rejects with. */
  datatype RefreshOutcome = Refreshed(access: string) | RefreshFailed(error: Value)

  /** How the response interceptor settles a failed request. */
  datatype Settled =
    | Replay            // `api(originalRequest)`: the request is sent again
    | RejectOriginal    // `Promise.reject(error)`
    | RejectRefresh(error: Value)  // `Promise.reject(refreshError)`

  /** The interceptor's decision, from the answer's status, the request's
      `_retry` flag, the stored refresh token and the refresh outcome. */
  function Decide(status: Option<int>, retried: bool, refreshToken: Option<string>, refresh: RefreshOutcome): Settled {
    if status == Some(401) && !retried && Present(refreshToken) then
      match refresh
      case Refreshed(_) => Replay
      case RefreshFailed(error) => RejectRefresh(error)
    else RejectOriginal
  }

  /** A request already retried is never retried again, and only a 401 is
      ever retried. */
  lemma RetryAtMostOnce(status: Option<int>, refreshToken: Option<string>, refresh: RefreshOutcome)
    ensures Decide(status, true, refreshToken, refresh) == RejectOriginal
    ensures status != Some(401) ==> Decide(status, false, refreshToken, refresh) == RejectOriginal
    ensures Decide(status, false, refreshToken, refresh) == Replay <==>
              status == Some(401) && Present(refreshToken) && refresh.Refreshed?
  {
  }

  /** The request interceptor. */
  method AttachToken(store: Storage, config: Config)
    modifies config`headers
    ensures config.headers == WithBearer(old(config.headers), store.GetToken())
  {
    var token := store.GetToken();
    if Present(token) {
      config.headers := config.headers["Authorization" := Bearer(token.value)];
    }
  }

  /** The response interceptor's error branch for a request whose answer
      had `status` (`None` when there was no answer at all). When it
      retries, `_retry` is set first; a successful refresh stores the new
      token and puts it on the request before the replay; a failed one
      clears both tokens and sends the browser to '/login'. */
  method OnError(store: Storage, window: Window, status: Option<int>, original: Config, refresh: RefreshOutcome)
    returns (r: Settled)
    requires store != window as object && original != store as object && original != window as object
    modifies store, window, original
    ensures r == Decide(status, old(original.retry), old(store.GetRefreshToken()), refresh)
    ensures status == Some(401) && !old(original.retry) ==> original.retry
    ensures original.retry == (old(original.retry) || status == Some(401))
    ensures r == Replay ==>
              store.items == old(store.items)[AccessKey := refresh.access]
              && original.headers == old(original.headers)["Authorization" := Bearer(refresh.access)]
              && window.href == old(window.href)
    ensures r.RejectRefresh? ==>
              store.items == old(store.items) - {AccessKey, RefreshKey}
              && window.href == LoginPath && original.headers == old(original.headers)
    ensures r == RejectOriginal ==>
              store.items == old(store.items) && window.href == old(window.href)
              && original.headers == old(original.headers)
  {
    if status == Some(401) && !original.retry {
      original.retry := true;
      var refreshToken := store.GetRefreshToken();
      if Present(refreshToken) {
        match refresh
        case Refreshed(access) =>
          store.SetToken(access);
          original.headers := original.headers["Authorization" := Bearer(access)];
          return Replay;
        case RefreshFailed(error) =>
          store.RemoveToken();
          window.href := LoginPath;
          return RejectRefresh(error);
      }
    }
    r := RejectOriginal;
  }

  /** A replayed request that fails with 401 again is rejected with its
      own error: the refresh is attempted once per request. */
  method SecondFailure(store: Storage, window: Window, original: Config, refresh: RefreshOutcome, again: RefreshOutcome)
    returns (first: Settled, second: Settled)
    requires store != window as object && original != store as object && original != window as object
    requires !original.retry
    modifies store, window, original
    ensures first == Decide(Some(401), false, old(store.GetRefreshToken()), refresh)
    ensures first == Replay ==> second == RejectOriginal
  {
    first := OnError(store, window, Some(401), original, refresh);
    second := RejectOriginal;
    if first == Replay {
      AttachToken(store, original);
      second := OnError(store, window, Some(401), original, again);
    }
  }
}
