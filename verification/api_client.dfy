/**
 * The authentication layer of the browser-side `ApiClient`: the token store kept in
 * `localStorage`, the request interceptor that attaches the bearer token, the 401
 * response interceptor that coordinates a single token refresh among many waiting
 * requests, the error normaliser and the query-string builder.
 *
 * The asynchronous response interceptor is modelled as explicit events on the client:
 * `OnResponseError` is the synchronous part that runs when a request fails, and
 * `RefreshSucceeded` / `RefreshFailed` are the two ways the awaited `refreshToken()`
 * call can settle.
 */
module Api {
  import opened Wrappers
  import opened Text

  const AccessTokenKey := "accessToken"
  const RefreshTokenKey := "refreshToken"
  const AuthorizationHeader := "Authorization"
  const LoginPath := "/api/auth/login"
  const RegisterPath := "/api/auth/register"

  /** JavaScript truthiness of a string that may be `null`: present and not empty. */
  predicate Truthy(s: Option<string>)
  {
    s.Some? && s.value != ""
  }

  function Bearer(token: string): string
  {
    "Bearer " + token
  }

  /**
   * The part of an axios request config the authentication layer reads or writes:
   * the URL (possibly undefined), the header bag (possibly undefined) and the
   * `_retry` flag the response interceptor sets.
   */
  datatype Request = Request(url: Option<string>, headers: Option<map<string, string>>, retry: bool)

  /** What a server sent back with a failed call: its status and the `error` field of its body. */
  datatype ServerReply = ServerReply(status: int, errorField: Option<string>)

  /** An axios error: the request that failed, the transport message, and the response if one arrived. */
  datatype AxiosError = AxiosError(config: Request, message: string, response: Option<ServerReply>)

  /** Anything a CRUD call can throw: an axios error, or some other error with an optional message. */
  datatype Failure = Axios(error: AxiosError) | Other(message: Option<string>)

  /** The uniform result of the CRUD methods. */
  datatype ApiResponse<T> = ApiResponse(data: Option<T>, error: Option<string>, status: int)

  /** How a call through the transport ended: a response with a status, or a thrown failure. */
  datatype Outcome<T> = Delivered(data: T, status: int) | Thrown(failure: Failure)

  /** The body of a successful login. */
  datatype LoginTokens = LoginTokens(accessToken: string, refreshToken: string)

  /** A request parked in `refreshSubscribers` until the in-flight refresh succeeds. */
  datatype Subscriber = Subscriber(request: Request)

  /** What the response interceptor does with a failed request. */
  datatype Decision =
    | Reject(error: AxiosError)      // the error is passed on unchanged
    | Enqueue                        // the request waits for the refresh already in flight
    | StartRefresh(marked: Request)  // the request, now marked `_retry`, owns a new refresh

  /** `url.includes('/api/auth/login') || url.includes('/api/auth/register')`, false for an undefined URL. */
  predicate IsAuthEndpoint(url: Option<string>)
  {
    url.Some? && (Includes(url.value, LoginPath) || Includes(url.value, RegisterPath))
  }

  /** A URL is an auth endpoint exactly when the login or the register path occurs in it. */
  lemma AuthEndpointIff(url: Option<string>)
    ensures IsAuthEndpoint(url) <==>
      url.Some? && ((exists i :: OccursAt(url.value, LoginPath, i)) || (exists i :: OccursAt(url.value, RegisterPath, i)))
  {
    if url.Some? {
      IncludesIff(url.value, LoginPath);
      IncludesIff(url.value, RegisterPath);
    }
  }

  /** A 401 on a request that was not retried yet and is not a login or register call. */
  predicate RefreshEligible(e: AxiosError)
  {
    e.response.Some? && e.response.value.status == 401 && !e.config.retry && !IsAuthEndpoint(e.config.url)
  }

  /** The request with its `Authorization` header set to the bearer token, when it has a header bag. */
  function WithBearer(req: Request, token: string): (r: Request)
    ensures r.url == req.url && r.retry == req.retry && r.headers.Some? == req.headers.Some?
    ensures r.headers.Some? ==>
      r.headers.value.Keys == req.headers.value.Keys + {AuthorizationHeader} &&
      r.headers.value[AuthorizationHeader] == Bearer(token) &&
      forall k :: k in req.headers.value && k != AuthorizationHeader ==> r.headers.value[k] == req.headers.value[k]
  {
    match req.headers
    case None => req
    case Some(h) => req.(headers := Some(h[AuthorizationHeader := Bearer(token)]))
  }

  /**
   * The response interceptor's choice for a failed request, given whether a refresh is
   * already in flight.
   */
  function Route(e: AxiosError, refreshing: bool): (d: Decision)
    ensures d.Reject? <==> !RefreshEligible(e)
    ensures d.Reject? ==> d.error == e
    ensures d == Enqueue <==> RefreshEligible(e) && refreshing
    ensures d.StartRefresh? ==> !refreshing && d.marked == e.config.(retry := true)
    ensures e.config.retry || IsAuthEndpoint(e.config.url) ==> d == Reject(e)
  {
    if RefreshEligible(e) then
      if refreshing then Enqueue else StartRefresh(e.config.(retry := true))
    else Reject(e)
  }

  /**
   * The request that started a refresh is retried with the `_retry` mark, so a second 401 on
   * it is rejected whatever the refresh state.
   */
  lemma RetriedOriginalIsNotRefreshedAgain(e: AxiosError, token: string, again: AxiosError, refreshing: bool)
    requires Route(e, false).StartRefresh?
    requires again.config == WithBearer(Route(e, false).marked, token)
    ensures Route(again, refreshing) == Reject(again)
  {
  }

  /**
   * A queued request is replayed without the `_retry` mark, so when its replay meets a 401
   * again with no refresh in flight, it starts a refresh of its own.
   */
  lemma ResumedWaiterCanStartAnotherRefresh(e: AxiosError, token: string, again: AxiosError)
    requires Route(e, true) == Enqueue
    requires again.config == WithBearer(e.config, token)
    requires again.response.Some? && again.response.value.status == 401
    ensures Route(again, false) == StartRefresh(again.config.(retry := true))
  {
  }

  /** Login and register calls, wherever they are hosted, are auth endpoints. */
  lemma LoginAndRegisterAreAuthEndpoints()
    ensures IsAuthEndpoint(Some("https://localhost:7039/api/auth/login"))
    ensures IsAuthEndpoint(Some("/api/auth/register?next=/shop"))
    ensures !IsAuthEndpoint(None)
  {
    var full := "https://localhost:7039/api/auth/login";
    assert full[22..22 + |LoginPath|] == LoginPath;
    assert OccursAt(full, LoginPath, 22);
    assert OccursAt("/api/auth/register?next=/shop", RegisterPath, 0);
    AuthEndpointIff(Some(full));
    AuthEndpointIff(Some("/api/auth/register?next=/shop"));
  }

  /** The refresh and logout calls are not auth endpoints, so their 401s go through the refresh path. */
  lemma RefreshAndLogoutAreNotAuthEndpoints()
    ensures !IsAuthEndpoint(Some("/api/auth/refresh"))
    ensures !IsAuthEndpoint(Some("/api/auth/logout"))
  {
    var refresh := "/api/auth/refresh";
    assert refresh[1..][1..] == refresh[2..] && refresh[2..][1..] == refresh[3..];
    assert !Includes(refresh[3..], LoginPath);
    assert refresh[2..][..|LoginPath|][0] != LoginPath[0];
    assert !Includes(refresh[2..], LoginPath);
    assert refresh[1..][..|LoginPath|][0] != LoginPath[0];
    assert !Includes(refresh[1..], LoginPath);
    assert refresh[..|LoginPath|][10] != LoginPath[10];
    assert !Includes(refresh, LoginPath);

    var logout := "/api/auth/logout";
    assert logout[1..][1..] == logout[2..];
    assert !Includes(logout[2..], LoginPath);
    assert logout[1..][..|LoginPath|][0] != LoginPath[0];
    assert !Includes(logout[1..], LoginPath);
    assert logout[..|LoginPath|][13] != LoginPath[13];
    assert !Includes(logout, LoginPath);
  }

  /**
   * Invokes every queued subscriber once, in queue order, with the new token: each one
   * resumes its request with the new bearer header.
   */
  method NotifySubscribers(subscribers: seq<Subscriber>, token: string) returns (resumed: seq<Request>)
    ensures |resumed| == |subscribers|
    ensures forall i :: 0 <= i < |subscribers| ==> resumed[i] == WithBearer(subscribers[i].request, token)
    ensures forall i :: 0 <= i < |subscribers| ==>
      resumed[i].url == subscribers[i].request.url &&
      resumed[i].retry == subscribers[i].request.retry &&
      (resumed[i].headers.Some? ==>
         AuthorizationHeader in resumed[i].headers.value &&
         resumed[i].headers.value[AuthorizationHeader] == Bearer(token))
  {
    resumed := [];
    for i := 0 to |subscribers|
      invariant |resumed| == i
      invariant forall j :: 0 <= j < i ==> resumed[j] == WithBearer(subscribers[j].request, token)
    {
      resumed := resumed + [WithBearer(subscribers[i].request, token)];
    }
  }

  /** `handleError`: turns any thrown failure into `{error, status}`; it never fails. */
  function HandleError<T>(f: Failure): (r: ApiResponse<T>)
    ensures r.data.None? && r.error.Some? && r.error.value != ""
    ensures r.status != 0
    ensures f.Other? ==>
      (r.status == 500 &&
       r.error.value == if Truthy(f.message) then f.message.value else "An unexpected error occurred")
    ensures f.Axios? && f.error.response.Some? && f.error.response.value.status != 0 ==>
      r.status == f.error.response.value.status
    ensures f.Axios? && f.error.response.None? ==> r.status == 500
    ensures f.Axios? ==>
      r.status == if f.error.response.Some? && f.error.response.value.status != 0 then f.error.response.value.status else 500
    ensures f.Axios? && f.error.response.Some? && Truthy(f.error.response.value.errorField) ==>
      r.error == f.error.response.value.errorField
    ensures f.Axios? && !(f.error.response.Some? && Truthy(f.error.response.value.errorField)) ==>
      r.error.value == if f.error.message != "" then f.error.message else "An error occurred"
  {
    match f
    case Axios(e) =>
      var serverMessage := if e.response.Some? then e.response.value.errorField else None;
      var status := if e.response.Some? then e.response.value.status else 0;
      ApiResponse(
        None,
        Some(if Truthy(serverMessage) then serverMessage.value
             else if e.message != "" then e.message
             else "An error occurred"),
        if status != 0 then status else 500)
    case Other(m) =>
      ApiResponse(None, Some(if Truthy(m) then m.value else "An unexpected error occurred"), 500)
  }

  /** `get`/`post`/`put`/`patch`/`delete`: a delivered response or the normalised failure. */
  function Complete<T>(o: Outcome<T>): (r: ApiResponse<T>)
    ensures r.data.Some? != r.error.Some?
    ensures o.Delivered? ==> r.data == Some(o.data) && r.status == o.status
    ensures o.Thrown? ==> r == HandleError(o.failure)
  {
    match o
    case Delivered(data, status) => ApiResponse(Some(data), None, status)
    case Thrown(f) => HandleError(f)
  }

  /** A query parameter's value: `undefined`, `null`, or a value whose `String(...)` is `text`. */
  datatype ParamValue = Undefined | Null | Present(text: string)

  /** The key/value pairs `buildQueryString` appends, in entry order. */
  function Surviving(params: seq<(string, ParamValue)>): seq<(string, string)>
  {
    if params == [] then []
    else
      (if params[0].1.Present? then [(params[0].0, params[0].1.text)] else []) + Surviving(params[1..])
  }

  /** Surviving pairs of a concatenation are the surviving pairs of each part, in order. */
  lemma {:induction false} SurvivingAppend(a: seq<(string, ParamValue)>, b: seq<(string, ParamValue)>)
    ensures Surviving(a + b) == Surviving(a) + Surviving(b)
  {
    if a == [] {
      assert a + b == b;
    } else {
      var head := if a[0].1.Present? then [(a[0].0, a[0].1.text)] else [];
      assert (a + b)[0] == a[0];
      assert (a + b)[1..] == a[1..] + b;
      SurvivingAppend(a[1..], b);
      calc {
        Surviving(a + b);
        head + Surviving(a[1..] + b);
        head + (Surviving(a[1..]) + Surviving(b));
        (head + Surviving(a[1..])) + Surviving(b);
        Surviving(a) + Surviving(b);
      }
    }
  }

  /** A pair survives exactly when it was given with a value that is neither undefined nor null. */
  lemma {:induction false} SurvivingExactly(params: seq<(string, ParamValue)>)
    ensures |Surviving(params)| <= |params|
    ensures forall i :: 0 <= i < |Surviving(params)| ==>
      (Surviving(params)[i].0, Present(Surviving(params)[i].1)) in params
    ensures forall i :: 0 <= i < |params| && params[i].1.Present? ==>
      (params[i].0, params[i].1.text) in Surviving(params)
  {
    if params != [] {
      SurvivingExactly(params[1..]);
      var head := if params[0].1.Present? then [(params[0].0, params[0].1.text)] else [];
      assert Surviving(params) == head + Surviving(params[1..]);
      forall i | 0 <= i < |Surviving(params)|
        ensures (Surviving(params)[i].0, Present(Surviving(params)[i].1)) in params
      {
        if i < |head| {
          assert params[0] == (params[0].0, Present(params[0].1.text));
        } else {
          assert Surviving(params)[i] == Surviving(params[1..])[i - |head|];
          assert (Surviving(params)[i].0, Present(Surviving(params)[i].1)) in params[1..];
        }
      }
      forall i | 0 <= i < |params| && params[i].1.Present?
        ensures (params[i].0, params[i].1.text) in Surviving(params)
      {
        if i > 0 {
          assert params[i] == params[1..][i - 1];
        }
      }
    }
  }

  /**
   * `buildQueryString`: walks the entries in order and appends every pair whose value is
   * neither undefined nor null (the percent-encoding of the result is not modelled).
   */
  method BuildQueryString(params: seq<(string, ParamValue)>) returns (query: seq<(string, string)>)
    ensures query == Surviving(params)
  {
    query := [];
    for i := 0 to |params|
      invariant query == Surviving(params[..i])
    {
      var (key, value) := params[i];
      SurvivingAppend(params[..i], [params[i]]);
      assert params[..i + 1] == params[..i] + [params[i]];
      if value.Present? {
        query := query + [(key, value.text)];
      }
    }
    assert params[..|params|] == params;
  }

  /**
   * The client: its persisted token store, the refresh flag, the subscriber queue, and the
   * interceptor call suspended on the in-flight refresh.
   */
  class ApiClient {
    /** `typeof window !== 'undefined'`: whether `localStorage` is reachable at all. */
    const inBrowser: bool
    /** The `localStorage` entries, keyed `accessToken` and `refreshToken`. */
    var storage: map<string, string>
    var tokenRefreshInProgress: bool
    var refreshSubscribers: seq<Subscriber>
    /** The request whose interceptor call is suspended at `await this.refreshToken()`. */
    var awaitingRefresh: Option<Request>
    /**
     * The refresh token `refreshToken()` read synchronously when the refresh started; the
     * POST to the refresh endpoint carries it, whatever the storage holds by the time it settles.
     */
    var refreshCredential: Option<string>
    ghost var refreshesStarted: nat
    ghost var refreshesSettled: nat

    /**
     * A refresh is in progress exactly when one interceptor call awaits it; that request is
     * marked `_retry`; subscribers only wait while a refresh is in progress; a refresh token
     * is read only in a browser and only for a refresh in progress; and every refresh started
     * except at most the current one has settled.
     */
    ghost predicate Valid()
      reads this
    {
      (tokenRefreshInProgress <==> awaitingRefresh.Some?) &&
      (awaitingRefresh.Some? ==> awaitingRefresh.value.retry) &&
      (refreshCredential.Some? ==> inBrowser && tokenRefreshInProgress) &&
      (!tokenRefreshInProgress ==> refreshSubscribers == []) &&
      refreshesStarted == refreshesSettled + (if tokenRefreshInProgress then 1 else 0)
    }

    constructor (inBrowser: bool, persisted: map<string, string>)
      ensures Valid()
      ensures this.inBrowser == inBrowser && storage == persisted
      ensures !tokenRefreshInProgress && refreshSubscribers == [] && refreshesStarted == 0
    {
      this.inBrowser := inBrowser;
      storage := persisted;
      tokenRefreshInProgress := false;
      refreshSubscribers := [];
      awaitingRefresh := None;
      refreshCredential := None;
      refreshesStarted := 0;
      refreshesSettled := 0;
    }

    /** `getToken`: the stored access token, or null outside a browser or when none is stored. */
    function GetToken(): (t: Option<string>)
      reads this
      ensures t.Some? <==> inBrowser && AccessTokenKey in storage
      ensures t.Some? ==> t.value == storage[AccessTokenKey]
    {
      if inBrowser && AccessTokenKey in storage then Some(storage[AccessTokenKey]) else None
    }

    /** The refresh token `refreshToken()` reads; null outside a browser or when none is stored. */
    function StoredRefreshToken(): (t: Option<string>)
      reads this
      ensures t.Some? <==> inBrowser && RefreshTokenKey in storage
      ensures t.Some? ==> t.value == storage[RefreshTokenKey]
    {
      if inBrowser && RefreshTokenKey in storage then Some(storage[RefreshTokenKey]) else None
    }

    /** `setToken`: overwrites the access token entry, in a browser only. */
    method SetToken(token: string)
      modifies this`storage
      ensures storage == if inBrowser then old(storage)[AccessTokenKey := token] else old(storage)
    {
      if inBrowser {
        storage := storage[AccessTokenKey := token];
      }
    }

    /** `clearToken`: removes both token entries; afterwards no token can be read. */
    method ClearToken()
      modifies this`storage
      ensures storage == if inBrowser then old(storage) - {AccessTokenKey, RefreshTokenKey} else old(storage)
      ensures GetToken() == None && StoredRefreshToken() == None
    {
      if inBrowser {
        storage := storage - {AccessTokenKey, RefreshTokenKey};
      }
    }

    /**
     * The request interceptor: sets `Authorization: Bearer <token>` when a non-empty access
     * token is stored and the request has a header bag; otherwise the config is unchanged.
     */
    function InterceptRequest(config: Request): (r: Request)
      reads this
      ensures Truthy(GetToken()) ==> r == WithBearer(config, GetToken().value)
      ensures Truthy(GetToken()) && config.headers.Some? ==>
        r.headers.Some? && r.headers.value[AuthorizationHeader] == Bearer(GetToken().value)
      ensures !Truthy(GetToken()) || config.headers.None? ==> r == config
    {
      var token := GetToken();
      if Truthy(token) then WithBearer(config, token.value) else config
    }

    /**
     * The synchronous part of the response interceptor. An ineligible error is rejected
     * unchanged. An eligible one either joins the queue (a refresh is in flight) or marks
     * its request `_retry`, raises the flag and starts the one refresh, whose first step reads
     * the stored refresh token; all of this happens before the interceptor first suspends.
     */
    method OnResponseError(e: AxiosError) returns (d: Decision)
      requires Valid()
      modifies this
      ensures Valid()
      ensures d == Route(e, old(tokenRefreshInProgress))
      ensures storage == old(storage)
      ensures d.Reject? ==>
        tokenRefreshInProgress == old(tokenRefreshInProgress) &&
        refreshSubscribers == old(refreshSubscribers) &&
        awaitingRefresh == old(awaitingRefresh) && refreshCredential == old(refreshCredential) &&
        refreshesStarted == old(refreshesStarted)
      ensures d.Enqueue? ==>
        tokenRefreshInProgress && refreshSubscribers == old(refreshSubscribers) + [Subscriber(e.config)] &&
        awaitingRefresh == old(awaitingRefresh) && refreshCredential == old(refreshCredential) &&
        refreshesStarted == old(refreshesStarted)
      ensures d.StartRefresh? ==>
        !old(tokenRefreshInProgress) && tokenRefreshInProgress && refreshSubscribers == [] &&
        awaitingRefresh == Some(d.marked) && refreshCredential == old(StoredRefreshToken()) &&
        refreshesStarted == old(refreshesStarted) + 1
      ensures refreshesSettled == old(refreshesSettled)
    {
      d := Route(e, tokenRefreshInProgress);
      match d
      case Reject(_) =>
      case Enqueue =>
        refreshSubscribers := refreshSubscribers + [Subscriber(e.config)];
      case StartRefresh(marked) =>
        awaitingRefresh := Some(marked);
        tokenRefreshInProgress := true;
        refreshCredential := StoredRefreshToken();
        refreshesStarted := refreshesStarted + 1;
    }

    /**
     * The awaited refresh returned `newToken`, which is possible only when a non-empty refresh
     * token was read as the refresh started (a logout since then does not stop the POST):
     * the token is stored, the flag drops, every subscriber is invoked once in queue order,
     * the queue is emptied and the suspended request is retried with the new token.
     */
    method RefreshSucceeded(newToken: string) returns (resumed: seq<Request>, retried: Request)
      requires Valid() && tokenRefreshInProgress && Truthy(refreshCredential)
      modifies this
      ensures Valid()
      ensures storage == old(storage)[AccessTokenKey := newToken]
      ensures GetToken() == Some(newToken)
      ensures StoredRefreshToken() == old(StoredRefreshToken())
      ensures !tokenRefreshInProgress && refreshSubscribers == [] && awaitingRefresh == None && refreshCredential == None
      ensures |resumed| == |old(refreshSubscribers)|
      ensures forall i :: 0 <= i < |resumed| ==> resumed[i] == WithBearer(old(refreshSubscribers)[i].request, newToken)
      ensures retried == WithBearer(old(awaitingRefresh).value, newToken) && retried.retry
      ensures refreshesStarted == old(refreshesStarted) && refreshesSettled == old(refreshesSettled) + 1
    {
      SetToken(newToken);
      var original := awaitingRefresh.value;
      tokenRefreshInProgress := false;
      resumed := NotifySubscribers(refreshSubscribers, newToken);
      refreshSubscribers := [];
      awaitingRefresh := None;
      refreshCredential := None;
      refreshesSettled := refreshesSettled + 1;
      retried := WithBearer(original, newToken);
    }

    /**
     * The awaited refresh threw (no refresh token stored, or the refresh call failed): the flag
     * drops, the queued subscribers are discarded without being invoked, both tokens are
     * removed and the suspended request is rejected with the refresh error.
     */
    method RefreshFailed() returns (dropped: seq<Subscriber>, rejected: Request)
      requires Valid() && tokenRefreshInProgress
      modifies this
      ensures Valid()
      ensures dropped == old(refreshSubscribers) && rejected == old(awaitingRefresh).value
      ensures !tokenRefreshInProgress && refreshSubscribers == [] && awaitingRefresh == None && refreshCredential == None
      ensures storage == if inBrowser then old(storage) - {AccessTokenKey, RefreshTokenKey} else old(storage)
      ensures GetToken() == None && StoredRefreshToken() == None
      ensures refreshesStarted == old(refreshesStarted) && refreshesSettled == old(refreshesSettled) + 1
    {
      dropped, rejected := refreshSubscribers, awaitingRefresh.value;
      tokenRefreshInProgress := false;
      refreshSubscribers := [];
      awaitingRefresh := None;
      refreshCredential := None;
      refreshesSettled := refreshesSettled + 1;
      ClearToken();
    }

    /** The token effects of `login`: a response with data stores both tokens. */
    method Login(response: ApiResponse<LoginTokens>)
      modifies this`storage
      ensures response.data.None? || !inBrowser ==> storage == old(storage)
      ensures response.data.Some? && inBrowser ==>
        storage == old(storage)[AccessTokenKey := response.data.value.accessToken]
                               [RefreshTokenKey := response.data.value.refreshToken]
    {
      if response.data.Some? {
        SetToken(response.data.value.accessToken);
        if inBrowser {
          storage := storage[RefreshTokenKey := response.data.value.refreshToken];
        }
      }
    }

    /** The token effects of `logout`: whatever the logout call returned, both tokens are removed. */
    method Logout()
      modifies this`storage
      ensures storage == if inBrowser then old(storage) - {AccessTokenKey, RefreshTokenKey} else old(storage)
      ensures GetToken() == None && StoredRefreshToken() == None
    {
      ClearToken();
    }
  }

  /**
   * A logout while a refresh is in flight does not stop it: the refresh token was already
   * read, so when the endpoint answers "A2" the client stores that access token with no refresh
   * token beside it, and the request that hit the 401 is retried with `Bearer A2`.
   */
  method LogoutDuringRefresh() returns (access: Option<string>, refresh: Option<string>, retried: Request)
    ensures access == Some("A2") && refresh == None
    ensures retried.headers == Some(map[AuthorizationHeader := Bearer("A2")])
  {
    var client := new ApiClient(true, map[AccessTokenKey := "A1", RefreshTokenKey := "R1"]);
    var orders := Request(Some("/api/orders"), Some(map[]), false);
    var d := client.OnResponseError(AxiosError(orders, "Request failed with status code 401", Some(ServerReply(401, None))));
    assert d.StartRefresh?;
    client.Logout();
    var resumed;
    resumed, retried := client.RefreshSucceeded("A2");
    access, refresh := client.GetToken(), client.StoredRefreshToken();
  }
}
