/**
  * The request dispatcher: api_handle_request and api_endpoint_init
  * (src/api/api.php:432-574). The request checks, loading, authentication and the
  * per-user API rate quota, run against one endpoint and the saved quota states.
  * Token and cookie verification, json_decode and the clock are parameters.
  */
module Dispatch {
  import opened Results
  import opened Values
  import opened ApiErrors
  import opened Schema
  import opened EndpointConfig
  import opened Loader
  import opened Endpoint

  /** What auth_token_verify and web_auth_cookie_verify return on success. */
  datatype AuthData = AuthData(user: string, session: string)

  /** The outside world as seen by one request. */
  datatype Env = Env(
    decode: string -> Decoded,                // json_decode($str, TRUE)
    tokenVerify: string -> Option<AuthData>,  // auth_token_verify
    cookieAuth: Option<AuthData>,             // web_auth_cookie_verify()
    now: int,                                 // time()
    rateT: int)                               // gtlim('API_RATE_T')

  /** `sub` occurs somewhere in `s`. */
  predicate Contains(s: string, sub: string)
    decreases |s|
    ensures Contains(s, sub) ==> |sub| <= |s|
  {
    (|sub| <= |s| && s[..|sub|] == sub) || (|s| > 0 && Contains(s[1..], sub))
  }

  /** `sub` occurs in `s` starting at position `i`. */
  predicate OccursAt(s: string, sub: string, i: nat) {
    i + |sub| <= |s| && s[i..i + |sub|] == sub
  }

  /** Contains is exactly the existence of an occurrence: the unanchored match. */
  lemma {:induction false} ContainsIffOccurs(s: string, sub: string)
    ensures Contains(s, sub) <==> exists i: nat :: OccursAt(s, sub, i)
    decreases |s|
  {
    if Contains(s, sub) {
      if |sub| <= |s| && s[..|sub|] == sub {
        assert OccursAt(s, sub, 0);
      } else {
        ContainsIffOccurs(s[1..], sub);
        var i: nat :| OccursAt(s[1..], sub, i);
        assert s[i + 1..i + 1 + |sub|] == s[1..][i..i + |sub|];
        assert OccursAt(s, sub, i + 1);
      }
    }
    if exists i: nat :: OccursAt(s, sub, i) {
      var i: nat :| OccursAt(s, sub, i);
      if i == 0 {
        assert s[..|sub|] == sub;
      } else {
        assert s[1..][i - 1..i - 1 + |sub|] == s[i..i + |sub|];
        assert OccursAt(s[1..], sub, i - 1);
        ContainsIffOccurs(s[1..], sub);
      }
    }
  }

  /** A string contains itself followed by anything. */
  lemma ContainsPrefix(sub: string, rest: string)
    ensures Contains(sub + rest, sub)
  {
    assert (sub + rest)[..|sub|] == sub;
  }

  /** Text before an occurrence does not hide it. */
  lemma {:induction false} ContainsAfter(pre: string, s: string, sub: string)
    requires Contains(s, sub)
    ensures Contains(pre + s, sub)
    decreases |pre|
  {
    if |pre| > 0 {
      ContainsAfter(pre[1..], s, sub);
      assert (pre + s)[1..] == pre[1..] + s;
    } else {
      assert pre + s == s;
    }
  }

  /** `preg_match(API_MIME_REGEX_MAP[$code], $ct)`: the unanchored MIME pattern of the code. */
  predicate MimeMatches(code: int, ct: string) {
    MimeName(code).Some? && Contains(ct, MimeName(code).value)
  }

  /** A Content-Type carrying parameters after the MIME type still matches. */
  lemma MimeParametersAccepted(code: int, params: string)
    requires MimeName(code).Some?
    ensures MimeMatches(code, MimeName(code).value + params)
  {
    ContainsPrefix(MimeName(code).value, params);
  }

  /**
    * `$_SERVER['REQUEST_METHOD'] != array_search(...)` negated: the loose comparison of
    * the request method with the endpoint's method name, or with `false` when the code
    * has no name.
    */
  predicate MethodMatches(requested: string, code: int) {
    match MethodName(code)
    case Some(name) => requested == name
    case None => EmptyString(requested)
  }

  /** The checks before load_data (api.php:446-482): request method, then Content-Type for POST. */
  function CheckRequest(s: Settings, req: Request): (r: Outcome<Error>)
    ensures !MethodMatches(req.requestMethod, s.apiMethod) ==>
      r == Fail(InvalidRequestMethod(req.requestMethod))
    ensures r == Pass <==>
      MethodMatches(req.requestMethod, s.apiMethod)
      && (req.requestMethod == "POST" ==>
            req.contentType.Some? && MimeMatches(s.requestType, req.contentType.value))
    ensures r == Fail(MissingContentType) <==>
      MethodMatches(req.requestMethod, s.apiMethod) && req.requestMethod == "POST"
      && (req.contentType.None? || EmptyString(req.contentType.value))
    ensures r == Fail(InvalidMimeType) <==>
      MethodMatches(req.requestMethod, s.apiMethod) && req.requestMethod == "POST"
      && req.contentType.Some? && !EmptyString(req.contentType.value)
      && !MimeMatches(s.requestType, req.contentType.value)
  {
    if !MethodMatches(req.requestMethod, s.apiMethod) then
      Fail(InvalidRequestMethod(req.requestMethod))
    else if req.requestMethod == "POST" && (req.contentType.None? || EmptyString(req.contentType.value)) then
      Fail(MissingContentType)
    else if req.requestMethod == "POST" && !MimeMatches(s.requestType, req.contentType.value) then
      Fail(InvalidMimeType)
    else
      Pass
  }

  /**
    * Authentication (api.php:491-511): an Auth-Token header is verified whatever the
    * cookie setting; without one, cookie authentication is tried only when the endpoint
    * allows it, and never for a POST endpoint.
    */
  function Authenticate(s: Settings, req: Request, env: Env): (r: Result<AuthData, Error>)
    ensures req.authToken.Some? ==>
      (r.Ok? <==> env.tokenVerify(req.authToken.value).Some?)
      && (r.Ok? ==> r.value == env.tokenVerify(req.authToken.value).value)
    ensures r.Ok? && req.authToken.None? ==>
      s.allowCookieAuth && s.apiMethod != API_METHOD_POST && env.cookieAuth == Some(r.value)
    ensures r == Err(CookieAuthOnPost) <==>
      req.authToken.None? && s.allowCookieAuth && s.apiMethod == API_METHOD_POST
    ensures req.authToken.None? && s.allowCookieAuth && s.apiMethod != API_METHOD_POST ==>
      (r.Ok? <==> env.cookieAuth.Some?) && (r.Ok? ==> r.value == env.cookieAuth.value)
    ensures req.authToken.None? && !s.allowCookieAuth ==> r == Err(NotAuthorized)
    ensures r.Err? ==> r.error == CookieAuthOnPost || r.error == NotAuthorized
  {
    if req.authToken.Some? then
      match env.tokenVerify(req.authToken.value)
      case Some(a) => Ok(a)
      case None => Err(NotAuthorized)
    else if s.allowCookieAuth then
      if s.apiMethod == API_METHOD_POST then Err(CookieAuthOnPost)
      else
        match env.cookieAuth
        case Some(a) => Ok(a)
        case None => Err(NotAuthorized)
    else
      Err(NotAuthorized)
  }

  /** A user's saved 'api_t_start' state variable and 'api_rate' quota counter. */
  datatype QuotaState = QuotaState(tStart: Option<int>, rate: int)

  /** The state of a user whose quota has never been saved. */
  const FreshQuota: QuotaState := QuotaState(None, 0)

  function QuotaOf(saved: map<string, QuotaState>, user: string): QuotaState {
    if user in saved then saved[user] else FreshQuota
  }

  /**
    * The window bookkeeping before use_quota (api.php:520-531): a first request starts
    * the window at `now`; once `rateT` seconds have passed, the window restarts at `now`
    * with the counter at zero; inside the window nothing changes.
    */
  function StartWindow(q: QuotaState, now: int, rateT: int): (r: QuotaState)
    ensures r.tStart.Some?
    ensures r == q || r.tStart == Some(now)
    ensures r.rate == q.rate || r.rate == 0
    ensures q.tStart.Some? && now - q.tStart.value < rateT ==> r == q
    ensures q.tStart.Some? && now - q.tStart.value >= rateT ==> r == QuotaState(Some(now), 0)
    ensures q.tStart.None? ==> r.rate == q.rate
  {
    match q.tStart
    case None => q.(tStart := Some(now))
    case Some(t) => if now - t >= rateT then QuotaState(Some(now), 0) else q
  }

  /** use_quota('api_rate'): one more use if the counter is below the limit, else none. */
  function UseQuota(q: QuotaState, limit: int): (r: Option<QuotaState>)
    ensures r.Some? <==> q.rate < limit
    ensures r.Some? ==> r.value.tStart == q.tStart && r.value.rate == q.rate + 1
  {
    if q.rate < limit then Some(q.(rate := q.rate + 1)) else None
  }

  /** The effect of one request: its outcome, whether load_data ran, the caller stored, the saved quotas. */
  datatype Step = Step(
    result: Outcome<Error>,
    loaded: bool,
    auth: Option<AuthData>,
    saved: map<string, QuotaState>)

  /** api_handle_request (api.php:432-540) as a function of the request and the saved quotas. */
  function Handled(s: Settings, req: Request, env: Env, saved: map<string, QuotaState>, limit: int): Step {
    var pre := CheckRequest(s, req);
    if pre.Fail? then Step(pre, false, None, saved)
    else
      var load := LoadData(s, req, env.decode);
      if load.Err? then Step(Fail(load.error), true, None, saved)
      else if !s.reqAuth then Step(Pass, true, None, saved)
      else
        var auth := Authenticate(s, req, env);
        if auth.Err? then Step(Fail(auth.error), true, None, saved)
        else if !s.reqQuota then Step(Pass, true, Some(auth.value), saved)
        else
          var user := auth.value.user;
          match UseQuota(StartWindow(QuotaOf(saved, user), env.now, env.rateT), limit)
          case None => Step(Fail(RateLimited), true, Some(auth.value), saved)
          case Some(q) => Step(Pass, true, Some(auth.value), saved[user := q])
  }

  /** api_endpoint_init (api.php:542-574): GET and POST are handled, OPTIONS is a preflight. */
  function Init(s: Settings, req: Request, env: Env, saved: map<string, QuotaState>, limit: int): Step {
    if req.requestMethod == "POST" || req.requestMethod == "GET" then Handled(s, req, env, saved, limit)
    else if req.requestMethod == "OPTIONS" then Step(Pass, false, None, saved)
    else Step(Fail(UnsupportedMethod), false, None, saved)
  }

  /** The per-user quota records (UserQuota) that api_handle_request reads and flushes. */
  class QuotaStore {
    var saved: map<string, QuotaState>
    const limit: int

    /** An empty store with the given limit; it exists only so that a store can be created. */
    constructor (limit: int)
      ensures this.limit == limit && saved == map[]
    {
      this.limit := limit;
      saved := map[];
    }

    /** flush: the user's state is written back. */
    method Flush(user: string, q: QuotaState)
      modifies this`saved
      ensures saved == old(saved)[user := q]
    {
      saved := saved[user := q];
    }
  }

  /** The endpoint and quota state after a request whose effect is `st`. */
  twostate predicate Applied(ep: APIEndpoint, store: QuotaStore, req: Request, env: Env, st: Step)
    reads ep, store
  {
    && store.saved == st.saved
    && ep.data == (if st.loaded then DataAfterLoad(ep.settings, req, env.decode, old(ep.data)) else old(ep.data))
    && ep.files == (if st.loaded then FilesAfterLoad(ep.settings, req, env.decode, old(ep.files)) else old(ep.files))
    && ep.caller == (if st.auth.Some? then Some(st.auth.value.user) else old(ep.caller))
    && ep.session == (if st.auth.Some? then Some(st.auth.value.session) else old(ep.session))
    && ep.response == old(ep.response)
  }

  /** api_handle_request: each check in turn, stopping at the first that throws. */
  method HandleRequest(ep: APIEndpoint, req: Request, env: Env, store: QuotaStore) returns (r: Outcome<Error>)
    modifies ep, store
    ensures r == Handled(ep.settings, req, env, old(store.saved), store.limit).result
    ensures Applied(ep, store, req, env, Handled(ep.settings, req, env, old(store.saved), store.limit))
  {
    var s := ep.settings;
    if !MethodMatches(req.requestMethod, s.apiMethod) {
      return Fail(InvalidRequestMethod(req.requestMethod));
    }
    if req.requestMethod == "POST" {
      if req.contentType.None? || EmptyString(req.contentType.value) {
        return Fail(MissingContentType);
      }
      if !MimeMatches(s.requestType, req.contentType.value) {
        return Fail(InvalidMimeType);
      }
    }

    r := ep.LoadData(req, env.decode);
    if r.Fail? || !s.reqAuth {
      return;
    }

    var auth: Option<AuthData> := None;
    if req.authToken.Some? {
      auth := env.tokenVerify(req.authToken.value);
    } else if s.allowCookieAuth {
      if s.apiMethod == API_METHOD_POST {
        return Fail(CookieAuthOnPost);
      }
      auth := env.cookieAuth;
    }
    if auth.None? {
      return Fail(NotAuthorized);
    }
    ep.SetCaller(auth.value.user);
    ep.SetSession(auth.value.session);
    if !s.reqQuota {
      return Pass;
    }

    var user := auth.value.user;
    var q := QuotaOf(store.saved, user);
    if q.tStart.Some? {
      if env.now - q.tStart.value >= env.rateT {
        q := QuotaState(Some(env.now), 0);
      }
    } else {
      q := q.(tStart := Some(env.now));
    }
    if q.rate >= store.limit {
      return Fail(RateLimited);
    }
    store.Flush(user, q.(rate := q.rate + 1));
    return Pass;
  }

  /** api_endpoint_init: the switch on the request method. */
  method EndpointInit(ep: APIEndpoint, req: Request, env: Env, store: QuotaStore) returns (r: Outcome<Error>)
    modifies ep, store
    ensures r == Init(ep.settings, req, env, old(store.saved), store.limit).result
    ensures Applied(ep, store, req, env, Init(ep.settings, req, env, old(store.saved), store.limit))
  {
    if req.requestMethod == "POST" || req.requestMethod == "GET" {
      r := HandleRequest(ep, req, env, store);
    } else if req.requestMethod == "OPTIONS" {
      r := Pass;
    } else {
      r := Fail(UnsupportedMethod);
    }
  }

  /** The request method is checked before anything else; nothing is loaded then. */
  lemma MethodCheckedFirst(s: Settings, req: Request, env: Env, saved: map<string, QuotaState>, limit: int)
    requires !MethodMatches(req.requestMethod, s.apiMethod)
    ensures Handled(s, req, env, saved, limit) ==
      Step(Fail(InvalidRequestMethod(req.requestMethod)), false, None, saved)
  {
  }

  /** A POST without a usable Content-Type is refused before load_data. */
  lemma PostNeedsContentType(s: Settings, req: Request, env: Env, saved: map<string, QuotaState>, limit: int)
    requires s.apiMethod == API_METHOD_POST && req.requestMethod == "POST"
    requires req.contentType.None? || EmptyString(req.contentType.value)
    ensures Handled(s, req, env, saved, limit) == Step(Fail(MissingContentType), false, None, saved)
  {
  }

  /** An error thrown by load_data is the request's error, and nothing past it runs. */
  lemma LoadErrorPropagates(s: Settings, req: Request, env: Env, saved: map<string, QuotaState>, limit: int)
    requires CheckRequest(s, req) == Pass
    requires LoadData(s, req, env.decode).Err?
    ensures Handled(s, req, env, saved, limit) ==
      Step(Fail(LoadData(s, req, env.decode).error), true, None, saved)
  {
  }

  /** An endpoint without req_auth stops after load_data: no caller, no quota. */
  lemma PublicEndpointStopsAfterLoad(s: Settings, req: Request, env: Env, saved: map<string, QuotaState>, limit: int)
    requires !s.reqAuth
    ensures Handled(s, req, env, saved, limit).auth.None?
    ensures Handled(s, req, env, saved, limit).saved == saved
    ensures CheckRequest(s, req) == Pass ==>
      Handled(s, req, env, saved, limit).result == LoadData(s, req, env.decode).Status()
  {
  }

  /**
    * A POST endpoint requiring authentication accepts only a token: with no Auth-Token
    * header the request always fails.
    */
  lemma PostNeedsToken(s: Settings, req: Request, env: Env, saved: map<string, QuotaState>, limit: int)
    requires s.apiMethod == API_METHOD_POST && s.reqAuth && req.authToken.None?
    ensures Handled(s, req, env, saved, limit).result.Fail?
    ensures Handled(s, req, env, saved, limit).auth.None?
  {
  }

  /** A successful request passed every check that applies to its endpoint. */
  lemma SuccessPassedEveryCheck(s: Settings, req: Request, env: Env, saved: map<string, QuotaState>, limit: int)
    requires Handled(s, req, env, saved, limit).result == Pass
    ensures CheckRequest(s, req) == Pass
    ensures LoadData(s, req, env.decode).Ok?
    ensures s.reqAuth ==>
      (&& Authenticate(s, req, env).Ok?
       && Handled(s, req, env, saved, limit).auth == Some(Authenticate(s, req, env).value))
    ensures s.reqAuth && s.reqQuota ==>
      var user := Authenticate(s, req, env).value.user;
      (&& StartWindow(QuotaOf(saved, user), env.now, env.rateT).rate < limit
       && Handled(s, req, env, saved, limit).saved[user].rate
          == StartWindow(QuotaOf(saved, user), env.now, env.rateT).rate + 1)
  {
  }

  /** A rate-limited request flushes nothing. */
  lemma RateLimitedStoresNothing(s: Settings, req: Request, env: Env, saved: map<string, QuotaState>, limit: int)
    requires Handled(s, req, env, saved, limit).result == Fail(RateLimited)
    ensures Handled(s, req, env, saved, limit).saved == saved
  {
  }

  /** An endpoint that does not require a quota never stores a quota record. */
  lemma QuotaNotRequiredStoresNothing(s: Settings, req: Request, env: Env, saved: map<string, QuotaState>, limit: int)
    requires !s.reqQuota
    ensures Handled(s, req, env, saved, limit).saved == saved
  {
  }

  /** Only the caller's quota record can change. */
  lemma OnlyCallerQuotaChanges(s: Settings, req: Request, env: Env, saved: map<string, QuotaState>, limit: int)
    ensures var st := Handled(s, req, env, saved, limit);
      && (st.saved != saved ==> st.auth.Some? && st.saved == saved[st.auth.value.user := st.saved[st.auth.value.user]])
      && (st.saved != saved ==> st.result == Pass)
  {
  }

  /** Every saved counter lies within [0, limit] and every window started no later than `now`. */
  predicate QuotaInvariant(saved: map<string, QuotaState>, limit: int, now: int) {
    forall u | u in saved ::
      && 0 <= saved[u].rate <= limit
      && saved[u].tStart.Some? && saved[u].tStart.value <= now
  }

  /** Requests keep the quota invariant, as long as the clock does not run backwards. */
  lemma QuotaInvariantPreserved(s: Settings, req: Request, env: Env, saved: map<string, QuotaState>, limit: int, before: int)
    requires 0 <= limit && before <= env.now
    requires QuotaInvariant(saved, limit, before)
    ensures QuotaInvariant(Handled(s, req, env, saved, limit).saved, limit, env.now)
  {
    var st := Handled(s, req, env, saved, limit);
    if st.saved != saved {
      OnlyCallerQuotaChanges(s, req, env, saved, limit);
      var user := st.auth.value.user;
      var q := StartWindow(QuotaOf(saved, user), env.now, env.rateT);
      assert st.saved == saved[user := UseQuota(q, limit).value];
      assert q.tStart.value <= env.now;
      assert 0 <= q.rate;
    }
  }

  /** Inside one window a user who has reached the limit is rate limited. */
  lemma LimitReachedInsideWindow(q: QuotaState, now: int, rateT: int, limit: int)
    requires q.tStart.Some? && now - q.tStart.value < rateT
    requires limit <= q.rate
    ensures UseQuota(StartWindow(q, now, rateT), limit).None?
  {
  }

  /** Once the window has elapsed, the next use restarts it with a count of one. */
  lemma WindowRollover(q: QuotaState, now: int, rateT: int, limit: int)
    requires q.tStart.Some? && now - q.tStart.value >= rateT
    requires 0 < limit
    ensures UseQuota(StartWindow(q, now, rateT), limit) == Some(QuotaState(Some(now), 1))
  {
  }

  /** A user's first quota use starts the window at `now` and counts one use. */
  lemma FirstUse(saved: map<string, QuotaState>, user: string, now: int, rateT: int, limit: int)
    requires user !in saved && 0 < limit
    ensures UseQuota(StartWindow(QuotaOf(saved, user), now, rateT), limit) == Some(QuotaState(Some(now), 1))
  {
  }

  /** An OPTIONS request is a preflight: it succeeds and changes nothing. */
  lemma PreflightChangesNothing(s: Settings, req: Request, env: Env, saved: map<string, QuotaState>, limit: int)
    requires req.requestMethod == "OPTIONS"
    ensures Init(s, req, env, saved, limit) == Step(Pass, false, None, saved)
  {
  }

  /** Only GET and POST requests reach load_data. */
  lemma OnlyGetAndPostLoad(s: Settings, req: Request, env: Env, saved: map<string, QuotaState>, limit: int)
    ensures Init(s, req, env, saved, limit).loaded ==> req.requestMethod in {"GET", "POST"}
    ensures req.requestMethod !in {"GET", "POST", "OPTIONS"} ==>
      Init(s, req, env, saved, limit) == Step(Fail(UnsupportedMethod), false, None, saved)
  {
  }
}
