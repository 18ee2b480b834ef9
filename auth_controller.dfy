/** User OAuth tokens (src/controllers/auth.ts): the authorization-code
    exchange and the refresh of a user's token on the agent or through the
    server. The token endpoint, the server endpoint and the token store are
    oracles; the store's `cacheUserAuth` answers each write with an
    outcome. */
module AuthController {
  import opened Base
  import opened Strings
  import opened Model
  import opened Url
  import opened AgentAuth
  import opened ApiAuth

  /** A token-store lookup (`fetchUserToken` when `datasourceId` is given,
      `fetchPerUserToken` otherwise), with the eager-refresh threshold the
      call forwards, if any. */
  datatype TokenQuery = TokenQuery(kind: TokenType, datasourceId: Option<string>, threshold: Option<int>)

  /** The store: what each lookup returns (`undefined` as `None`) or throws. */
  type TokenStore = TokenQuery -> Result<Option<string>>

  /** One `cacheUserAuth` call; `expiry` is `None` where none is passed or
      the date is invalid. */
  datatype UserCacheWrite = UserCacheWrite(kind: TokenType, token: string, expiry: Option<int>)

  /** What an OAuth token endpoint answers for a code exchange or refresh. */
  datatype CodeReply = CodeReply(status: int, accessToken: Option<string>, refreshToken: Option<string>, expiresIn: Option<int>)

  const AUTH_CODE_HEADERS := map["Content-Type" := "application/x-www-form-urlencoded", "Accept" := "application/json"]

  /** The request `exchangeAuthCode` sends. */
  function ExchangeRequest(cfg: AuthConfig, accessCode: Option<string>, origin: string, callbackPath: string): (req: TokenRequest)
    ensures req.url == cfg.tokenUrl && req.headers == AUTH_CODE_HEADERS
    ensures req.body == FormBody([("code", accessCode.GetOr("")), ("client_id", cfg.clientId),
      ("client_secret", cfg.clientSecret), ("redirect_uri", origin + "/" + callbackPath), ("grant_type", "authorization_code")])
  {
    TokenRequest(cfg.tokenUrl,
      FormBody([("code", accessCode.GetOr("")), ("client_id", cfg.clientId), ("client_secret", cfg.clientSecret),
                ("redirect_uri", origin + "/" + callbackPath), ("grant_type", "authorization_code")]),
      AUTH_CODE_HEADERS)
  }

  /** The error `exchangeAuthCode` throws once the response is in hand. */
  function ProcessFailure(cause: Fault): (f: Fault)
    ensures f.cls == PlainError && f.message == "Failed to process response and cache token: " + cause.message
  {
    Raise(PlainError, "Failed to process response and cache token: " + cause.message)
  }

  /** `exchangeAuthCode`: a failed token request propagates unchanged; a
      response without an access token, or a failed cache write, fails
      wrapped. The access token is cached to expire `expires_in` seconds
      (one day by default) from `now`; the refresh token, only when the
      response has one, without an expiry. */
  method ExchangeAuthCode(cfg: AuthConfig, accessCode: Option<string>, origin: string, callbackPath: string,
                          post: TokenRequest -> Result<CodeReply>, cache: UserCacheWrite -> Outcome, now: int)
    returns (r: Outcome, writes: seq<UserCacheWrite>)
    ensures post(ExchangeRequest(cfg, accessCode, origin, callbackPath)).Err? ==>
      r == Fail(post(ExchangeRequest(cfg, accessCode, origin, callbackPath)).fault) && writes == []
    ensures post(ExchangeRequest(cfg, accessCode, origin, callbackPath)).Ok? ==>
      var reply := post(ExchangeRequest(cfg, accessCode, origin, callbackPath)).value;
      var access := UserCacheWrite(Access, reply.accessToken.GetOr(""), Some(now + 1000 * reply.expiresIn.GetOr(DEFAULT_TOKEN_EXPIRES_IN)));
      var refresh := UserCacheWrite(Refresh, reply.refreshToken.GetOr(""), None);
      (!Given(reply.accessToken) ==> r == Fail(ProcessFailure(Raise(PlainError, "failed to parse access token"))) && writes == []) &&
      (Given(reply.accessToken) && cache(access).Fail? ==> r == Fail(ProcessFailure(cache(access).fault)) && writes == [access]) &&
      (Given(reply.accessToken) && cache(access).Pass? && !Given(reply.refreshToken) ==> r == Pass && writes == [access]) &&
      (Given(reply.accessToken) && cache(access).Pass? && Given(reply.refreshToken) ==>
        writes == [access, refresh] && r == (if cache(refresh).Pass? then Pass else Fail(ProcessFailure(cache(refresh).fault))))
  {
    writes := [];
    var result := post(ExchangeRequest(cfg, accessCode, origin, callbackPath));
    if result.Err? {
      return Fail(result.fault), writes;
    }
    var reply := result.value;
    if !Given(reply.accessToken) {
      return Fail(ProcessFailure(Raise(PlainError, "failed to parse access token"))), writes;
    }
    var expiresIn := reply.expiresIn.GetOr(DEFAULT_TOKEN_EXPIRES_IN);
    var access := UserCacheWrite(Access, reply.accessToken.value, Some(now + 1000 * expiresIn));
    writes := writes + [access];
    var cached := cache(access);
    if cached.Fail? {
      return Fail(ProcessFailure(cached.fault)), writes;
    }
    if Given(reply.refreshToken) {
      var refresh := UserCacheWrite(Refresh, reply.refreshToken.value, None);
      writes := writes + [refresh];
      cached := cache(refresh);
      if cached.Fail? {
        return Fail(ProcessFailure(cached.fault)), writes;
      }
    }
    r := Pass;
  }

  /** The request `refreshUserTokenOnAgent` sends. */
  function AgentRefreshRequest(cfg: AuthConfig, refreshToken: string): (req: TokenRequest)
    ensures req.url == cfg.tokenUrl && req.headers == map["Content-Type" := "application/x-www-form-urlencoded"]
    ensures req.body == FormBody([("grant_type", "refresh_token"), ("client_id", cfg.clientId),
      ("client_secret", cfg.clientSecret), ("refresh_token", refreshToken)])
  {
    TokenRequest(cfg.tokenUrl,
      FormBody([("grant_type", "refresh_token"), ("client_id", cfg.clientId), ("client_secret", cfg.clientSecret),
                ("refresh_token", refreshToken)]),
      map["Content-Type" := "application/x-www-form-urlencoded"])
  }

  /** What `refreshUserTokenOnAgent` does: its answer and its cache writes. */
  datatype AgentRefreshResult = AgentRefreshResult(answer: Result<bool>, writes: seq<UserCacheWrite>)

  /** The cache write of the new access token: it expires `expires_in`
      seconds from `now`, or is an invalid date without `expires_in`. */
  function AccessWrite(reply: CodeReply, now: int): (w: UserCacheWrite)
    ensures w.kind == Access && w.token == reply.accessToken.GetOr("")
    ensures w.expiry.Some? <==> reply.expiresIn.Some?
    ensures w.expiry.Some? ==> w.expiry.value == now + 1000 * reply.expiresIn.value
  {
    UserCacheWrite(Access, reply.accessToken.GetOr(""), if reply.expiresIn.Some? then Some(now + 1000 * reply.expiresIn.value) else None)
  }

  /** `refreshUserTokenOnAgent`: `false` when the request fails or its status
      is not 2xx; otherwise the new access token is cached (and the new
      refresh token, when the response has one), and the answer is `true`.
      A failed cache write propagates. */
  function AgentRefresh(cfg: AuthConfig, refreshToken: string, post: TokenRequest -> Result<CodeReply>,
                        cache: UserCacheWrite -> Outcome, now: int): (o: AgentRefreshResult)
    ensures post(AgentRefreshRequest(cfg, refreshToken)).Err? ==> o == AgentRefreshResult(Ok(false), [])
    ensures post(AgentRefreshRequest(cfg, refreshToken)).Ok? ==>
      var reply := post(AgentRefreshRequest(cfg, refreshToken)).value;
      var access := AccessWrite(reply, now);
      var refresh := UserCacheWrite(Refresh, reply.refreshToken.GetOr(""), None);
      (Rejected(reply.status) ==> o == AgentRefreshResult(Ok(false), [])) &&
      (!Rejected(reply.status) && cache(access).Fail? ==> o == AgentRefreshResult(Err(cache(access).fault), [access])) &&
      (!Rejected(reply.status) && cache(access).Pass? && !Given(reply.refreshToken) ==> o == AgentRefreshResult(Ok(true), [access])) &&
      (!Rejected(reply.status) && cache(access).Pass? && Given(reply.refreshToken) ==>
        o == AgentRefreshResult(if cache(refresh).Pass? then Ok(true) else Err(cache(refresh).fault), [access, refresh]))
  {
    match post(AgentRefreshRequest(cfg, refreshToken))
    case Err(_) => AgentRefreshResult(Ok(false), [])
    case Ok(reply) =>
      if Rejected(reply.status) then AgentRefreshResult(Ok(false), [])
      else
        var access := AccessWrite(reply, now);
        if cache(access).Fail? then AgentRefreshResult(Err(cache(access).fault), [access])
        else if !Given(reply.refreshToken) then AgentRefreshResult(Ok(true), [access])
        else
          var refresh := UserCacheWrite(Refresh, reply.refreshToken.value, None);
          AgentRefreshResult(if cache(refresh).Pass? then Ok(true) else Err(cache(refresh).fault), [access, refresh])
  }

  /** `true` only after a 2xx response whose access token was cached, and
      `false` only without a single cache write: an answer never claims more
      than the store holds. */
  lemma AgentRefreshSound(cfg: AuthConfig, refreshToken: string, post: TokenRequest -> Result<CodeReply>,
                          cache: UserCacheWrite -> Outcome, now: int)
    ensures var o := AgentRefresh(cfg, refreshToken, post, cache, now);
      (o.answer == Ok(true) ==>
        post(AgentRefreshRequest(cfg, refreshToken)).Ok? &&
        !Rejected(post(AgentRefreshRequest(cfg, refreshToken)).value.status) &&
        |o.writes| >= 1 && o.writes[0] == AccessWrite(post(AgentRefreshRequest(cfg, refreshToken)).value, now) &&
        forall i :: 0 <= i < |o.writes| ==> cache(o.writes[i]).Pass?) &&
      (o.answer == Ok(false) <==> o.writes == []) &&
      (o.answer.Err? ==> |o.writes| >= 1 && cache(o.writes[|o.writes| - 1]).Fail?)
  {
  }

  /** The imperative `refreshUserTokenOnAgent`. */
  method RefreshUserTokenOnAgent(cfg: AuthConfig, refreshToken: string, post: TokenRequest -> Result<CodeReply>,
                                 cache: UserCacheWrite -> Outcome, now: int)
    returns (r: Result<bool>, writes: seq<UserCacheWrite>)
    ensures AgentRefreshResult(r, writes) == AgentRefresh(cfg, refreshToken, post, cache, now)
  {
    writes := [];
    var result := post(AgentRefreshRequest(cfg, refreshToken));
    if result.Err? {
      return Ok(false), writes;
    }
    var reply := result.value;
    if Rejected(reply.status) {
      return Ok(false), writes;
    }
    var expiry := if reply.expiresIn.Some? then Some(now + 1000 * reply.expiresIn.value) else None;
    var access := UserCacheWrite(Access, reply.accessToken.GetOr(""), expiry);
    writes := writes + [access];
    var cached := cache(access);
    if cached.Fail? {
      return Err(cached.fault), writes;
    }
    if Given(reply.refreshToken) {
      var refresh := UserCacheWrite(Refresh, reply.refreshToken.value, None);
      writes := writes + [refresh];
      cached := cache(refresh);
      if cached.Fail? {
        return Err(cached.fault), writes;
      }
    }
    r := Ok(true);
  }

  /** The server URL `refreshUserTokenOnServer` posts to. */
  function ServerRefreshUrl(uiBase: string, pluginId: string): (url: string)
    ensures StartsWith(url, uiBase + "/api/v1/oauth2/" + pluginId) && EndsWith(url, "/refresh")
  {
    var url := BuildUiUrl(uiBase, "api/v1/oauth2/" + pluginId + "/refresh");
    assert url == uiBase + "/api/v1/oauth2/" + pluginId + "/refresh";
    assert url[..|uiBase + "/api/v1/oauth2/" + pluginId|] == uiBase + "/api/v1/oauth2/" + pluginId;
    assert url[|url| - |"/refresh"|..] == "/refresh";
    url
  }

  /** The error `refreshUserTokenOnServer` throws when the request fails: an
      `IntegrationError` for a 400 or 404 (the grant is most likely
      revoked), a plain `Error` naming the cause otherwise. */
  function ServerRefreshFailure(cause: Fault): (f: Fault)
    ensures cause.httpStatus in {Some(400), Some(404)} ==>
      f.cls == ErrorClass.Integration &&
      f.message == "Failed to refresh user token on server, most likely the access has been revoked"
    ensures cause.httpStatus !in {Some(400), Some(404)} ==>
      f.cls == PlainError && f.message == "Failed to refresh user token on server: " + Describe(cause)
  {
    if cause.httpStatus == Some(400) || cause.httpStatus == Some(404) then
      Raise(ErrorClass.Integration, "Failed to refresh user token on server, most likely the access has been revoked")
    else Raise(PlainError, "Failed to refresh user token on server: " + Describe(cause))
  }

  /** `refreshUserTokenOnServer`: the server's answer (`makeRequest`'s
      result for the refresh URL), with failures mapped. */
  function RefreshUserTokenOnServer(uiBase: string, ds: DatasourceDto, server: string -> Result<Option<string>>): (r: Result<Option<string>>)
    ensures server(ServerRefreshUrl(uiBase, ds.pluginId)).Ok? ==> r == server(ServerRefreshUrl(uiBase, ds.pluginId))
    ensures server(ServerRefreshUrl(uiBase, ds.pluginId)).Err? ==>
      r == Err(ServerRefreshFailure(server(ServerRefreshUrl(uiBase, ds.pluginId)).fault))
  {
    match server(ServerRefreshUrl(uiBase, ds.pluginId))
    case Ok(token) => Ok(token)
    case Err(e) => Err(ServerRefreshFailure(e))
  }

  /** The refresh-token lookup of `refreshAuthCode`: scoped to the
      datasource when there is one with an id, per user otherwise. */
  function RefreshTokenQuery(ds: Option<DatasourceDto>): (q: TokenQuery)
    ensures q.kind == Refresh && q.threshold.None?
    ensures q.datasourceId.Some? <==> ds.Some? && ds.value.id != ""
  {
    if ds.Some? && ds.value.id != "" then TokenQuery(Refresh, Some(ds.value.id), None) else TokenQuery(Refresh, None, None)
  }

  /** The answer of `refreshAuthCode`'s server branch as written: the
      refresh is dispatched but not awaited, and `!isEmpty(promise)` is
      `false` for every promise, since lodash counts an object without
      enumerable properties as empty. */
  function ServerBranchAsWritten(pending: Result<Option<string>>): (r: Result<bool>)
    ensures r == Ok(false)
  {
    Ok(false)
  }

  /** The evidently intended server branch: await the refresh, which
      succeeds exactly when the server returned a non-empty token, and let
      its failure propagate. */
  function ServerBranch(awaited: Result<Option<string>>): (r: Result<bool>)
    ensures r == Ok(true) <==> awaited.Ok? && Given(awaited.value)
    ensures r.Err? <==> awaited.Err?
    ensures awaited.Err? ==> r.fault == awaited.fault
  {
    match awaited
    case Ok(token) => Ok(Given(token))
    case Err(e) => Err(e)
  }

  /** A server that hands out a fresh token is reported as a failed refresh
      by the code as written, and as a success by the intended one. */
  lemma ServerBranchCounterexample()
    ensures ServerBranchAsWritten(Ok(Some("fresh-token"))) == Ok(false)
    ensures ServerBranch(Ok(Some("fresh-token"))) == Ok(true)
  {
  }

  /** The server refresh `refreshAuthCode` issues; without a datasource the
      `pluginId` read throws a `TypeError` inside `refreshUserTokenOnServer`'s
      `try`, which maps it like any other failure. */
  function ServerRefreshFor(uiBase: string, ds: Option<DatasourceDto>, server: string -> Result<Option<string>>): (r: Result<Option<string>>)
    ensures ds.Some? ==> r == RefreshUserTokenOnServer(uiBase, ds.value, server)
    ensures ds.None? ==>
      r.Err? && r.fault.cls == PlainError &&
      r.fault.message == "Failed to refresh user token on server: " + Describe(Raise(TypeErrorClass, "Cannot read properties of undefined (reading 'pluginId')"))
  {
    match ds
    case Some(d) => RefreshUserTokenOnServer(uiBase, d, server)
    case None => Err(ServerRefreshFailure(Raise(TypeErrorClass, "Cannot read properties of undefined (reading 'pluginId')")))
  }

  /** What `refreshAuthCode` does: its answer, and the cache writes of the
      agent-side refresh. */
  datatype RefreshResult = RefreshResult(answer: Result<bool>, writes: seq<UserCacheWrite>)

  /** `refreshAuthCode` as written: `false` without a stored refresh token;
      otherwise the server branch as written, or the agent-side refresh. */
  method RefreshAuthCodeAsWritten(cfg: AuthConfig, ds: Option<DatasourceDto>, store: TokenStore, uiBase: string,
                                  server: string -> Result<Option<string>>,
                                  post: TokenRequest -> Result<CodeReply>, cache: UserCacheWrite -> Outcome, now: int)
    returns (r: RefreshResult)
    ensures store(RefreshTokenQuery(ds)).Err? ==> r == RefreshResult(Err(store(RefreshTokenQuery(ds)).fault), [])
    ensures store(RefreshTokenQuery(ds)).Ok? && !Given(store(RefreshTokenQuery(ds)).value) ==> r == RefreshResult(Ok(false), [])
    ensures store(RefreshTokenQuery(ds)).Ok? && Given(store(RefreshTokenQuery(ds)).value) && cfg.refreshTokenFromServer ==>
      r == RefreshResult(ServerBranchAsWritten(ServerRefreshFor(uiBase, ds, server)), [])
    ensures store(RefreshTokenQuery(ds)).Ok? && Given(store(RefreshTokenQuery(ds)).value) && !cfg.refreshTokenFromServer ==>
      var o := AgentRefresh(cfg, store(RefreshTokenQuery(ds)).value.value, post, cache, now);
      r == RefreshResult(o.answer, o.writes)
  {
    var stored := store(RefreshTokenQuery(ds));
    if stored.Err? {
      return RefreshResult(Err(stored.fault), []);
    }
    if !Given(stored.value) {
      return RefreshResult(Ok(false), []);
    }
    if cfg.refreshTokenFromServer {
      return RefreshResult(ServerBranchAsWritten(ServerRefreshFor(uiBase, ds, server)), []);
    }
    var answer, writes := RefreshUserTokenOnAgent(cfg, stored.value.value, post, cache, now);
    r := RefreshResult(answer, writes);
  }

  /** `refreshAuthCode` with the server refresh awaited. */
  method RefreshAuthCode(cfg: AuthConfig, ds: Option<DatasourceDto>, store: TokenStore, uiBase: string,
                         server: string -> Result<Option<string>>,
                         post: TokenRequest -> Result<CodeReply>, cache: UserCacheWrite -> Outcome, now: int)
    returns (r: RefreshResult)
    ensures store(RefreshTokenQuery(ds)).Err? ==> r == RefreshResult(Err(store(RefreshTokenQuery(ds)).fault), [])
    ensures store(RefreshTokenQuery(ds)).Ok? && !Given(store(RefreshTokenQuery(ds)).value) ==> r == RefreshResult(Ok(false), [])
    ensures store(RefreshTokenQuery(ds)).Ok? && Given(store(RefreshTokenQuery(ds)).value) && cfg.refreshTokenFromServer ==>
      r == RefreshResult(ServerBranch(ServerRefreshFor(uiBase, ds, server)), [])
    ensures store(RefreshTokenQuery(ds)).Ok? && Given(store(RefreshTokenQuery(ds)).value) && !cfg.refreshTokenFromServer ==>
      var o := AgentRefresh(cfg, store(RefreshTokenQuery(ds)).value.value, post, cache, now);
      r == RefreshResult(o.answer, o.writes)
  {
    var stored := store(RefreshTokenQuery(ds));
    if stored.Err? {
      return RefreshResult(Err(stored.fault), []);
    }
    if !Given(stored.value) {
      return RefreshResult(Ok(false), []);
    }
    if cfg.refreshTokenFromServer {
      var awaited := ServerRefreshFor(uiBase, ds, server);
      return RefreshResult(ServerBranch(awaited), []);
    }
    var answer, writes := RefreshUserTokenOnAgent(cfg, stored.value.value, post, cache, now);
    r := RefreshResult(answer, writes);
  }
}
