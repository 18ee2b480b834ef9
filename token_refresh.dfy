/** `getOrRefreshToken` (src/utils/auth.ts, lines 20-61): a user token from
    the token store, refreshed on a miss through the server or on the
    agent. */
module TokenRefresh {
  import opened Base
  import opened Model
  import opened AgentAuth
  import opened ApiAuth
  import opened AuthController

  /** The first lookup: by datasource id for datasource-scoped tokens, per
      user otherwise, forwarding the eager-refresh threshold. */
  function AccessQuery(cfg: AuthConfig, ds: DatasourceDto, threshold: int): (q: TokenQuery)
    ensures q.kind == Access && q.threshold == Some(threshold)
    ensures q.datasourceId.Some? <==> cfg.tokenScope == Some(DatasourceScope)
    ensures q.datasourceId.Some? ==> q.datasourceId.value == ds.id
  {
    if cfg.tokenScope == Some(DatasourceScope) then TokenQuery(Access, Some(ds.id), Some(threshold))
    else TokenQuery(Access, None, Some(threshold))
  }

  /** The lookup after a refresh on the agent: always by datasource id,
      without a threshold. */
  function RefetchQuery(ds: DatasourceDto): TokenQuery
  {
    TokenQuery(Access, Some(ds.id), None)
  }

  /** How a missing or empty token prints when passed on as text. */
  function JsText(v: Option<string>): (s: string)
    ensures v.Some? ==> s == v.value
    ensures v.None? ==> s == "undefined"
  {
    v.GetOr("undefined")
  }

  /** The calls `getOrRefreshToken` makes, in order. */
  datatype TokenCall = Lookup(q: TokenQuery) | RefreshOnServer | RefreshOnAgent(refreshToken: string)

  /** The token `getOrRefreshToken` returns. A token found by the first
      lookup is returned. On a miss, with `refreshTokenFromServer` the
      server's token is returned (an empty one is an error); otherwise the
      agent refreshes -- passing the missing token itself as the refresh
      token -- and the token is looked up again by datasource id. */
  function RefreshedToken(cfg: AuthConfig, ds: DatasourceDto, threshold: int, store: TokenStore, uiBase: string,
                          server: string -> Result<Option<string>>, post: TokenRequest -> Result<CodeReply>,
                          cache: UserCacheWrite -> Outcome, now: int): (r: Result<Option<string>>)
    ensures var found := store(AccessQuery(cfg, ds, threshold));
      found.Err? || Given(found.value) ==> r == found
    ensures var found := store(AccessQuery(cfg, ds, threshold));
      found.Ok? && !Given(found.value) && cfg.refreshTokenFromServer ==>
        var s := RefreshUserTokenOnServer(uiBase, ds, server);
        (s.Err? ==> r == Err(s.fault)) &&
        (s.Ok? && !Given(s.value) ==> r == Err(Raise(ErrorClass.Integration, "Failed to refresh a token on server"))) &&
        (s.Ok? && Given(s.value) ==> r == s)
    ensures var found := store(AccessQuery(cfg, ds, threshold));
      found.Ok? && !Given(found.value) && !cfg.refreshTokenFromServer ==>
        var o := AgentRefresh(cfg, JsText(found.value), post, cache, now);
        (o.answer.Err? ==> r == Err(o.answer.fault)) &&
        (o.answer == Ok(false) ==> r == Err(Raise(ErrorClass.Integration, "Failed to refresh a token on agent"))) &&
        (o.answer == Ok(true) ==> r == store(RefetchQuery(ds)))
  {
    var found := store(AccessQuery(cfg, ds, threshold));
    if found.Err? || Given(found.value) then found
    else if cfg.refreshTokenFromServer then
      var s := RefreshUserTokenOnServer(uiBase, ds, server);
      if s.Err? then Err(s.fault)
      else if !Given(s.value) then Err(Raise(ErrorClass.Integration, "Failed to refresh a token on server"))
      else s
    else
      var o := AgentRefresh(cfg, JsText(found.value), post, cache, now);
      match o.answer
      case Err(e) => Err(e)
      case Ok(b) => if b then store(RefetchQuery(ds)) else Err(Raise(ErrorClass.Integration, "Failed to refresh a token on agent"))
  }

  /** A refresh never hands back an empty token: the result is an error or
      a non-empty token, except that the final re-fetch is passed on as the
      store answers it. */
  lemma RefreshedTokenGiven(cfg: AuthConfig, ds: DatasourceDto, threshold: int, store: TokenStore, uiBase: string,
                            server: string -> Result<Option<string>>, post: TokenRequest -> Result<CodeReply>,
                            cache: UserCacheWrite -> Outcome, now: int)
    ensures var r := RefreshedToken(cfg, ds, threshold, store, uiBase, server, post, cache, now);
      r.Ok? && !Given(r.value) ==>
        !cfg.refreshTokenFromServer && r == store(RefetchQuery(ds)) &&
        AgentRefresh(cfg, JsText(store(AccessQuery(cfg, ds, threshold)).value), post, cache, now).answer == Ok(true)
  {
  }

  /** `getOrRefreshToken`: the token as `RefreshedToken` describes it; a
      token found by the first lookup is returned with no other call, and
      `calls` lists every store lookup and refresh in order. */
  method GetOrRefreshToken(cfg: AuthConfig, ds: DatasourceDto, threshold: int, store: TokenStore, uiBase: string,
                           server: string -> Result<Option<string>>, post: TokenRequest -> Result<CodeReply>,
                           cache: UserCacheWrite -> Outcome, now: int)
    returns (r: Result<Option<string>>, calls: seq<TokenCall>, writes: seq<UserCacheWrite>)
    ensures r == RefreshedToken(cfg, ds, threshold, store, uiBase, server, post, cache, now)
    ensures |calls| >= 1 && calls[0] == Lookup(AccessQuery(cfg, ds, threshold))
    ensures var found := store(AccessQuery(cfg, ds, threshold));
      found.Err? || Given(found.value) ==> calls == [Lookup(AccessQuery(cfg, ds, threshold))] && writes == []
    ensures var found := store(AccessQuery(cfg, ds, threshold));
      found.Ok? && !Given(found.value) && cfg.refreshTokenFromServer ==>
        calls == [Lookup(AccessQuery(cfg, ds, threshold)), RefreshOnServer] && writes == []
    ensures var found := store(AccessQuery(cfg, ds, threshold));
      found.Ok? && !Given(found.value) && !cfg.refreshTokenFromServer ==>
        var o := AgentRefresh(cfg, JsText(found.value), post, cache, now);
        var head := [Lookup(AccessQuery(cfg, ds, threshold)), RefreshOnAgent(JsText(found.value))];
        writes == o.writes &&
        (o.answer == Ok(true) ==> calls == head + [Lookup(RefetchQuery(ds))]) &&
        (o.answer != Ok(true) ==> calls == head)
  {
    var query := AccessQuery(cfg, ds, threshold);
    calls := [Lookup(query)];
    writes := [];
    var token := store(query);
    if token.Err? || Given(token.value) {
      return token, calls, writes;
    }
    if cfg.refreshTokenFromServer {
      calls := calls + [RefreshOnServer];
      var newUserToken := RefreshUserTokenOnServer(uiBase, ds, server);
      if newUserToken.Err? {
        return Err(newUserToken.fault), calls, writes;
      }
      if !Given(newUserToken.value) {
        return Err(Raise(ErrorClass.Integration, "Failed to refresh a token on server")), calls, writes;
      }
      return newUserToken, calls, writes;
    }
    calls := calls + [RefreshOnAgent(JsText(token.value))];
    var refreshed;
    refreshed, writes := RefreshUserTokenOnAgent(cfg, JsText(token.value), post, cache, now);
    if refreshed.Err? {
      return Err(refreshed.fault), calls, writes;
    }
    if !refreshed.value {
      return Err(Raise(ErrorClass.Integration, "Failed to refresh a token on agent")), calls, writes;
    }
    calls := calls + [Lookup(RefetchQuery(ds))];
    r := store(RefetchQuery(ds));
  }
}
