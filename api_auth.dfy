/** Authentication of REST datasources (src/api/apiAuthentication.ts): the
    auth-type tables, the OAuth token requests and the token fallback. The
    token endpoint is the oracle `post`; the token store is represented by
    the cache writes an operation issues. */
module ApiAuth {
  import opened Base
  import opened Strings
  import opened Model
  import opened AgentAuth

  /** Seconds a token is cached for when the response gives no expiry. */
  const DEFAULT_TOKEN_EXPIRES_IN: int := 3600 * 24

  /** `expectsBindings`: whether the auth type needs a token bound into the
      evaluation context; `None` for an auth type the switch does not list
      (the function then returns `undefined`). */
  function ExpectsBindings(authType: AuthType, authConfig: AuthConfig): (r: Option<bool>)
    ensures authType in {RestBasic, RestNone} ==> r == Some(false)
    ensures authType == RestOAuth2Password ==> r == Some(!authConfig.useFixedPasswordCreds)
    ensures authType in {RestOAuth2ClientCreds, RestOAuth2Implicit, RestOAuth2Code, RestFirebase, SheetsOAuth2Code} ==> r == Some(true)
    ensures authType.OtherAuth? <==> r.None?
  {
    match authType
    case RestBasic => Some(false)
    case RestNone => Some(false)
    case RestOAuth2Password => Some(!authConfig.useFixedPasswordCreds)
    case RestOAuth2ClientCreds => Some(true)
    case RestOAuth2Implicit => Some(true)
    case RestOAuth2Code => Some(true)
    case RestFirebase => Some(true)
    case SheetsOAuth2Code => Some(true)
    case OtherAuth(_) => None
  }

  /** `apiAuthBindings`: the global the auth type's token is bound under;
      `None` for an auth type the switch does not list. */
  function ApiAuthBindings(authType: AuthType): (r: Option<string>)
    ensures authType == RestNone <==> r == Some("")
    ensures authType == RestBasic <==> r == Some("_basic")
    ensures authType == RestFirebase <==> r == Some("firebase")
    ensures authType in {RestOAuth2Password, RestOAuth2ClientCreds, RestOAuth2Implicit, RestOAuth2Code, SheetsOAuth2Code}
      <==> r == Some("oauth")
    ensures authType.OtherAuth? <==> r.None?
  {
    match authType
    case RestNone => Some("")
    case RestBasic => Some("_basic")
    case RestFirebase => Some("firebase")
    case RestOAuth2Password => Some("oauth")
    case RestOAuth2ClientCreds => Some("oauth")
    case RestOAuth2Implicit => Some("oauth")
    case RestOAuth2Code => Some("oauth")
    case SheetsOAuth2Code => Some("oauth")
    case OtherAuth(_) => None
  }

  /** The two tables agree: an auth type that expects bindings has a
      non-empty binding name, OAuth or Firebase, and the types bound under
      `""` or `_basic` never expect one. */
  lemma BindingTablesAgree(authType: AuthType, authConfig: AuthConfig)
    ensures ExpectsBindings(authType, authConfig) == Some(true) ==>
      ApiAuthBindings(authType) in {Some("oauth"), Some("firebase")}
    ensures ApiAuthBindings(authType) in {Some(""), Some("_basic")} ==> ExpectsBindings(authType, authConfig) == Some(false)
    ensures ExpectsBindings(authType, authConfig).None? <==> ApiAuthBindings(authType).None?
  {
  }

  /** The body of a token request: a JSON object or a form, each as its
      fields in order. URL encoding is not modelled. */
  datatype Body = JsonBody(fields: seq<(string, string)>) | FormBody(fields: seq<(string, string)>)

  datatype TokenRequest = TokenRequest(url: string, body: Body, headers: map<string, string>)

  /** What the token endpoint answers: the HTTP status, the parsed
      `access_token`, `refresh_token`, `issued_at` and `expires_in`, and the
      response data as JSON text. */
  datatype TokenReply = TokenReply(
    status: int,
    accessToken: string,
    refreshToken: string,
    issuedAt: int,
    expiresIn: int,
    dataJson: string)

  /** A token, tagged with its kind, and its expiry in epoch milliseconds. */
  datatype TokenType = Access | Refresh
  datatype ExpirableToken = ExpirableToken(token: string, expiry: int)
  datatype OauthTokens = OauthTokens(access: ExpirableToken, refresh: ExpirableToken)

  /** One `cacheAuth` call: what is stored, of which kind. Whether it
      succeeds is not observed (its rejection is only logged). */
  datatype CacheWrite = CacheWrite(kind: TokenType, token: ExpirableToken)

  /** `floor(status / 100) !== 2`: `/` on `int` with a positive divisor
      rounds down, like `Math.floor`. */
  predicate Rejected(status: int)
    ensures Rejected(status) <==> !(200 <= status < 300)
  {
    status / 100 != 2
  }

  /** The tokens a successful password-grant or refresh response yields:
      the access token expires `expires_in` seconds after `issued_at`; the
      refresh token gets the fixed default expiry. */
  function ReplyTokens(reply: TokenReply, defaultRefreshExpiry: int): (t: OauthTokens)
    ensures t.access.token == reply.accessToken && t.refresh.token == reply.refreshToken
    ensures t.access.expiry - reply.issuedAt == 1000 * reply.expiresIn
    ensures t.refresh.expiry == defaultRefreshExpiry
  {
    OauthTokens(ExpirableToken(reply.accessToken, reply.issuedAt + reply.expiresIn * 1000),
                ExpirableToken(reply.refreshToken, defaultRefreshExpiry))
  }

  predicate IsExperian(tokenUrl: string) {
    Contains(tokenUrl, "experian.com")
  }

  /** The request `fetchNewOAuthPasswordToken` sends: Experian's token URLs
      get a JSON body and a `Grant_type` header, every other URL the
      standard form with `grant_type=password`. */
  function PasswordGrantRequest(cfg: AuthConfig): (req: TokenRequest)
    ensures req.url == cfg.tokenUrl
    ensures req.body.JsonBody? <==> IsExperian(cfg.tokenUrl)
    ensures IsExperian(cfg.tokenUrl) ==>
      req.headers == map["Content-Type" := "application/json", "Grant_type" := "password"]
    ensures IsExperian(cfg.tokenUrl) ==> req.body.fields == CredentialFields(cfg)
    ensures !IsExperian(cfg.tokenUrl) ==>
      req.headers == map[] && req.body.fields == CredentialFields(cfg) + [("grant_type", "password")]
  {
    var data := CredentialFields(cfg);
    if IsExperian(cfg.tokenUrl) then
      TokenRequest(cfg.tokenUrl, JsonBody(data), map["Content-Type" := "application/json", "Grant_type" := "password"])
    else
      TokenRequest(cfg.tokenUrl, FormBody(data + [("grant_type", "password")]), map[])
  }

  /** The fields of `fields` named `key`. */
  predicate HasField(fields: seq<(string, string)>, key: string) {
    exists i :: 0 <= i < |fields| && fields[i].0 == key
  }

  /** The credentials both password-grant forms carry, under their OAuth
      parameter names, once each and in the source's order: the user's
      name and password only when configured (both serialisations drop an
      `undefined` value), then the client's id and secret. */
  function CredentialFields(cfg: AuthConfig): (fields: seq<(string, string)>)
    ensures |fields| == (if cfg.username.Some? then 1 else 0) + (if cfg.password.Some? then 1 else 0) + 2
    ensures HasField(fields, "username") <==> cfg.username.Some?
    ensures HasField(fields, "password") <==> cfg.password.Some?
    ensures cfg.username.Some? ==> fields[0] == ("username", cfg.username.value)
    ensures cfg.password.Some? ==> fields[|fields| - 3] == ("password", cfg.password.value)
    ensures fields[|fields| - 2..] == [("client_id", cfg.clientId), ("client_secret", cfg.clientSecret)]
    ensures forall i :: 0 <= i < |fields| ==> fields[i].0 in {"username", "password", "client_id", "client_secret"}
    ensures forall i, j :: 0 <= i < j < |fields| ==> fields[i].0 != fields[j].0
  {
    var user := if cfg.username.Some? then [("username", cfg.username.value)] else [];
    var pass := if cfg.password.Some? then [("password", cfg.password.value)] else [];
    var fields := user + pass + [("client_id", cfg.clientId), ("client_secret", cfg.clientSecret)];
    assert forall i :: 0 <= i < |fields| ==>
      fields[i].0 == (if i < |user| then "username" else if i < |user| + |pass| then "password"
                      else if i == |user| + |pass| then "client_id" else "client_secret");
    assert cfg.username.Some? ==> fields[0].0 == "username";
    assert cfg.password.Some? ==> fields[|user|].0 == "password";
    fields
  }

  /** The request `refreshOAuthPasswordToken` sends: an empty JSON body,
      with the refresh grant in the headers. */
  function RefreshRequest(cfg: AuthConfig, refreshToken: string): (req: TokenRequest)
    ensures req.url == cfg.tokenUrl && req.body == JsonBody([])
    ensures "refresh_token" in req.headers && req.headers["refresh_token"] == refreshToken
    ensures "grant_type" in req.headers && req.headers["grant_type"] == "refresh_token"
  {
    TokenRequest(cfg.tokenUrl, JsonBody([]), map[
      "Content-Type" := "application/json",
      "grant_type" := "refresh_token",
      "client_id" := cfg.clientId,
      "client_secret" := cfg.clientSecret,
      "refresh_token" := refreshToken])
  }

  /** The request `getOauthClientCredsToken` sends, authenticated with the
      client id and secret as a basic-auth token. */
  function ClientCredsRequest(cfg: AuthConfig): (req: TokenRequest)
    ensures req.url == cfg.tokenUrl
    ensures req.body == FormBody([("grant_type", "client_credentials"), ("scope", cfg.scope)])
    ensures "Authorization" in req.headers
    ensures req.headers["Authorization"] == "Basic " + MakeBasicAuthToken(cfg.clientId, cfg.clientSecret)
  {
    TokenRequest(cfg.tokenUrl, FormBody([("grant_type", "client_credentials"), ("scope", cfg.scope)]), map[
      "Content-Type" := "application/x-www-form-urlencoded",
      "Authorization" := "Basic " + MakeBasicAuthToken(cfg.clientId, cfg.clientSecret)])
  }

  /** `fetchNewOAuthPasswordToken`: a rejected status fails with a plain
      `Error` (the response object prints as `[object Object]`); a failed
      request propagates its error. */
  function FetchNewOAuthPasswordToken(cfg: AuthConfig, post: TokenRequest -> Result<TokenReply>,
                                      defaultRefreshExpiry: int): (r: Result<OauthTokens>)
    ensures post(PasswordGrantRequest(cfg)).Err? ==> r == Err(post(PasswordGrantRequest(cfg)).fault)
    ensures post(PasswordGrantRequest(cfg)).Ok? ==>
      var reply := post(PasswordGrantRequest(cfg)).value;
      (Rejected(reply.status) ==> r == Err(Raise(PlainError, "Failed to log in: [object Object]"))) &&
      (!Rejected(reply.status) ==> r == Ok(ReplyTokens(reply, defaultRefreshExpiry)))
  {
    match post(PasswordGrantRequest(cfg))
    case Err(e) => Err(e)
    case Ok(reply) =>
      if Rejected(reply.status) then Err(Raise(PlainError, "Failed to log in: [object Object]"))
      else Ok(ReplyTokens(reply, defaultRefreshExpiry))
  }

  /** `refreshOAuthPasswordToken`: a rejected status fails naming the status
      and the response data. */
  function RefreshOAuthPasswordToken(cfg: AuthConfig, refreshToken: string, post: TokenRequest -> Result<TokenReply>,
                                     defaultRefreshExpiry: int): (r: Result<OauthTokens>)
    ensures post(RefreshRequest(cfg, refreshToken)).Err? ==> r == Err(post(RefreshRequest(cfg, refreshToken)).fault)
    ensures post(RefreshRequest(cfg, refreshToken)).Ok? ==>
      var reply := post(RefreshRequest(cfg, refreshToken)).value;
      (Rejected(reply.status) ==> r == Err(Raise(PlainError,
        "Failed to refresh token with result " + IntToString(reply.status) + ", err: " + reply.dataJson))) &&
      (!Rejected(reply.status) ==> r == Ok(ReplyTokens(reply, defaultRefreshExpiry)))
  {
    match post(RefreshRequest(cfg, refreshToken))
    case Err(e) => Err(e)
    case Ok(reply) =>
      if Rejected(reply.status) then
        Err(Raise(PlainError, "Failed to refresh token with result " + IntToString(reply.status) + ", err: " + reply.dataJson))
      else Ok(ReplyTokens(reply, defaultRefreshExpiry))
  }

  /** The refresh grant `getOauthPasswordToken` tries: only when the stored
      refresh token is non-empty (`None` when it is not tried). */
  function RefreshAttempt(cfg: AuthConfig, stored: Option<string>, post: TokenRequest -> Result<TokenReply>,
                          defaultRefreshExpiry: int): (a: Option<Result<OauthTokens>>)
    ensures a.Some? <==> Given(stored)
  {
    if Given(stored) then Some(RefreshOAuthPasswordToken(cfg, stored.value, post, defaultRefreshExpiry)) else None
  }

  predicate Refreshed(a: Option<Result<OauthTokens>>) {
    a.Some? && a.value.Ok?
  }

  /** The error an action's token lookup fails with. */
  function AuthenticateFailure(actionName: string, err: Fault): (f: Fault)
    ensures f.cls == ErrorClass.Integration && f.message == "Failed to authenticate " + actionName + ": " + Describe(err)
  {
    Raise(ErrorClass.Integration, "Failed to authenticate " + actionName + ": " + Describe(err))
  }

  /** The token `getOauthClientCredsToken` returns: the access token of
      the client-credentials grant; a failed request fails the lookup. */
  function ClientCredsToken(cfg: AuthConfig, actionName: string, post: TokenRequest -> Result<TokenReply>): (r: Result<string>)
    ensures post(ClientCredsRequest(cfg)).Err? ==> r == Err(AuthenticateFailure(actionName, post(ClientCredsRequest(cfg)).fault))
    ensures post(ClientCredsRequest(cfg)).Ok? ==> r == Ok(post(ClientCredsRequest(cfg)).value.accessToken)
  {
    match post(ClientCredsRequest(cfg))
    case Err(e) => Err(AuthenticateFailure(actionName, e))
    case Ok(reply) => Ok(reply.accessToken)
  }

  /** `getOauthClientCredsToken`: the token of the client-credentials grant,
      cached with an expiry `expires_in` seconds from `now`. */
  method GetOauthClientCredsToken(cfg: AuthConfig, actionName: string, post: TokenRequest -> Result<TokenReply>, now: int)
    returns (r: Result<string>, cached: seq<CacheWrite>)
    ensures r == ClientCredsToken(cfg, actionName, post)
    ensures post(ClientCredsRequest(cfg)).Err? ==> cached == []
    ensures post(ClientCredsRequest(cfg)).Ok? ==>
      var reply := post(ClientCredsRequest(cfg)).value;
      cached == [CacheWrite(Access, ExpirableToken(reply.accessToken, now + reply.expiresIn * 1000))]
  {
    var result := post(ClientCredsRequest(cfg));
    if result.Err? {
      return Err(AuthenticateFailure(actionName, result.fault)), [];
    }
    var token := result.value.accessToken;
    var expiresAt := now + result.value.expiresIn * 1000;
    cached := [CacheWrite(Access, ExpirableToken(token, expiresAt))];
    r := Ok(token);
  }

  /** The token `getOauthPasswordToken` returns. `storedRefresh` is what the
      token store returns for the refresh token. A successful refresh grant
      wins; otherwise the password grant decides; the lookup fails only when
      both fail (or the store lookup throws). */
  function PasswordToken(cfg: AuthConfig, actionName: string, storedRefresh: Result<Option<string>>,
                         post: TokenRequest -> Result<TokenReply>, defaultRefreshExpiry: int): (r: Result<string>)
    ensures storedRefresh.Err? ==> r == Err(AuthenticateFailure(actionName, storedRefresh.fault))
    ensures storedRefresh.Ok? && Refreshed(RefreshAttempt(cfg, storedRefresh.value, post, defaultRefreshExpiry)) ==>
      r == Ok(RefreshAttempt(cfg, storedRefresh.value, post, defaultRefreshExpiry).value.value.access.token)
    ensures storedRefresh.Ok? && !Refreshed(RefreshAttempt(cfg, storedRefresh.value, post, defaultRefreshExpiry)) ==>
      var fetched := FetchNewOAuthPasswordToken(cfg, post, defaultRefreshExpiry);
      (fetched.Ok? ==> r == Ok(fetched.value.access.token)) &&
      (fetched.Err? ==> r == Err(AuthenticateFailure(actionName,
        Raise(ErrorClass.Integration, "failed to fetch authenticate: " + Describe(fetched.fault)))))
  {
    match storedRefresh
    case Err(e) => Err(AuthenticateFailure(actionName, e))
    case Ok(stored) =>
      var attempt := RefreshAttempt(cfg, stored, post, defaultRefreshExpiry);
      if Refreshed(attempt) then Ok(attempt.value.value.access.token)
      else match FetchNewOAuthPasswordToken(cfg, post, defaultRefreshExpiry)
        case Ok(tokens) => Ok(tokens.access.token)
        case Err(e) => Err(AuthenticateFailure(actionName, Raise(ErrorClass.Integration, "failed to fetch authenticate: " + Describe(e))))
  }

  /** The lookup succeeds exactly when the store answers and one of the two
      grants succeeds; the fallback is never consulted after a refresh. */
  lemma PasswordTokenFallback(cfg: AuthConfig, actionName: string, storedRefresh: Result<Option<string>>,
                              post: TokenRequest -> Result<TokenReply>, post2: TokenRequest -> Result<TokenReply>,
                              defaultRefreshExpiry: int)
    ensures PasswordToken(cfg, actionName, storedRefresh, post, defaultRefreshExpiry).Ok? <==>
      storedRefresh.Ok? &&
      (Refreshed(RefreshAttempt(cfg, storedRefresh.value, post, defaultRefreshExpiry)) ||
       FetchNewOAuthPasswordToken(cfg, post, defaultRefreshExpiry).Ok?)
    ensures (storedRefresh.Ok? && Given(storedRefresh.value) &&
             Refreshed(RefreshAttempt(cfg, storedRefresh.value, post, defaultRefreshExpiry)) &&
             post2(RefreshRequest(cfg, storedRefresh.value.value)) == post(RefreshRequest(cfg, storedRefresh.value.value))) ==>
      PasswordToken(cfg, actionName, storedRefresh, post2, defaultRefreshExpiry)
        == PasswordToken(cfg, actionName, storedRefresh, post, defaultRefreshExpiry)
  {
  }

  /** `getOauthPasswordToken`. The refresh grant is tried only with a
      non-empty stored refresh token, the password grant only when there was
      none or the refresh failed; `sent` lists the token requests in order,
      and the tokens obtained are cached. */
  method GetOauthPasswordToken(cfg: AuthConfig, actionName: string, storedRefresh: Result<Option<string>>,
                               post: TokenRequest -> Result<TokenReply>, defaultRefreshExpiry: int)
    returns (r: Result<string>, cached: seq<CacheWrite>, sent: seq<TokenRequest>)
    ensures r == PasswordToken(cfg, actionName, storedRefresh, post, defaultRefreshExpiry)
    ensures storedRefresh.Err? ==> cached == [] && sent == []
    ensures storedRefresh.Ok? ==>
      sent == (if Given(storedRefresh.value) then [RefreshRequest(cfg, storedRefresh.value.value)] else []) +
              (if Refreshed(RefreshAttempt(cfg, storedRefresh.value, post, defaultRefreshExpiry)) then [] else [PasswordGrantRequest(cfg)])
    ensures storedRefresh.Ok? && Refreshed(RefreshAttempt(cfg, storedRefresh.value, post, defaultRefreshExpiry)) ==>
      var tokens := RefreshAttempt(cfg, storedRefresh.value, post, defaultRefreshExpiry).value.value;
      cached == [CacheWrite(Access, tokens.access), CacheWrite(Refresh, tokens.refresh)]
    ensures storedRefresh.Ok? && !Refreshed(RefreshAttempt(cfg, storedRefresh.value, post, defaultRefreshExpiry)) ==>
      var fetched := FetchNewOAuthPasswordToken(cfg, post, defaultRefreshExpiry);
      (fetched.Ok? ==> cached == [CacheWrite(Access, fetched.value.access), CacheWrite(Refresh, fetched.value.refresh)]) &&
      (fetched.Err? ==> cached == [])
  {
    sent := [];
    cached := [];
    if storedRefresh.Err? {
      return Err(AuthenticateFailure(actionName, storedRefresh.fault)), cached, sent;
    }
    var refreshToken := storedRefresh.value;
    var tokens: Option<OauthTokens> := None;
    var errMsg: Option<Fault> := None;
    if Given(refreshToken) {
      sent := sent + [RefreshRequest(cfg, refreshToken.value)];
      var attempt := RefreshOAuthPasswordToken(cfg, refreshToken.value, post, defaultRefreshExpiry);
      if attempt.Ok? {
        tokens := Some(attempt.value);
      } else {
        errMsg := Some(attempt.fault);
      }
    }
    if tokens.None? {
      sent := sent + [PasswordGrantRequest(cfg)];
      var attempt := FetchNewOAuthPasswordToken(cfg, post, defaultRefreshExpiry);
      if attempt.Ok? {
        tokens := Some(attempt.value);
      } else {
        errMsg := Some(attempt.fault);
      }
    }
    if tokens.None? {
      var failure := Raise(ErrorClass.Integration, "failed to fetch authenticate: " + Describe(errMsg.value));
      return Err(AuthenticateFailure(actionName, failure)), cached, sent;
    }
    cached := [CacheWrite(Access, tokens.value.access), CacheWrite(Refresh, tokens.value.refresh)];
    r := Ok(tokens.value.access.token);
  }
}
