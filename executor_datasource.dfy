/** `redactAndEvaluateDatasourceConfiguration` (src/api/ApiExecutor.ts,
    lines 470-616): the configuration of a step's datasource, evaluated
    once against the real context and once, as a redacted clone, against
    the redacted context, after auth bindings and tokens have been put in
    place. */
module ExecutorDatasource {
  import opened Base
  import opened Records
  import opened Model
  import opened AgentAuth
  import opened ApiAuth
  import opened AuthController
  import opened TokenRefresh
  import opened DatasourceEval

  const TOKEN_NOT_FOUND := "Authentication failed - token not found"
  const REDACTED_TOKEN := "<redacted>"

  /** Everything the executor calls outward, and the settings it reads. */
  datatype Services = Services(
    lib: LibraryConstants,
    workflows: Workflows,
    resolve: Resolver,
    authIdOf: AuthIdOf,
    tokenEndpoint: TokenRequest -> Result<TokenReply>,
    defaultRefreshExpiry: int,
    store: TokenStore,
    uiBase: string,
    server: string -> Result<Option<string>>,
    codeEndpoint: TokenRequest -> Result<CodeReply>,
    userCache: UserCacheWrite -> Outcome,
    refreshThreshold: int,
    now: int)

  /** The two configurations evaluated for a datasource. */
  datatype Evaluated = Evaluated(config: DsConfig, redactedConfig: DsConfig)

  /** The configurations and contexts as they are built up. */
  datatype Prepared = Prepared(config: DsConfig, redactedConfig: DsConfig, context: Context, redactedContext: Context)

  /** The two contexts bind the same globals and outputs. */
  predicate SameKeys(a: Context, b: Context) {
    a.globals.Keys == b.globals.Keys && Keys(a.outputs) == Keys(b.outputs)
  }

  /** Production runs read the production configuration, every other
      environment the staging one. */
  function ChosenConfig(ds: DatasourceDto, environment: string, lib: LibraryConstants): (cfg: DsConfig)
    ensures environment == lib.productionEnvironment ==> cfg == ds.configurationProd
    ensures environment != lib.productionEnvironment ==> cfg == ds.configurationStaging
  {
    if environment == lib.productionEnvironment then ds.configurationProd else ds.configurationStaging
  }

  /** The value an auth variable contributes: its redacted value, if it has
      one, in the redacted context. */
  function AuthValue(v: AuthVariable, redacted: bool): string {
    if redacted then v.redactedValue.GetOr(v.value) else v.value
  }

  /** The object an auth context's variables build, later keys overwriting
      earlier ones. */
  function AuthObject(vars: seq<AuthVariable>, redacted: bool): (m: map<string, Value>)
    ensures m.Keys == set v | v in vars :: v.key
    decreases |vars|
  {
    if |vars| == 0 then map[]
    else
      var n := |vars| - 1;
      var m := AuthObject(vars[..n], redacted);
      assert forall v :: v in vars <==> v in vars[..n] || v == vars[n];
      m[vars[n].key := Str(AuthValue(vars[n], redacted))]
  }

  /** The value under a key is that of the last variable with the key. */
  lemma {:induction false} AuthObjectLast(vars: seq<AuthVariable>, redacted: bool, i: nat)
    requires i < |vars|
    requires forall j :: i < j < |vars| ==> vars[j].key != vars[i].key
    ensures vars[i].key in AuthObject(vars, redacted)
    ensures AuthObject(vars, redacted)[vars[i].key] == Str(AuthValue(vars[i], redacted))
    decreases |vars|
  {
    var n := |vars| - 1;
    assert AuthObject(vars, redacted) == AuthObject(vars[..n], redacted)[vars[n].key := Str(AuthValue(vars[n], redacted))];
    if i < n {
      assert vars[n].key != vars[i].key;
      assert forall j :: i < j < n ==> vars[..n][j] == vars[j];
      AuthObjectLast(vars[..n], redacted, i);
      assert vars[..n][i] == vars[i];
    }
  }

  /** The contexts after the auth bindings are added, one global per
      binding name. */
  function BindAuth(c: Context, bindings: Record<seq<AuthVariable>>, redacted: bool): (r: Context)
    ensures r.globals.Keys == c.globals.Keys + set k | k in Keys(bindings)
    ensures r.outputs == c.outputs && r.error == c.error && r.errorContext == c.errorContext
    decreases |bindings|
  {
    if |bindings| == 0 then c
    else
      var n := |bindings| - 1;
      assert forall k :: k in Keys(bindings) <==> k in Keys(bindings[..n]) || k == bindings[n].0;
      AddGlobal(BindAuth(c, bindings[..n], redacted), bindings[n].0, Obj(AuthObject(bindings[n].1, redacted)))
  }

  /** The `forEach` over the auth bindings and their variables, writing the
      real and the redacted object side by side. */
  method BindAuthVariables(context: Context, redactedContext: Context, bindings: Record<seq<AuthVariable>>)
    returns (c: Context, rc: Context)
    ensures c == BindAuth(context, bindings, false) && rc == BindAuth(redactedContext, bindings, true)
  {
    c, rc := context, redactedContext;
    for i := 0 to |bindings|
      invariant c == BindAuth(context, bindings[..i], false)
      invariant rc == BindAuth(redactedContext, bindings[..i], true)
    {
      var (authTypeKey, variables) := bindings[i];
      var authObj: map<string, Value> := map[];
      var redactedAuthObj: map<string, Value> := map[];
      for j := 0 to |variables|
        invariant authObj == AuthObject(variables[..j], false)
        invariant redactedAuthObj == AuthObject(variables[..j], true)
      {
        assert variables[..j + 1][..j] == variables[..j];
        authObj := authObj[variables[j].key := Str(variables[j].value)];
        redactedAuthObj := redactedAuthObj[variables[j].key := Str(variables[j].redactedValue.GetOr(variables[j].value))];
      }
      assert variables[..|variables|] == variables;
      assert bindings[..i + 1][..i] == bindings[..i];
      c := AddGlobal(c, authTypeKey, Obj(authObj));
      rc := AddGlobal(rc, authTypeKey, Obj(redactedAuthObj));
    }
    assert bindings[..|bindings|] == bindings;
  }

  /** `existingContext && existingContext['token']`. */
  predicate TokenBound(c: Context, binding: string) {
    binding in c.globals && Truthy(c.globals[binding]) && Truthy(Member(c.globals[binding], "token"))
  }

  /** A fetched token bound as `{token}`, and as `{token: '<redacted>'}` in
      the redacted context. */
  function WithToken(p: Prepared, binding: string, token: string): (q: Prepared)
    ensures q.config == p.config && q.redactedConfig == p.redactedConfig
    ensures q.context == AddGlobal(p.context, binding, Obj(map["token" := Str(token)]))
    ensures q.redactedContext == AddGlobal(p.redactedContext, binding, Obj(map["token" := Str(REDACTED_TOKEN)]))
  {
    p.(context := AddGlobal(p.context, binding, Obj(map["token" := Str(token)])),
       redactedContext := AddGlobal(p.redactedContext, binding, Obj(map["token" := Str(REDACTED_TOKEN)])))
  }

  /** The basic-auth token: built from the configured credentials when they
      are shared, otherwise the token bound under `_basic`, or empty. */
  function BasicToken(p: Prepared): (token: string)
    ensures p.config.authConfig.shareBasicAuthCreds ==>
      token == MakeBasicAuthToken(p.config.authConfig.username.GetOr(""), p.config.authConfig.password.GetOr(""))
    ensures !p.config.authConfig.shareBasicAuthCreds && !TokenBound(p.context, "_basic") ==> token == ""
  {
    var auth := p.config.authConfig;
    if auth.shareBasicAuthCreds then MakeBasicAuthToken(auth.username.GetOr(""), auth.password.GetOr(""))
    else if TokenBound(p.context, "_basic") then JsString(Member(p.context.globals["_basic"], "token"))
    else ""
  }

  /** `(config.headers = config.headers ?? []).push(header)`. */
  function WithHeader(cfg: DsConfig, h: Header): (r: DsConfig)
    ensures r.headers.Some? && r.headers.value == cfg.headers.GetOr([]) + [h]
    ensures r.authType == cfg.authType && r.authConfig == cfg.authConfig
    ensures r.dynamicWorkflowId == cfg.dynamicWorkflowId && r.body == cfg.body
  {
    cfg.(headers := Some(cfg.headers.GetOr([]) + [h]))
  }

  /** The `switch` on the auth type. Client-credentials and fixed-password
      OAuth fetch a token only when none is bound yet (both bind under
      `oauth`, the binding name of either type); BASIC appends one
      `Authorization` header to each configuration; every other type
      passes through. */
  function AuthSwitch(action: Action, p: Prepared, svc: Services): (r: Result<Prepared>)
    ensures r.Ok? ==> r.value.redactedConfig.authType == p.redactedConfig.authType
    ensures p.config.authType == Some(RestBasic) ==>
      r.Ok? && r.value.context == p.context && r.value.redactedContext == p.redactedContext &&
      r.value.config == WithHeader(p.config, Header("Authorization", "Basic " + BasicToken(p))) &&
      r.value.redactedConfig == WithHeader(p.redactedConfig, Header("Authorization", "Basic " + REDACTED_TOKEN))
    ensures p.config.authType !in {Some(RestBasic), Some(RestOAuth2ClientCreds), Some(RestOAuth2Password)} ==> r == Ok(p)
    ensures p.config.authType == Some(RestOAuth2Password) && !p.config.authConfig.useFixedPasswordCreds ==> r == Ok(p)
    ensures p.config.authType in {Some(RestOAuth2ClientCreds), Some(RestOAuth2Password)} && TokenBound(p.context, "oauth") ==>
      r == Ok(p)
    ensures p.config.authType in {Some(RestOAuth2ClientCreds), Some(RestOAuth2Password)} && r.Ok? && r != Ok(p) ==>
      exists token :: r.value == WithToken(p, "oauth", token)
  {
    match p.config.authType
    case Some(RestOAuth2ClientCreds) =>
      if TokenBound(p.context, "oauth") then Ok(p)
      else
        (match ClientCredsToken(p.config.authConfig, action.name, svc.tokenEndpoint)
         case Err(e) => Err(e)
         case Ok(token) => Ok(WithToken(p, "oauth", token)))
    case Some(RestOAuth2Password) =>
      if !p.config.authConfig.useFixedPasswordCreds || TokenBound(p.context, "oauth") then Ok(p)
      else
        var stored := svc.store(TokenQuery(Refresh, None, None));
        (match PasswordToken(p.config.authConfig, action.name, stored, svc.tokenEndpoint, svc.defaultRefreshExpiry)
         case Err(e) => Err(e)
         case Ok(token) => Ok(WithToken(p, "oauth", token)))
    case Some(RestBasic) =>
      Ok(p.(config := WithHeader(p.config, Header("Authorization", "Basic " + BasicToken(p))),
            redactedConfig := WithHeader(p.redactedConfig, Header("Authorization", "Basic " + REDACTED_TOKEN))))
    case _ => Ok(p)
  }

  /** `datasourceContext.globals[binding]` is truthy. */
  predicate HasBinding(c: Context, binding: string) {
    binding in c.globals && Truthy(c.globals[binding])
  }

  /** The Google Sheets token is written into the real configuration only;
      any other step whose auth type expects a bound token fails when none
      is bound. */
  function SheetsOrCheck(action: Action, ds: DatasourceDto, p: Prepared, svc: Services): (r: Result<Prepared>)
    ensures r.Ok? ==>
      r.value.redactedConfig == p.redactedConfig && r.value.context == p.context && r.value.redactedContext == p.redactedContext
    ensures r.Ok? ==> r.value.config == p.config || r.value.config == p.config.(authConfig := p.config.authConfig.(authToken := r.value.config.authConfig.authToken))
    ensures action.pluginId != svc.lib.googleSheetsPluginId ==>
      (r.Err? <==> p.config.authType.Some? && ExpectsBindings(p.config.authType.value, p.config.authConfig) == Some(true) &&
                   !HasBinding(p.context, ApiAuthBindings(p.config.authType.value).value))
    ensures action.pluginId != svc.lib.googleSheetsPluginId && r.Err? ==>
      r.fault == Raise(ErrorClass.Integration, TOKEN_NOT_FOUND)
  {
    if action.pluginId == svc.lib.googleSheetsPluginId then
      if p.config.authType == Some(SheetsOAuth2Code) then
        var token := RefreshedToken(p.config.authConfig, ds, svc.refreshThreshold, svc.store, svc.uiBase, svc.server,
                                    svc.codeEndpoint, svc.userCache, svc.now);
        match token
        case Err(e) => Err(e)
        case Ok(t) =>
          if !Given(t) then Err(Raise(ErrorClass.Integration, TOKEN_NOT_FOUND))
          else Ok(p.(config := p.config.(authConfig := p.config.authConfig.(authToken := t))))
      else Ok(p)
    else if p.config.authType.Some? then
      var authType := p.config.authType.value;
      BindingTablesAgree(authType, p.config.authConfig);
      if ExpectsBindings(authType, p.config.authConfig) == Some(true) && !HasBinding(p.context, ApiAuthBindings(authType).value) then
        Err(Raise(ErrorClass.Integration, TOKEN_NOT_FOUND))
      else Ok(p)
    else Ok(p)
  }

  /** Both configurations evaluated, the real one first. */
  function EvaluateBoth(p: Prepared, environment: string, rc: RecursionContext, svc: Services): (r: Result<Evaluated>)
    ensures r.Ok? ==>
      Ok(r.value.config) == DatasourceEvaluation(p.context, p.config, environment, true, rc, svc.lib, svc.workflows, svc.resolve) &&
      Ok(r.value.redactedConfig) == DatasourceEvaluation(p.redactedContext, p.redactedConfig, environment, true, rc, svc.lib, svc.workflows, svc.resolve)
  {
    match DatasourceEvaluation(p.context, p.config, environment, true, rc, svc.lib, svc.workflows, svc.resolve)
    case Err(e) => Err(e)
    case Ok(config) =>
      match DatasourceEvaluation(p.redactedContext, p.redactedConfig, environment, true, rc, svc.lib, svc.workflows, svc.resolve)
      case Err(e) => Err(e)
      case Ok(redactedConfig) => Ok(Evaluated(config, redactedConfig))
  }

  /** The error every failure of the evaluation is rethrown as. */
  function StepFailure(ds: DatasourceDto, cause: Fault): (f: Fault)
    ensures f.cls == ErrorClass.Integration && f.httpStatus.None? && f.tags.None?
    ensures f.message == "Evaluating datasource step \"" + ds.name + "\" failed: " + cause.message
  {
    Raise(ErrorClass.Integration, "Evaluating datasource step \"" + ds.name + "\" failed: " + cause.message)
  }

  /** The contexts and the clone once the auth bindings are in place. */
  function Bound(ds: DatasourceDto, context: Context, redactedContext: Context, environment: string,
                 authContexts: AuthContexts, svc: Services): (p: Prepared)
    ensures p.config == p.redactedConfig && p.config == ChosenConfig(ds, environment, svc.lib)
  {
    var cfg := ChosenConfig(ds, environment, svc.lib);
    var bindings := MakeAuthBindings(authContexts, cfg, ds.id, svc.authIdOf);
    Prepared(cfg, cfg, BindAuth(context, bindings, false), BindAuth(redactedContext, bindings, true))
  }

  /** `redactAndEvaluateDatasourceConfiguration`, as a whole. */
  function RedactAndEvaluation(action: Action, ds: DatasourceDto, context: Context, redactedContext: Context,
                               environment: string, authContexts: AuthContexts, rc: RecursionContext, svc: Services)
    : (r: Result<Evaluated>)
  {
    var p0 := Bound(ds, context, redactedContext, environment, authContexts, svc);
    var staged := match AuthSwitch(action, p0, svc)
      case Err(e) => Err(e)
      case Ok(p1) => SheetsOrCheck(action, ds, p1, svc);
    match staged
    case Err(e) => Err(StepFailure(ds, e))
    case Ok(p2) =>
      match EvaluateBoth(p2, environment, rc, svc)
      case Err(e) => Err(StepFailure(ds, e))
      case Ok(ev) => Ok(ev)
  }

  /** Every failure of the evaluation is an `IntegrationError` naming the
      datasource. */
  lemma EvaluationFailureWrapped(action: Action, ds: DatasourceDto, context: Context, redactedContext: Context,
                                 environment: string, authContexts: AuthContexts, rc: RecursionContext, svc: Services)
    ensures var r := RedactAndEvaluation(action, ds, context, redactedContext, environment, authContexts, rc, svc);
      r.Err? ==> exists cause :: r.fault == StepFailure(ds, cause)
  {
  }

  /** The auth bindings go into both contexts under the same names, so
      contexts that bound the same keys still do, and no output changes. */
  lemma BoundParity(ds: DatasourceDto, context: Context, redactedContext: Context, environment: string,
                    authContexts: AuthContexts, svc: Services)
    requires SameKeys(context, redactedContext)
    ensures var p := Bound(ds, context, redactedContext, environment, authContexts, svc);
      SameKeys(p.context, p.redactedContext) &&
      p.context.outputs == context.outputs && p.redactedContext.outputs == redactedContext.outputs
  {
  }

  /** The token step binds the same keys on both sides. */
  lemma AuthSwitchParity(action: Action, p: Prepared, svc: Services)
    requires SameKeys(p.context, p.redactedContext)
    ensures AuthSwitch(action, p, svc).Ok? ==>
      SameKeys(AuthSwitch(action, p, svc).value.context, AuthSwitch(action, p, svc).value.redactedContext)
  {
  }

  /** The Google Sheets token reaches the real configuration only: the
      redacted configuration keeps the clone taken before it was fetched. */
  lemma SheetsTokenRealOnly(action: Action, ds: DatasourceDto, p: Prepared, svc: Services)
    requires action.pluginId == svc.lib.googleSheetsPluginId && p.config.authType == Some(SheetsOAuth2Code)
    ensures var r := SheetsOrCheck(action, ds, p, svc);
      r.Ok? ==>
        r.value.redactedConfig == p.redactedConfig && Given(r.value.config.authConfig.authToken) &&
        r.value.config.authConfig.authToken == RefreshedToken(p.config.authConfig, ds, svc.refreshThreshold, svc.store,
          svc.uiBase, svc.server, svc.codeEndpoint, svc.userCache, svc.now).value
  {
  }

  /** The `switch` on the auth type, on the configurations and contexts
      being built. */
  method ApplyAuthType(action: Action, p: Prepared, svc: Services) returns (r: Result<Prepared>)
    ensures r == AuthSwitch(action, p, svc)
  {
    ghost var expected := AuthSwitch(action, p, svc);
    var datasourceConfiguration, redactedDatasourceConfiguration := p.config, p.redactedConfig;
    var datasourceContext, redactedDatasourceContext := p.context, p.redactedContext;
    var authType := datasourceConfiguration.authType;
    var authConfig := datasourceConfiguration.authConfig;
    if authType == Some(RestOAuth2ClientCreds) {
      if !TokenBound(datasourceContext, "oauth") {
        var token, _ := GetOauthClientCredsToken(authConfig, action.name, svc.tokenEndpoint, svc.now);
        if token.Err? {
          assert expected == Err(token.fault);
          return Err(token.fault);
        }
        datasourceContext := AddGlobal(datasourceContext, "oauth", Obj(map["token" := Str(token.value)]));
        redactedDatasourceContext := AddGlobal(redactedDatasourceContext, "oauth", Obj(map["token" := Str(REDACTED_TOKEN)]));
        assert expected == Ok(WithToken(p, "oauth", token.value));
      } else {
        assert expected == Ok(p);
      }
    } else if authType == Some(RestOAuth2Password) {
      if authConfig.useFixedPasswordCreds && !TokenBound(datasourceContext, "oauth") {
        var stored := svc.store(TokenQuery(Refresh, None, None));
        var token, _, _ := GetOauthPasswordToken(authConfig, action.name, stored, svc.tokenEndpoint, svc.defaultRefreshExpiry);
        if token.Err? {
          assert expected == Err(token.fault);
          return Err(token.fault);
        }
        datasourceContext := AddGlobal(datasourceContext, "oauth", Obj(map["token" := Str(token.value)]));
        redactedDatasourceContext := AddGlobal(redactedDatasourceContext, "oauth", Obj(map["token" := Str(REDACTED_TOKEN)]));
        assert expected == Ok(WithToken(p, "oauth", token.value));
      } else {
        assert expected == Ok(p);
      }
    } else if authType == Some(RestBasic) {
      var token := "";
      if authConfig.shareBasicAuthCreds {
        token := MakeBasicAuthToken(authConfig.username.GetOr(""), authConfig.password.GetOr(""));
      } else if TokenBound(datasourceContext, "_basic") {
        token := JsString(Member(datasourceContext.globals["_basic"], "token"));
      }
      assert token == BasicToken(p);
      datasourceConfiguration := datasourceConfiguration.(
        headers := Some(datasourceConfiguration.headers.GetOr([]) + [Header("Authorization", "Basic " + token)]));
      redactedDatasourceConfiguration := redactedDatasourceConfiguration.(
        headers := Some(redactedDatasourceConfiguration.headers.GetOr([]) + [Header("Authorization", "Basic " + REDACTED_TOKEN)]));
    } else {
      assert expected == Ok(p);
    }
    r := Ok(Prepared(datasourceConfiguration, redactedDatasourceConfiguration, datasourceContext, redactedDatasourceContext));
  }

  /** The Google Sheets token, or the check for a missing binding. */
  method ApplySheetsOrCheck(action: Action, ds: DatasourceDto, p: Prepared, svc: Services) returns (r: Result<Prepared>)
    ensures r == SheetsOrCheck(action, ds, p, svc)
  {
    var datasourceConfiguration := p.config;
    var authType := datasourceConfiguration.authType;
    if action.pluginId == svc.lib.googleSheetsPluginId {
      if authType == Some(SheetsOAuth2Code) {
        var token, _, _ := GetOrRefreshToken(datasourceConfiguration.authConfig, ds, svc.refreshThreshold, svc.store, svc.uiBase,
                                             svc.server, svc.codeEndpoint, svc.userCache, svc.now);
        if token.Err? {
          return Err(token.fault);
        }
        if !Given(token.value) {
          return Err(Raise(ErrorClass.Integration, TOKEN_NOT_FOUND));
        }
        datasourceConfiguration := datasourceConfiguration.(authConfig := datasourceConfiguration.authConfig.(authToken := token.value));
      }
    } else if authType.Some? {
      BindingTablesAgree(authType.value, datasourceConfiguration.authConfig);
      if ExpectsBindings(authType.value, datasourceConfiguration.authConfig) == Some(true) &&
         !HasBinding(p.context, ApiAuthBindings(authType.value).value) {
        return Err(Raise(ErrorClass.Integration, TOKEN_NOT_FOUND));
      }
    }
    r := Ok(p.(config := datasourceConfiguration));
  }

  /** The loop over the two configuration/context pairs. */
  method EvaluateConfigs(p: Prepared, environment: string, rc: RecursionContext, svc: Services) returns (r: Result<Evaluated>)
    ensures r == EvaluateBoth(p, environment, rc, svc)
  {
    var config, _ := EvaluateDatasource(p.context, p.config, environment, true, rc, svc.lib, svc.workflows, svc.resolve);
    if config.Err? {
      return Err(config.fault);
    }
    var redactedConfig, _ := EvaluateDatasource(p.redactedContext, p.redactedConfig, environment, true, rc,
                                                svc.lib, svc.workflows, svc.resolve);
    if redactedConfig.Err? {
      return Err(redactedConfig.fault);
    }
    r := Ok(Evaluated(config.value, redactedConfig.value));
  }

  /** `redactAndEvaluateDatasourceConfiguration`: every failure of a stage
      is rethrown as `StepFailure`. */
  method RedactAndEvaluate(action: Action, ds: DatasourceDto, initialContext: Context, redactedInitialContext: Context,
                           environment: string, authContexts: AuthContexts, rc: RecursionContext, svc: Services)
    returns (r: Result<Evaluated>)
    ensures r == RedactAndEvaluation(action, ds, initialContext, redactedInitialContext, environment, authContexts, rc, svc)
  {
    ghost var expected := RedactAndEvaluation(action, ds, initialContext, redactedInitialContext, environment, authContexts, rc, svc);
    var datasourceConfiguration := ChosenConfig(ds, environment, svc.lib);
    var authBindings := MakeAuthBindings(authContexts, datasourceConfiguration, ds.id, svc.authIdOf);
    var datasourceContext, redactedDatasourceContext := BindAuthVariables(initialContext, redactedInitialContext, authBindings);
    var redactedDatasourceConfiguration := datasourceConfiguration;
    var prepared := Prepared(datasourceConfiguration, redactedDatasourceConfiguration, datasourceContext, redactedDatasourceContext);
    assert prepared == Bound(ds, initialContext, redactedInitialContext, environment, authContexts, svc);
    var staged := ApplyAuthType(action, prepared, svc);
    if staged.Err? {
      assert expected == Err(StepFailure(ds, staged.fault));
      return Err(StepFailure(ds, staged.fault));
    }
    staged := ApplySheetsOrCheck(action, ds, staged.value, svc);
    if staged.Err? {
      assert expected == Err(StepFailure(ds, staged.fault));
      return Err(StepFailure(ds, staged.fault));
    }
    var evaluated := EvaluateConfigs(staged.value, environment, rc, svc);
    if evaluated.Err? {
      assert expected == Err(StepFailure(ds, evaluated.fault));
      return Err(StepFailure(ds, evaluated.fault));
    }
    assert expected == evaluated;
    r := evaluated;
  }
}
