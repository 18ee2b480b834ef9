/** `ApiExecutor` (src/api/ApiExecutor.ts): `execute` builds the real and
    the redacted initial context of a run and hands them to
    `executeAction`, which discovers the flow, runs it and returns the
    redacted context. */
module Executor {
  import opened Base
  import opened Records
  import opened Model
  import opened ErrorTags
  import opened ApiEnv
  import opened ExecutorDatasource
  import opened ExecutorDiscovery
  import opened ExecutorSteps

  /** How `executeAction` ends: with a context, by throwing, or never (the
      discovery loop does not advance). */
  datatype Completion = Returned(context: Context) | Raised(fault: Fault) | NoReturn

  /** `executeAction`, with at most `fuel` iterations of the discovery loop.
      Only a trigger that cannot be found throws, tagged with the API id;
      every later fault comes back as an error context. */
  function ExecuteActionOf(run: Run, apiId: string, fuel: nat): (r: Completion)
    ensures r.Raised? <==> ValidateAndGetAction(run.details.triggerActionId, run.details).Err?
    ensures r.Raised? ==> r.fault == TagFault(ValidateAndGetAction(run.details.triggerActionId, run.details).fault, map["apiId" := apiId])
    ensures ValidateAndGetAction(run.details.triggerActionId, run.details) == Ok(None) ==> r == Returned(run.redactedContext)
  {
    match ValidateAndGetAction(run.details.triggerActionId, run.details)
    case Err(e) => Raised(TagFault(e, map["apiId" := apiId]))
    case Ok(None) => Returned(run.redactedContext)
    case Ok(Some(trigger)) =>
      match Discover(trigger, Start, fuel, run, EvaluationOf(run))
      case Diverged => NoReturn
      case Failed(c) => Returned(c)
      case Found(w) =>
        match RunAll(w.flow, w.cache, run.context, run.redactedContext, run)
        case Fatal(c) => Returned(c)
        case Ran(_, red) => Returned(red)
  }

  /** What a completed pass returns is the redacted side of the run, kept in
      step with the real side. */
  lemma ExecuteActionRedacted(run: Run, apiId: string, fuel: nat, trigger: Action)
    requires InStep(run.context, run.redactedContext)
    requires ValidateAndGetAction(run.details.triggerActionId, run.details) == Ok(Some(trigger))
    requires Discover(trigger, Start, fuel, run, EvaluationOf(run)).Found?
    ensures var w := Discover(trigger, Start, fuel, run, EvaluationOf(run)).walk;
      var ran := RunAll(w.flow, w.cache, run.context, run.redactedContext, run);
      ran.Ran? ==> ExecuteActionOf(run, apiId, fuel) == Returned(ran.redactedContext) && InStep(ran.context, ran.redactedContext)
  {
    var w := Discover(trigger, Start, fuel, run, EvaluationOf(run)).walk;
    RunInStep(w.flow, w.cache, run.context, run.redactedContext, run);
  }

  /** The globals of the redacted side after a pass: only the two step
      globals are added or replaced. */
  lemma {:induction false} RunKeepsGlobals(flow: seq<Action>, cache: map<string, Evaluated>, ctx: Context, red: Context,
                                           run: Run, k: string)
    requires k != "$fileServerUrl" && k != "$flagWorker"
    requires RunAll(flow, cache, ctx, red, run).Ran?
    ensures var d := RunAll(flow, cache, ctx, red, run).redactedContext;
      (k in d.globals <==> k in red.globals) && (k in red.globals ==> d.globals[k] == red.globals[k])
    decreases |flow|
  {
    if |flow| > 0 {
      var s := StepOf(flow[0], cache, ctx, red, run);
      assert k in s.redactedContext.globals <==> k in red.globals;
      assert k in red.globals ==> s.redactedContext.globals[k] == red.globals[k];
      if s.Continue? {
        RunKeepsGlobals(flow[1..], cache, s.context, s.redactedContext, run, k);
      }
    }
  }

  /** One `executionParams` entry. */
  datatype ExecutionParam = ExecutionParam(key: string, value: Value)

  /** `bindingPathToValue`: each parameter's value under its key, written
      in order. */
  function BindingPaths(params: seq<ExecutionParam>): (r: Record<Value>)
    ensures UniqueKeys(r)
    decreases |params|
  {
    if |params| == 0 then []
    else
      var n := |params| - 1;
      var r := BindingPaths(params[..n]);
      PutUnique(r, params[n].key, params[n].value);
      Put(r, params[n].key, params[n].value)
  }

  /** Exactly the parameter keys are present. */
  lemma {:induction false} BindingPathsKeys(params: seq<ExecutionParam>, k: string)
    ensures (exists i :: 0 <= i < |params| && params[i].key == k) <==> Get(BindingPaths(params), k).Some?
    decreases |params|
  {
    if |params| > 0 {
      var n := |params| - 1;
      var r := BindingPaths(params[..n]);
      assert BindingPaths(params) == Put(r, params[n].key, params[n].value);
      BindingPathsKeys(params[..n], k);
      if params[n].key == k {
        PutGet(r, k, params[n].value);
      } else {
        PutGetOther(r, params[n].key, params[n].value, k);
        if exists i :: 0 <= i < |params| && params[i].key == k {
          var i :| 0 <= i < |params| && params[i].key == k;
          assert params[..n][i] == params[i];
        }
      }
    }
  }

  /** A key holds the value of the last parameter with that key. */
  lemma {:induction false} BindingPathsLast(params: seq<ExecutionParam>, i: nat)
    requires i < |params|
    requires forall j :: i < j < |params| ==> params[j].key != params[i].key
    ensures Get(BindingPaths(params), params[i].key) == Some(params[i].value)
    decreases |params|
  {
    var n := |params| - 1;
    var r := BindingPaths(params[..n]);
    assert BindingPaths(params) == Put(r, params[n].key, params[n].value);
    if i == n {
      PutGet(r, params[i].key, params[n].value);
    } else {
      assert params[n].key != params[i].key;
      assert forall j :: i < j < n ==> params[..n][j] == params[j];
      BindingPathsLast(params[..n], i);
      assert params[..n][i] == params[i];
      PutGetOther(r, params[n].key, params[n].value, params[i].key);
    }
  }

  /** The `forEach` over the parameters. */
  method CollectBindingPaths(params: seq<ExecutionParam>) returns (bindingPathToValue: Record<Value>)
    ensures bindingPathToValue == BindingPaths(params)
  {
    bindingPathToValue := [];
    for i := 0 to |params|
      invariant bindingPathToValue == BindingPaths(params[..i])
    {
      assert params[..i + 1][..i] == params[..i];
      bindingPathToValue := Put(bindingPathToValue, params[i].key, params[i].value);
    }
    assert params[..|params|] == params;
  }

  /** The variables `buildContextFromBindings` makes from the binding paths;
      the builder is outside this model. */
  type ContextBuilder = Record<Value> -> seq<(string, Value)>

  /** Each variable added as a global, in order. */
  function AddGlobals(c: Context, vars: seq<(string, Value)>): (r: Context)
    ensures r.globals.Keys == c.globals.Keys + set v | v in vars :: v.0
    ensures r.outputs == c.outputs && r.error == c.error && r.errorContext == c.errorContext
    decreases |vars|
  {
    if |vars| == 0 then c
    else
      var n := |vars| - 1;
      assert forall v :: v in vars <==> v in vars[..n] || v == vars[n];
      AddGlobal(AddGlobals(c, vars[..n]), vars[n].0, vars[n].1)
  }

  /** The `forEach` over the built variables, on both contexts. */
  method AddVariables(ctx: Context, red: Context, vars: seq<(string, Value)>) returns (ctx': Context, red': Context)
    ensures ctx' == AddGlobals(ctx, vars) && red' == AddGlobals(red, vars)
  {
    ctx', red' := ctx, red;
    for i := 0 to |vars|
      invariant ctx' == AddGlobals(ctx, vars[..i]) && red' == AddGlobals(red, vars[..i])
    {
      assert vars[..i + 1][..i] == vars[..i];
      ctx' := AddGlobal(ctx', vars[i].0, vars[i].1);
      red' := AddGlobal(red', vars[i].0, vars[i].1);
    }
    assert vars[..|vars|] == vars;
  }

  /** `addGlobalsOverride(Global.from(apiDef.global))`: every API global is
      written over the context's. */
  function WithApiGlobals(c: Context, global: map<string, Value>): (r: Context)
    ensures r.globals.Keys == c.globals.Keys + global.Keys
    ensures forall k :: k in global ==> r.globals[k] == global[k]
    ensures forall k :: k in c.globals && k !in global ==> r.globals[k] == c.globals[k]
    ensures r.outputs == c.outputs && r.error == c.error && r.errorContext == c.errorContext
  {
    c.(globals := c.globals + global)
  }

  /** What the agent brings to a run: the outward services, the step
      runner, its settings, the context builder, and the configured
      application variables and secrets. */
  datatype Agent = Agent(
    svc: Services,
    runStep: StepCall -> Result<StepOutput>,
    fileServerUrl: string,
    workerEnabled: bool,
    build: ContextBuilder,
    envJson: map<string, Value>,
    secrets: seq<(string, string)>)

  /** The two initial contexts: the parameters' variables, then `Env`
      (full in the real one, redacted in the other), then the API globals. */
  function InitialContext(global: map<string, Value>, params: seq<ExecutionParam>, agent: Agent, redact: bool): (c: Context)
    ensures c.outputs == [] && c.error == "" && c.errorContext.None?
    ensures APP_ENV_VAR_KEY in c.globals
    ensures APP_ENV_VAR_KEY !in global ==> c.globals[APP_ENV_VAR_KEY] == Obj(WithSecrets(agent.envJson, agent.secrets, redact))
    ensures forall k :: k in global ==> k in c.globals && c.globals[k] == global[k]
  {
    var base := AddGlobals(EmptyContext, agent.build(BindingPaths(params)));
    WithApiGlobals(AddGlobal(base, APP_ENV_VAR_KEY, Obj(WithSecrets(agent.envJson, agent.secrets, redact))), global)
  }

  /** The real and the redacted initial context are in step and differ at
      most in `Env`. */
  lemma InitialInStep(global: map<string, Value>, params: seq<ExecutionParam>, agent: Agent)
    ensures var ctx := InitialContext(global, params, agent, false);
      var red := InitialContext(global, params, agent, true);
      InStep(ctx, red) && forall k :: k in ctx.globals && k != APP_ENV_VAR_KEY ==> ctx.globals[k] == red.globals[k]
  {
  }

  /** The run `execute` hands to `executeAction`. */
  function RunOf(apiDef: ApiDefinition, details: ApiDetails, params: seq<ExecutionParam>, environment: string,
                 authContexts: AuthContexts, rc: RecursionContext, agent: Agent): (run: Run)
    ensures InStep(run.context, run.redactedContext)
    ensures run.details == details && run.datasources == apiDef.datasources && run.environment == environment
  {
    InitialInStep(apiDef.global, params, agent);
    Run(details, apiDef.datasources, InitialContext(apiDef.global, params, agent, false),
        InitialContext(apiDef.global, params, agent, true), environment, authContexts, rc, agent.svc, agent.runStep,
        agent.fileServerUrl, agent.workerEnabled)
  }

  /** How `execute` ends: with a response, by throwing, or never. */
  datatype Execution = Responded(response: ApiExecutionResponse) | Threw(fault: Fault) | Hangs

  /** `execute`. A definition without an API or without actions fails
      before the `try`, with the `TypeError` of reading a property of
      `undefined`; inside it every fault is tagged with the API id and the
      environment. */
  function ExecutionOf(apiDef: ApiDefinition, params: seq<ExecutionParam>, environment: string,
                       authContexts: AuthContexts, rc: RecursionContext, agent: Agent, fuel: nat): (r: Execution)
    ensures apiDef.api.None? ==> r == Threw(Raise(TypeErrorClass, "Cannot read properties of undefined (reading 'actions')"))
    ensures apiDef.api.Some? && apiDef.api.value.actions.None? ==>
      r == Threw(Raise(TypeErrorClass, "Cannot read properties of undefined (reading 'name')"))
    ensures r.Responded? ==> r.response.apiId == apiDef.api.value.id
  {
    match apiDef.api
    case None => Threw(Raise(TypeErrorClass, "Cannot read properties of undefined (reading 'actions')"))
    case Some(api) =>
      match api.actions
      case None => Threw(Raise(TypeErrorClass, "Cannot read properties of undefined (reading 'name')"))
      case Some(details) =>
        match ExecuteActionOf(RunOf(apiDef, details, params, environment, authContexts, rc, agent), api.id, fuel)
        case Returned(c) => Responded(ApiExecutionResponse(api.id, c))
        case Raised(f) => Threw(TagFault(f, map["apiId" := api.id, "environment" := environment]))
        case NoReturn => Hangs
  }

  /** A fault thrown from inside the `try` carries the API id and the
      environment among its tags. */
  lemma ExecutionFaultTagged(apiDef: ApiDefinition, params: seq<ExecutionParam>, environment: string,
                             authContexts: AuthContexts, rc: RecursionContext, agent: Agent, fuel: nat)
    requires apiDef.api.Some? && apiDef.api.value.actions.Some?
    ensures var r := ExecutionOf(apiDef, params, environment, authContexts, rc, agent, fuel);
      r.Threw? ==>
        r.fault.tags.Some? && r.fault.tags.value["apiId"] == apiDef.api.value.id &&
        r.fault.tags.value["environment"] == environment
  {
  }

  /** The response never carries the real application secrets: whenever
      the returned context binds `Env` and the API's globals do not
      replace it, it is the redacted object. */
  lemma ExecutionRedactsEnv(apiDef: ApiDefinition, params: seq<ExecutionParam>, environment: string,
                            authContexts: AuthContexts, rc: RecursionContext, agent: Agent, fuel: nat)
    requires APP_ENV_VAR_KEY !in apiDef.global
    ensures var r := ExecutionOf(apiDef, params, environment, authContexts, rc, agent, fuel);
      r.Responded? && APP_ENV_VAR_KEY in r.response.context.globals ==>
        r.response.context.globals[APP_ENV_VAR_KEY] == Obj(WithSecrets(agent.envJson, agent.secrets, true))
  {
    var r := ExecutionOf(apiDef, params, environment, authContexts, rc, agent, fuel);
    if r.Responded? {
      var api := apiDef.api.value;
      var details := api.actions.value;
      var run := RunOf(apiDef, details, params, environment, authContexts, rc, agent);
      var done := ExecuteActionOf(run, api.id, fuel);
      assert r.response.context == done.context;
      var trigger := ValidateAndGetAction(details.triggerActionId, details);
      if trigger.value.Some? {
        var d := Discover(trigger.value.value, Start, fuel, run, EvaluationOf(run));
        if d.Failed? {
          DiscoverFailure(trigger.value.value, Start, fuel, run, EvaluationOf(run));
        } else {
          var ran := RunAll(d.walk.flow, d.walk.cache, run.context, run.redactedContext, run);
          if ran.Ran? {
            RunKeepsGlobals(d.walk.flow, d.walk.cache, run.context, run.redactedContext, run, APP_ENV_VAR_KEY);
          } else {
            RunFatal(d.walk.flow, d.walk.cache, run.context, run.redactedContext, run);
          }
        }
      }
    }
  }

  datatype ExecuteStatus = Idle | Executing

  /** The executor object; `status` is `EXECUTING` while a run is under
      way. */
  class ApiExecutor {
    var status: ExecuteStatus

    constructor ()
      ensures status == Idle
    {
      status := Idle;
    }

    /** `executeAction`. */
    method ExecuteAction(run: Run, apiId: string, fuel: nat) returns (r: Completion)
      ensures r == ExecuteActionOf(run, apiId, fuel)
    {
      var trigger := ValidateAndGetAction(run.details.triggerActionId, run.details);
      if trigger.Err? {
        return Raised(TagFault(trigger.fault, map["apiId" := apiId]));
      }
      if trigger.value.None? {
        return Returned(run.redactedContext);
      }
      var discovered := DiscoverFlow(trigger.value.value, run, fuel);
      match discovered
      case Diverged => return NoReturn;
      case Failed(c) => return Returned(c);
      case Found(w) =>
        var ran := RunSteps(w.flow, w.cache, run);
        match ran
        case Fatal(c) => return Returned(c);
        case Ran(_, red) => return Returned(red);
    }

    /** `execute`: the status is reset when the `try` is left, and stays
        `EXECUTING` when the definition fails before it, or when the run
        never ends. */
    method Execute(apiDef: ApiDefinition, params: seq<ExecutionParam>, environment: string,
                   authContexts: AuthContexts, rc: RecursionContext, agent: Agent, fuel: nat) returns (r: Execution)
      modifies this
      ensures r == ExecutionOf(apiDef, params, environment, authContexts, rc, agent, fuel)
      ensures status == if apiDef.api.None? || apiDef.api.value.actions.None? || r.Hangs? then Executing else Idle
    {
      status := Executing;
      if apiDef.api.None? {
        return Threw(Raise(TypeErrorClass, "Cannot read properties of undefined (reading 'actions')"));
      }
      var api := apiDef.api.value;
      if api.actions.None? {
        return Threw(Raise(TypeErrorClass, "Cannot read properties of undefined (reading 'name')"));
      }
      var actions := api.actions.value;
      var bindingPathToValue := CollectBindingPaths(params);
      var initialContext, redactedContext := AddVariables(EmptyContext, EmptyContext, agent.build(bindingPathToValue));
      var env := GetAppEnvVars(agent.envJson, agent.secrets);
      var redactedEnv := GetRedactedAppEnvVars(agent.envJson, agent.secrets);
      initialContext := WithApiGlobals(AddGlobal(initialContext, APP_ENV_VAR_KEY, Obj(env)), apiDef.global);
      redactedContext := WithApiGlobals(AddGlobal(redactedContext, APP_ENV_VAR_KEY, Obj(redactedEnv)), apiDef.global);
      var run := Run(actions, apiDef.datasources, initialContext, redactedContext, environment, authContexts, rc,
                     agent.svc, agent.runStep, agent.fileServerUrl, agent.workerEnabled);
      assert run == RunOf(apiDef, actions, params, environment, authContexts, rc, agent);
      var execContext := ExecuteAction(run, api.id, fuel);
      match execContext {
        case Returned(c) => r := Responded(ApiExecutionResponse(api.id, c));
        case Raised(f) => r := Threw(TagFault(f, map["apiId" := api.id, "environment" := environment]));
        case NoReturn => return Hangs;
      }
      status := Idle;
    }
  }
}
