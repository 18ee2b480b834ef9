/** Evaluation of a datasource configuration before a step runs
    (src/api/datasourceEvaluation.ts): static binding resolution, or a
    dependent workflow run first whose response is bound into a copy of the
    context; and the auth bindings an auth context contributes. The nested
    fetch and run, the response formatting and binding resolution are
    oracles, gathered in `Workflows` and `Resolver`. */
module DatasourceEval {
  import opened Base
  import opened Records
  import opened Model
  import opened ErrorTags
  import opened ApiAuth

  /** The nested run of a dependent workflow: `fetchApi`, `executeApiFunc`
      and `formatExecutionOutput`. */
  datatype Workflows = Workflows(
    fetch: FetchRequest -> Result<ApiDefinition>,
    execute: (ApiDefinition, RecursionContext) -> Result<ApiExecutionResponse>,
    format: ApiExecutionResponse -> Value)

  /** `resolveConfigurationRecursive`: the configuration with its bindings
      resolved against a context, or the error resolution throws. */
  type Resolver = (Context, DsConfig) -> Result<DsConfig>

  const NESTED_DYNAMIC_MESSAGE := "Cannot reference a workflow that uses an integration that fetches credentials dynamically"
  const DEPENDENT_WORKFLOW_PREFIX := "Error running dependent workflow: "

  /** The tags every evaluation error leaves with. */
  function EnvTag(environment: string): (t: Tags)
    ensures "environment" in t && t["environment"] == environment
  {
    map["environment" := environment]
  }

  /** An evaluation that failed carries the environment tag. */
  predicate EnvTagged(r: Result<DsConfig>, environment: string) {
    r.Err? ==> r.fault.tags.Some? && "environment" in r.fault.tags.value && r.fault.tags.value["environment"] == environment
  }

  function Tagged(r: Result<DsConfig>, environment: string): (t: Result<DsConfig>)
    ensures EnvTagged(t, environment)
    ensures r.Ok? ==> t == r
    ensures r.Err? ==> t == Err(TagFault(r.fault, EnvTag(environment)))
  {
    match r
    case Ok(c) => Ok(c)
    case Err(f) => Err(TagFault(f, EnvTag(environment)))
  }

  /** The deployed dependent workflow is fetched, for the environment being
      run. */
  function DependentFetch(cfg: DsConfig, environment: string, isWorkflow: bool, lib: LibraryConstants): (q: FetchRequest)
    ensures q.apiId == cfg.dynamicWorkflowId && q.isPublished == lib.publishedViewMode
    ensures q.environment == environment && q.isWorkflow == isWorkflow
  {
    FetchRequest(cfg.dynamicWorkflowId, lib.publishedViewMode, environment, isWorkflow)
  }

  /** The global the dependent workflow's response is bound under: the
      workflow's name, or `error_workflow` when the definition has none. */
  function WorkflowName(apiDef: ApiDefinition): (name: string)
    ensures apiDef.api.Some? && apiDef.api.value.actions.Some? ==> name == apiDef.api.value.actions.value.name
    ensures !(apiDef.api.Some? && apiDef.api.value.actions.Some?) ==> name == "error_workflow"
  {
    if apiDef.api.Some? && apiDef.api.value.actions.Some? then apiDef.api.value.actions.value.name
    else "error_workflow"
  }

  /** The error of the first output, in order, with a non-empty one. */
  function FirstOutputError(outputs: seq<StepOutput>): (r: Option<string>)
    ensures r.None? <==> forall i :: 0 <= i < |outputs| ==> outputs[i].error == ""
    ensures r.Some? ==>
      exists i :: 0 <= i < |outputs| && outputs[i].error == r.value && r.value != "" &&
        forall j :: 0 <= j < i ==> outputs[j].error == ""
    decreases |outputs|
  {
    if |outputs| == 0 then None
    else if outputs[0].error != "" then Some(outputs[0].error)
    else
      var rest := FirstOutputError(outputs[1..]);
      assert forall i :: 1 <= i < |outputs| ==> outputs[i] == outputs[1..][i - 1];
      if rest.Some? then
        var i :| 0 <= i < |outputs[1..]| && outputs[1..][i].error == rest.value && rest.value != "" &&
          forall j :: 0 <= j < i ==> outputs[1..][j].error == "";
        assert outputs[i + 1] == outputs[1..][i];
        rest
      else rest
  }

  /** The `forEach` over the dependent run's outputs, stopping at the first
      output with an error. */
  method CheckOutputs(outputs: seq<StepOutput>) returns (r: Option<string>)
    ensures r == FirstOutputError(outputs)
  {
    var i := 0;
    while i < |outputs|
      invariant 0 <= i <= |outputs|
      invariant FirstOutputError(outputs[i..]) == FirstOutputError(outputs)
    {
      if outputs[i].error != "" {
        return Some(outputs[i].error);
      }
      assert outputs[i..][1..] == outputs[i + 1..];
      i := i + 1;
    }
    assert outputs[i..] == [];
    r := None;
  }

  /** `evaluateDynamicDatasource`. Inside the evaluation of another dynamic
      datasource it fails at once. Otherwise the dependent workflow is
      fetched and run with the same path and `isEvaluatingDatasource` set;
      an output error of that run fails the evaluation; otherwise its
      formatted response is bound, under the workflow's name, into a copy
      of the context, and the configuration is resolved against that copy.
      Every error is tagged with the environment. */
  function DynamicEvaluation(initial: Context, cfg: DsConfig, environment: string, isWorkflow: bool,
                             rc: RecursionContext, lib: LibraryConstants, wf: Workflows, resolve: Resolver): (r: Result<DsConfig>)
    ensures EnvTagged(r, environment)
  {
    if rc.isEvaluatingDatasource then
      Tagged(Err(Raise(ErrorClass.Integration, NESTED_DYNAMIC_MESSAGE)), environment)
    else match wf.fetch(DependentFetch(cfg, environment, isWorkflow, lib))
      case Err(e) => Tagged(Err(e), environment)
      case Ok(apiDef) =>
        match wf.execute(apiDef, RecursionContext(rc.path, true))
        case Err(e) => Tagged(Err(e), environment)
        case Ok(resp) =>
          match FirstOutputError(Values(resp.context.outputs))
          case Some(m) => Tagged(Err(Raise(ErrorClass.Integration, DEPENDENT_WORKFLOW_PREFIX + m)), environment)
          case None =>
            var bound := AddGlobal(initial, WorkflowName(apiDef), Obj(map["response" := wf.format(resp)]));
            Tagged(resolve(bound, cfg), environment)
  }

  /** A nested dynamic evaluation fails with the same tagged error whatever
      the oracles would answer: nothing is fetched or run. */
  lemma NestedDynamicRejected(initial: Context, cfg: DsConfig, environment: string, isWorkflow: bool,
                              rc: RecursionContext, lib: LibraryConstants, wf: Workflows, resolve: Resolver)
    requires rc.isEvaluatingDatasource
    ensures var r := DynamicEvaluation(initial, cfg, environment, isWorkflow, rc, lib, wf, resolve);
      r.Err? && r.fault.cls == ErrorClass.Integration && r.fault.message == NESTED_DYNAMIC_MESSAGE &&
      r.fault.tags == Some(EnvTag(environment))
    ensures forall wf2: Workflows, resolve2: Resolver ::
      DynamicEvaluation(initial, cfg, environment, isWorkflow, rc, lib, wf2, resolve2)
        == DynamicEvaluation(initial, cfg, environment, isWorkflow, rc, lib, wf, resolve)
  {
  }

  /** The evaluation looks at the oracles only at the one fetch, the nested
      run with `isEvaluatingDatasource` set on the same path, the formatting
      of that run and the resolution against the copy: oracles that agree
      there give the same result. */
  lemma DynamicEvaluationCalls(initial: Context, cfg: DsConfig, environment: string, isWorkflow: bool,
                               rc: RecursionContext, lib: LibraryConstants, wf: Workflows, wf2: Workflows,
                               resolve: Resolver, resolve2: Resolver)
    requires !rc.isEvaluatingDatasource
    requires wf2.fetch(DependentFetch(cfg, environment, isWorkflow, lib)) == wf.fetch(DependentFetch(cfg, environment, isWorkflow, lib))
    requires forall d :: wf2.execute(d, RecursionContext(rc.path, true)) == wf.execute(d, RecursionContext(rc.path, true))
    requires wf2.format == wf.format
    requires forall c :: resolve2(c, cfg) == resolve(c, cfg)
    ensures DynamicEvaluation(initial, cfg, environment, isWorkflow, rc, lib, wf2, resolve2)
      == DynamicEvaluation(initial, cfg, environment, isWorkflow, rc, lib, wf, resolve)
  {
  }

  /** When the dependent run succeeds without output errors, the result is
      the resolution against the context extended by exactly one binding. */
  lemma DynamicEvaluationBinds(initial: Context, cfg: DsConfig, environment: string, isWorkflow: bool,
                               rc: RecursionContext, lib: LibraryConstants, wf: Workflows, resolve: Resolver)
    requires !rc.isEvaluatingDatasource
    requires wf.fetch(DependentFetch(cfg, environment, isWorkflow, lib)).Ok?
    requires var apiDef := wf.fetch(DependentFetch(cfg, environment, isWorkflow, lib)).value;
      wf.execute(apiDef, RecursionContext(rc.path, true)).Ok? &&
      forall o :: o in Values(wf.execute(apiDef, RecursionContext(rc.path, true)).value.context.outputs) ==> o.error == ""
    ensures var apiDef := wf.fetch(DependentFetch(cfg, environment, isWorkflow, lib)).value;
      var resp := wf.execute(apiDef, RecursionContext(rc.path, true)).value;
      exists bound: Context ::
        bound.outputs == initial.outputs && bound.error == initial.error &&
        bound.globals.Keys == initial.globals.Keys + {WorkflowName(apiDef)} &&
        bound.globals[WorkflowName(apiDef)] == Obj(map["response" := wf.format(resp)]) &&
        (forall k :: k in initial.globals && k != WorkflowName(apiDef) ==> bound.globals[k] == initial.globals[k]) &&
        DynamicEvaluation(initial, cfg, environment, isWorkflow, rc, lib, wf, resolve) == Tagged(resolve(bound, cfg), environment)
  {
    var apiDef := wf.fetch(DependentFetch(cfg, environment, isWorkflow, lib)).value;
    var resp := wf.execute(apiDef, RecursionContext(rc.path, true)).value;
    var outputs := Values(resp.context.outputs);
    assert forall i :: 0 <= i < |outputs| ==> outputs[i] in outputs;
    var bound := AddGlobal(initial, WorkflowName(apiDef), Obj(map["response" := wf.format(resp)]));
    assert DynamicEvaluation(initial, cfg, environment, isWorkflow, rc, lib, wf, resolve) == Tagged(resolve(bound, cfg), environment);
  }

  /** An output error of the dependent run is classified: the evaluation
      fails with an `IntegrationError` naming the first such error, tagged
      with the environment, and without an HTTP status. */
  lemma DependentOutputErrorClassified(initial: Context, cfg: DsConfig, environment: string, isWorkflow: bool,
                                       rc: RecursionContext, lib: LibraryConstants, wf: Workflows, resolve: Resolver,
                                       m: string)
    requires !rc.isEvaluatingDatasource
    requires wf.fetch(DependentFetch(cfg, environment, isWorkflow, lib)).Ok?
    requires var apiDef := wf.fetch(DependentFetch(cfg, environment, isWorkflow, lib)).value;
      wf.execute(apiDef, RecursionContext(rc.path, true)).Ok? &&
      FirstOutputError(Values(wf.execute(apiDef, RecursionContext(rc.path, true)).value.context.outputs)) == Some(m)
    ensures var r := DynamicEvaluation(initial, cfg, environment, isWorkflow, rc, lib, wf, resolve);
      r.Err? && r.fault.cls == ErrorClass.Integration && r.fault.message == DEPENDENT_WORKFLOW_PREFIX + m &&
      r.fault.httpStatus.None? && r.fault.tags == Some(EnvTag(environment))
  {
  }

  /** A failed fetch of the dependent workflow, or a failed run of it, is
      rethrown as it was, with only the environment tag added: its class,
      its message and its status are kept. */
  lemma DependentFailuresKeepClass(initial: Context, cfg: DsConfig, environment: string, isWorkflow: bool,
                                   rc: RecursionContext, lib: LibraryConstants, wf: Workflows, resolve: Resolver)
    requires !rc.isEvaluatingDatasource
    ensures var fetched := wf.fetch(DependentFetch(cfg, environment, isWorkflow, lib));
      fetched.Err? ==>
        DynamicEvaluation(initial, cfg, environment, isWorkflow, rc, lib, wf, resolve) == Err(TagFault(fetched.fault, EnvTag(environment)))
    ensures var fetched := wf.fetch(DependentFetch(cfg, environment, isWorkflow, lib));
      fetched.Ok? && wf.execute(fetched.value, RecursionContext(rc.path, true)).Err? ==>
        DynamicEvaluation(initial, cfg, environment, isWorkflow, rc, lib, wf, resolve)
          == Err(TagFault(wf.execute(fetched.value, RecursionContext(rc.path, true)).fault, EnvTag(environment)))
  {
  }

  /** `evaluateDynamicDatasource`, with the fetch it issues: none when it
      is nested in another dynamic evaluation. */
  method EvaluateDynamicDatasource(initial: Context, cfg: DsConfig, environment: string, isWorkflow: bool,
                                   rc: RecursionContext, lib: LibraryConstants, wf: Workflows, resolve: Resolver)
    returns (r: Result<DsConfig>, fetched: seq<FetchRequest>)
    ensures r == DynamicEvaluation(initial, cfg, environment, isWorkflow, rc, lib, wf, resolve)
    ensures fetched == if rc.isEvaluatingDatasource then [] else [DependentFetch(cfg, environment, isWorkflow, lib)]
  {
    fetched := [];
    if rc.isEvaluatingDatasource {
      return Tagged(Err(Raise(ErrorClass.Integration, NESTED_DYNAMIC_MESSAGE)), environment), fetched;
    }
    var datasourceContext := initial;
    var request := DependentFetch(cfg, environment, isWorkflow, lib);
    fetched := [request];
    var apiDef := wf.fetch(request);
    if apiDef.Err? {
      return Tagged(Err(apiDef.fault), environment), fetched;
    }
    var apiResponse := wf.execute(apiDef.value, RecursionContext(rc.path, true));
    if apiResponse.Err? {
      return Tagged(Err(apiResponse.fault), environment), fetched;
    }
    var outputError := CheckOutputs(Values(apiResponse.value.context.outputs));
    if outputError.Some? {
      return Tagged(Err(Raise(ErrorClass.Integration, DEPENDENT_WORKFLOW_PREFIX + outputError.value)), environment), fetched;
    }
    datasourceContext := AddGlobal(datasourceContext, WorkflowName(apiDef.value),
                                   Obj(map["response" := wf.format(apiResponse.value)]));
    r := Tagged(resolve(datasourceContext, cfg), environment);
  }

  /** `evaluateDatasource`: a configuration with a dependent workflow id is
      evaluated dynamically, any other is resolved against the context as
      it is; errors are tagged with the environment (a second time on the
      dynamic path). */
  function DatasourceEvaluation(ctx: Context, cfg: DsConfig, environment: string, isWorkflow: bool,
                                rc: RecursionContext, lib: LibraryConstants, wf: Workflows, resolve: Resolver): (r: Result<DsConfig>)
    ensures EnvTagged(r, environment)
    ensures cfg.dynamicWorkflowId == "" ==> r == Tagged(resolve(ctx, cfg), environment)
  {
    if cfg.dynamicWorkflowId != "" then
      Tagged(DynamicEvaluation(ctx, cfg, environment, isWorkflow, rc, lib, wf, resolve), environment)
    else Tagged(resolve(ctx, cfg), environment)
  }

  /** Tagging twice is tagging once: the dynamic path's result is the
      dynamic evaluation's own, since its errors already carry the tag. */
  lemma DynamicTaggedOnce(ctx: Context, cfg: DsConfig, environment: string, isWorkflow: bool,
                          rc: RecursionContext, lib: LibraryConstants, wf: Workflows, resolve: Resolver)
    requires cfg.dynamicWorkflowId != ""
    ensures DatasourceEvaluation(ctx, cfg, environment, isWorkflow, rc, lib, wf, resolve)
      == DynamicEvaluation(ctx, cfg, environment, isWorkflow, rc, lib, wf, resolve)
  {
    var d := DynamicEvaluation(ctx, cfg, environment, isWorkflow, rc, lib, wf, resolve);
    if d.Err? {
      var m := d.fault.tags.value;
      assert m + EnvTag(environment) == m;
    }
  }

  /** A static configuration never reaches a dependent workflow: the
      result does not depend on the workflow oracles. */
  lemma StaticEvaluationLocal(ctx: Context, cfg: DsConfig, environment: string, isWorkflow: bool,
                              rc: RecursionContext, lib: LibraryConstants, wf: Workflows, wf2: Workflows, resolve: Resolver)
    requires cfg.dynamicWorkflowId == ""
    ensures DatasourceEvaluation(ctx, cfg, environment, isWorkflow, rc, lib, wf2, resolve)
      == DatasourceEvaluation(ctx, cfg, environment, isWorkflow, rc, lib, wf, resolve)
  {
  }

  /** `evaluateDatasource`, with the fetches it issues. */
  method EvaluateDatasource(ctx: Context, cfg: DsConfig, environment: string, isWorkflow: bool,
                            rc: RecursionContext, lib: LibraryConstants, wf: Workflows, resolve: Resolver)
    returns (r: Result<DsConfig>, fetched: seq<FetchRequest>)
    ensures r == DatasourceEvaluation(ctx, cfg, environment, isWorkflow, rc, lib, wf, resolve)
    ensures fetched == if cfg.dynamicWorkflowId == "" || rc.isEvaluatingDatasource then []
      else [DependentFetch(cfg, environment, isWorkflow, lib)]
  {
    if cfg.dynamicWorkflowId != "" {
      r, fetched := EvaluateDynamicDatasource(ctx, cfg, environment, isWorkflow, rc, lib, wf, resolve);
      r := Tagged(r, environment);
      return;
    }
    fetched := [];
    r := Tagged(resolve(ctx, cfg), environment);
  }

  /** `getAuthIdFromConfig`: which auth context a datasource reads. */
  type AuthIdOf = (string, DsConfig) -> string

  /** `makeAuthBindings`: the datasource's auth variables, bound under the
      auth type's binding name -- nothing when the datasource has no auth
      context, when its auth type is absent or when the binding name is
      empty. */
  function MakeAuthBindings(authContexts: AuthContexts, cfg: DsConfig, datasourceId: string, authIdOf: AuthIdOf)
    : (r: Record<seq<AuthVariable>>)
    ensures |r| <= 1
    ensures |r| == 1 <==>
      authIdOf(datasourceId, cfg) in authContexts && cfg.authType.Some? &&
      ApiAuthBindings(cfg.authType.value) in {Some("_basic"), Some("firebase"), Some("oauth")}
    ensures |r| == 1 ==>
      r[0] == (ApiAuthBindings(cfg.authType.value).value, authContexts[authIdOf(datasourceId, cfg)])
  {
    var authId := authIdOf(datasourceId, cfg);
    if authId !in authContexts then []
    else
      var authKey := if cfg.authType.Some? then ApiAuthBindings(cfg.authType.value) else None;
      if authKey.Some? && authKey.value != "" then [(authKey.value, authContexts[authId])] else []
  }
}
