/** The discovery pass of `executeAction` (src/api/ApiExecutor.ts, lines
    224-292): from the trigger, the chain of steps is followed through each
    step's first child, every step's datasource is evaluated once and
    cached, and any fault becomes a one-output error context. */
module ExecutorDiscovery {
  import opened Base
  import opened Records
  import opened Model
  import opened DatasourceEval
  import opened ExecutorDatasource

  /** What one run of `executeAction` works with: the action chain, the
      datasources, the two initial contexts, the environment, the auth
      contexts, the recursion context and the outward services, together
      with the step runner and the agent settings the execution pass
      reads. */
  datatype Run = Run(
    details: ApiDetails,
    datasources: map<string, DatasourceDto>,
    context: Context,
    redactedContext: Context,
    environment: string,
    authContexts: AuthContexts,
    rc: RecursionContext,
    svc: Services,
    runStep: StepCall -> Result<StepOutput>,
    fileServerUrl: string,
    workerEnabled: bool)

  /** What a step is run with: the environment, both contexts, both
      evaluated configurations, the step's own configuration and plugin,
      and whether it runs in the agent itself (`local`) or on a worker. */
  datatype StepCall = StepCall(
    environment: string,
    context: Context,
    redactedContext: Context,
    config: DsConfig,
    redactedConfig: DsConfig,
    actionConfiguration: Value,
    pluginId: string,
    local: bool)

  /** `validateAndGetAction`: no table is an error, an empty table means
      there is nothing to run, an unknown id is an error. */
  function ValidateAndGetAction(actionId: string, details: ApiDetails): (r: Result<Option<Action>>)
    ensures details.actions.None? ==> r == Err(Raise(NotFound, "Actions not found."))
    ensures details.actions.Some? && |details.actions.value| == 0 ==> r == Ok(None)
    ensures details.actions.Some? && |details.actions.value| > 0 && actionId !in Keys(details.actions.value) ==>
      r == Err(Raise(NotFound, "Action " + actionId + " not found"))
    ensures details.actions.Some? && actionId in Keys(details.actions.value) ==>
      r == Ok(Get(details.actions.value, actionId))
  {
    match details.actions
    case None => Err(Raise(NotFound, "Actions not found."))
    case Some(table) =>
      if |table| == 0 then Ok(None)
      else match Get(table, actionId)
        case None => Err(Raise(NotFound, "Action " + actionId + " not found"))
        case Some(a) => Ok(Some(a))
  }

  /** `validateAndGetDatasourceForAction`. */
  function ValidateAndGetDatasource(action: Action, datasources: map<string, DatasourceDto>): (r: Result<DatasourceDto>)
    ensures action.datasourceId == "" ==>
      r == Err(Raise(NotFound, "Datasource ID not specified for action " + action.id + "."))
    ensures action.datasourceId != "" && action.datasourceId !in datasources ==>
      r == Err(Raise(NotFound, "Datasource " + action.datasourceId + " not found for action " + action.id))
    ensures r.Ok? <==> action.datasourceId != "" && action.datasourceId in datasources
    ensures r.Ok? ==> r.value == datasources[action.datasourceId]
  {
    if action.datasourceId == "" then Err(Raise(NotFound, "Datasource ID not specified for action " + action.id + "."))
    else if action.datasourceId !in datasources then
      Err(Raise(NotFound, "Datasource " + action.datasourceId + " not found for action " + action.id))
    else Ok(datasources[action.datasourceId])
  }

  /** `executeActionErrorContext`: a fresh context with exactly one output,
      under the step's name, whose error is the fault's message, prefixed by
      `message` unless that is empty. */
  function ErrorContextFor(f: Fault, message: string, action: Action): (c: Context)
    ensures c.globals == map[] && c.error == "" && c.errorContext.None?
    ensures |c.outputs| == 1 && c.outputs[0].0 == action.name && c.outputs[0].1.children == []
    ensures message == "" ==> c.outputs[0].1.error == f.message
    ensures message != "" ==> c.outputs[0].1.error == message + ": " + f.message
  {
    var errorMsg := if message == "" then f.message else message + ": " + f.message;
    AddOutput(EmptyContext, action.name, ErrorOutput(errorMsg))
  }

  /** The state of the pass: the flow so far, the evaluated configurations
      by datasource id, and the ids in the order they were evaluated. */
  datatype Walk = Walk(flow: seq<Action>, cache: map<string, Evaluated>, evaluated: seq<string>)

  const Start := Walk([], map[], [])

  /** How the pass ends: with a flow, with an error context, or never (the
      loop does not advance). */
  datatype Discovered = Found(walk: Walk) | Failed(context: Context) | Diverged

  /** Each id was evaluated once, the cache holds exactly the evaluated
      ids, and every step of the flow has its datasource cached. */
  ghost predicate WellCached(w: Walk) {
    (forall i, j :: 0 <= i < j < |w.evaluated| ==> w.evaluated[i] != w.evaluated[j]) &&
    (forall k :: k in w.cache <==> k in w.evaluated) &&
    (forall i :: 0 <= i < |w.flow| ==> w.flow[i].datasourceId in w.cache)
  }

  /** How a step's datasource is evaluated; `EvaluationOf` is the one the
      executor uses, and the lemmas below hold for any. */
  type Evaluator = (Action, DatasourceDto) -> Result<Evaluated>

  function EvaluationOf(run: Run): (e: Evaluator)
    ensures forall a, ds ::
      e(a, ds) == RedactAndEvaluation(a, ds, run.context, run.redactedContext, run.environment, run.authContexts, run.rc, run.svc)
  {
    (a, ds) => RedactAndEvaluation(a, ds, run.context, run.redactedContext, run.environment, run.authContexts, run.rc, run.svc)
  }

  /** One `Integration` step: its datasource is validated, evaluated unless
      already cached, and the step joins the flow. */
  function Visit(action: Action, w: Walk, run: Run, eval: Evaluator): (r: Result<Walk>)
    ensures r.Ok? ==> r.value.flow == w.flow + [action]
    ensures r.Ok? && action.datasourceId in w.cache ==> r.value.cache == w.cache && r.value.evaluated == w.evaluated
    ensures r.Ok? && action.datasourceId !in w.cache ==>
      r.value.evaluated == w.evaluated + [action.datasourceId] && r.value.cache.Keys == w.cache.Keys + {action.datasourceId} &&
      forall k :: k in w.cache ==> r.value.cache[k] == w.cache[k]
  {
    match ValidateAndGetDatasource(action, run.datasources)
    case Err(e) => Err(e)
    case Ok(ds) =>
      if action.datasourceId in w.cache then Ok(w.(flow := w.flow + [action]))
      else
        match eval(action, ds)
        case Err(e) => Err(e)
        case Ok(ev) => Ok(Walk(w.flow + [action], w.cache[action.datasourceId := ev], w.evaluated + [action.datasourceId]))
  }

  /** The next step: the first child id, unless there is none or it is
      empty. */
  function NextAction(action: Action, details: ApiDetails): (r: Result<Option<Action>>)
    ensures |action.children| == 0 || action.children[0].1 == "" ==> r == Ok(None)
    ensures |action.children| > 0 && action.children[0].1 != "" ==> r == ValidateAndGetAction(action.children[0].1, details)
  {
    var ids := ChildActionIds(action);
    if |ids| == 0 || ids[0] == "" then Ok(None) else ValidateAndGetAction(ids[0], details)
  }

  /** The `while (action)` loop, with at most `fuel` iterations. A step that
      is not an `Integration` leaves `action` as it is. */
  function Discover(action: Action, w: Walk, fuel: nat, run: Run, eval: Evaluator): Discovered
    decreases fuel
  {
    if fuel == 0 then Diverged
    else if action.actionType != ActionType.Integration then Discover(action, w, fuel - 1, run, eval)
    else match Visit(action, w, run, eval)
      case Err(e) => Failed(ErrorContextFor(e, "", action))
      case Ok(w1) =>
        match NextAction(action, run.details)
        case Err(e) => Failed(ErrorContextFor(e, "", action))
        case Ok(None) => Found(w1)
        case Ok(Some(next)) => Discover(next, w1, fuel - 1, run, eval)
  }

  /** A step that is not an `Integration` is never left: the pass does not
      end, however many iterations it is given. */
  lemma {:induction false} NonIntegrationDiverges(action: Action, w: Walk, fuel: nat, run: Run, eval: Evaluator)
    requires action.actionType != ActionType.Integration
    ensures Discover(action, w, fuel, run, eval) == Diverged
    decreases fuel
  {
    if fuel > 0 {
      NonIntegrationDiverges(action, w, fuel - 1, run, eval);
    }
  }

  /** A step that is its own first child is visited again and again: the
      pass does not end. */
  lemma {:induction false} SelfLoopDiverges(action: Action, w: Walk, fuel: nat, run: Run, eval: Evaluator)
    requires action.actionType == ActionType.Integration
    requires Visit(action, w, run, eval).Ok?
    requires NextAction(action, run.details) == Ok(Some(action))
    ensures Discover(action, w, fuel, run, eval) == Diverged
    decreases fuel
  {
    if fuel > 0 {
      var w1 := Visit(action, w, run, eval).value;
      assert action.datasourceId in w1.cache;
      SelfLoopDiverges(action, w1, fuel - 1, run, eval);
    }
  }

  /** More iterations change nothing once the pass has ended: the bound
      only stands for a loop that does not end. */
  lemma {:induction false} FuelSuffices(action: Action, w: Walk, fuel: nat, run: Run, eval: Evaluator)
    requires Discover(action, w, fuel, run, eval) != Diverged
    ensures Discover(action, w, fuel + 1, run, eval) == Discover(action, w, fuel, run, eval)
    decreases fuel
  {
    if action.actionType != ActionType.Integration {
      FuelSuffices(action, w, fuel - 1, run, eval);
    } else if Visit(action, w, run, eval).Ok? {
      var w1 := Visit(action, w, run, eval).value;
      if NextAction(action, run.details).Ok? && NextAction(action, run.details).value.Some? {
        FuelSuffices(NextAction(action, run.details).value.value, w1, fuel - 1, run, eval);
      }
    }
  }

  /** `w2` extends `w`: ids evaluated in `w` keep their order and their
      cached configurations. */
  ghost predicate Extends(w: Walk, w2: Walk) {
    |w.evaluated| <= |w2.evaluated| && w2.evaluated[..|w.evaluated|] == w.evaluated &&
    forall k :: k in w.cache ==> k in w2.cache && w2.cache[k] == w.cache[k]
  }

  lemma ExtendsTransitive(w: Walk, w1: Walk, w2: Walk)
    requires Extends(w, w1) && Extends(w1, w2)
    ensures Extends(w, w2)
  {
    assert w2.evaluated[..|w1.evaluated|][..|w.evaluated|] == w2.evaluated[..|w.evaluated|];
  }

  /** One visit keeps the cache well formed and extends it. */
  lemma VisitCaches(action: Action, w: Walk, run: Run, eval: Evaluator)
    requires WellCached(w)
    requires Visit(action, w, run, eval).Ok?
    ensures WellCached(Visit(action, w, run, eval).value)
    ensures Extends(w, Visit(action, w, run, eval).value)
  {
    var w1 := Visit(action, w, run, eval).value;
    assert w1.evaluated[..|w.evaluated|] == w.evaluated;
    forall i | 0 <= i < |w1.flow|
      ensures w1.flow[i].datasourceId in w1.cache
    {
      if i < |w.flow| { assert w1.flow[i] == w.flow[i]; }
    }
  }

  /** An `Integration` step with a next step hands over to it. */
  lemma DiscoverStep(action: Action, w: Walk, fuel: nat, run: Run, eval: Evaluator)
    requires fuel > 0 && action.actionType == ActionType.Integration
    requires Visit(action, w, run, eval).Ok?
    requires NextAction(action, run.details).Ok? && NextAction(action, run.details).value.Some?
    ensures Discover(action, w, fuel, run, eval) ==
      Discover(NextAction(action, run.details).value.value, Visit(action, w, run, eval).value, fuel - 1, run, eval)
  {
  }

  /** The cache stays well formed: a cached id is never evaluated again and
      keeps the configurations it was first given. */
  lemma {:induction false} DiscoverCaches(action: Action, w: Walk, fuel: nat, run: Run, eval: Evaluator)
    requires WellCached(w)
    requires Discover(action, w, fuel, run, eval).Found?
    ensures WellCached(Discover(action, w, fuel, run, eval).walk)
    ensures Extends(w, Discover(action, w, fuel, run, eval).walk)
    decreases fuel
  {
    if action.actionType != ActionType.Integration {
      DiscoverCaches(action, w, fuel - 1, run, eval);
    } else {
      var w1 := Visit(action, w, run, eval).value;
      VisitCaches(action, w, run, eval);
      var n := NextAction(action, run.details);
      if n.value.Some? {
        DiscoverStep(action, w, fuel, run, eval);
        DiscoverCaches(n.value.value, w1, fuel - 1, run, eval);
        ExtendsTransitive(w, w1, Discover(n.value.value, w1, fuel - 1, run, eval).walk);
      }
    }
  }

  /** From the trigger, each datasource is evaluated at most once and every
      step of the flow finds its configurations in the cache. */
  lemma DiscoveredOnce(trigger: Action, fuel: nat, run: Run, eval: Evaluator)
    requires Discover(trigger, Start, fuel, run, eval).Found?
    ensures WellCached(Discover(trigger, Start, fuel, run, eval).walk)
  {
    DiscoverCaches(trigger, Start, fuel, run, eval);
  }

  /** The flow is the chain from `action`: it extends the flow so far by
      `action` and then, step by step, the first child of the previous
      step, all `Integration` steps, ending at a step with no child. */
  lemma {:induction false} DiscoverChain(action: Action, w: Walk, fuel: nat, run: Run, eval: Evaluator)
    requires Discover(action, w, fuel, run, eval).Found?
    ensures var flow := Discover(action, w, fuel, run, eval).walk.flow;
      |w.flow| < |flow| && flow[..|w.flow|] == w.flow && flow[|w.flow|] == action &&
      (forall i :: |w.flow| <= i < |flow| ==> flow[i].actionType == ActionType.Integration) &&
      (forall i :: |w.flow| <= i < |flow| - 1 ==> NextAction(flow[i], run.details) == Ok(Some(flow[i + 1]))) &&
      NextAction(flow[|flow| - 1], run.details) == Ok(None)
    decreases fuel
  {
    if action.actionType != ActionType.Integration {
      NonIntegrationDiverges(action, w, fuel, run, eval);
    } else {
      var w1 := Visit(action, w, run, eval).value;
      if NextAction(action, run.details).value.Some? {
        var next := NextAction(action, run.details).value.value;
        DiscoverStep(action, w, fuel, run, eval);
        DiscoverChain(next, w1, fuel - 1, run, eval);
        var flow := Discover(next, w1, fuel - 1, run, eval).walk.flow;
        assert w1.flow == w.flow + [action];
        assert flow[..|w.flow|] == flow[..|w1.flow|][..|w.flow|] == w.flow;
        assert flow[|w.flow|] == w1.flow[|w.flow|] == action;
      }
    }
  }

  /** A fault during the pass is returned as the error context of an
      `Integration` step, with the fault's message unprefixed. */
  lemma {:induction false} DiscoverFailure(action: Action, w: Walk, fuel: nat, run: Run, eval: Evaluator)
    requires Discover(action, w, fuel, run, eval).Failed?
    ensures exists f: Fault, a: Action ::
      a.actionType == ActionType.Integration && Discover(action, w, fuel, run, eval).context == ErrorContextFor(f, "", a)
    decreases fuel
  {
    if action.actionType != ActionType.Integration {
      DiscoverFailure(action, w, fuel - 1, run, eval);
    } else if Visit(action, w, run, eval).Err? {
      var f := Visit(action, w, run, eval).fault;
      assert Discover(action, w, fuel, run, eval).context == ErrorContextFor(f, "", action);
    } else {
      var w1 := Visit(action, w, run, eval).value;
      if NextAction(action, run.details).Err? {
        var f := NextAction(action, run.details).fault;
        assert Discover(action, w, fuel, run, eval).context == ErrorContextFor(f, "", action);
      } else {
        DiscoverFailure(NextAction(action, run.details).value.value, w1, fuel - 1, run, eval);
      }
    }
  }

  /** The discovery pass, with `fuel` iterations at most. */
  method DiscoverFlow(trigger: Action, run: Run, fuel: nat) returns (r: Discovered)
    ensures r == Discover(trigger, Start, fuel, run, EvaluationOf(run))
  {
    var action: Option<Action> := Some(trigger);
    var actionFlow: seq<Action> := [];
    var evaluatedDatasourceConfigs: map<string, Evaluated> := map[];
    var evaluated: seq<string> := [];
    var budget := fuel;
    ghost var eval := EvaluationOf(run);
    while action.Some?
      invariant action.Some? ==>
        Discover(action.value, Walk(actionFlow, evaluatedDatasourceConfigs, evaluated), budget, run, eval) == Discover(trigger, Start, fuel, run, eval)
      invariant action.None? ==> Found(Walk(actionFlow, evaluatedDatasourceConfigs, evaluated)) == Discover(trigger, Start, fuel, run, eval)
      decreases budget
    {
      if budget == 0 {
        return Diverged;
      }
      var a := action.value;
      ghost var before := Walk(actionFlow, evaluatedDatasourceConfigs, evaluated);
      budget := budget - 1;
      if a.actionType == ActionType.Integration {
        var datasource := ValidateAndGetDatasource(a, run.datasources);
        if datasource.Err? {
          return Failed(ErrorContextFor(datasource.fault, "", a));
        }
        if a.datasourceId !in evaluatedDatasourceConfigs {
          var result := RedactAndEvaluate(a, datasource.value, run.context, run.redactedContext, run.environment,
                                          run.authContexts, run.rc, run.svc);
          if result.Err? {
            return Failed(ErrorContextFor(result.fault, "", a));
          }
          evaluatedDatasourceConfigs := evaluatedDatasourceConfigs[a.datasourceId := result.value];
          evaluated := evaluated + [a.datasourceId];
        }
        actionFlow := actionFlow + [a];
        assert Visit(a, before, run, eval) == Ok(Walk(actionFlow, evaluatedDatasourceConfigs, evaluated));
        var childActionIds := ChildActionIds(a);
        if |childActionIds| == 0 || childActionIds[0] == "" {
          action := None;
        } else {
          var next := ValidateAndGetAction(childActionIds[0], run.details);
          if next.Err? {
            return Failed(ErrorContextFor(next.fault, "", a));
          }
          action := next.value;
        }
      }
    }
    r := Found(Walk(actionFlow, evaluatedDatasourceConfigs, evaluated));
  }
}
