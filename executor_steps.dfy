/** The execution pass of `executeAction` (src/api/ApiExecutor.ts, lines
    294-427): the steps of the flow run in order against two contexts, the
    ctx one and the redacted one, which receive the same outputs; the
    first step whose output carries an error ends the pass, and a fault
    replaces both contexts by an error context. */
module ExecutorSteps {
  import opened Base
  import opened Records
  import opened Model
  import opened ExecutorUtils
  import opened ExecutorDatasource
  import opened ExecutorDiscovery

  /** The message a fault inside a step is prefixed with. */
  function FatalMessage(action: Action): string {
    "Fatal error: failed to execute action " + action.name
  }

  /** Reading `.config` of a datasource that was never evaluated. */
  const MISSING_CONFIG := Raise(TypeErrorClass, "Cannot read properties of undefined (reading 'config')")

  /** The two globals every `Integration` step is given. */
  function StepGlobals(c: Context, run: Run): (r: Context)
    ensures r.globals.Keys == c.globals.Keys + {"$fileServerUrl", "$flagWorker"}
    ensures r.globals["$fileServerUrl"] == Str(run.fileServerUrl) && r.globals["$flagWorker"] == Bool(run.workerEnabled)
    ensures forall k :: k in c.globals && k != "$fileServerUrl" && k != "$flagWorker" ==> r.globals[k] == c.globals[k]
    ensures r.outputs == c.outputs && r.error == c.error && r.errorContext == c.errorContext
  {
    AddGlobal(AddGlobal(c, "$fileServerUrl", Str(run.fileServerUrl)), "$flagWorker", Bool(run.workerEnabled))
  }

  /** The context after step `action` failed with `message`. */
  function Failing(c: Context, action: Action, message: string): (r: Context)
    ensures r.error == message && r.errorContext == Some(ErrorContext(action.id, action.name))
    ensures r.globals == c.globals && r.outputs == c.outputs
  {
    c.(error := message, errorContext := Some(ErrorContext(action.id, action.name)))
  }

  /** How one iteration of the loop ends: on to the next step, out of the
      loop after a failed step, or out of `executeAction` with an error
      context. */
  datatype Step = Continue(context: Context, redactedContext: Context) | Stop(context: Context, redactedContext: Context) | Abort(errorContext: Context)

  /** The call a step makes: local unless the worker fleet is enabled, and
      always local for the `workflow` plugin. */
  function CallFor(action: Action, ev: Evaluated, ctx: Context, red: Context, run: Run): (call: StepCall)
    ensures call.local <==> !run.workerEnabled || action.pluginId == "workflow"
    ensures call.config == ev.config && call.redactedConfig == ev.redactedConfig
    ensures call.context == ctx && call.redactedContext == red && call.environment == run.environment
  {
    StepCall(run.environment, ctx, red, ev.config, ev.redactedConfig, action.configuration, action.pluginId,
             !run.workerEnabled || action.pluginId == "workflow")
  }

  /** One iteration of the loop. */
  function StepOf(action: Action, cache: map<string, Evaluated>, ctx: Context, red: Context, run: Run): (s: Step)
    ensures action.datasourceId !in cache ==> s == Abort(ErrorContextFor(MISSING_CONFIG, FatalMessage(action), action))
    ensures action.datasourceId in cache && action.actionType != ActionType.Integration ==> s == Continue(ctx, red)
    ensures s.Stop? ==>
      s.context.error != "" && s.context.error == s.redactedContext.error &&
      s.context.errorContext == s.redactedContext.errorContext == Some(ErrorContext(action.id, action.name))
    ensures s.Abort? ==> exists f :: s.errorContext == ErrorContextFor(f, FatalMessage(action), action)
  {
    if action.datasourceId !in cache then Abort(ErrorContextFor(MISSING_CONFIG, FatalMessage(action), action))
    else if action.actionType != ActionType.Integration then Continue(ctx, red)
    else
      var ev := cache[action.datasourceId];
      var ctx1 := StepGlobals(ctx, run);
      var red1 := StepGlobals(red, run);
      match run.runStep(CallFor(action, ev, ctx1, red1, run))
      case Err(e) => Abort(ErrorContextFor(e, FatalMessage(action), action))
      case Ok(out) =>
        match GetChildActionNames(action, run.details)
        case Err(e) => Abort(ErrorContextFor(e, FatalMessage(action), action))
        case Ok(names) =>
          var o := out.(children := names);
          var ctx2 := AddOutput(ctx1, action.name, o);
          var red2 := AddOutput(red1, action.name, o);
          if o.error != "" then Stop(Failing(ctx2, action, o.error), Failing(red2, action, o.error))
          else Continue(ctx2, red2)
  }

  /** How the pass ends: with both contexts, or with an error context. */
  datatype Ran = Ran(context: Context, redactedContext: Context) | Fatal(errorContext: Context)

  /** The `for (const action of actionFlow)` loop from the given contexts. */
  function RunAll(flow: seq<Action>, cache: map<string, Evaluated>, ctx: Context, red: Context, run: Run): Ran
    decreases |flow|
  {
    if |flow| == 0 then Ran(ctx, red)
    else match StepOf(flow[0], cache, ctx, red, run)
      case Abort(c) => Fatal(c)
      case Stop(r, d) => Ran(r, d)
      case Continue(r, d) => RunAll(flow[1..], cache, r, d, run)
  }

  /** The two contexts agree on everything but the values of globals. */
  predicate InStep(c: Context, d: Context) {
    c.globals.Keys == d.globals.Keys && c.outputs == d.outputs && c.error == d.error && c.errorContext == d.errorContext
  }

  /** One step keeps the contexts in step. */
  lemma StepInStep(action: Action, cache: map<string, Evaluated>, ctx: Context, red: Context, run: Run)
    requires InStep(ctx, red)
    ensures var s := StepOf(action, cache, ctx, red, run);
      s.Continue? || s.Stop? ==> InStep(s.context, s.redactedContext)
  {
  }

  /** The ctx and the redacted context end with the same outputs and the
      same error, and bind the same globals. */
  lemma {:induction false} RunInStep(flow: seq<Action>, cache: map<string, Evaluated>, ctx: Context, red: Context, run: Run)
    requires InStep(ctx, red)
    ensures var r := RunAll(flow, cache, ctx, red, run);
      r.Ran? ==> InStep(r.context, r.redactedContext)
    decreases |flow|
  {
    if |flow| > 0 {
      StepInStep(flow[0], cache, ctx, red, run);
      var s := StepOf(flow[0], cache, ctx, red, run);
      if s.Continue? {
        RunInStep(flow[1..], cache, s.context, s.redactedContext, run);
      }
    }
  }

  /** A step that does not fail leaves the error fields alone. */
  lemma StepKeepsError(action: Action, cache: map<string, Evaluated>, ctx: Context, red: Context, run: Run)
    ensures var s := StepOf(action, cache, ctx, red, run);
      s.Continue? ==> s.context.error == ctx.error && s.redactedContext.error == red.error
  {
  }

  /** Running a flow and then more steps is running the longer flow, as long
      as the first part neither failed nor aborted; otherwise the later
      steps never run. */
  lemma {:induction false} RunAppend(flow: seq<Action>, rest: seq<Action>, cache: map<string, Evaluated>,
                                     ctx: Context, red: Context, run: Run)
    requires ctx.error == ""
    ensures var r := RunAll(flow, cache, ctx, red, run);
      RunAll(flow + rest, cache, ctx, red, run) ==
        if r.Ran? && r.context.error == "" then RunAll(rest, cache, r.context, r.redactedContext, run) else r
    decreases |flow|
  {
    if |flow| == 0 {
      assert flow + rest == rest;
    } else {
      assert (flow + rest)[0] == flow[0];
      assert (flow + rest)[1..] == flow[1..] + rest;
      StepKeepsError(flow[0], cache, ctx, red, run);
      var s := StepOf(flow[0], cache, ctx, red, run);
      if s.Continue? {
        RunAppend(flow[1..], rest, cache, s.context, s.redactedContext, run);
      }
    }
  }

  /** Every name in `names` has an output without error. */
  ghost predicate Clean(c: Context, names: set<string>) {
    forall n :: n in names ==> Get(c.outputs, n).Some? && Get(c.outputs, n).value.error == ""
  }

  /** A step that does not fail adds a clean output under its name and
      keeps earlier clean outputs clean. */
  lemma StepClean(action: Action, cache: map<string, Evaluated>, ctx: Context, red: Context, run: Run, names: set<string>)
    requires Clean(ctx, names)
    requires StepOf(action, cache, ctx, red, run).Continue?
    ensures var s := StepOf(action, cache, ctx, red, run);
      Clean(s.context, if action.actionType == ActionType.Integration then names + {action.name} else names)
  {
    if action.actionType == ActionType.Integration {
      var s := StepOf(action, cache, ctx, red, run);
      var ctx1 := StepGlobals(ctx, run);
      var call := CallFor(action, cache[action.datasourceId], ctx1, StepGlobals(red, run), run);
      var o := run.runStep(call).value.(children := GetChildActionNames(action, run.details).value);
      assert o.error == "" && s.context == AddOutput(ctx1, action.name, o);
      var outs := Put(ctx.outputs, action.name, o);
      PutGet(ctx.outputs, action.name, o);
      forall n | n in names + {action.name}
        ensures Get(outs, n).Some? && Get(outs, n).value.error == ""
      {
        if n != action.name {
          PutGetOther(ctx.outputs, action.name, o, n);
        }
      }
    }
  }

  /** The names of the `Integration` steps of a flow. */
  ghost function IntegrationNames(flow: seq<Action>): set<string> {
    set i | 0 <= i < |flow| && flow[i].actionType == ActionType.Integration :: flow[i].name
  }

  /** The names of the `Integration` steps, first step first. */
  lemma IntegrationNamesCons(flow: seq<Action>)
    requires |flow| > 0
    ensures IntegrationNames(flow) ==
      (if flow[0].actionType == ActionType.Integration then {flow[0].name} else {}) + IntegrationNames(flow[1..])
  {
    var tail := flow[1..];
    forall n | n in IntegrationNames(flow)
      ensures n in IntegrationNames(tail) || (flow[0].actionType == ActionType.Integration && n == flow[0].name)
    {
      var i :| 0 <= i < |flow| && flow[i].actionType == ActionType.Integration && flow[i].name == n;
      if i > 0 { assert tail[i - 1] == flow[i]; }
    }
    forall n | n in IntegrationNames(tail)
      ensures n in IntegrationNames(flow)
    {
      var i :| 0 <= i < |tail| && tail[i].actionType == ActionType.Integration && tail[i].name == n;
      assert flow[i + 1] == tail[i];
    }
  }

  /** A pass that ends without an error has a clean output under the name
      of each `Integration` step of the flow. */
  lemma {:induction false} RunClean(flow: seq<Action>, cache: map<string, Evaluated>, ctx: Context, red: Context,
                                    run: Run, names: set<string>)
    requires Clean(ctx, names)
    requires ctx.error == ""
    requires RunAll(flow, cache, ctx, red, run).Ran? && RunAll(flow, cache, ctx, red, run).context.error == ""
    ensures Clean(RunAll(flow, cache, ctx, red, run).context, names + IntegrationNames(flow))
    decreases |flow|
  {
    if |flow| > 0 {
      var s := StepOf(flow[0], cache, ctx, red, run);
      if s.Stop? {
        assert false;
      }
      StepClean(flow[0], cache, ctx, red, run, names);
      StepKeepsError(flow[0], cache, ctx, red, run);
      var names1 := if flow[0].actionType == ActionType.Integration then names + {flow[0].name} else names;
      RunClean(flow[1..], cache, s.context, s.redactedContext, run, names1);
      IntegrationNamesCons(flow);
      assert names + IntegrationNames(flow) == names1 + IntegrationNames(flow[1..]);
    }
  }

  /** A step that fails records its output, with the error, under its
      name. */
  lemma StepStop(action: Action, cache: map<string, Evaluated>, ctx: Context, red: Context, run: Run)
    requires StepOf(action, cache, ctx, red, run).Stop?
    ensures var c := StepOf(action, cache, ctx, red, run).context;
      Get(c.outputs, action.name).Some? && Get(c.outputs, action.name).value.error == c.error
  {
    var ev := cache[action.datasourceId];
    var ctx1 := StepGlobals(ctx, run);
    var red1 := StepGlobals(red, run);
    var out := run.runStep(CallFor(action, ev, ctx1, red1, run)).value;
    var o := out.(children := GetChildActionNames(action, run.details).value);
    PutGet(ctx1.outputs, action.name, o);
  }

  /** A pass that ends with an error names a step of the flow whose output
      under its name carries that error. */
  lemma {:induction false} RunFailure(flow: seq<Action>, cache: map<string, Evaluated>, ctx: Context, red: Context, run: Run)
    requires ctx.error == ""
    requires RunAll(flow, cache, ctx, red, run).Ran? && RunAll(flow, cache, ctx, red, run).context.error != ""
    ensures var c := RunAll(flow, cache, ctx, red, run).context;
      exists i :: 0 <= i < |flow| && c.errorContext == Some(ErrorContext(flow[i].id, flow[i].name)) &&
        Get(c.outputs, flow[i].name).Some? && Get(c.outputs, flow[i].name).value.error == c.error
    decreases |flow|
  {
    var s := StepOf(flow[0], cache, ctx, red, run);
    StepKeepsError(flow[0], cache, ctx, red, run);
    if s.Stop? {
      StepStop(flow[0], cache, ctx, red, run);
      assert 0 <= 0 < |flow|;
    } else {
      RunFailure(flow[1..], cache, s.context, s.redactedContext, run);
      var c := RunAll(flow, cache, ctx, red, run).context;
      var i :| 0 <= i < |flow[1..]| && c.errorContext == Some(ErrorContext(flow[1..][i].id, flow[1..][i].name)) &&
        Get(c.outputs, flow[1..][i].name).Some? && Get(c.outputs, flow[1..][i].name).value.error == c.error;
      assert flow[i + 1] == flow[1..][i];
    }
  }

  /** A fault discards both contexts: the result is a fresh context whose
      one output, under the step's name, carries the prefixed message. */
  lemma {:induction false} RunFatal(flow: seq<Action>, cache: map<string, Evaluated>, ctx: Context, red: Context, run: Run)
    requires RunAll(flow, cache, ctx, red, run).Fatal?
    ensures var c := RunAll(flow, cache, ctx, red, run).errorContext;
      c.globals == map[] && |c.outputs| == 1 && c.error == "" &&
      exists i, f :: 0 <= i < |flow| && c == ErrorContextFor(f, FatalMessage(flow[i]), flow[i])
    decreases |flow|
  {
    var s := StepOf(flow[0], cache, ctx, red, run);
    if s.Abort? {
      var f :| s.errorContext == ErrorContextFor(f, FatalMessage(flow[0]), flow[0]);
      assert 0 <= 0 < |flow|;
    } else {
      RunFatal(flow[1..], cache, s.context, s.redactedContext, run);
      var c := RunAll(flow, cache, ctx, red, run).errorContext;
      var i, f :| 0 <= i < |flow[1..]| && c == ErrorContextFor(f, FatalMessage(flow[1..][i]), flow[1..][i]);
      assert flow[i + 1] == flow[1..][i];
    }
  }

  /** One iteration of the loop, as the executor performs it. */
  method ExecuteStep(action: Action, cache: map<string, Evaluated>, ctx: Context, red: Context, run: Run)
    returns (s: Step)
    ensures s == StepOf(action, cache, ctx, red, run)
  {
    if action.datasourceId !in cache {
      return Abort(ErrorContextFor(MISSING_CONFIG, FatalMessage(action), action));
    }
    var evaluatedDatasource := cache[action.datasourceId];
    if action.actionType != ActionType.Integration {
      return Continue(ctx, red);
    }
    var newContext := StepGlobals(ctx, run);
    var newRedactedContext := StepGlobals(red, run);
    var output := run.runStep(CallFor(action, evaluatedDatasource, newContext, newRedactedContext, run));
    if output.Err? {
      return Abort(ErrorContextFor(output.fault, FatalMessage(action), action));
    }
    var children := GetChildActionNames(action, run.details);
    if children.Err? {
      return Abort(ErrorContextFor(children.fault, FatalMessage(action), action));
    }
    var o := output.value.(children := children.value);
    newContext := AddOutput(newContext, action.name, o);
    newRedactedContext := AddOutput(newRedactedContext, action.name, o);
    if o.error != "" {
      newContext := Failing(newContext, action, o.error);
      newRedactedContext := Failing(newRedactedContext, action, o.error);
      return Stop(newContext, newRedactedContext);
    }
    s := Continue(newContext, newRedactedContext);
  }

  /** The execution pass over a discovered flow, from the initial contexts. */
  method RunSteps(flow: seq<Action>, cache: map<string, Evaluated>, run: Run) returns (r: Ran)
    ensures r == RunAll(flow, cache, run.context, run.redactedContext, run)
  {
    var newContext := run.context;
    var newRedactedContext := run.redactedContext;
    var i := 0;
    while i < |flow|
      invariant 0 <= i <= |flow|
      invariant RunAll(flow[i..], cache, newContext, newRedactedContext, run) ==
        RunAll(flow, cache, run.context, run.redactedContext, run)
    {
      var s := ExecuteStep(flow[i], cache, newContext, newRedactedContext, run);
      assert flow[i..][0] == flow[i] && flow[i..][1..] == flow[i + 1..];
      match s
      case Abort(c) => return Fatal(c);
      case Stop(c, d) => return Ran(c, d);
      case Continue(c, d) =>
        newContext, newRedactedContext := c, d;
        i := i + 1;
    }
    r := Ran(newContext, newRedactedContext);
  }
}
