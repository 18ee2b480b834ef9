/** Audit records of API runs (src/utils/audit.ts): the record opened when
    a run starts and completed when it finishes. */
module Audit {
  import opened Base
  import opened Records
  import opened Model

  datatype EntityType = Application | Workflow | ScheduledJob
  datatype RunStatus = RunSuccess | RunFail

  /** One step of an audit entry; `error` is absent in the start record. */
  datatype AuditStep = AuditStep(name: string, id: string, pluginId: string, datasourceId: string, error: Option<string>)

  /** `details`: `isApiRun` is whether it has the API_RUN shape. */
  datatype AuditDetails = AuditDetails(
    isApiRun: bool,
    target: string,
    status: Option<RunStatus>,
    error: Option<string>,
    ended: bool)

  /** An `AuditLogDto`, without its timestamps; `ended` says whether
      `endTime` is set. */
  datatype AuditEntry = AuditEntry(
    id: string,
    entityId: string,
    entityType: EntityType,
    organizationId: string,
    deployed: bool,
    ended: bool,
    source: string,
    agentId: string,
    details: AuditDetails,
    steps: seq<AuditStep>)

  const REDACTED_ERROR := "<error message redacted>"

  /** `nameToAction` after the constructor's loop: actions keyed by name,
      a later action with a repeated name taking the earlier one's place. */
  function NameIndex(actions: seq<Action>): Record<Action>
    decreases |actions|
  {
    if |actions| == 0 then []
    else
      var n := |actions| - 1;
      Put(NameIndex(actions[..n]), actions[n].name, actions[n])
  }

  /** Each name appears once in `nameToAction`. */
  lemma {:induction false} NameIndexUnique(actions: seq<Action>)
    ensures UniqueKeys(NameIndex(actions))
    decreases |actions|
  {
    if |actions| > 0 {
      var n := |actions| - 1;
      NameIndexUnique(actions[..n]);
      PutUnique(NameIndex(actions[..n]), actions[n].name, actions[n]);
    }
  }

  /** Looking a name up after one more action. */
  lemma NameIndexStep(actions: seq<Action>, name: string)
    requires |actions| > 0
    ensures Get(NameIndex(actions), name) ==
      if actions[|actions| - 1].name == name then Some(actions[|actions| - 1])
      else Get(NameIndex(actions[..|actions| - 1]), name)
  {
    var n := |actions| - 1;
    if actions[n].name == name {
      PutGet(NameIndex(actions[..n]), name, actions[n]);
    } else {
      PutGetOther(NameIndex(actions[..n]), actions[n].name, actions[n], name);
    }
  }

  /** Some action is called `name`. */
  predicate HasName(actions: seq<Action>, name: string) {
    exists i :: 0 <= i < |actions| && actions[i].name == name
  }

  /** Dropping a last action of another name keeps `HasName`. */
  lemma HasNameInit(actions: seq<Action>, name: string)
    requires |actions| > 0 && actions[|actions| - 1].name != name
    ensures HasName(actions, name) == HasName(actions[..|actions| - 1], name)
  {
    var init := actions[..|actions| - 1];
    if HasName(actions, name) {
      var i :| 0 <= i < |actions| && actions[i].name == name;
      assert init[i] == actions[i];
    }
    if HasName(init, name) {
      var i :| 0 <= i < |init| && init[i].name == name;
      assert init[i] == actions[i];
    }
  }

  /** A name is indexed iff some action has it. */
  lemma {:induction false} NameIndexHas(actions: seq<Action>, name: string)
    ensures Get(NameIndex(actions), name).Some? <==> HasName(actions, name)
    decreases |actions|
  {
    if |actions| > 0 {
      var n := |actions| - 1;
      NameIndexStep(actions, name);
      if actions[n].name != name {
        NameIndexHas(actions[..n], name);
        HasNameInit(actions, name);
      }
    }
  }

  /** `actions[i]` is the last action called `name`. */
  predicate IsLast(actions: seq<Action>, i: int, name: string) {
    0 <= i < |actions| && actions[i].name == name &&
    forall j :: i < j < |actions| ==> actions[j].name != name
  }

  /** Appending an action of another name keeps the last one last. */
  lemma IsLastInit(actions: seq<Action>, i: int, name: string)
    requires |actions| > 0 && actions[|actions| - 1].name != name
    requires IsLast(actions[..|actions| - 1], i, name)
    ensures IsLast(actions, i, name)
  {
    var n := |actions| - 1;
    var init := actions[..n];
    assert actions[i] == init[i];
    forall j | i < j < |actions| ensures actions[j].name != name {
      if j < n { assert actions[j] == init[j]; }
    }
  }

  /** An indexed name maps to the last action of that name. */
  lemma {:induction false} NameIndexLast(actions: seq<Action>, name: string)
    ensures Get(NameIndex(actions), name).Some? <==> HasName(actions, name)
    ensures Get(NameIndex(actions), name).Some? ==>
      exists i :: IsLast(actions, i, name) && Get(NameIndex(actions), name) == Some(actions[i])
    decreases |actions|
  {
    NameIndexHas(actions, name);
    if |actions| > 0 {
      var n := |actions| - 1;
      var init := actions[..n];
      NameIndexStep(actions, name);
      var g := Get(NameIndex(actions), name);
      if actions[n].name == name {
        assert IsLast(actions, n, name) && g == Some(actions[n]);
      } else if g.Some? {
        NameIndexLast(init, name);
        var i :| IsLast(init, i, name) && g == Some(init[i]);
        IsLastInit(actions, i, name);
        assert g == Some(actions[i]);
      }
    }
  }

  /** The message for the first erroring output, in iteration order. */
  function GetError(outputs: Record<StepOutput>): (r: Option<string>)
    ensures r.None? <==> forall i :: 0 <= i < |outputs| ==> outputs[i].1.error == ""
    ensures r.Some? ==>
      exists i :: 0 <= i < |outputs| && outputs[i].1.error != "" &&
        (forall j :: 0 <= j < i ==> outputs[j].1.error == "") &&
        r.value == "Error in step \"" + outputs[i].0 + "\": " + outputs[i].1.error
    decreases |outputs|
  {
    if |outputs| == 0 then None
    else if outputs[0].1.error != "" then
      Some("Error in step \"" + outputs[0].0 + "\": " + outputs[0].1.error)
    else
      var rest := GetError(outputs[1..]);
      assert forall i :: 1 <= i < |outputs| ==> outputs[i] == outputs[1..][i - 1];
      if rest.Some? then
        var i :| 0 <= i < |outputs[1..]| && outputs[1..][i].1.error != "" &&
          (forall j :: 0 <= j < i ==> outputs[1..][j].1.error == "") &&
          rest.value == "Error in step \"" + outputs[1..][i].0 + "\": " + outputs[1..][i].1.error;
        assert outputs[i + 1] == outputs[1..][i];
        rest
      else rest
  }

  /** The start record's steps: one per entry of `nameToAction`. */
  function StartSteps(nameToAction: Record<Action>): (steps: seq<AuditStep>)
    ensures |steps| == |nameToAction|
    ensures forall i :: 0 <= i < |steps| ==>
      steps[i] == AuditStep(nameToAction[i].1.name, nameToAction[i].1.id, nameToAction[i].1.pluginId,
                            nameToAction[i].1.datasourceId, None)
  {
    seq(|nameToAction|, i requires 0 <= i < |nameToAction| =>
      var a := nameToAction[i].1;
      AuditStep(a.name, a.id, a.pluginId, a.datasourceId, None))
  }

  /** The finish record's steps, one per output, with the action looked up
      by step name; `None` when a name has no action (a `TypeError`). */
  function FinishSteps(nameToAction: Record<Action>, outputs: Record<StepOutput>): (r: Option<seq<AuditStep>>)
    ensures r.Some? <==> forall i :: 0 <= i < |outputs| ==> Get(nameToAction, outputs[i].0).Some?
    ensures r.Some? ==> |r.value| == |outputs| && forall i :: 0 <= i < |outputs| ==>
      var a := Get(nameToAction, outputs[i].0).value;
      r.value[i] == AuditStep(outputs[i].0, a.id, a.pluginId, a.datasourceId, Some(outputs[i].1.error))
    decreases |outputs|
  {
    if |outputs| == 0 then Some([])
    else
      var n := |outputs| - 1;
      var a := Get(nameToAction, outputs[n].0);
      var init := FinishSteps(nameToAction, outputs[..n]);
      assert forall i :: 0 <= i < n ==> outputs[i] == outputs[..n][i];
      if a.None? || init.None? then None
      else
        var steps := init.value + [AuditStep(outputs[n].0, a.value.id, a.value.pluginId, a.value.datasourceId, Some(outputs[n].1.error))];
        assert forall i :: 0 <= i < n ==> steps[i] == init.value[i];
        Some(steps)
  }

  /** The status and error a finished entry gets: with errors excluded from
      audit logs the error is always the redaction notice. */
  function FinishError(outputs: Record<StepOutput>, includeErrors: string): (err: Option<string>)
    ensures includeErrors != "true" ==> err == Some(REDACTED_ERROR)
    ensures includeErrors == "true" ==> err == GetError(outputs)
  {
    if includeErrors != "true" then Some(REDACTED_ERROR) else GetError(outputs)
  }

  /** The request sent for the finished entry: `None` when nothing is sent. */
  function FinishedEntry(entry: Option<AuditEntry>, nameToAction: Record<Action>, outputs: Record<StepOutput>,
                         includeErrors: string): (r: Option<AuditEntry>)
    ensures entry.None? || !entry.value.details.isApiRun ==> r.None?
    ensures r.Some? ==> FinishSteps(nameToAction, outputs).Some? && r.value.steps == FinishSteps(nameToAction, outputs).value
    ensures r.Some? ==> r.value.ended && r.value.details.ended
    ensures r.Some? ==> (r.value.details.status == Some(RunFail) <==> FinishError(outputs, includeErrors).Some?)
    ensures r.Some? ==> r.value.details.status.Some?
  {
    match entry
    case None => None
    case Some(e) =>
      if !e.details.isApiRun then None
      else match FinishSteps(nameToAction, outputs)
        case None => None
        case Some(steps) => Some(Completed(e, steps, FinishError(outputs, includeErrors)))
  }

  /** An entry marked ended with its steps, status and error filled in. */
  function Completed(e: AuditEntry, steps: seq<AuditStep>, err: Option<string>): (r: AuditEntry)
    ensures r.ended && r.details.ended && r.steps == steps
    ensures r.details.status == Some(if err.Some? then RunFail else RunSuccess)
    ensures err.Some? ==> r.details.error == err
  {
    var details := if err.Some?
      then e.details.(status := Some(RunFail), error := err)
      else e.details.(status := Some(RunSuccess));
    e.(steps := steps, details := details.(ended := true), ended := true)
  }

  /** The run status the finish record reports: always FAIL when errors are
      kept out of audit logs, otherwise FAIL exactly when a step errored. */
  lemma FinishStatus(entry: Option<AuditEntry>, nameToAction: Record<Action>, outputs: Record<StepOutput>, includeErrors: string)
    requires FinishedEntry(entry, nameToAction, outputs, includeErrors).Some?
    ensures var s := FinishedEntry(entry, nameToAction, outputs, includeErrors).value.details.status;
      (includeErrors != "true" ==> s == Some(RunFail)) &&
      (includeErrors == "true" ==> (s == Some(RunFail) <==> exists i :: 0 <= i < |outputs| && outputs[i].1.error != ""))
  {
  }

  class ApiRequestRecord {
    var entry: Option<AuditEntry>
    var nameToAction: Record<Action>

    /** The constructor: indexes the API's actions by name. */
    constructor (entry: AuditEntry, actions: Record<Action>)
      ensures this.entry == Some(entry)
      ensures nameToAction == NameIndex(Values(actions))
    {
      this.entry := Some(entry);
      var index: Record<Action> := [];
      var values := Values(actions);
      for i := 0 to |values|
        invariant index == NameIndex(values[..i])
      {
        assert values[..i + 1][..i] == values[..i];
        index := Put(index, values[i].name, values[i]);
      }
      assert values[..|values|] == values;
      nameToAction := index;
    }

    /** `start`: fills in one step per indexed action and replaces the entry
        with what the server returns (`None` if the request failed). Without
        an entry the step assignment throws. */
    method Start(send: AuditEntry -> Option<AuditEntry>) returns (r: Outcome)
      modifies this
      ensures old(entry).None? ==> r.Fail? && r.fault.cls == TypeErrorClass && entry == old(entry)
      ensures old(entry).Some? ==> r == Pass && entry == send(old(entry).value.(steps := StartSteps(nameToAction)))
      ensures nameToAction == old(nameToAction)
    {
      if entry.None? {
        return Fail(Raise(TypeErrorClass, "Cannot set properties of undefined (setting 'steps')"));
      }
      var steps: seq<AuditStep> := [];
      for i := 0 to |nameToAction|
        invariant steps == StartSteps(nameToAction)[..i]
      {
        var a := nameToAction[i].1;
        steps := steps + [AuditStep(a.name, a.id, a.pluginId, a.datasourceId, None)];
      }
      assert StartSteps(nameToAction)[..|nameToAction|] == StartSteps(nameToAction);
      entry := send(entry.value.(steps := steps));
      r := Pass;
    }

    /** `finish`: completes the entry in place and returns what the server
        returns for it; returns nothing, and never throws, when there is no
        entry, the entry is not an API run, or a step has no action. */
    method Finish(outputs: Record<StepOutput>, includeErrors: string, send: AuditEntry -> Option<AuditEntry>)
      returns (r: Option<AuditEntry>)
      modifies this
      ensures var done := FinishedEntry(old(entry), nameToAction, outputs, includeErrors);
        (done.Some? ==> entry == done && r == send(done.value)) &&
        (done.None? ==> entry == old(entry) && r.None?)
      ensures nameToAction == old(nameToAction)
    {
      if entry.None? || !entry.value.details.isApiRun {
        return None;
      }
      var err := GetError(outputs);
      var steps: seq<AuditStep> := [];
      for i := 0 to |outputs|
        invariant entry == old(entry) && nameToAction == old(nameToAction)
        invariant FinishSteps(nameToAction, outputs[..i]) == Some(steps)
      {
        var (stepName, output) := outputs[i];
        var a := Get(nameToAction, stepName);
        if a.None? {
          FinishStepsMissing(nameToAction, outputs, i);
          return None;
        }
        FinishStepsSnoc(nameToAction, outputs, i);
        steps := steps + [AuditStep(stepName, a.value.id, a.value.pluginId, a.value.datasourceId, Some(output.error))];
      }
      assert outputs[..|outputs|] == outputs;
      if includeErrors != "true" {
        err := Some(REDACTED_ERROR);
      }
      entry := Some(Completed(entry.value, steps, err));
      r := send(entry.value);
    }
  }

  /** A step without an action leaves no finish steps. */
  lemma FinishStepsMissing(nameToAction: Record<Action>, outputs: Record<StepOutput>, i: nat)
    requires i < |outputs| && Get(nameToAction, outputs[i].0).None?
    ensures FinishSteps(nameToAction, outputs).None?
  {
  }

  /** The finish steps of one more output. */
  lemma FinishStepsSnoc(nameToAction: Record<Action>, outputs: Record<StepOutput>, i: nat)
    requires i < |outputs|
    requires FinishSteps(nameToAction, outputs[..i]).Some?
    requires Get(nameToAction, outputs[i].0).Some?
    ensures FinishSteps(nameToAction, outputs[..i + 1]).Some?
    ensures var a := Get(nameToAction, outputs[i].0).value;
      FinishSteps(nameToAction, outputs[..i + 1]).value ==
        FinishSteps(nameToAction, outputs[..i]).value +
        [AuditStep(outputs[i].0, a.id, a.pluginId, a.datasourceId, Some(outputs[i].1.error))]
  {
    assert outputs[..i + 1][..i] == outputs[..i];
  }

  /** `makeApiLogEvent`'s entry: entity type and id by trigger type, not
      ended, an API_RUN targeting the API. */
  function ApiLogEntry(api: Api, organizationId: string, isDeployed: bool, source: string, agentId: string): (e: AuditEntry)
    ensures api.triggerType == UI ==> e.entityType == Application && e.entityId == api.applicationId
    ensures api.triggerType == WorkflowTrigger ==> e.entityType == Workflow && e.entityId == api.id
    ensures api.triggerType == ScheduleTrigger ==> e.entityType == ScheduledJob && e.entityId == api.id
    ensures !e.ended && e.details.isApiRun && e.details.target == api.id && e.deployed == isDeployed
    ensures e.steps == [] && e.details.status.None?
  {
    var (entityType, entityId) :=
      match api.triggerType
      case UI => (Application, api.applicationId)
      case WorkflowTrigger => (Workflow, api.id)
      case ScheduleTrigger => (ScheduledJob, api.id);
    AuditEntry("", entityId, entityType, organizationId, isDeployed, false, source, agentId,
      AuditDetails(true, api.id, None, None, false), [])
  }

  /** `makeApiLogEvent`: a new record for the run of `api`. */
  method MakeApiLogEvent(api: Api, actions: Record<Action>, organizationId: string, isDeployed: bool,
                         source: string, agentId: string) returns (r: ApiRequestRecord)
    ensures fresh(r)
    ensures r.entry == Some(ApiLogEntry(api, organizationId, isDeployed, source, agentId))
    ensures r.nameToAction == NameIndex(Values(actions))
  {
    r := new ApiRequestRecord(ApiLogEntry(api, organizationId, isDeployed, source, agentId), actions);
  }
}
