/** Helpers of the executor (src/utils/executor.ts): child step names and
    the plugin version a step is run with. */
module ExecutorUtils {
  import opened Base
  import opened Records
  import opened Model
  import opened Plugins

  /** `getAction(id, apiDef)`, as far as the agent relies on it: the entry
      for `id` in the action table, or nothing. */
  function LookupAction(apiDef: ApiDetails, id: string): Option<Action> {
    match apiDef.actions
    case None => None
    case Some(table) => Get(table, id)
  }

  /** The names of the actions `ids` refer to, or `None` if one is missing. */
  function ActionNames(apiDef: ApiDetails, ids: seq<string>): (r: Option<seq<string>>)
    ensures r.Some? <==> forall i :: 0 <= i < |ids| ==> LookupAction(apiDef, ids[i]).Some?
    ensures r.Some? ==> |r.value| == |ids|
    ensures r.Some? ==> forall i :: 0 <= i < |ids| ==> r.value[i] == LookupAction(apiDef, ids[i]).value.name
    decreases |ids|
  {
    if |ids| == 0 then Some([])
    else
      var a := LookupAction(apiDef, ids[0]);
      var rest := ActionNames(apiDef, ids[1..]);
      if a.None? then None
      else if rest.None? then
        var j :| 0 <= j < |ids[1..]| && LookupAction(apiDef, ids[1..][j]).None?;
        assert ids[j + 1] == ids[1..][j];
        None
      else
        var names := [a.value.name] + rest.value;
        assert forall i :: 1 <= i < |ids| ==> ids[i] == ids[1..][i - 1] && names[i] == rest.value[i - 1];
        Some(names)
  }

  /** `getChildActionNames`: one name per child entry, in entry order; any
      failed lookup becomes a `NotFoundError`. */
  function GetChildActionNames(action: Action, apiDef: ApiDetails): (r: Result<seq<string>>)
    ensures r.Ok? <==> forall i :: 0 <= i < |action.children| ==> LookupAction(apiDef, action.children[i].1).Some?
    ensures r.Ok? ==> |r.value| == |action.children|
    ensures r.Ok? ==> forall i :: 0 <= i < |action.children| ==>
      r.value[i] == LookupAction(apiDef, action.children[i].1).value.name
    ensures r.Err? ==>
      r.fault == Raise(NotFound, "Failed to get child action names for action " + action.id + " in API " + apiDef.name)
  {
    match ActionNames(apiDef, ChildActionIds(action))
    case Some(names) => Ok(names)
    case None => Err(Raise(NotFound, "Failed to get child action names for action " + action.id + " in API " + apiDef.name))
  }

  /** The version `loadPluginModule` loads: an unsupported plugin fails;
      a missing or unshipped version is replaced by the last (highest
      sorted) shipped one. */
  method SelectPluginVersion(table: VersionTable, pluginId: string, pluginVersion: Option<string>)
    returns (r: Result<Version>)
    ensures !SupportsPlugin(table, pluginId) ==>
      r == Err(Raise(InternalServer, "Specified plugin ID '" + pluginId + "' is not supported"))
    ensures SupportsPlugin(table, pluginId) ==> r.Ok? && r.value in table[pluginId]
    ensures (SupportsPlugin(table, pluginId) && pluginVersion.Some? && pluginVersion.value != "" &&
             SupportsPluginVersion(table, pluginId, pluginVersion.value)) ==> r == Ok(pluginVersion)
    ensures (SupportsPlugin(table, pluginId) &&
             (pluginVersion.None? || pluginVersion.value == "" || !SupportsPluginVersion(table, pluginId, pluginVersion.value))) ==>
      r == Ok(table[pluginId][|table[pluginId]| - 1])
  {
    if !SupportsPlugin(table, pluginId) {
      return Err(Raise(InternalServer, "Specified plugin ID '" + pluginId + "' is not supported"));
    }
    var version: Version := pluginVersion;
    if pluginVersion.None? || pluginVersion.value == "" || !SupportsPluginVersion(table, pluginId, pluginVersion.value) {
      var versions := table[pluginId];
      version := versions[|versions| - 1];
    }
    r := Ok(version);
  }
}
