/** The plugin versions the agent ships (src/utils/plugins.ts): the version
    table read from the package's dependency names and the queries on it. */
module Plugins {
  import opened Base
  import opened Strings

  const PLUGIN_PACKAGE_PREFIX := "sb-"

  /** A version as pushed: `parsedPlugin[2]`, which is `undefined` for a
      dependency name with fewer than three `-`-parts. */
  type Version = Option<string>

  /** The version table: plugin id to its versions. */
  type VersionTable = map<string, seq<Version>>

  /** `getAliasedPackageName`. */
  function AliasedPackageName(pluginName: string, pluginVersion: string): (r: string)
    ensures StartsWith(r, PLUGIN_PACKAGE_PREFIX)
  {
    var r := PLUGIN_PACKAGE_PREFIX + pluginName + "-" + pluginVersion;
    assert r[..3] == PLUGIN_PACKAGE_PREFIX;
    r
  }

  /** The plugin id and version read from a dependency name that starts
      with `sb-`: its second and third `-`-parts. */
  function ParseDependency(dep: string): (r: (string, Version))
    requires StartsWith(dep, PLUGIN_PACKAGE_PREFIX)
  {
    PrefixedParts(dep);
    var parts := Split(dep, "-");
    (parts[1], if |parts| > 2 then Some(parts[2]) else None)
  }

  /** A name starting with `sb-` has at least two `-`-parts, the first `sb`. */
  lemma PrefixedParts(dep: string)
    requires StartsWith(dep, PLUGIN_PACKAGE_PREFIX)
    ensures |Split(dep, "-")| >= 2 && Split(dep, "-")[0] == "sb"
  {
    assert dep == "sb" + ['-'] + dep[3..];
    SplitAtChar("sb", '-', dep[3..]);
  }

  /** Parsing an aliased package name gives back its parts, as long as they
      contain no `-`. */
  lemma ParseAliasedPackageName(pluginName: string, pluginVersion: string)
    requires '-' !in pluginName && '-' !in pluginVersion
    ensures ParseDependency(AliasedPackageName(pluginName, pluginVersion)) == (pluginName, Some(pluginVersion))
  {
    var dep := AliasedPackageName(pluginName, pluginVersion);
    assert dep == "sb" + ['-'] + (pluginName + ['-'] + pluginVersion);
    SplitAtChar("sb", '-', pluginName + ['-'] + pluginVersion);
    SplitAtChar(pluginName, '-', pluginVersion);
    SplitNoChar(pluginVersion, '-');
    assert Split(dep, "-") == ["sb", pluginName, pluginVersion];
  }

  /** The table before sorting after reading `deps` in order: each
      dependency that starts with `sb-` and names a registered plugin adds
      its version at the end of that plugin's list. */
  function Collected(deps: seq<string>, registered: set<string>): VersionTable
    decreases |deps|
  {
    if |deps| == 0 then map[]
    else
      var prior := Collected(deps[..|deps| - 1], registered);
      var dep := deps[|deps| - 1];
      if !StartsWith(dep, PLUGIN_PACKAGE_PREFIX) then prior
      else
        var (id, version) := ParseDependency(dep);
        if id !in registered then prior
        else prior[id := (if id in prior then prior[id] else []) + [version]]
  }

  /** Only registered plugins appear, each with at least one version, and
      every version of plugin `id` comes from a dependency naming it. */
  lemma {:induction false} CollectedShape(deps: seq<string>, registered: set<string>)
    ensures forall id :: id in Collected(deps, registered) ==> id in registered && |Collected(deps, registered)[id]| > 0
    ensures forall id :: id in Collected(deps, registered) ==>
      forall v :: v in Collected(deps, registered)[id] ==>
        exists i :: 0 <= i < |deps| && StartsWith(deps[i], PLUGIN_PACKAGE_PREFIX) && ParseDependency(deps[i]) == (id, v)
    decreases |deps|
  {
    if |deps| > 0 {
      var n := |deps| - 1;
      CollectedShape(deps[..n], registered);
      forall i | 0 <= i < n ensures deps[..n][i] == deps[i] { }
    }
  }

  /** JavaScript's default comparison of two strings: by character codes,
      a proper prefix first. */
  predicate LexLeq(a: string, b: string)
    decreases |a|
  {
    |a| == 0 || (|b| > 0 && (a[0] < b[0] || (a[0] == b[0] && LexLeq(a[1..], b[1..]))))
  }

  /** The default sort order on the versions: strings by `LexLeq`, with
      `undefined` after every string. */
  predicate VersionLeq(a: Version, b: Version) {
    match (a, b)
    case (_, None) => true
    case (None, Some(_)) => false
    case (Some(x), Some(y)) => LexLeq(x, y)
  }

  lemma {:induction false} LexTotal(a: string, b: string)
    ensures LexLeq(a, b) || LexLeq(b, a)
    decreases |a|
  {
    if |a| > 0 && |b| > 0 && a[0] == b[0] {
      LexTotal(a[1..], b[1..]);
    }
  }

  lemma {:induction false} LexTrans(a: string, b: string, c: string)
    requires LexLeq(a, b) && LexLeq(b, c)
    ensures LexLeq(a, c)
    decreases |a|
  {
    if |a| > 0 && a[0] == b[0] && b[0] == c[0] {
      LexTrans(a[1..], b[1..], c[1..]);
    }
  }

  lemma VersionTotal(a: Version, b: Version)
    ensures VersionLeq(a, b) || VersionLeq(b, a)
  {
    if a.Some? && b.Some? {
      LexTotal(a.value, b.value);
    }
  }

  predicate Sorted(vs: seq<Version>) {
    forall i, j :: 0 <= i < j < |vs| ==> VersionLeq(vs[i], vs[j])
  }

  /** `v` inserted into the sorted list `vs` before its first greater entry. */
  function Insert(v: Version, vs: seq<Version>): (r: seq<Version>)
    requires Sorted(vs)
    ensures Sorted(r) && multiset(r) == multiset(vs) + multiset{v}
    decreases |vs|
  {
    if |vs| == 0 then [v]
    else if VersionLeq(v, vs[0]) then
      InsertFront(v, vs);
      [v] + vs
    else
      var rest := Insert(v, vs[1..]);
      VersionTotal(v, vs[0]);
      InsertAfterFirst(vs, v, rest);
      assert vs == [vs[0]] + vs[1..];
      [vs[0]] + rest
  }

  lemma InsertFront(v: Version, vs: seq<Version>)
    requires Sorted(vs) && |vs| > 0 && VersionLeq(v, vs[0])
    ensures Sorted([v] + vs)
  {
    forall j | 1 <= j < |vs| + 1 ensures VersionLeq(v, ([v] + vs)[j]) {
      if j > 1 {
        VersionTrans(v, vs[0], vs[j - 1]);
      }
    }
  }

  lemma InsertAfterFirst(vs: seq<Version>, v: Version, rest: seq<Version>)
    requires Sorted(vs) && |vs| > 0 && VersionLeq(vs[0], v)
    requires Sorted(rest) && multiset(rest) == multiset(vs[1..]) + multiset{v}
    ensures Sorted([vs[0]] + rest)
  {
    forall j | 0 <= j < |rest| ensures VersionLeq(vs[0], rest[j]) {
      assert rest[j] in multiset(rest);
      if rest[j] != v {
        assert rest[j] in multiset(vs[1..]);
        var k :| 0 <= k < |vs[1..]| && vs[1..][k] == rest[j];
        assert vs[k + 1] == rest[j];
      }
    }
  }

  lemma VersionTrans(a: Version, b: Version, c: Version)
    requires VersionLeq(a, b) && VersionLeq(b, c)
    ensures VersionLeq(a, c)
  {
    if a.Some? && b.Some? && c.Some? {
      LexTrans(a.value, b.value, c.value);
    }
  }

  /** `versions.sort()`. */
  function SortVersions(vs: seq<Version>): (r: seq<Version>)
    ensures Sorted(r) && multiset(r) == multiset(vs)
    decreases |vs|
  {
    if |vs| == 0 then []
    else
      var r := Insert(vs[|vs| - 1], SortVersions(vs[..|vs| - 1]));
      assert vs == vs[..|vs| - 1] + [vs[|vs| - 1]];
      r
  }

  /** `getSupportedPluginVersionsMap`: reads the dependency names in order,
      pushing each version found, then sorts every list. */
  method GetSupportedPluginVersionsMap(deps: seq<string>, registered: set<string>) returns (table: VersionTable)
    ensures table.Keys == Collected(deps, registered).Keys
    ensures forall id :: id in table ==>
      Sorted(table[id]) && multiset(table[id]) == multiset(Collected(deps, registered)[id])
  {
    table := map[];
    var i := 0;
    while i < |deps|
      invariant 0 <= i <= |deps|
      invariant table == Collected(deps[..i], registered)
    {
      var dep := deps[i];
      assert deps[..i + 1][..i] == deps[..i];
      if StartsWith(dep, PLUGIN_PACKAGE_PREFIX) {
        var (id, version) := ParseDependency(dep);
        if id in registered {
          table := table[id := (if id in table then table[id] else []) + [version]];
        }
      }
      i := i + 1;
    }
    assert deps[..|deps|] == deps;
    var unsorted := table;
    var todo := table.Keys;
    while todo != {}
      invariant todo <= unsorted.Keys && table.Keys == unsorted.Keys
      invariant forall id :: id in table && id !in todo ==>
        Sorted(table[id]) && multiset(table[id]) == multiset(unsorted[id])
      invariant forall id :: id in todo ==> table[id] == unsorted[id]
      decreases todo
    {
      var id :| id in todo;
      table := table[id := SortVersions(table[id])];
      todo := todo - {id};
    }
  }

  /** `agentSupportsPlugin`: at least one version is shipped. */
  predicate SupportsPlugin(table: VersionTable, pluginId: string) {
    |if pluginId in table then table[pluginId] else []| > 0
  }

  /** `agentSupportsPluginVersion`: the version is one of those shipped. */
  predicate SupportsPluginVersion(table: VersionTable, pluginId: string, pluginVersion: string) {
    Some(pluginVersion) in (if pluginId in table then table[pluginId] else [])
  }

  /** Supporting a version implies supporting the plugin. */
  lemma SupportsVersionSupportsPlugin(table: VersionTable, pluginId: string, pluginVersion: string)
    ensures SupportsPluginVersion(table, pluginId, pluginVersion) ==> SupportsPlugin(table, pluginId)
    ensures SupportsPlugin(table, pluginId) <==> pluginId in table && table[pluginId] != []
  {
  }

  /** In the table read from the dependencies, a plugin is supported exactly
      when it has an entry. */
  lemma ShippedPluginsSupported(deps: seq<string>, registered: set<string>, table: VersionTable)
    requires table.Keys == Collected(deps, registered).Keys
    requires forall id :: id in table ==> multiset(table[id]) == multiset(Collected(deps, registered)[id])
    ensures forall id :: SupportsPlugin(table, id) <==> id in Collected(deps, registered)
  {
    CollectedShape(deps, registered);
    forall id | id in table ensures |table[id]| > 0 {
      assert |multiset(table[id])| == |multiset(Collected(deps, registered)[id])|;
    }
  }
}
