/** The API controller (src/controllers/api.ts): fetch a definition from the
    control plane, turn cookies into auth contexts and forwarded cookies,
    keep the path of running workflows, and hand the definition to the
    executor. */
module ApiController {
  import opened Base
  import opened Strings
  import opened Records
  import opened Model
  import opened ErrorTags
  import opened Url
  import opened Audit
  import opened Executor

  /** The path `fetchApi` posts to: `workflows/<id>` for a workflow and
      `api/<id>` otherwise, with the published flag and the environment as
      query parameters. */
  function FetchPath(apiId: string, isPublished: bool, environment: string, isWorkflow: bool): (p: string)
    ensures isWorkflow ==> StartsWith(p, "workflows/" + apiId + "?isPublished=" + BoolToString(isPublished))
    ensures !isWorkflow ==> StartsWith(p, "api/" + apiId + "?isPublished=" + BoolToString(isPublished))
    ensures EndsWith(p, "&environment=" + environment)
    ensures |p| == |if isWorkflow then "workflows/" else "api/"| + |apiId| + |"?isPublished="| +
      |BoolToString(isPublished)| + |"&environment="| + |environment|
  {
    var head := (if isWorkflow then "workflows/" else "api/") + apiId + "?isPublished=" + BoolToString(isPublished);
    var tail := "&environment=" + environment;
    ConcatEnds(head, tail);
    head + tail
  }

  /** `fetchApi`: the definition the control plane returns; a failure is
      rethrown tagged with the API id. */
  function FetchApi(apiId: string, isPublished: bool, environment: string, isWorkflow: bool, cloudBase: string,
                    post: string -> Result<ApiDefinition>): (r: Result<ApiDefinition>)
    ensures var answer := post(BuildCloudUrl(cloudBase, FetchPath(apiId, isPublished, environment, isWorkflow)));
      (r.Ok? <==> answer.Ok?) && (r.Ok? ==> r.value == answer.value) &&
      (r.Err? ==> r.fault == TagFault(answer.fault, map["apiId" := apiId]))
  {
    match post(BuildCloudUrl(cloudBase, FetchPath(apiId, isPublished, environment, isWorkflow)))
    case Ok(apiDef) => Ok(apiDef)
    case Err(e) => Err(TagFault(e, map["apiId" := apiId]))
  }

  /** `Object.assign({}, parentAuthContexts, apiDef.authContext)`: the API's
      own auth contexts win over those from cookies. */
  function MergeAuthContexts(parent: AuthContexts, own: AuthContexts): (r: AuthContexts)
    ensures r.Keys == parent.Keys + own.Keys
    ensures forall k :: k in own ==> r[k] == own[k]
    ensures forall k :: k in parent && k !in own ==> r[k] == parent[k]
  {
    parent + own
  }

  /** `validateApiDefinition`. */
  function ValidateApiDefinition(apiDef: ApiDefinition): (r: Outcome)
    ensures r == Pass <==> apiDef.api.Some? && apiDef.api.value.actions.Some?
    ensures apiDef.api.None? ==> r == Fail(Raise(NotFound, "API not found"))
    ensures apiDef.api.Some? && apiDef.api.value.actions.None? ==> r == Fail(Raise(NotFound, "API action is empty"))
  {
    if apiDef.api.None? then Fail(Raise(NotFound, "API not found"))
    else if apiDef.api.value.actions.None? then Fail(Raise(NotFound, "API action is empty"))
    else Pass
  }

  /** What a failed fetch becomes: an error to rethrow, or a response whose
      context carries the message, with nothing executed. */
  datatype FetchFailure = Rethrow(fault: Fault) | ErrorResponse(response: ApiExecutionResponse)

  /** The `catch` of the fetch in `fetchAndExecute`. */
  function MapFetchError(f: Fault, apiId: string): (r: FetchFailure)
    ensures f.httpStatus == Some(401) && f.cls == RbacUnauthorized ==> r == Rethrow(f)
    ensures f.httpStatus == Some(401) && f.cls != RbacUnauthorized ==>
      r == Rethrow(Raise(Unauthorized, "The execution is not authorized: " + f.message))
    ensures f.httpStatus == Some(429) ==> r == Rethrow(Raise(TooManyRequests, "Too many requests: " + f.message))
    ensures f.httpStatus != Some(401) && f.httpStatus != Some(429) ==>
      r == ErrorResponse(ApiExecutionResponse(apiId, EmptyContext.(error := f.message)))
  {
    if f.httpStatus == Some(401) then
      if f.cls == RbacUnauthorized then Rethrow(f)
      else Rethrow(Raise(Unauthorized, "The execution is not authorized: " + f.message))
    else if f.httpStatus == Some(429) then Rethrow(Raise(TooManyRequests, "Too many requests: " + f.message))
    else ErrorResponse(ApiExecutionResponse(apiId, EmptyContext.(error := f.message)))
  }

  /** The mapping keeps the HTTP status: exactly the 401 and 429 failures
      are rethrown, as errors with the same status, and any other failure
      becomes a response with an empty context but for its error. */
  lemma FetchErrorStatusKept(f: Fault, apiId: string)
    ensures MapFetchError(f, apiId).Rethrow? <==> f.httpStatus == Some(401) || f.httpStatus == Some(429)
    ensures MapFetchError(f, apiId).Rethrow? ==> MapFetchError(f, apiId).fault.httpStatus == f.httpStatus
    ensures MapFetchError(f, apiId).ErrorResponse? ==>
      var c := MapFetchError(f, apiId).response.context;
      c.globals == map[] && c.outputs == [] && c.errorContext.None? && c.error == f.message
  {
  }

  // ----- Cookies -----

  /** `knownSuffixes`: `-<token type>` mapped to the token type. */
  function KnownSuffixes(tokens: seq<string>): (r: Record<string>)
    ensures forall i :: 0 <= i < |r| ==> r[i].0 == "-" + r[i].1
    ensures forall i :: 0 <= i < |tokens| ==> "-" + tokens[i] in Keys(r)
    decreases |tokens|
  {
    if |tokens| == 0 then []
    else
      var n := |tokens| - 1;
      var r := KnownSuffixes(tokens[..n]);
      var p := Put(r, "-" + tokens[n], tokens[n]);
      SuffixEntriesPut(r, tokens[n]);
      assert forall i :: 0 <= i < |tokens| ==> "-" + tokens[i] in Keys(p) by {
        forall i | 0 <= i < |tokens| ensures "-" + tokens[i] in Keys(p) {
          if i < n {
            assert tokens[..n][i] == tokens[i];
          }
        }
      }
      p
  }

  /** Adding a token keeps every entry a suffix of its own token's name,
      and keeps the suffixes already present. */
  lemma SuffixEntriesPut(r: Record<string>, t: string)
    requires forall i :: 0 <= i < |r| ==> r[i].0 == "-" + r[i].1
    ensures var p := Put(r, "-" + t, t);
      (forall i :: 0 <= i < |p| ==> p[i].0 == "-" + p[i].1) &&
      (forall k :: k in Keys(r) ==> k in Keys(p)) && "-" + t in Keys(p)
  {
    var p := Put(r, "-" + t, t);
    PutEntries(r, "-" + t, t);
    PutKeys(r, "-" + t, t);
    forall i | 0 <= i < |p| ensures p[i].0 == "-" + p[i].1 {
      if p[i] != ("-" + t, t) {
        var j :| 0 <= j < |r| && r[j] == p[i];
      }
    }
  }

  /** A forwarded cookie: the domain and value it carries. */
  datatype ForwardedCookie = ForwardedCookie(domain: string, value: string)

  /** `s.split(delimiter)`; an empty delimiter splits into characters. */
  function SplitOn(s: string, delimiter: string): (parts: seq<string>)
    ensures |delimiter| == 0 ==> |parts| == |s|
  {
    if |delimiter| == 0 then seq(|s|, i requires 0 <= i < |s| => [s[i]]) else Split(s, delimiter)
  }

  /** What the cookie loop builds. */
  datatype CookieState = CookieState(forwarded: map<string, ForwardedCookie>, auth: AuthContexts)

  /** `parentAuthContexts[authId].push(variable)`, starting a list when the
      id has none. */
  function PushAuthVariable(auth: AuthContexts, authId: string, v: AuthVariable): (r: AuthContexts)
    ensures r.Keys == auth.Keys + {authId}
    ensures r[authId] == (if authId in auth then auth[authId] else []) + [v]
    ensures forall id :: id in auth && id != authId ==> r[id] == auth[id]
  {
    auth[authId := (if authId in auth then auth[authId] else []) + [v]]
  }

  /** The auth ids a cookie key yields: for each known suffix it ends with,
      the key with the first occurrence of that suffix removed. */
  function SuffixIds(key: string, suffixes: Record<string>): set<string> {
    set i | 0 <= i < |suffixes| && EndsWith(key, suffixes[i].0) :: ReplaceFirst(key, suffixes[i].0, "")
  }

  /** The inner loop over the known suffixes for one cookie: a variable is
      appended for each suffix the key ends with, and nothing is removed. */
  function SuffixPass(auth: AuthContexts, key: string, value: string, suffixes: Record<string>): (r: AuthContexts)
    ensures r.Keys == auth.Keys + SuffixIds(key, suffixes)
    ensures forall id :: id in auth ==> |auth[id]| <= |r[id]| && r[id][..|auth[id]|] == auth[id]
    ensures SuffixIds(key, suffixes) == {} ==> r == auth
    decreases |suffixes|
  {
    if |suffixes| == 0 then auth
    else
      var n := |suffixes| - 1;
      var a := SuffixPass(auth, key, value, suffixes[..n]);
      SuffixIdsSnoc(key, suffixes);
      if EndsWith(key, suffixes[n].0) then
        var authId := ReplaceFirst(key, suffixes[n].0, "");
        var r := PushAuthVariable(a, authId, AuthVariable(suffixes[n].1, value, None));
        assert forall id :: id in auth ==> |auth[id]| <= |r[id]| && r[id][..|auth[id]|] == auth[id] by {
          forall id | id in auth ensures |auth[id]| <= |r[id]| && r[id][..|auth[id]|] == auth[id] {
            if id == authId {
              assert r[id][..|a[id]|] == a[id];
              assert r[id][..|auth[id]|] == a[id][..|auth[id]|];
            }
          }
        }
        r
      else a
  }

  /** The auth ids of a suffix table, one suffix at a time. */
  lemma SuffixIdsSnoc(key: string, suffixes: Record<string>)
    requires |suffixes| > 0
    ensures var n := |suffixes| - 1;
      SuffixIds(key, suffixes) == SuffixIds(key, suffixes[..n]) +
        (if EndsWith(key, suffixes[n].0) then {ReplaceFirst(key, suffixes[n].0, "")} else {})
  {
    var n := |suffixes| - 1;
    forall id | id in SuffixIds(key, suffixes)
      ensures id in SuffixIds(key, suffixes[..n]) || (EndsWith(key, suffixes[n].0) && id == ReplaceFirst(key, suffixes[n].0, ""))
    {
      var i :| 0 <= i < |suffixes| && EndsWith(key, suffixes[i].0) && id == ReplaceFirst(key, suffixes[i].0, "");
      if i < n { assert suffixes[..n][i] == suffixes[i]; }
    }
    forall id | id in SuffixIds(key, suffixes[..n])
      ensures id in SuffixIds(key, suffixes)
    {
      var i :| 0 <= i < n && EndsWith(key, suffixes[..n][i].0) && id == ReplaceFirst(key, suffixes[..n][i].0, "");
      assert suffixes[..n][i] == suffixes[i];
    }
  }

  /** One iteration of the cookie loop. A cookie with the forwarding prefix
      never feeds the auth contexts; it is forwarded under the second part of
      its name when the rest of its name splits into exactly two parts. */
  function CookieStep(st: CookieState, key: string, value: string, lib: LibraryConstants): (r: CookieState)
    ensures StartsWith(key, lib.forwardedCookiePrefix) ==> r.auth == st.auth
    ensures StartsWith(key, lib.forwardedCookiePrefix) ==>
      var parts := SplitOn(ReplaceFirst(key, lib.forwardedCookiePrefix, ""), lib.forwardedCookieDelimiter);
      (|parts| == 2 ==> r.forwarded == st.forwarded[parts[1] := ForwardedCookie(parts[0], value)]) &&
      (|parts| != 2 ==> r == st)
    ensures !StartsWith(key, lib.forwardedCookiePrefix) ==>
      r.forwarded == st.forwarded && r.auth == SuffixPass(st.auth, key, value, KnownSuffixes(lib.userAccessibleTokens))
  {
    if StartsWith(key, lib.forwardedCookiePrefix) then
      var keyToSplit := ReplaceFirst(key, lib.forwardedCookiePrefix, "");
      var parts := SplitOn(keyToSplit, lib.forwardedCookieDelimiter);
      if |parts| != 2 then st
      else st.(forwarded := st.forwarded[parts[1] := ForwardedCookie(parts[0], value)])
    else st.(auth := SuffixPass(st.auth, key, value, KnownSuffixes(lib.userAccessibleTokens)))
  }

  /** The auth ids the cookies yield: those of every cookie without the
      forwarding prefix. */
  function CookieAuthIds(cookies: Record<string>, lib: LibraryConstants): set<string> {
    set i, id | 0 <= i < |cookies| && !StartsWith(cookies[i].0, lib.forwardedCookiePrefix) &&
      id in SuffixIds(cookies[i].0, KnownSuffixes(lib.userAccessibleTokens)) :: id
  }

  /** The state after the cookie loop, in entry order. Exactly the auth ids
      of the unprefixed cookies get auth contexts. */
  function ParsedCookies(cookies: Record<string>, lib: LibraryConstants): (r: CookieState)
    ensures r.auth.Keys == CookieAuthIds(cookies, lib)
    decreases |cookies|
  {
    if |cookies| == 0 then CookieState(map[], map[])
    else
      var n := |cookies| - 1;
      var st := ParsedCookies(cookies[..n], lib);
      var r := CookieStep(st, cookies[n].0, cookies[n].1, lib);
      CookieAuthIdsSnoc(cookies, lib);
      r
  }

  /** The auth ids of the cookies, one cookie at a time. */
  lemma CookieAuthIdsSnoc(cookies: Record<string>, lib: LibraryConstants)
    requires |cookies| > 0
    ensures var n := |cookies| - 1;
      CookieAuthIds(cookies, lib) == CookieAuthIds(cookies[..n], lib) +
        (if StartsWith(cookies[n].0, lib.forwardedCookiePrefix) then {}
         else SuffixIds(cookies[n].0, KnownSuffixes(lib.userAccessibleTokens)))
  {
    var n := |cookies| - 1;
    var suffixes := KnownSuffixes(lib.userAccessibleTokens);
    forall id | id in CookieAuthIds(cookies, lib)
      ensures id in CookieAuthIds(cookies[..n], lib) ||
        (!StartsWith(cookies[n].0, lib.forwardedCookiePrefix) && id in SuffixIds(cookies[n].0, suffixes))
    {
      var i :| 0 <= i < |cookies| && !StartsWith(cookies[i].0, lib.forwardedCookiePrefix) &&
        id in SuffixIds(cookies[i].0, suffixes);
      if i < n { assert cookies[..n][i] == cookies[i]; }
    }
    forall id | id in CookieAuthIds(cookies[..n], lib)
      ensures id in CookieAuthIds(cookies, lib)
    {
      var i :| 0 <= i < n && !StartsWith(cookies[..n][i].0, lib.forwardedCookiePrefix) &&
        id in SuffixIds(cookies[..n][i].0, suffixes);
      assert cookies[..n][i] == cookies[i];
    }
  }

  /** A cookie with the forwarding prefix, wherever it comes, leaves the
      auth contexts as they are. */
  lemma ForwardedCookieNoAuth(cookies: Record<string>, key: string, value: string, lib: LibraryConstants)
    requires StartsWith(key, lib.forwardedCookiePrefix)
    ensures ParsedCookies(cookies + [(key, value)], lib).auth == ParsedCookies(cookies, lib).auth
  {
    assert (cookies + [(key, value)])[..|cookies|] == cookies;
  }

  /** The cookie loop's state after one more cookie. */
  lemma ParsedCookiesSnoc(entries: Record<string>, i: nat, lib: LibraryConstants)
    requires i < |entries|
    ensures ParsedCookies(entries[..i + 1], lib) ==
      CookieStep(ParsedCookies(entries[..i], lib), entries[i].0, entries[i].1, lib)
  {
    assert entries[..i + 1][..i] == entries[..i];
  }

  /** The suffix loop's auth contexts after one more suffix. */
  lemma SuffixPassSnoc(auth: AuthContexts, key: string, value: string, suffixes: Record<string>, j: nat)
    requires j < |suffixes|
    ensures SuffixPass(auth, key, value, suffixes[..j + 1]) ==
      var a := SuffixPass(auth, key, value, suffixes[..j]);
      if EndsWith(key, suffixes[j].0) then
        PushAuthVariable(a, ReplaceFirst(key, suffixes[j].0, ""), AuthVariable(suffixes[j].1, value, None))
      else a
  {
    assert suffixes[..j + 1][..j] == suffixes[..j];
  }

  /** The cookie loop of `fetchAndExecute`, with its inner loop over the
      known suffixes. */
  method ParseCookies(cookies: Option<Record<string>>, lib: LibraryConstants)
    returns (forwardedCookies: map<string, ForwardedCookie>, parentAuthContexts: AuthContexts)
    ensures CookieState(forwardedCookies, parentAuthContexts) == ParsedCookies(cookies.GetOr([]), lib)
  {
    var knownSuffixes := KnownSuffixes(lib.userAccessibleTokens);
    var entries := cookies.GetOr([]);
    forwardedCookies, parentAuthContexts := map[], map[];
    for i := 0 to |entries|
      invariant CookieState(forwardedCookies, parentAuthContexts) == ParsedCookies(entries[..i], lib)
    {
      ParsedCookiesSnoc(entries, i, lib);
      var (cookieKey, tokenValue) := entries[i];
      if StartsWith(cookieKey, lib.forwardedCookiePrefix) {
        var keyToSplit := ReplaceFirst(cookieKey, lib.forwardedCookiePrefix, "");
        var parts := SplitOn(keyToSplit, lib.forwardedCookieDelimiter);
        if |parts| == 2 {
          forwardedCookies := forwardedCookies[parts[1] := ForwardedCookie(parts[0], tokenValue)];
        }
      } else {
        ghost var before := parentAuthContexts;
        for j := 0 to |knownSuffixes|
          invariant parentAuthContexts == SuffixPass(before, cookieKey, tokenValue, knownSuffixes[..j])
        {
          SuffixPassSnoc(before, cookieKey, tokenValue, knownSuffixes, j);
          var (knownSuffix, variableKey) := knownSuffixes[j];
          if EndsWith(cookieKey, knownSuffix) {
            var authId := ReplaceFirst(cookieKey, knownSuffix, "");
            parentAuthContexts := PushAuthVariable(parentAuthContexts, authId, AuthVariable(variableKey, tokenValue, None));
          }
        }
        assert knownSuffixes[..|knownSuffixes|] == knownSuffixes;
      }
    }
    assert entries[..|entries|] == entries;
  }

  // ----- The path of running workflows -----

  /** `findIndex` by id: the first entry with the id, or -1. */
  function FindIndex(entries: seq<PathEntry>, id: string): (i: int)
    ensures -1 <= i < |entries|
    ensures i == -1 <==> forall j :: 0 <= j < |entries| ==> entries[j].id != id
    ensures i >= 0 ==> entries[i].id == id && forall j :: 0 <= j < i ==> entries[j].id != id
    decreases |entries|
  {
    if |entries| == 0 then -1
    else if entries[0].id == id then 0
    else
      var i := FindIndex(entries[1..], id);
      assert forall j :: 1 <= j < |entries| ==> entries[1..][j - 1] == entries[j];
      if i == -1 then -1 else i + 1
  }

  /** `splice(start)` with one argument: everything from `start` on is
      removed, a negative start counting from the end. */
  function Splice(entries: seq<PathEntry>, start: int): (r: seq<PathEntry>)
    ensures start >= 0 ==> r == entries[..if start < |entries| then start else |entries|]
    ensures start < 0 ==> r == entries[..if |entries| + start > 0 then |entries| + start else 0]
  {
    var k := if start >= 0 then (if start < |entries| then start else |entries|)
             else (if |entries| + start > 0 then |entries| + start else 0);
    entries[..k]
  }

  /** Removing self after a run restores the path as it was before the
      push, when the workflow was not on it already. */
  lemma PathRestored(entries: seq<PathEntry>, e: PathEntry)
    requires forall j :: 0 <= j < |entries| ==> entries[j].id != e.id
    ensures Splice(entries + [e], FindIndex(entries + [e], e.id)) == entries
  {
    var p := entries + [e];
    assert forall j :: 0 <= j < |entries| ==> p[j] == entries[j];
    assert p[|entries|].id == e.id;
    assert p[..|entries|] == entries;
  }

  /** A workflow that was already on the path cuts the path back to its
      first occurrence: the entries pushed after it are lost too. */
  lemma PathCutAtFirstVisit(entries: seq<PathEntry>, e: PathEntry, k: nat)
    requires k < |entries| && entries[k].id == e.id
    requires forall j :: 0 <= j < k ==> entries[j].id != e.id
    ensures Splice(entries + [e], FindIndex(entries + [e], e.id)) == entries[..k]
  {
    var p := entries + [e];
    var i := FindIndex(p, e.id);
    assert p[k] == entries[k];
    assert i != -1;
    assert i == k;
    assert p[..k] == entries[..k];
  }

  /** With the workflow missing from the path, `splice(-1)` drops the last
      entry, whoever it belongs to. */
  lemma PathMissingDropsLast(entries: seq<PathEntry>, id: string)
    requires |entries| > 0
    requires forall j :: 0 <= j < |entries| ==> entries[j].id != id
    ensures Splice(entries, FindIndex(entries, id)) == entries[..|entries| - 1]
  {
  }

  /** `executedWorkflowsPath.push(entry)`. */
  method PushPath(path: WorkflowPath, e: PathEntry)
    modifies path
    ensures path.entries == old(path.entries) + [e]
  {
    path.entries := path.entries + [e];
  }

  /** `executedWorkflowsPath.splice(findIndex(...))`. */
  method RemoveFromPath(path: WorkflowPath, id: string)
    modifies path
    ensures path.entries == Splice(old(path.entries), FindIndex(old(path.entries), id))
  {
    var idx := -1;
    var i := 0;
    while i < |path.entries|
      invariant 0 <= i <= |path.entries|
      invariant forall j :: 0 <= j < i ==> path.entries[j].id != id
      invariant FindIndex(path.entries, id) == -1 || i <= FindIndex(path.entries, id)
    {
      if path.entries[i].id == id {
        idx := i;
        break;
      }
      i := i + 1;
    }
    assert idx == FindIndex(path.entries, id);
    path.entries := Splice(path.entries, idx);
  }

  // ----- executeApiFunc -----

  /** How `executeApiFunc` ends: with a response (`None` for the
      `undefined` read from a rejected execution), by throwing, or never. */
  datatype ApiRun = Completed(response: Option<ApiExecutionResponse>) | Failed(fault: Fault) | Stuck

  /** `Object.values` of a missing action table. */
  const NO_ACTION_TABLE := Raise(TypeErrorClass, "Cannot convert undefined or null to object")

  /** `executeApiFunc` as written: the audit record is made before the
      `try`, so a definition without an API or without actions fails there
      with an untagged `TypeError`; and the executor's rejection is read
      from `Promise.allSettled` as the `value` of a rejected result, which
      is `undefined`. */
  function ExecuteApiAsWritten(apiDef: ApiDefinition, params: seq<ExecutionParam>, environment: string,
                               parent: AuthContexts, rc: RecursionContext, agent: Agent, fuel: nat): (r: ApiRun)
    ensures apiDef.api.None? ==> r.Failed? && r.fault.cls == TypeErrorClass && r.fault.tags.None?
  {
    match apiDef.api
    case None => Failed(Raise(TypeErrorClass, "Cannot read properties of undefined (reading 'triggerType')"))
    case Some(api) =>
      match api.actions
      case None => Failed(Raise(TypeErrorClass, "Cannot read properties of undefined (reading 'actions')"))
      case Some(details) =>
        if details.actions.None? then Failed(NO_ACTION_TABLE)
        else
          match ExecutionOf(apiDef, params, environment, MergeAuthContexts(parent, apiDef.authContext), rc, agent, fuel)
          case Responded(resp) => Completed(Some(resp))
          case Threw(_) => Completed(None)
          case Hangs => Stuck
  }

  /** The tags of `executeApiFunc`: the API id, when there is an API. */
  function ApiTags(apiDef: ApiDefinition): Tags {
    if apiDef.api.Some? then map["apiId" := apiDef.api.value.id] else map[]
  }

  /** `executeApiFunc` as its comment promises it ("all errors will be
      tagged"): the definition is validated first, the record is made
      inside the `try`, and a rejected execution is rethrown. */
  function ExecuteApi(apiDef: ApiDefinition, params: seq<ExecutionParam>, environment: string,
                      parent: AuthContexts, rc: RecursionContext, agent: Agent, fuel: nat): (r: ApiRun)
    ensures r.Failed? ==> r.fault.tags.Some? && forall k :: k in ApiTags(apiDef) ==> k in r.fault.tags.value
    ensures r != Completed(None)
    ensures ValidateApiDefinition(apiDef).Fail? ==> r == Failed(TagFault(ValidateApiDefinition(apiDef).fault, ApiTags(apiDef)))
  {
    var tags := ApiTags(apiDef);
    match ValidateApiDefinition(apiDef)
    case Fail(e) =>
      Failed(TagFault(e, tags))
    case Pass =>
      if apiDef.api.value.actions.value.actions.None? then
        Failed(TagFault(NO_ACTION_TABLE, tags))
      else
        match ExecutionOf(apiDef, params, environment, MergeAuthContexts(parent, apiDef.authContext), rc, agent, fuel)
        case Responded(resp) => Completed(Some(resp))
        case Threw(f) =>
          Failed(TagFault(f, tags))
        case Hangs => Stuck
  }

  /** Both versions agree whenever the execution completes. */
  lemma ExecuteApiAgrees(apiDef: ApiDefinition, params: seq<ExecutionParam>, environment: string,
                         parent: AuthContexts, rc: RecursionContext, agent: Agent, fuel: nat)
    requires apiDef.api.Some? && apiDef.api.value.actions.Some? && apiDef.api.value.actions.value.actions.Some?
    requires !ExecutionOf(apiDef, params, environment, MergeAuthContexts(parent, apiDef.authContext), rc, agent, fuel).Threw?
    ensures ExecuteApiAsWritten(apiDef, params, environment, parent, rc, agent, fuel) ==
      ExecuteApi(apiDef, params, environment, parent, rc, agent, fuel)
  {
  }

  /** As written, a trigger id missing from a non-empty action table makes
      the executor throw, and `executeApiFunc` returns an `undefined`
      response instead of the tagged error. */
  lemma RejectionLostAsWritten(apiDef: ApiDefinition, params: seq<ExecutionParam>, environment: string,
                               parent: AuthContexts, rc: RecursionContext, agent: Agent, fuel: nat)
    requires apiDef.api.Some? && apiDef.api.value.actions.Some?
    requires var details := apiDef.api.value.actions.value;
      details.actions.Some? && |details.actions.value| > 0 && details.triggerActionId !in Keys(details.actions.value)
    ensures ExecuteApiAsWritten(apiDef, params, environment, parent, rc, agent, fuel) == Completed(None)
    ensures var r := ExecuteApi(apiDef, params, environment, parent, rc, agent, fuel);
      var details := apiDef.api.value.actions.value;
      r.Failed? && r.fault.cls == NotFound && r.fault.message == "Action " + details.triggerActionId + " not found"
  {
  }

  /** As written, a definition without an API fails with an untagged
      `TypeError` before `validateApiDefinition` is reached; the corrected
      version throws its tagged `API not found`. */
  lemma MissingApiAsWritten(apiDef: ApiDefinition, params: seq<ExecutionParam>, environment: string,
                            parent: AuthContexts, rc: RecursionContext, agent: Agent, fuel: nat)
    requires apiDef.api.None?
    ensures var r := ExecuteApiAsWritten(apiDef, params, environment, parent, rc, agent, fuel);
      r.Failed? && r.fault.cls != NotFound && r.fault.tags.None?
    ensures var r := ExecuteApi(apiDef, params, environment, parent, rc, agent, fuel);
      r.Failed? && r.fault.cls == NotFound && r.fault.message == "API not found" && r.fault.tags.Some?
  {
  }

  /** `executeApiFunc`, as corrected. The audit record is made for a valid
      definition and started beside the execution; its outcome is not
      looked at. */
  method ExecuteApiFunc(apiDef: ApiDefinition, isPublished: bool, params: seq<ExecutionParam>, environment: string,
                        parent: AuthContexts, rc: RecursionContext, agent: Agent, fuel: nat, agentId: string,
                        send: AuditEntry -> Option<AuditEntry>)
    returns (r: ApiRun, apiRecord: Option<ApiRequestRecord>)
    ensures r == ExecuteApi(apiDef, params, environment, parent, rc, agent, fuel)
    ensures apiRecord.Some? ==> fresh(apiRecord.value)
  {
    var authContexts := MergeAuthContexts(parent, apiDef.authContext);
    var tags := ApiTags(apiDef);
    apiRecord := None;
    var valid := ValidateApiDefinition(apiDef);
    if valid.Fail? {
      return Failed(TagFault(valid.fault, tags)), None;
    }
    var api := apiDef.api.value;
    var actions := api.actions.value;
    if actions.actions.None? {
      return Failed(TagFault(NO_ACTION_TABLE, tags)), None;
    }
    var source := apiDef.requester.GetOr("Unknown");
    var record := MakeApiLogEvent(api, actions.actions.value, apiDef.organizationId, isPublished, source, agentId);
    apiRecord := Some(record);
    var apiExecutor := new ApiExecutor();
    var execution := apiExecutor.Execute(apiDef, params, environment, authContexts, rc, agent, fuel);
    var _ := record.Start(send);
    match execution {
      case Responded(resp) => r := Completed(Some(resp));
      case Threw(f) => r := Failed(TagFault(f, tags));
      case Hangs => r := Stuck;
    }
  }

  // ----- fetchAndExecute -----

  /** How `fetchAndExecute` returns: the error response of a failed fetch
      (nothing executed), or a run's response with the organization id; or
      it never returns. */
  datatype Served = NotExecuted(errorResponse: ApiExecutionResponse) | Executed(response: Option<ApiExecutionResponse>, orgId: string) | NeverReturns

  /** The inputs of one `fetchAndExecute` call, besides the path. */
  datatype ApiRequest = ApiRequest(
    apiId: string,
    isPublished: bool,
    environment: string,
    isWorkflow: bool,
    cookies: Option<Record<string>>,
    params: seq<ExecutionParam>)

  /** What `fetchAndExecute` reaches outward to: the control plane, the
      library constants, the agent and its id, the audit endpoint. */
  datatype Controller = Controller(
    cloudBase: string,
    post: string -> Result<ApiDefinition>,
    lib: LibraryConstants,
    agent: Agent,
    agentId: string,
    send: AuditEntry -> Option<AuditEntry>)

  /** `fetchAndExecute` over `executeApiFunc` as written (`asWritten`) or
      as corrected: its result and the workflow path it leaves. A workflow
      is pushed on the path before it runs and removed after it returns;
      when it throws, its entry stays. */
  function FetchAndExecuteBy(req: ApiRequest, path: seq<PathEntry>, rc: RecursionContext, ctl: Controller, fuel: nat,
                             asWritten: bool)
    : (r: (Result<Served>, seq<PathEntry>))
    ensures !req.isWorkflow ==> r.1 == path
  {
    match FetchApi(req.apiId, req.isPublished, req.environment, req.isWorkflow, ctl.cloudBase, ctl.post)
    case Err(e) =>
      (match MapFetchError(e, req.apiId)
       case Rethrow(f) => (Err(f), path)
       case ErrorResponse(resp) => (Ok(NotExecuted(resp)), path))
    case Ok(apiDef) =>
      if req.isWorkflow && apiDef.api.None? then
        (Err(Raise(TypeErrorClass, "Cannot read properties of undefined (reading 'id')")), path)
      else if req.isWorkflow && apiDef.api.value.actions.None? then
        (Err(Raise(TypeErrorClass, "Cannot read properties of undefined (reading 'name')")), path)
      else
        var pushed := if req.isWorkflow then path + [PathEntry(apiDef.api.value.id, apiDef.api.value.actions.value.name)] else path;
        var parent := ParsedCookies(req.cookies.GetOr([]), ctl.lib).auth;
        var run := if asWritten then ExecuteApiAsWritten(apiDef, req.params, req.environment, parent, rc, ctl.agent, fuel)
          else ExecuteApi(apiDef, req.params, req.environment, parent, rc, ctl.agent, fuel);
        match run
        case Failed(f) => (Err(f), pushed)
        case Stuck => (Ok(NeverReturns), pushed)
        case Completed(resp) =>
          var after := if req.isWorkflow then Splice(pushed, FindIndex(pushed, apiDef.api.value.id)) else pushed;
          (Ok(Executed(resp, apiDef.organizationId)), after)
  }

  /** `fetchAndExecute` as the rest of the model has it, over the
      corrected `executeApiFunc`. */
  function FetchAndExecuteOf(req: ApiRequest, path: seq<PathEntry>, rc: RecursionContext, ctl: Controller, fuel: nat)
    : (r: (Result<Served>, seq<PathEntry>))
    ensures !req.isWorkflow ==> r.1 == path
  {
    FetchAndExecuteBy(req, path, rc, ctl, fuel, false)
  }

  /** `fetchAndExecute` exactly as written, over `executeApiFunc` as
      written. */
  function FetchAndExecuteAsWrittenOf(req: ApiRequest, path: seq<PathEntry>, rc: RecursionContext, ctl: Controller, fuel: nat)
    : (r: (Result<Served>, seq<PathEntry>))
    ensures !req.isWorkflow ==> r.1 == path
  {
    FetchAndExecuteBy(req, path, rc, ctl, fuel, true)
  }

  /** The fetched definition of a request. */
  function Fetched(req: ApiRequest, ctl: Controller): Result<ApiDefinition> {
    FetchApi(req.apiId, req.isPublished, req.environment, req.isWorkflow, ctl.cloudBase, ctl.post)
  }

  /** As written, a fetched workflow whose non-empty action table lacks the
      trigger returns normally with an `undefined` response and leaves the
      path as it found it; the corrected composition throws the trigger's
      `NotFoundError` and leaves the workflow's entry on the path. */
  lemma MissingTriggerServedAsWritten(req: ApiRequest, path: seq<PathEntry>, rc: RecursionContext, ctl: Controller, fuel: nat)
    requires req.isWorkflow
    requires forall j :: 0 <= j < |path| ==> path[j].id != req.apiId
    requires Fetched(req, ctl).Ok?
    requires var apiDef := Fetched(req, ctl).value;
      apiDef.api.Some? && apiDef.api.value.id == req.apiId && apiDef.api.value.actions.Some? &&
      var details := apiDef.api.value.actions.value;
      details.actions.Some? && |details.actions.value| > 0 && details.triggerActionId !in Keys(details.actions.value)
    ensures var apiDef := Fetched(req, ctl).value;
      FetchAndExecuteAsWrittenOf(req, path, rc, ctl, fuel) == (Ok(Executed(None, apiDef.organizationId)), path)
    ensures var apiDef := Fetched(req, ctl).value;
      var r := FetchAndExecuteOf(req, path, rc, ctl, fuel);
      r.0.Err? && r.0.fault.cls == NotFound &&
      r.1 == path + [PathEntry(apiDef.api.value.id, apiDef.api.value.actions.value.name)]
  {
    var apiDef := Fetched(req, ctl).value;
    var e := PathEntry(apiDef.api.value.id, apiDef.api.value.actions.value.name);
    var parent := ParsedCookies(req.cookies.GetOr([]), ctl.lib).auth;
    RejectionLostAsWritten(apiDef, req.params, req.environment, parent, rc, ctl.agent, fuel);
    PathRestored(path, e);
    assert Splice(path + [e], FindIndex(path + [e], apiDef.api.value.id)) == path;
  }

  /** As written, an API (not a workflow) whose fetched definition has no
      `api` fails with an untagged `TypeError`; the corrected composition
      throws the tagged `API not found`. */
  lemma MissingApiServedAsWritten(req: ApiRequest, path: seq<PathEntry>, rc: RecursionContext, ctl: Controller, fuel: nat)
    requires !req.isWorkflow
    requires Fetched(req, ctl).Ok? && Fetched(req, ctl).value.api.None?
    ensures var r := FetchAndExecuteAsWrittenOf(req, path, rc, ctl, fuel);
      r.0.Err? && r.0.fault.cls == TypeErrorClass && r.0.fault.tags.None?
    ensures var r := FetchAndExecuteOf(req, path, rc, ctl, fuel);
      r.0.Err? && r.0.fault.cls == NotFound && r.0.fault.message == "API not found" && r.0.fault.tags.Some?
  {
    var apiDef := Fetched(req, ctl).value;
    var parent := ParsedCookies(req.cookies.GetOr([]), ctl.lib).auth;
    MissingApiAsWritten(apiDef, req.params, req.environment, parent, rc, ctl.agent, fuel);
  }

  /** A workflow that was not yet on the path and that returns leaves the
      path as it found it; one that throws leaves its entry on it. */
  lemma WorkflowPathBalanced(req: ApiRequest, path: seq<PathEntry>, rc: RecursionContext, ctl: Controller, fuel: nat)
    requires req.isWorkflow
    requires forall j :: 0 <= j < |path| ==> path[j].id != req.apiId
    requires var d := ctl.post(BuildCloudUrl(ctl.cloudBase, FetchPath(req.apiId, req.isPublished, req.environment, true)));
      d.Ok? && d.value.api.Some? && d.value.api.value.id == req.apiId
    ensures var r := FetchAndExecuteOf(req, path, rc, ctl, fuel);
      r.0.Ok? && r.0.value.Executed? ==> r.1 == path
    ensures var r := FetchAndExecuteOf(req, path, rc, ctl, fuel);
      var api := ctl.post(BuildCloudUrl(ctl.cloudBase, FetchPath(req.apiId, req.isPublished, req.environment, true))).value.api.value;
      r.0.Err? && api.actions.Some? ==> r.1 == path + [PathEntry(api.id, api.actions.value.name)]
  {
    var apiDef := ctl.post(BuildCloudUrl(ctl.cloudBase, FetchPath(req.apiId, req.isPublished, req.environment, true))).value;
    assert FetchApi(req.apiId, req.isPublished, req.environment, req.isWorkflow, ctl.cloudBase, ctl.post) == Ok(apiDef);
    if apiDef.api.value.actions.Some? {
      var e := PathEntry(apiDef.api.value.id, apiDef.api.value.actions.value.name);
      PathRestored(path, e);
      assert Splice(path + [e], FindIndex(path + [e], apiDef.api.value.id)) == path;
    }
  }

  /** A failed fetch executes nothing: only 401 and 429 are thrown, and any
      other failure is answered with an error context for the API id. */
  lemma FetchFailureNotExecuted(req: ApiRequest, path: seq<PathEntry>, rc: RecursionContext, ctl: Controller, fuel: nat)
    requires FetchApi(req.apiId, req.isPublished, req.environment, req.isWorkflow, ctl.cloudBase, ctl.post).Err?
    ensures var r := FetchAndExecuteOf(req, path, rc, ctl, fuel);
      var e := FetchApi(req.apiId, req.isPublished, req.environment, req.isWorkflow, ctl.cloudBase, ctl.post).fault;
      r.1 == path &&
      (r.0.Err? <==> e.httpStatus == Some(401) || e.httpStatus == Some(429)) &&
      (r.0.Ok? ==> r.0.value == NotExecuted(ApiExecutionResponse(req.apiId, EmptyContext.(error := e.message))))
  {
  }

  /** `fetchAndExecute`. */
  method FetchAndExecute(req: ApiRequest, rc: RecursionContext, ctl: Controller, fuel: nat) returns (r: Result<Served>)
    modifies rc.path
    ensures (r, rc.path.entries) == FetchAndExecuteOf(req, old(rc.path.entries), rc, ctl, fuel)
  {
    var fetched := FetchApi(req.apiId, req.isPublished, req.environment, req.isWorkflow, ctl.cloudBase, ctl.post);
    if fetched.Err? {
      match MapFetchError(fetched.fault, req.apiId) {
        case Rethrow(f) => return Err(f);
        case ErrorResponse(resp) => return Ok(NotExecuted(resp));
      }
    }
    var apiDef := fetched.value;
    if req.isWorkflow {
      if apiDef.api.None? {
        return Err(Raise(TypeErrorClass, "Cannot read properties of undefined (reading 'id')"));
      }
      if apiDef.api.value.actions.None? {
        return Err(Raise(TypeErrorClass, "Cannot read properties of undefined (reading 'name')"));
      }
      PushPath(rc.path, PathEntry(apiDef.api.value.id, apiDef.api.value.actions.value.name));
    }
    var forwardedCookies, parentAuthContexts := ParseCookies(req.cookies, ctl.lib);
    var run, _ := ExecuteApiFunc(apiDef, req.isPublished, req.params, req.environment, parentAuthContexts, rc,
                                 ctl.agent, fuel, ctl.agentId, ctl.send);
    match run {
      case Failed(f) => return Err(f);
      case Stuck => return Ok(NeverReturns);
      case Completed(resp) =>
        if req.isWorkflow {
          RemoveFromPath(rc.path, apiDef.api.value.id);
        }
        r := Ok(Executed(resp, apiDef.organizationId));
    }
  }
}
