/** The records the agent passes between its parts: execution contexts,
    actions and API definitions, datasources and their auth configuration. */
module Model {
  import opened Base
  import opened Records
  import opened Strings

  /** A JavaScript value, as far as the agent looks into it. `Opaque` stands
      for any value the agent only passes along. */
  datatype Value =
    | Str(s: string)
    | Bool(b: bool)
    | Num(n: int)
    | Obj(fields: map<string, Value>)
    | Undefined
    | Opaque(id: nat)

  /** JavaScript truthiness: the empty string, `false`, `0` and `undefined`
      are falsy; objects are truthy even when empty. */
  predicate Truthy(v: Value) {
    match v
    case Str(s) => s != ""
    case Bool(b) => b
    case Num(n) => n != 0
    case Undefined => false
    case Obj(_) => true
    case Opaque(_) => true
  }

  /** `v[key]`: the member of an object, `undefined` for anything else. */
  function Member(v: Value, key: string): Value {
    match v
    case Obj(fields) => if key in fields then fields[key] else Undefined
    case _ => Undefined
  }

  function StrObj(fields: map<string, string>): Value {
    Obj(map k | k in fields :: Str(fields[k]))
  }

  /** Which step failed, as `errorContext` records it. */
  datatype ErrorContext = ErrorContext(actionId: string, actionName: string)

  /** The output of one step (`ExecutionOutput`): its error message (`""`
      for none), the names of its child steps, and the value it produced. */
  datatype StepOutput = StepOutput(error: string, children: seq<string>, output: Value)

  /** A fresh output on which `logError(message)` has been called. */
  function ErrorOutput(message: string): (o: StepOutput)
    ensures o.error == message && o.children == []
  {
    StepOutput(message, [], Undefined)
  }

  /** An `ExecutionContext`: global variables, step outputs in the order
      they were added, and the error fields. The copy constructor is the
      identity on these values. */
  datatype Context = Context(
    globals: map<string, Value>,
    outputs: Record<StepOutput>,
    error: string,
    errorContext: Option<ErrorContext>)

  /** `new ExecutionContext()`. */
  const EmptyContext := Context(map[], [], "", None)

  /** `addGlobalVariable` and the `...Override` variants: the binding for
      `name` becomes `v`. */
  function AddGlobal(c: Context, name: string, v: Value): (r: Context)
    ensures r.globals == c.globals[name := v]
    ensures r.outputs == c.outputs && r.error == c.error && r.errorContext == c.errorContext
  {
    c.(globals := c.globals[name := v])
  }

  /** `addOutput(name, output)`. */
  function AddOutput(c: Context, name: string, o: StepOutput): (r: Context)
    ensures r.outputs == Put(c.outputs, name, o)
    ensures r.globals == c.globals && r.error == c.error && r.errorContext == c.errorContext
  {
    c.(outputs := Put(c.outputs, name, o))
  }

  datatype ActionType = Integration | Loop | Conditional | Assignment | OtherType(name: string)

  /** A step of an API. `children` maps each child entry to the child's
      action id, in entry order. */
  datatype Action = Action(
    id: string,
    name: string,
    actionType: ActionType,
    datasourceId: string,
    pluginId: string,
    children: Record<string>,
    configuration: Value)

  /** `getChildActionIds`: the child action ids in entry order. */
  function ChildActionIds(a: Action): (ids: seq<string>)
    ensures |ids| == |a.children|
  {
    Values(a.children)
  }

  /** The action chain of an API (`ApiDetails`); `actions` is the table of
      actions keyed by id, possibly absent. */
  datatype ApiDetails = ApiDetails(
    name: string,
    triggerActionId: string,
    actions: Option<Record<Action>>,
    notificationConfig: Value)

  datatype TriggerType = UI | WorkflowTrigger | ScheduleTrigger

  datatype Api = Api(id: string, applicationId: string, triggerType: TriggerType, actions: Option<ApiDetails>)

  /** One variable of an auth context (`RedactableExecutionParam`). */
  datatype AuthVariable = AuthVariable(key: string, value: string, redactedValue: Option<string>)

  /** `AuthContext`: auth variables keyed by auth id. */
  type AuthContexts = map<string, seq<AuthVariable>>

  datatype Header = Header(key: string, value: string)

  /** The auth types of REST datasources, and the Google Sheets OAuth code
      type; `OtherAuth` is any value the tables do not list. */
  datatype AuthType =
    | RestNone
    | RestBasic
    | RestOAuth2Password
    | RestOAuth2ClientCreds
    | RestOAuth2Implicit
    | RestOAuth2Code
    | RestFirebase
    | SheetsOAuth2Code
    | OtherAuth(name: string)

  datatype TokenScope = DatasourceScope | UserScope

  /** The parts of a datasource's `authConfig` the agent reads; flags hold
      the truthiness of the JavaScript property. */
  datatype AuthConfig = AuthConfig(
    useFixedPasswordCreds: bool,
    shareBasicAuthCreds: bool,
    username: Option<string>,
    password: Option<string>,
    tokenUrl: string,
    clientId: string,
    clientSecret: string,
    scope: string,
    authToken: Option<string>,
    tokenScope: Option<TokenScope>,
    refreshTokenFromServer: bool)

  /** A datasource configuration. `dynamicWorkflowId` is
      `dynamicWorkflowConfiguration?.workflowId` (`""` when absent);
      `body` stands for every other field, which only binding resolution
      reads. */
  datatype DsConfig = DsConfig(
    authType: Option<AuthType>,
    authConfig: AuthConfig,
    headers: Option<seq<Header>>,
    dynamicWorkflowId: string,
    body: Value)

  datatype DatasourceDto = DatasourceDto(
    id: string,
    name: string,
    pluginId: string,
    configurationProd: DsConfig,
    configurationStaging: DsConfig)

  /** An `ApiDefinition` as fetched from the server; `api` may be absent. */
  datatype ApiDefinition = ApiDefinition(
    api: Option<Api>,
    datasources: map<string, DatasourceDto>,
    orgApiKey: string,
    global: map<string, Value>,
    authContext: AuthContexts,
    organizationId: string,
    requester: Option<string>)

  /** What `ApiExecutor.execute` returns: the API id and the final context. */
  datatype ApiExecutionResponse = ApiExecutionResponse(apiId: string, context: Context)

  /** How `${v}` prints a value. */
  function JsString(v: Value): string {
    match v
    case Str(s) => s
    case Bool(b) => BoolToString(b)
    case Num(n) => IntToString(n)
    case Obj(_) => "[object Object]"
    case Undefined => "undefined"
    case Opaque(_) => "[object Object]"
  }

  /** Constants the agent takes from its shared library, whose values are
      not part of this model. */
  datatype LibraryConstants = LibraryConstants(
    publishedViewMode: string,
    productionEnvironment: string,
    googleSheetsPluginId: string,
    forwardedCookiePrefix: string,
    forwardedCookieDelimiter: string,
    userAccessibleTokens: seq<string>)

  /** One `fetchApi` call: which definition, published or not (as the text
      the URL carries), for which environment, as a workflow or an API. */
  datatype FetchRequest = FetchRequest(apiId: string, isPublished: string, environment: string, isWorkflow: bool)

  /** An entry of `executedWorkflowsPath`. */
  datatype PathEntry = PathEntry(id: string, name: string)

  /** The array `executedWorkflowsPath`, shared by reference between a run
      and the runs nested in it. */
  class WorkflowPath {
    var entries: seq<PathEntry>

    constructor (entries: seq<PathEntry>)
      ensures this.entries == entries
    {
      this.entries := entries;
    }
  }

  /** `RecursionContext`: the shared path and whether a dynamic datasource is
      being evaluated. */
  datatype RecursionContext = RecursionContext(path: WorkflowPath, isEvaluatingDatasource: bool)
}
