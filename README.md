# Superblocks on-premise agent controller: a verified model of its core

The agent controller is the on-premise service that runs Superblocks APIs,
workflows and scheduled jobs next to a customer's datasources. It fetches an
API definition from the Superblocks control plane. It turns the caller's
cookies into auth contexts. It evaluates each step's datasource
configuration, with its credentials, against a real and a redacted
execution context. It runs the chain of steps through plugins and returns
the redacted context. Around that engine sit:

- the OAuth token logic for REST datasources and user tokens;
- the polling scheduler for scheduled jobs;
- the health ring buffer of recent server errors;
- request and error classification;
- audit records;
- a set of small string and URL utilities.

This project models that core in Dafny and proves properties of the model.
It has one module per source file, plus four foundation modules:

- `Base`: options, results, and faults as values;
- `Strings`: the JavaScript string operations the code relies on;
- `Records`: ordered JavaScript objects;
- `Model`: the shared data model of values, contexts, actions and datasources.

`Base64` is a small RFC 4648 section 4 encoder, for the basic-auth token.
`Arith` holds a few arithmetic facts used by `Health`.

How the model is built:

- Code that updates state step by step is a `method` with loops and
  invariants. Each method is proved equal to a specification function.
  The properties the source promises are proved as lemmas about that
  function.
- Objects whose fields change are classes with `modifies` clauses:
  - the executor's status;
  - the scheduler;
  - the health manager;
  - the audit record;
  - the header dictionary;
  - the shared workflow path.
- Everything the code reaches outward becomes a function-typed parameter
  (an oracle): the network, the token store, the plugin runner, and the
  shared library's binding resolver and context builder. Clocks and
  library constants become plain parameters.
- A JavaScript error is modelled as a `Fault`. It has a class, a message,
  an HTTP status (present exactly for `HttpError` and its subclasses) and
  optional diagnostic tags.

Throughout, the model follows what the code does, even where a comment
promises otherwise, with the exception stated in the last point below:

- The discovery loop of `executeAction` does not advance past a step that
  is not an `Integration`, and it follows cyclic child chains forever. The
  model gives the loop an iteration bound (`fuel`) and proves that such
  chains exhaust every bound. It does not add a cycle check, because
  there is none in the code.
- Four places where the code evidently departs from its authors' intent
  are recorded under "## Findings". Both the as-written and the corrected
  behaviour are modelled. The rest of the model uses the corrected one:
  in particular `ApiController.FetchAndExecuteOf`, its method and
  everything built on them compose the corrected `executeApiFunc`, and
  `ApiController.FetchAndExecuteAsWrittenOf` is the composition as written.

## Model

| member | source | states |
|---|---|---|
| Url.BuildCloudUrl | src/utils/url.ts:3-9 | the agents API URL under the base; an empty path adds nothing, a path without a leading `/` gets one, a path with one is appended as is |
| Url.CloudUrlSlash | src/utils/url.ts:3-9 | a missing leading slash gives the same URL as the slashed path, and every result lies under `<base>/api/v1/agents` |
| Url.BuildUiUrl | src/utils/url.ts:11-13 | the UI URL is the base, a `/`, and the path unchanged |
| ErrorTags.MergeTags | src/utils/error.ts:7-15 | after tagging, the new tags win on shared keys, old keys are kept, and no other key appears |
| ErrorTags.MergeTagsIdempotent | src/utils/error.ts:7-15 | tagging twice with the same tags equals tagging once |
| ErrorTags.TaggedError.constructor | src/utils/error.ts:3-5 | an error starts with the tags it is given |
| ErrorTags.AddDiagnosticTagsToError | src/utils/error.ts:7-15 | the error's tags become the given tags when it had none, and the merge otherwise; the result is the new tags |
| ErrorTags.GetAfterAdd | src/utils/error.ts:17-20 | reading the tags back after adding gives the merge: every added tag with its new value, the earlier tags not overridden, no other key |
| ErrorTags.TagFault | src/utils/error.ts:7-15 | tagging a thrown error changes its tags as above and leaves its class, message and status alone |
| ApiUtils.FirstError | src/utils/api.ts:3-11 | `None` iff no output carries an error; otherwise the message `Error in <step>: <error>` of the first erroring output in insertion order |
| ApiUtils.FirstErrorAppend | src/utils/api.ts:5-10 | outputs after the first erroring one are never looked at |
| ApiUtils.FindFirstApiExecutionError | src/utils/api.ts:3-11 | missing outputs throw a `TypeError`; present outputs give the first error |
| Diagnostics.MessageType | src/utils/diagnostics.ts:14-30 | integration and bad-request errors are `INTEGRATION_ERROR`; internal, not-found and any HTTP error are `INTERNAL_ERROR`; `UNAUTHORIZED_ERROR` iff an unauthorized error outside the HTTP family; nothing else is produced |
| Diagnostics.DiagnosticPayload | src/utils/diagnostics.ts:14-30 | the payload holds `type`, `messageType` and `message` over the tags, keeps every other tag and adds nothing else |
| Diagnostics.RaisedUnauthorizedIsInternal | src/utils/diagnostics.ts:18-21 | an unauthorized error of the shared library, being an HTTP error, is reported as internal |
| ApiEnv.ShortKeyOfPrefixed | src/api/env.ts:11 | a secret named with the prefix is exposed under the rest of its name, lower-cased |
| ApiEnv.GetAppEnvVars | src/api/env.ts:8-16 | the parsed JSON with each secret, in order, written under its short key |
| ApiEnv.GetRedactedAppEnvVars | src/api/env.ts:19-27 | the parsed JSON with `<redacted>` written under each secret's short key |
| ApiEnv.SecretKeysSnoc | src/api/env.ts:10-13 | the short keys of the secrets grow by one key per secret |
| ApiEnv.WithSecretsKeys | src/api/env.ts:8-27 | both objects hold exactly the JSON's keys and the secrets' short keys |
| ApiEnv.WithSecretsJsonOnly | src/api/env.ts:8-27 | a key no secret maps to keeps its JSON value |
| ApiEnv.WithSecretsLast | src/api/env.ts:10-13 | a secret's short key holds the value of the last secret with that short key (or `<redacted>`) |
| ApiEnv.RedactionParity | src/api/env.ts:8-27 | the full and redacted objects have the same keys, agree off the secrets, and the redacted one holds `<redacted>` under every secret |
| Env.PrefixBefore | src/env.ts:216-218 | the longest prefix free of the stop characters, followed by a stop character or the end |
| Env.SplitHead | src/env.ts:216-217 | the first part of `split(c)` is the text before the first `c` |
| Env.PrefixBeforeTwice | src/env.ts:216-217 | cutting at the first `/` and then at the first `:` cuts at the first of either |
| Env.HostPartIsPrefix | src/env.ts:216-218 | the host `addProtocolToURL` inspects is everything before the first `/` or `:` |
| Env.AddProtocolToUrl | src/env.ts:214-224 | the result always has a scheme; a URL with one is unchanged; otherwise `http://` for the local hosts and `https://` for the rest |
| Env.AddProtocolLocalHosts | src/env.ts:218-221 | without a scheme, plain `http` is chosen iff the host part is `localhost` or `127.0.0.1` |
| Env.AgentUrlString | src/env.ts:199-207 | the URL handed to the parser always ends with `/agent` |
| Env.AgentUrlBranches | src/env.ts:199-207 | each of the four branches: kept, trailing slash dropped, `agent` appended, `/agent` appended |
| Env.AgentUrlKeepsScheme | src/env.ts:195-208 | the scheme added by `addProtocolToURL` survives the suffix normalisation |
| Env.NormalizeIdempotent | src/env.ts:195-208 | normalising a normalised agent URL changes nothing |
| Env.NormalizeAgentUrl | src/env.ts:197-207 | the string handed to the URL parser always has an `http` or `https` scheme and ends with `/agent` |
| Env.ParseAgentUrl | src/env.ts:195-212 | a parsed URL is returned as the parser gives it; any failure becomes an `InvalidConfigurationError` naming `SUPERBLOCKS_AGENT_HOST_URL`, the raw value and the parser's message |
| Env.InternalHostUrl | src/env.ts:252-254 | the internal host URL uses `http` iff TLS is insecure |
| Env.FileServerUrl | src/env.ts:263-266 | a configured file server URL wins; otherwise the agent's own `http://<host>:<port>/agent/v1/files` |
| Env.DefaultFileServerUrl | src/env.ts:181-188 | with nothing configured the file server is `http://localhost:8020/agent/v1/files` |
| Headers.StampedKeysListed | src/utils/headers.ts:24-38 | the nine keys the stamping may write, listed |
| Headers.AgentHeadersSet | src/utils/headers.ts:31-38 | the seven identity headers always hold the agent's settings, whatever was there before |
| Headers.ApiKeyHeader | src/utils/headers.ts:24-26 | the API key header is written iff an API key is given; otherwise it is left as it was |
| Headers.AuthorizationHeader | src/utils/headers.ts:27-29 | `Authorization` becomes the JWT iff a JWT is given; otherwise it is left as it was |
| Headers.OtherHeadersUntouched | src/utils/headers.ts:23-40 | headers the stamping does not name are neither added, removed nor changed |
| Headers.HeaderDict.constructor | src/utils/headers.ts:23 | a header object starts with the entries it is given |
| Headers.SetAgentHeaders | src/utils/headers.ts:23-40 | the header object is updated in place to the stamped headers and is itself returned |
| MiddlewareAuth.CheckAuthHeader | src/middleware/auth.ts:15-17 | credentials pass iff they are present and `split(' ')` gives exactly two parts, that is they hold exactly one space; otherwise `Invalid authorization header provided` |
| MiddlewareAuth.VerifyAuthAsWritten | src/middleware/auth.ts:10-23 | as written: a request passes iff credentials, from the header or else the query parameter whatever the flag, split on spaces into exactly two parts (one space); otherwise `Invalid authorization header provided` |
| MiddlewareAuth.VerifyAuth | src/middleware/auth.ts:5-23 | as documented: with the flag on, the check as written; with it off, a request passes iff the `Authorization` header is given and has exactly one space |
| MiddlewareAuth.VerifyAuthIgnoresQueryWhenOff | src/middleware/auth.ts:5-10 | as documented: with the flag off the query parameter makes no difference to the check |
| MiddlewareAuth.QueryTokenIgnoresFlag | src/utils/request.ts:39-50 | with the flag off, a request carrying only the query token `token` passes the check as written and fails the documented one |
| MiddlewareAuth.VerifyFile | src/middleware/auth.ts:25-40 | no location gives `No file provided.`; any other refusal is `Unauthorized`; a pass means a key, no `..`, and the file directly inside the key's directory |
| MiddlewareAuth.LastTwoPartsSplit | src/middleware/auth.ts:35 | a location with two or more `/`-parts is a directory path followed by its last two parts |
| MiddlewareAuth.LastTwoParts | src/middleware/auth.ts:35 | such a location lies directly inside the directory named by its next-to-last part |
| MiddlewareAuth.FirstSlash | src/middleware/auth.ts:35 | a directory path splits at its first `/` into a first segment and a shorter directory path |
| MiddlewareAuth.DirectoryParts | src/middleware/auth.ts:35 | a file inside directory `key` splits with `key` and the file name as its last two parts |
| MiddlewareAuth.VerifyFileAccepts | src/middleware/auth.ts:25-40 | for a key without `/`, a file request passes iff the location is given, has no `..`, and sits directly inside the key's directory |
| Request.ExtractAuthHeader | src/utils/request.ts:39-50 | a non-empty `Authorization` header is returned verbatim; else a non-empty auth query parameter as `Bearer <token>`; nothing iff neither is given |
| Request.ExtractAuthHeaderGated | src/middleware/auth.ts:5-10 | as documented: with the flag on, the extraction above; with it off, only the `Authorization` header counts and the query parameter is never read |
| Request.ShouldRetry | src/utils/request.ts:158-181 | only HTTP errors are retried, and exactly those whose status is not 404, 401, 400 or 409 |
| Request.FailureFault | src/utils/request.ts:105-111 | an RBAC payload throws `RbacUnauthorizedError` with the server's message or `Action is not permitted.`; anything else an HTTP error with the status (500 when absent) and the server's message, or the transport's when the server gave none |
| Request.FailureIsHttpError | src/utils/request.ts:105-181 | every request failure surfaces as an HTTP error; one without a status is a 500 and is retried; an RBAC refusal is never retried |
| Request.ParseAndRecordError | src/utils/request.ts:166-174 | returns the status and message; appends the failure to the health record unless history is disabled, and then leaves the record alone |
| Request.MakeRequest | src/utils/request.ts:70-115 | the headers are stamped in place; a delivered response yields its `data` and records nothing; a failure is thrown as above and appended to the health history (with its status, message and time) unless history is disabled; the registration flag is never touched |
| AgentAuth.NewAgentCredentials | src/utils/auth.ts:6-14 | both fields are always set; each is truthy iff the one passed is, and then holds it (an omitted field becomes `''`) |
| AgentAuth.MakeBasicAuthToken | src/utils/auth.ts:16-18 | the token decodes, as base64, to the UTF-8 bytes of `user:password` |
| Base64.EncodeDecode | src/utils/auth.ts:17 | decoding the base64 encoding of any byte string gives the bytes back |
| Base64.Encode | src/utils/auth.ts:17 | the padded encoding has four characters for every started group of three bytes |
| Base64.Utf8 | src/utils/auth.ts:17 | the UTF-8 bytes of a text number between one and four per character |
| Base64.Utf8Ascii | src/utils/auth.ts:17 | ASCII text is its own UTF-8 encoding, byte for character |
| Plugins.AliasedPackageName | src/utils/plugins.ts:29-31 | an aliased package name starts with `sb-` |
| Plugins.PrefixedParts | src/utils/plugins.ts:13-16 | a dependency starting with `sb-` splits on `-` into at least two parts, the first `sb` |
| Plugins.ParseAliasedPackageName | src/utils/plugins.ts:14-31 | reading an aliased name back gives the plugin id and version, when neither holds a `-` |
| Plugins.CollectedShape | src/utils/plugins.ts:12-23 | only registered plugins get entries, each with a version, and every version comes from a dependency naming that plugin |
| Plugins.LexTotal | src/utils/plugins.ts:25 | the default string order is total |
| Plugins.LexTrans | src/utils/plugins.ts:25 | the default string order is transitive |
| Plugins.VersionTotal | src/utils/plugins.ts:25 | the default sort order, with `undefined` last, is total |
| Plugins.VersionTrans | src/utils/plugins.ts:25 | that order is transitive |
| Plugins.Insert | src/utils/plugins.ts:25 | inserting into a sorted list keeps it sorted and adds exactly the one version |
| Plugins.InsertFront | src/utils/plugins.ts:25 | a version no greater than the head can go in front of a sorted list |
| Plugins.InsertAfterFirst | src/utils/plugins.ts:25 | the head of a sorted list stays first after inserting a greater version behind it |
| Plugins.SortVersions | src/utils/plugins.ts:25 | `versions.sort()` is sorted and a permutation of its input |
| Plugins.GetSupportedPluginVersionsMap | src/utils/plugins.ts:7-27 | the table has exactly the collected plugins, each list sorted and a permutation of the versions collected for it |
| Plugins.SupportsVersionSupportsPlugin | src/utils/plugins.ts:35-42 | supporting a version implies supporting the plugin; a plugin is supported iff it has a non-empty list |
| Plugins.ShippedPluginsSupported | src/utils/plugins.ts:7-38 | in the table read from the dependencies, a plugin is supported iff it has an entry |
| ExecutorUtils.ActionNames | src/utils/executor.ts:14 | names exist iff every id is in the table, and then they are the actions' names in order |
| ExecutorUtils.GetChildActionNames | src/utils/executor.ts:12-18 | one name per child in entry order when every child is found; otherwise `NotFoundError` naming the action and the API |
| ExecutorUtils.SelectPluginVersion | src/utils/executor.ts:24-35 | an unsupported plugin fails with `InternalServerError`; a given shipped version is kept; a missing or unshipped one is replaced by the last shipped version |
| Audit.NameIndexUnique | src/utils/audit.ts:103-106 | the record's action index holds each name once |
| Audit.NameIndexStep | src/utils/audit.ts:103-106 | after one more action, its name maps to it and every other name keeps its earlier entry |
| Audit.NameIndexHas | src/utils/audit.ts:103-106 | the index holds a name iff some action has that name |
| Audit.NameIndexLast | src/utils/audit.ts:103-106 | an indexed name maps to the last action of that name |
| Audit.GetError | src/utils/audit.ts:91-100 | `None` iff no output errored; otherwise `Error in step "<name>": <error>` for the first erroring output |
| Audit.StartSteps | src/utils/audit.ts:28-37 | one start step per indexed action, in index order, with its name, id, plugin and datasource and no error |
| Audit.FinishSteps | src/utils/audit.ts:61-72 | finish steps exist iff every output names an indexed action, and then there is one per output carrying the output's error |
| Audit.FinishedEntry | src/utils/audit.ts:50-89 | nothing is sent without an entry or for a non-API-run entry; a sent entry carries the finish steps, is ended, and is FAIL iff there is an error |
| Audit.Completed | src/utils/audit.ts:73-87 | a completed entry is ended, holds the steps, is FAIL with the error when there is one and SUCCESS otherwise |
| Audit.FinishStatus | src/utils/audit.ts:76-84 | the finish status is always FAIL when errors are excluded, and otherwise FAIL iff some step errored |
| Audit.ApiRequestRecord.constructor | src/utils/audit.ts:102-110 | a record holds the entry and the actions indexed by name |
| Audit.ApiRequestRecord.Start | src/utils/audit.ts:23-40 | without an entry setting the steps throws a `TypeError`; otherwise the entry gets the start steps and is replaced by the server's answer; the index is unchanged |
| Audit.ApiRequestRecord.Finish | src/utils/audit.ts:42-89 | the entry becomes the finished entry and the server's answer is returned; when nothing is to be sent, nothing changes and nothing is returned |
| Audit.FinishStepsMissing | src/utils/audit.ts:65 | an output with no indexed action leaves no finish steps |
| Audit.FinishStepsSnoc | src/utils/audit.ts:62-72 | the finish steps grow by one step per output |
| Audit.ApiLogEntry | src/utils/audit.ts:117-150 | UI runs are logged against the application, workflow and scheduled runs against the API id; the entry is an API_RUN targeting the API, not ended, with no steps or status |
| Audit.MakeApiLogEvent | src/utils/audit.ts:117-153 | a new record with that entry and the API's actions indexed by name |
| Health.SlotsLength | src/global.ts:15-22 | the error buffer never outgrows its capacity and keeps every error while below it |
| Health.SlotsWindow | src/global.ts:15-22 | each of the last `size` errors recorded sits in slot `k % size`: the buffer holds exactly the most recent errors |
| Health.AgentHealthManager.constructor | src/global.ts:11-13 | a new manager has the capacity given, no errors, cursor 0, and is not registered |
| Health.AgentHealthManager.RecordServerError | src/global.ts:15-22 | below capacity the error is appended, otherwise it overwrites slot `cur`; the cursor advances modulo the capacity and the buffer stays the ring of all errors recorded |
| Health.AgentHealthManager.RecordRegistration | src/global.ts:24-26 | the agent is registered and the error buffer is unchanged |
| Health.AgentHealthManager.GetServerErrors | src/global.ts:28-30 | the errors returned are at most the capacity in number, and are exactly the most recent ones, error `k` in slot `k % size` |
| Health.AgentHealthManager.IsRegistered | src/global.ts:32-34 | the registration flag, which only `RecordRegistration` sets and the constructor clears |
| Scheduler.JobScheduler.constructor | src/controllers/scheduled_jobs.ts:16-51 | with polling disabled nothing is set (the counter stays `undefined`, no task); otherwise the counter is 0 and a task exists, alive and running iff `scheduled` |
| Scheduler.JobScheduler.TickBegin | src/controllers/scheduled_jobs.ts:37-39 | a tick's start raises the running count by one and changes nothing else |
| Scheduler.JobScheduler.TickEnd | src/controllers/scheduled_jobs.ts:43-47 | a tick's end lowers the running count by one whatever the poll did, and its failure goes no further |
| Scheduler.JobScheduler.Tick | src/controllers/scheduled_jobs.ts:37-48 | a whole tick leaves the running count as it was |
| Scheduler.JobScheduler.Start | src/controllers/scheduled_jobs.ts:53-56 | the scheduler is alive and its task, if any, is running |
| Scheduler.JobScheduler.Stop | src/controllers/scheduled_jobs.ts:58-61 | the scheduler is not alive and its task is stopped; ticks in flight still count |
| Scheduler.JobScheduler.CanJoin | src/controllers/scheduled_jobs.ts:73-82 | `join` resolves iff a task exists, the scheduler is stopped and no tick is in flight; with polling disabled it never resolves |
| Scheduler.PollScheduledJobs | src/controllers/scheduled_jobs.ts:85-134 | a failed fetch throws; otherwise one result per job, `undefined` exactly for the failed ones, the counts add up to the batch and `failure` counts the failed jobs |
| MiddlewareError.GetResponseMetaByError | src/middleware/error.ts:7-49 | never a success; the error DTO repeats the status and message; HTTP errors keep status and message, integration errors are 200, syntax errors 400 with the parse notice, anything else 500 `Internal Error`; the RBAC type is set iff the error is an RBAC refusal |
| MiddlewareError.ErrorHandler | src/middleware/error.ts:51-57 | the response status is the meta's status, the body its meta, and exactly one diagnostic is forwarded with the error's tags |
| MiddlewareError.RequestFailureResponse | src/utils/request.ts:105-111 | a failed server request reaches the caller with the server's status (500 when none) and message, and with the RBAC type iff the server's payload said so (then status 401) (see also src/middleware/error.ts:10-19) |
| AuthController.ExchangeAuthCode | src/controllers/auth.ts:20-63 | the authorization-code form (code, client id and secret, redirect URI made of origin and callback path) is posted to the token URL; a failed request propagates unchanged; no access token fails wrapped as `Failed to process response and cache token: <cause>` with no write; otherwise the access token is cached to expire `expires_in` seconds (default one day) from now, then the refresh token only when present; a failed write fails wrapped |
| AuthController.AgentRefresh | src/controllers/auth.ts:91-131 | a failed or non-2xx refresh answers `false` with no write; otherwise the access token is cached, then the refresh token when present, and the answer is `true`; a failed write propagates |
| AuthController.AgentRefreshSound | src/controllers/auth.ts:108-130 | `true` only after a 2xx response whose every cache write succeeded; `false` iff nothing was written; an error only after a failed write |
| AuthController.RefreshUserTokenOnAgent | src/controllers/auth.ts:91-131 | the step-by-step refresh answers and writes as `AgentRefresh` says |
| AuthController.ServerRefreshUrl | src/controllers/auth.ts:143 | the server refresh goes to `<ui>/api/v1/oauth2/<pluginId>/refresh` |
| AuthController.RefreshUserTokenOnServer | src/controllers/auth.ts:133-163 | the server's token is returned as given; a failure is mapped as above |
| AuthController.ServerRefreshFor | src/controllers/auth.ts:83-85 | with a datasource, the server refresh above; without one, the `pluginId` read fails inside the `try` and surfaces as a plain `Error`, not as a revoked grant |
| AuthController.RefreshTokenQuery | src/controllers/auth.ts:71-79 | the refresh token is looked up per datasource iff a datasource with an id is given, per user otherwise, without a threshold |
| AuthController.ServerBranchAsWritten | src/controllers/auth.ts:84-85 | as written the server branch answers `false` for every server reply |
| AuthController.ServerBranch | src/controllers/auth.ts:84-85 | as intended: `true` iff the awaited server refresh returned a non-empty token, and its failure propagates |
| AuthController.ServerBranchCounterexample | src/controllers/auth.ts:84-85 | a server handing out a fresh token is a failed refresh as written and a success as intended |
| AuthController.RefreshAuthCodeAsWritten | src/controllers/auth.ts:65-89 | a store failure propagates; no refresh token answers `false`; otherwise the server branch as written, or the agent-side refresh |
| AuthController.RefreshAuthCode | src/controllers/auth.ts:65-89 | the same with the server refresh awaited |
| ApiAuth.ExpectsBindings | src/api/apiAuthentication.ts:29-43 | basic and none never expect a bound token; password grant expects one unless fixed credentials are used; client-credentials, implicit, code, Firebase and Sheets always do; an unlisted auth type yields no answer |
| ApiAuth.ApiAuthBindings | src/api/apiAuthentication.ts:45-61 | the binding name is `""` exactly for none, `_basic` exactly for basic, `firebase` exactly for Firebase, `oauth` exactly for the five OAuth types, and absent exactly for unlisted types |
| ApiAuth.BindingTablesAgree | src/api/apiAuthentication.ts:29-61 | a type that expects a binding is bound under `oauth` or `firebase`; types bound under `""` or `_basic` expect none; both tables leave out the same types |
| ApiAuth.Rejected | src/api/apiAuthentication.ts:180-205 | `floor(status/100) != 2` holds exactly for statuses outside 200-299 |
| ApiAuth.PasswordGrantRequest | src/api/apiAuthentication.ts:150-178 | the request goes to the token URL; Experian URLs (and only those) get a JSON body of the credential fields and the `Grant_type: password` header; other URLs get the form with `grant_type=password` appended; an unconfigured user name or password is sent in neither |
| ApiAuth.CredentialFields | src/api/apiAuthentication.ts:159-164 | a `username` (or `password`) key is present exactly when one is configured, with its value, as both serialisations drop an `undefined` value; `client_id` and `client_secret` close the body; no key is repeated and no other key appears |
| ApiAuth.RefreshRequest | src/api/apiAuthentication.ts:196-204 | an empty JSON body to the token URL, the refresh token and `grant_type: refresh_token` carried in the headers |
| ApiAuth.ClientCredsRequest | src/api/apiAuthentication.ts:68-82 | a form with the client-credentials grant and scope, authorized by `Basic` plus the basic-auth token of client id and secret |
| ApiAuth.FetchNewOAuthPasswordToken | src/api/apiAuthentication.ts:149-193 | a failed request propagates its error; a non-2xx status fails with `Failed to log in: [object Object]`; a 2xx reply yields its tokens |
| ApiAuth.RefreshOAuthPasswordToken | src/api/apiAuthentication.ts:195-218 | a failed request propagates; a non-2xx status fails naming the status and the response data; a 2xx reply yields its tokens |
| ApiAuth.RefreshAttempt | src/api/apiAuthentication.ts:108-114 | the refresh grant is tried exactly when the stored refresh token is non-empty |
| ApiAuth.ClientCredsToken | src/api/apiAuthentication.ts:63-96 | a failed request becomes the integration error `Failed to authenticate <action>: <error>`; otherwise the reply's access token |
| ApiAuth.GetOauthClientCredsToken | src/api/apiAuthentication.ts:63-96 | returns the client-credentials token; on success exactly one access-token cache write, expiring `expires_in` seconds after now; none on failure |
| ApiAuth.PasswordToken | src/api/apiAuthentication.ts:98-137 | a failing store lookup fails the lookup; a successful refresh wins; otherwise the password grant's access token, or the wrapped `failed to fetch authenticate` failure |
| ApiAuth.PasswordTokenFallback | src/api/apiAuthentication.ts:104-126 | the lookup succeeds exactly when the store answers and one of the two grants succeeds; after a successful refresh the password-grant endpoint is never consulted |
| ApiAuth.GetOauthPasswordToken | src/api/apiAuthentication.ts:98-137 | returns the token above; sends the refresh request only with a stored refresh token and the password grant only when the refresh did not succeed, in that order; caches access and refresh tokens exactly when tokens were obtained |
| TokenRefresh.RefreshedToken | src/utils/auth.ts:20-61 | a token found (or a failing lookup) is returned as is; on a miss the server refresh is returned when non-empty and is an error when empty; the agent refresh fails with `Failed to refresh a token on agent` unless it succeeds, after which the datasource-scoped lookup decides |
| TokenRefresh.JsText | src/utils/auth.ts:48 | a missing token reaches the agent-side refresh as the text `undefined`, a present one as itself |
| TokenRefresh.RefreshedTokenGiven | src/utils/auth.ts:40-60 | an empty token is returned only through the agent path, after a successful agent refresh, as the final re-fetch answered it |
| TokenRefresh.GetOrRefreshToken | src/utils/auth.ts:20-61 | returns the token above; the first call is always the first lookup; a hit makes no other call; a miss calls exactly one refresh, and the re-fetch follows only a successful agent refresh |
| DatasourceEval.EnvTag | src/api/datasourceEvaluation.ts:51 | the diagnostic tags carry the environment under `environment` (see also line 134) |
| DatasourceEval.Tagged | src/api/datasourceEvaluation.ts:50-53 | a failure leaves tagged with the environment; a success passes unchanged (see also lines 133-136) |
| DatasourceEval.FirstOutputError | src/api/datasourceEvaluation.ts:119-121 | no error is found exactly when every output's error is empty; otherwise the error found is the first non-empty one in order |
| DatasourceEval.CheckOutputs | src/api/datasourceEvaluation.ts:119-121 | the loop over the outputs stops with the first non-empty error, as above |
| DatasourceEval.DynamicEvaluation | src/api/datasourceEvaluation.ts:59-137 | every failure of the dynamic evaluation carries the environment tag |
| DatasourceEval.DependentOutputErrorClassified | src/api/datasourceEvaluation.ts:119-128 | an output error of the dependent run becomes the integration error `Error running dependent workflow: <first error>`, without status, tagged with the environment |
| DatasourceEval.DependentFailuresKeepClass | src/api/datasourceEvaluation.ts:73-136 | a failed fetch or run of the dependent workflow is rethrown with its class, message and status kept and only the environment tag added |
| DatasourceEval.NestedDynamicRejected | src/api/datasourceEvaluation.ts:70-72 | inside another datasource evaluation the evaluation fails with the integration error naming dynamic credentials, tagged with the environment, whatever the fetch, run and resolution would do |
| DatasourceEval.DynamicEvaluationCalls | src/api/datasourceEvaluation.ts:81-132 | the result depends on the oracles only through the one fetch, the nested run on the same path with `isEvaluatingDatasource` set, the formatting and the resolution of this configuration |
| DatasourceEval.DynamicEvaluationBinds | src/api/datasourceEvaluation.ts:73-132 | after an error-free dependent run the configuration is resolved against a copy of the context with exactly one global added, the formatted response under the workflow's name (`error_workflow` when the definition has none), all else unchanged |
| DatasourceEval.EvaluateDynamicDatasource | src/api/datasourceEvaluation.ts:59-137 | returns the dynamic evaluation above; fetches the dependent workflow once, and not at all when nested |
| DatasourceEval.DatasourceEvaluation | src/api/datasourceEvaluation.ts:21-54 | every failure carries the environment tag; without a dependent workflow id the configuration is resolved against the context as it is |
| DatasourceEval.DynamicTaggedOnce | src/api/datasourceEvaluation.ts:32-53 | tagging the dynamic path's failure again changes nothing |
| DatasourceEval.StaticEvaluationLocal | src/api/datasourceEvaluation.ts:45-49 | a configuration without a dependent workflow does not depend on the workflow oracles |
| DatasourceEval.EvaluateDatasource | src/api/datasourceEvaluation.ts:21-54 | returns the evaluation above; fetches only for a dependent workflow outside another datasource evaluation |
| DatasourceEval.MakeAuthBindings | src/api/datasourceEvaluation.ts:139-158 | at most one binding; one exactly when the datasource's auth context exists and its auth type has a non-empty binding name, and that binding maps the name to the auth context |
| ExecutorDatasource.AuthObject | src/api/ApiExecutor.ts:506-511 | the auth object has exactly one key per distinct variable key |
| ExecutorDatasource.AuthObjectLast | src/api/ApiExecutor.ts:508-511 | a key holds the value of the last variable with that key (its redacted value, when it has one, on the redacted side) |
| ExecutorDatasource.BindAuth | src/api/ApiExecutor.ts:505-514 | binding adds exactly one global per binding name and leaves the outputs and the error untouched |
| ExecutorDatasource.BindAuthVariables | src/api/ApiExecutor.ts:505-514 | the nested loops build the real and the redacted context as `BindAuth` describes, side by side |
| ExecutorDatasource.WithToken | src/api/ApiExecutor.ts:529-544 | the fetched token is bound as `{token}` in the real context and as `{token: '<redacted>'}` in the redacted one; the configurations do not change |
| ExecutorDatasource.BasicToken | src/api/ApiExecutor.ts:549-560 | shared credentials give the basic-auth token of username and password (empty when missing); otherwise the bound `_basic` token, or empty when none is bound |
| ExecutorDatasource.WithHeader | src/api/ApiExecutor.ts:565-566 | the header is appended to the configuration's headers (an absent list counting as empty) and nothing else changes |
| ExecutorDatasource.AuthSwitch | src/api/ApiExecutor.ts:520-569 | basic appends a real and a redacted `Authorization` header; client-credentials and fixed-credential password grants fetch a token only when none is bound and then bind it under `oauth`; every other type, and a bound token, leave everything as it was |
| ExecutorDatasource.SheetsOrCheck | src/api/ApiExecutor.ts:571-594 | outside Google Sheets the step fails with `Authentication failed - token not found` exactly when its auth type expects a binding and none is bound; the Sheets token changes only the real configuration's auth token |
| ExecutorDatasource.EvaluateBoth | src/api/ApiExecutor.ts:596-610 | on success the two configurations are the evaluations of the real and of the redacted pair |
| ExecutorDatasource.Bound | src/api/ApiExecutor.ts:500-519 | before the switch the real and the redacted configuration are the same clone of the chosen one: the production configuration for production runs, the staging one otherwise |
| ExecutorDatasource.EvaluationFailureWrapped | src/api/ApiExecutor.ts:613-615 | every failure of the whole evaluation is the integration error `Evaluating datasource step "<name>" failed: <message>`, without status or tags |
| ExecutorDatasource.BoundParity | src/api/ApiExecutor.ts:505-514 | the real and the redacted context keep binding the same keys, and no output changes |
| ExecutorDatasource.AuthSwitchParity | src/api/ApiExecutor.ts:522-569 | the token step keeps the two contexts binding the same keys |
| ExecutorDatasource.SheetsTokenRealOnly | src/api/ApiExecutor.ts:573-585 | the Sheets token, non-empty, goes into the real configuration only; the redacted one keeps the clone |
| ExecutorDatasource.ApplyAuthType | src/api/ApiExecutor.ts:520-569 | the switch on the auth type computes `AuthSwitch` |
| ExecutorDatasource.ApplySheetsOrCheck | src/api/ApiExecutor.ts:571-594 | the Sheets token or the missing-binding check computes `SheetsOrCheck` |
| ExecutorDatasource.EvaluateConfigs | src/api/ApiExecutor.ts:596-610 | the loop over the two pairs computes `EvaluateBoth` |
| ExecutorDatasource.RedactAndEvaluate | src/api/ApiExecutor.ts:470-616 | binds the auth variables, applies the switch and the Sheets step, evaluates both configurations, and rethrows every failure as the step failure |
| ExecutorDiscovery.ValidateAndGetAction | src/api/ApiExecutor.ts:454-468 | no action table is `Actions not found.`; an empty table means nothing to run; an unknown id in a non-empty table is `Action <id> not found`; a known id yields its action |
| ExecutorDiscovery.ValidateAndGetDatasource | src/api/ApiExecutor.ts:618-633 | an empty datasource id and an unknown one are the two not-found errors; it succeeds exactly when the id is given and known, with that datasource |
| ExecutorDiscovery.ErrorContextFor | src/api/ApiExecutor.ts:635-656 | a fresh context with exactly one output, under the step's name and without children, whose error is the fault's message, prefixed by the message unless that is empty |
| ExecutorDiscovery.Visit | src/api/ApiExecutor.ts:249-270 | the step joins the flow; a cached datasource is not evaluated again; an uncached one is evaluated once, added to the cache and recorded last, older entries unchanged |
| ExecutorDiscovery.NonIntegrationDiverges | src/api/ApiExecutor.ts:236-292 | a step other than an integration is never left: the loop does not end, whatever the bound |
| ExecutorDiscovery.SelfLoopDiverges | src/api/ApiExecutor.ts:270-279 | an integration step that is its own first child is visited forever: the loop does not end |
| ExecutorDiscovery.FuelSuffices | src/api/ApiExecutor.ts:236-292 | once the loop has ended, more iterations change nothing |
| ExecutorDiscovery.VisitCaches | src/api/ApiExecutor.ts:250-268 | a visit keeps every id evaluated once, the cache equal to the evaluated ids and every flow step cached, and it extends the cache |
| ExecutorDiscovery.DiscoverStep | src/api/ApiExecutor.ts:274-279 | an integration step with a next step hands the loop over to it |
| ExecutorDiscovery.DiscoverCaches | src/api/ApiExecutor.ts:236-292 | the whole loop keeps the cache well formed and never re-evaluates or replaces a cached id |
| ExecutorDiscovery.DiscoveredOnce | src/api/ApiExecutor.ts:233-292 | from the trigger, each datasource is evaluated at most once and every step of the flow finds its configurations cached |
| ExecutorDiscovery.DiscoverChain | src/api/ApiExecutor.ts:236-292 | the flow is the chain of first children from the trigger, all integration steps, ending at a step without a child |
| ExecutorDiscovery.DiscoverFailure | src/api/ApiExecutor.ts:288-291 | a fault during the loop returns the error context of an integration step with the fault's message unprefixed |
| ExecutorDiscovery.DiscoverFlow | src/api/ApiExecutor.ts:233-292 | the loop computes `Discover` from the empty walk |
| ExecutorSteps.StepGlobals | src/api/ApiExecutor.ts:334-338 | a step's context gains exactly `$fileServerUrl` and `$flagWorker`, with the agent's settings; every other global, the outputs and the error stay |
| ExecutorSteps.Failing | src/api/ApiExecutor.ts:392-401 | a failed step sets the context's error to the output's error and its error context to the step's id and name, and nothing else |
| ExecutorSteps.CallFor | src/api/ApiExecutor.ts:342-378 | the step runs in the agent exactly when the worker fleet is disabled or the plugin is `workflow`, with both evaluated configurations and both contexts |
| ExecutorSteps.StepOf | src/api/ApiExecutor.ts:322-426 | an uncached datasource aborts with the prefixed TypeError; a non-integration step changes nothing; a failing output stops with the same error and error context in both contexts; any fault aborts with the `Fatal error` error context |
| ExecutorSteps.StepInStep | src/api/ApiExecutor.ts:334-403 | one step keeps the two contexts binding the same globals with the same outputs and error |
| ExecutorSteps.RunInStep | src/api/ApiExecutor.ts:294-427 | the whole pass keeps the real and the redacted context in step |
| ExecutorSteps.StepKeepsError | src/api/ApiExecutor.ts:384-403 | a step that does not fail leaves the error fields alone |
| ExecutorSteps.RunAppend | src/api/ApiExecutor.ts:296-427 | running a flow then more steps is running the longer flow while no step failed; after a failure or fault the later steps never run |
| ExecutorSteps.StepClean | src/api/ApiExecutor.ts:380-386 | a step that does not fail records a clean output under its name and keeps earlier clean outputs clean |
| ExecutorSteps.RunClean | src/api/ApiExecutor.ts:296-427 | a pass ending without error has a clean output under the name of every integration step of the flow |
| ExecutorSteps.StepStop | src/api/ApiExecutor.ts:384-402 | a failing step's output, carrying the error, is recorded under its name |
| ExecutorSteps.RunFailure | src/api/ApiExecutor.ts:386-403 | a pass ending with an error names, in its error context, a step of the flow whose recorded output carries that error |
| ExecutorSteps.RunFatal | src/api/ApiExecutor.ts:423-426 | a fault discards both contexts for a fresh one with a single output, under the name of a step of the flow, carrying the `Fatal error` message (see also lines 635-656) |
| ExecutorSteps.ExecuteStep | src/api/ApiExecutor.ts:322-426 | one iteration computes `StepOf` |
| ExecutorSteps.RunSteps | src/api/ApiExecutor.ts:294-427 | the loop over the flow computes `RunAll` from the initial contexts |
| Executor.ExecuteActionOf | src/api/ApiExecutor.ts:181-451 | `executeAction` throws exactly when the trigger cannot be found, and then with the API id among the tags; a run with no actions returns the redacted context untouched |
| Executor.ExecuteActionRedacted | src/api/ApiExecutor.ts:294-450 | a completed pass returns the redacted context, kept in step with the real one |
| Executor.RunKeepsGlobals | src/api/ApiExecutor.ts:334-385 | apart from the two step globals, the pass neither adds, removes nor changes a global of the redacted context |
| Executor.BindingPaths | src/api/ApiExecutor.ts:125-128 | the binding paths hold each key once |
| Executor.BindingPathsKeys | src/api/ApiExecutor.ts:125-128 | a key is present exactly when some parameter has it |
| Executor.BindingPathsLast | src/api/ApiExecutor.ts:125-128 | a key holds the value of the last parameter with that key |
| Executor.CollectBindingPaths | src/api/ApiExecutor.ts:125-128 | the loop over the parameters computes `BindingPaths` |
| Executor.AddGlobals | src/api/ApiExecutor.ts:129-132 | adding the built variables adds exactly their names as globals and leaves outputs and error alone |
| Executor.AddVariables | src/api/ApiExecutor.ts:129-132 | the loop adds the same variables to both contexts, as `AddGlobals` describes |
| Executor.WithApiGlobals | src/api/ApiExecutor.ts:137-139 | the API's globals are written over the context's: their keys win, other keys are kept |
| Executor.InitialContext | src/api/ApiExecutor.ts:122-139 | a fresh context without outputs or error, binding `Env` (the full or the redacted application variables unless an API global replaces it) and every API global |
| Executor.InitialInStep | src/api/ApiExecutor.ts:122-139 | the real and the redacted initial contexts are in step and differ at most in `Env` |
| Executor.RunOf | src/api/ApiExecutor.ts:143-160 | the run handed to `executeAction` starts in step, with the definition's actions, datasources and the environment |
| Executor.ExecutionOf | src/api/ApiExecutor.ts:85-172 | a definition without an API, or without actions, fails with the TypeError of reading `actions`, or `name`, of undefined; a response carries the API's id |
| Executor.ExecutionFaultTagged | src/api/ApiExecutor.ts:166-168 | a fault thrown inside the `try` carries the API id and the environment among its tags |
| Executor.ExecutionRedactsEnv | src/api/ApiExecutor.ts:134-135 | the returned context never holds the real application secrets: its `Env`, when present and not replaced by an API global, is the redacted object (see also line 450) |
| Executor.ApiExecutor.constructor | src/api/ApiExecutor.ts:81-83 | a new executor is idle |
| Executor.ApiExecutor.ExecuteAction | src/api/ApiExecutor.ts:181-451 | computes `ExecuteActionOf` |
| Executor.ApiExecutor.Execute | src/api/ApiExecutor.ts:85-172 | computes `ExecutionOf`; the status is idle again once the `try` is left, and stays executing when the definition fails before it or the run never ends |
| ApiController.FetchPath | src/controllers/api.ts:63 | the fetch path starts with `workflows/<id>?isPublished=<flag>` for a workflow and `api/<id>?isPublished=<flag>` otherwise, ends with `&environment=<environment>`, and is exactly as long as those two parts together |
| ApiController.FetchApi | src/controllers/api.ts:51-70 | the fetch succeeds exactly when the control plane answers, with its definition; a failure is rethrown tagged with the API id |
| ApiController.MergeAuthContexts | src/controllers/api.ts:87 | the merged auth contexts hold both sets of ids; the API's own win over those from cookies |
| ApiController.ValidateApiDefinition | src/controllers/api.ts:258-265 | a definition passes exactly when it has an API with actions; otherwise `API not found` or `API action is empty` |
| ApiController.MapFetchError | src/controllers/api.ts:140-163 | a 401 is rethrown as is when it is an RBAC error and as an unauthorized error otherwise; a 429 becomes a too-many-requests error; any other failure is answered with an error context carrying its message |
| ApiController.FetchErrorStatusKept | src/controllers/api.ts:140-163 | exactly the 401 and 429 failures are rethrown, keeping their status; the error response's context is empty but for the message |
| ApiController.KnownSuffixes | src/controllers/api.ts:181-184 | every entry maps `-<token type>` to that token type, and every token type has its suffix |
| ApiController.SuffixEntriesPut | src/controllers/api.ts:182 | adding a token type keeps every entry in that shape and every suffix already present |
| ApiController.SplitOn | src/controllers/api.ts:192 | splitting on an empty delimiter yields one part per character |
| ApiController.PushAuthVariable | src/controllers/api.ts:203-209 | the variable is appended to the id's list, a new list being started for a new id; other ids are untouched |
| ApiController.SuffixPass | src/controllers/api.ts:200-211 | the inner loop gives auth contexts to exactly the ids obtained by removing a matching suffix, only appends to existing lists, and changes nothing when no suffix matches |
| ApiController.SuffixIdsSnoc | src/controllers/api.ts:200-211 | the ids of a suffix table grow one suffix at a time |
| ApiController.CookieStep | src/controllers/api.ts:189-212 | a forwarding-prefixed cookie never touches the auth contexts and is forwarded under the second part of its name only when the rest of the name splits into exactly two parts; any other cookie goes through the suffix loop |
| ApiController.ParsedCookies | src/controllers/api.ts:185-212 | after the loop, exactly the ids obtained from unprefixed cookies have auth contexts |
| ApiController.ForwardedCookieNoAuth | src/controllers/api.ts:190-196 | a forwarding-prefixed cookie added at the end leaves the auth contexts as they were |
| ApiController.ParseCookies | src/controllers/api.ts:181-212 | the nested loops over cookies and suffixes compute `ParsedCookies`, a missing cookie object counting as empty |
| ApiController.FindIndex | src/controllers/api.ts:249 | `-1` exactly when no entry has the id; otherwise the index of the first entry with it |
| ApiController.Splice | src/controllers/api.ts:253 | `splice(start)` keeps the entries before `start`, a negative start counting from the end and clamped at 0 |
| ApiController.PathRestored | src/controllers/api.ts:167-169 | a workflow not yet on the path, pushed and then removed, leaves the path as it was (see also lines 247-254) |
| ApiController.PathCutAtFirstVisit | src/controllers/api.ts:249-253 | a workflow already on the path cuts it back to before its first occurrence, losing the entries pushed after it |
| ApiController.PathMissingDropsLast | src/controllers/api.ts:249-253 | with the workflow missing from the path, `splice(-1)` drops the last entry, whoever it belongs to |
| ApiController.PushPath | src/controllers/api.ts:168 | the entry is appended to the shared path |
| ApiController.RemoveFromPath | src/controllers/api.ts:249-253 | the search and splice leave the path as `Splice` of the old path at `FindIndex` |
| ApiController.ExecuteApiAsWritten | src/controllers/api.ts:75-115 | as written, a definition without an API fails with an untagged TypeError before the `try` |
| ApiController.ExecuteApi | src/controllers/api.ts:72-115 | as intended: every failure is tagged (with the API id when there is one), a response is never `undefined`, and an invalid definition fails with its tagged validation error |
| ApiController.ExecuteApiAgrees | src/controllers/api.ts:88-109 | the written and the intended versions agree whenever the execution does not throw |
| ApiController.RejectionLostAsWritten | src/controllers/api.ts:94-108 | as written, a trigger missing from a non-empty action table yields an `undefined` response, where the intended version fails with `Action <id> not found` |
| ApiController.MissingApiAsWritten | src/controllers/api.ts:87-91 | as written, a definition without an API fails untagged and not as not-found; the intended version fails with the tagged `API not found` |
| ApiController.ExecuteApiFunc | src/controllers/api.ts:75-115 | computes the intended `ExecuteApi`; the audit record, when made, is new |
| ApiController.FetchAndExecuteBy | src/controllers/api.ts:117-256 | an API (not a workflow) leaves the workflow path unchanged, with either `executeApiFunc` |
| ApiController.FetchAndExecuteOf | src/controllers/api.ts:117-256 | over the corrected `executeApiFunc`: an API (not a workflow) leaves the workflow path unchanged |
| ApiController.FetchAndExecuteAsWrittenOf | src/controllers/api.ts:117-256 | as written: an API (not a workflow) leaves the workflow path unchanged |
| ApiController.MissingTriggerServedAsWritten | src/controllers/api.ts:94-108 | for a fetched workflow not yet on the path whose non-empty action table lacks the trigger, the code as written serves an `undefined` response and restores the path, where the corrected composition throws a not-found error and leaves the workflow's entry on the path |
| ApiController.MissingApiServedAsWritten | src/controllers/api.ts:87-91 | for a fetched API whose definition has no `api`, the code as written fails with an untagged `TypeError`, where the corrected composition throws the tagged `API not found` |
| ApiController.WorkflowPathBalanced | src/controllers/api.ts:166-169 | a workflow not yet on the path that returns leaves the path as it found it; one that throws leaves its entry pushed (see also lines 246-254) |
| ApiController.FetchFailureNotExecuted | src/controllers/api.ts:140-163 | a failed fetch executes nothing and leaves the path: only 401 and 429 throw, any other failure is the error response for the API id |
| ApiController.FetchAndExecute | src/controllers/api.ts:117-256 | computes `FetchAndExecuteOf`: the result and the new state of the shared path |

## Left out

- Logging, metrics, tracing and the remote logger calls throughout the core: they have no effect on results.
- The network, the token store, the control plane, the audit endpoint, the diagnostics endpoint and the plugin runner (local or worker fleet): each is an oracle parameter, so a proof holds for every answer it could give.
- The shared library's `resolveConfigurationRecursive`, `buildContextFromBindings`, `formatExecutionOutput` and `ExecutionContext` internals are oracles too. `ExecutionContext` is a datatype of globals, outputs, error and error context. Its `addGlobalVariable` and `addGlobalVariableOverride` are both modelled as replacement of the global, because the library's merging rule is not part of this model.
- Clocks: `Date.now()`, `new Date()` and `moment()` become integer-millisecond parameters (`now`, `defaultRefreshExpiry`). The fixed 90-day refresh expiry is therefore a parameter, not a computed date.
- `Math.random` jitter and the `sleep`s of the scheduler and of `join`: the scheduler is a sequential state machine with explicit tick-begin and tick-end events. `join`'s once-a-second check is the predicate `JobScheduler.CanJoin`.
- Concurrency: `Promise.allSettled` in `executeApiFunc` and `Promise.all` in `pollScheduledJobs` are sequential. The audit start in `executeApiFunc` runs after the execution in the model. Its outcome is never observed, so the result is the same.
- URL encoding of query strings and form bodies (`URLSearchParams`, `qs.stringify`): bodies are ordered lists of fields.
- The timing fields, `apiName` and `notificationConfig` that `fetchAndExecute` adds to a response (src/controllers/api.ts:232-244), and the timing and `apiRecord.finish` of the dependent run in `evaluateDynamicDatasource` (src/api/datasourceEvaluation.ts:107-116). These are decoration only; no result depends on them.
- Forwarded cookies are parsed and returned, but not handed on to the plugin calls: the plugin runner is an oracle and does not read them.
- The resolution of notification bindings after the steps run (src/api/ApiExecutor.ts:429-436): it is best effort, its failure is swallowed, and it does not change the returned redacted context.
- Changes the step oracle makes to the shared workflow path during a nested run: each run sees the path as an input value.
- In-place mutation of the datasource's own configuration object: in the BASIC case and for the Google Sheets token (src/api/ApiExecutor.ts:565, 584), the source writes into `datasource.configurationProd` or `configurationStaging` itself. The model returns new configurations instead, so the aliasing across steps that share a datasource is not captured.
- `RestApiIntegrationDatasourceConfiguration` and the auth types are the shared library's. Only the fields the core reads are modelled. An auth type the switches do not list is `OtherAuth`.
- A `null` or `undefined` API definition handed to `executeApiFunc` or `validateApiDefinition`: the model has definitions whose `api` may be absent, but the definition itself is always present.
- Env: the boolean flags at src/env.ts:248-251 are read as booleans where they are used, such as the worker flag of a run. Where the core compares a setting with `'true'` (audit errors, error history, polling), the comparison is written out at that point.
- Env: `SUPERBLOCKS_AGENT_STEP_RETRY_LIMIT` may be `Infinity` and the other numeric settings go through `parseInt` and `Number`; these are outside the model.
- Discovery and execution carry the iteration bound `fuel`. Running out of it is `Diverged` (discovery) or `Hangs`/`NoReturn`/`Stuck`/`NeverReturns` (callers), standing for a loop that never ends. `ExecutorDiscovery.FuelSuffices` shows that the bound changes nothing once the loop has ended.
- Health.AgentHealthManager.constructor: requires a positive capacity. With size 0 the source's cursor becomes `NaN` (`0 % 0`), which integers cannot express.
- Scheduler.PollScheduledJobs: takes the job runner as a parameter rather than calling `executeApiFunc` with the production environment, the published view and a fresh recursion context (src/controllers/scheduled_jobs.ts:109-115). The runner yields only the response, whereas each slot of the source's result holds `executeApiFunc`'s pair of the response and its audit record. The batch accounting is what is modelled.
- ApiController.ExecuteApiFunc: the audit source `requester ?? 'Unknown'` is passed through to the record but not checked.
- ApiController.FetchAndExecuteOf: composes the corrected `executeApiFunc`, so for the two "## Findings" inputs at src/controllers/api.ts:87-108 (a workflow whose non-empty action table lacks the trigger; a definition without `api`) it throws a tagged error where the code returns an `undefined` response with the path restored, or throws an untagged `TypeError`; `ApiController.FetchAndExecuteAsWrittenOf` is the composition as written, and the two lemmas after it state the difference.
- Strings.ToLower: lower-cases only ASCII letters, where JavaScript's `toLowerCase` is Unicode-aware; `ApiEnv.ShortKey` uses it for the secret names at src/api/env.ts:11 and 22, so a name with non-ASCII capitals keeps them in the model.
- Request.MakeRequest: the `relayDelegate` branch (src/utils/request.ts:82-89), which hands the request to a relay instead of the HTTP transport, is not modelled; `fetchApi` passes a relay at src/controllers/api.ts:60-64, so the model's fetch always goes through the transport.
- ApiAuth.CredentialFields: the client's id and secret are modelled as always configured strings; an absent one would be dropped from the body like an absent user name.
- ApiController.FetchAndExecuteOf: for a workflow, the state of the path when the fetch or the run throws is stated only by `ApiController.WorkflowPathBalanced`, and only for a workflow not already on the path.
- AuthController.TokenQuery: a token-store lookup is keyed by the token type, the datasource id and the threshold only. The `authType` and `authConfig` the store request also carries (src/controllers/datasource.ts:213-245) are left out, so in the model two auth configurations of one datasource get the same store answer. Likewise the server refresh is keyed by its URL only, not by the `authType` and `authConfig` of its payload.
- `loadPluginModule`'s dynamic `import(...)`: only its version selection is modelled, as `ExecutorUtils.SelectPluginVersion`.
- `sanitizeAgentKey` and the other helpers in files outside the core (routes, bootstrap, registration retry loop, `src/controllers/datasource.ts`) are not part of this model.

## Findings

| source | as written | input that shows it | evidently intended | confidence | as-written member | corrected member |
|---|---|---|---|---|---|---|
| src/controllers/auth.ts:84-85 | `!isEmpty(refreshUserTokenOnServer(...))` is applied to the un-awaited promise; lodash `isEmpty` of a promise is `true`, so the server branch always answers `false` | a stored refresh token, `refreshTokenFromServer` set, and a server that returns the fresh token `fresh-token` | await the refresh and answer whether a non-empty token came back | not executed | AuthController.ServerBranchAsWritten, AuthController.ServerBranchCounterexample, AuthController.RefreshAuthCodeAsWritten | AuthController.ServerBranch, AuthController.RefreshAuthCode |
| src/controllers/api.ts:94-108 | the executor's rejection is caught by `Promise.allSettled`, and `.value` of the rejected result is read, giving an `undefined` response instead of a thrown, tagged error | a definition whose non-empty action table lacks the trigger id, so `executeAction` throws `Action <id> not found` | rethrow the executor's error, tagged with the API id, as the comment at lines 72-74 promises | not executed | ApiController.ExecuteApiAsWritten, ApiController.RejectionLostAsWritten | ApiController.ExecuteApi |
| src/controllers/api.ts:87-91 | `makeApiLogEvent` runs before the `try` and before `validateApiDefinition`, so a definition without an API fails with an untagged `TypeError` rather than the tagged `API not found` | a definition whose `api` is absent | validate first, inside the `try`, so that the error is tagged | not executed | ApiController.ExecuteApiAsWritten, ApiController.MissingApiAsWritten | ApiController.ExecuteApi |
| src/utils/request.ts:39-50 | `extractAuthHeaderFromRequest` never reads its `allowAuthInQueryParams` parameter, so `verifyAuth(false)` accepts a token given only in the auth query parameter, although the option is documented (src/middleware/auth.ts:5-9) as what allows that alternative | no `Authorization` header, the query parameter `token`, and `verifyAuth(false)` | consult the query parameter only when `allowAuthInQueryParams` is set | not executed | MiddlewareAuth.VerifyAuthAsWritten, MiddlewareAuth.QueryTokenIgnoresFlag | MiddlewareAuth.VerifyAuth, Request.ExtractAuthHeaderGated |
