# LitmusChaos MCP server — a Dafny model

The LitmusChaos MCP server reads JSON-RPC 2.0 requests from standard input, one per line, and
writes one response line per request. It offers sixteen "tools" to an AI agent. Each tool checks
its arguments, builds a GraphQL request for the ChaosCenter API, sends it over HTTP and reformats
the reply as pretty-printed JSON text.

This project models the logic of that server:

- **Argument access** (`accessors.dfy`): the `get*FromArgs` helpers read a Go
  `map[string]interface{}` that may be nil. `getNestedString` is modelled by a loop method that
  is proved equal to a recursive function, and that function is proved equal to a plain path walk.
- **The GraphQL client** (`graphql_client.dfy`):
  - `projectID` is written into the caller's variables map. The map is a class, so the caller
    sees the change.
  - The error-message loop is modelled as written.
  - The reply is folded into data or one error, and the failure stages keep their own prefixes.
- **Request building** (`requests.dfy`): every handler's required-argument checks, defaults,
  optional keys and variables. This covers the environment-id slug, tag formatting, probe property
  blocks and infrastructure registration defaults.
- **Response-side derived values** (`responses.dfy`):
  - the case-insensitive category filter of `getChaosFaults`;
  - the infrastructure count of `listEnvironments`;
  - the entry-per-item loops behind `totalProbes` and `totalHubs`.
- **Tool registry and dispatch** (`registry.dfy`, `handlers.dfy`):
  - the sixteen `getTools` descriptors and the `handleTool` switch;
  - for each handler, the remote calls it makes and its single text result;
  - the two-call `getInfrastructureDetails`, whose manifest query may fail without failing the
    call;
  - the three-query `getExperimentStatistics`.
- **The protocol front end** (`protocol.dfy`):
  - `handleRequest`, `handleCallTool` and `handleInitialize`;
  - the serve loop `run`, modelled as a method over the input lines.

The HTTP exchange is a function-typed parameter, `Transport`. It maps an operation and the
variables as sent to a `Reply`: either a failure at one stage, or the decoded `{data, errors}`
envelope. It is a fixed function, so replies that depend on the backend's own state are not
modelled. Decoding the remote data and renaming its fields into the printed document is the
`Renderer` parameter. Decoding a request line is the `parse` parameter of `Run`. Every tool run
returns an `Outcome`: its result plus the list of remote calls made, in order. That list makes
"no remote call when validation fails" a provable statement.

## Model

| member | source | states |
|---|---|---|
| Accessors.Lookup | handlers.go:11-54 | A nil map has no keys; otherwise the value stored under the key. |
| Accessors.GetString | handlers.go:11-18 | The stored value when it is a string; otherwise, and for a nil map, the default. |
| Accessors.GetInt | handlers.go:20-27 | The stored number when present, else the default. |
| Accessors.GetBool | handlers.go:29-36 | The stored value when it is a boolean, else the default. |
| Accessors.GetMap | handlers.go:38-45 | The stored object when present, else nil. |
| Accessors.GetSlice | handlers.go:47-54 | The stored array when present, else nil. |
| Accessors.GetStringStored | handlers.go:11-18 | A string stored under the key is returned, whatever the default. |
| Accessors.NilContainerDefaults | handlers.go:11-54 | Every accessor on a nil map returns its default or nil. |
| Accessors.NestedStringIsWalk | handlers.go:57-75 | The nested lookup is the string at the end of a path of objects. It is "" for an empty path, a nil map, a non-object on the way, or a non-string at the end. |
| Accessors.GetNestedString | handlers.go:57-75 | The loop over the keys computes the recursive nested lookup. |
| Accessors.NestedStringFindsUsername | handlers.go:189 | `createdBy.username` is found in a nested object. |
| Accessors.NestedStringMisses | handlers.go:189 | `createdBy.username` is "" when `createdBy` is null or absent. |
| Strings.LowerChar | handlers.go:1268 | ASCII capitals map to their lower-case letter; other characters are unchanged. |
| Strings.ToLower | handlers.go:1268 | Lower-cases each character; the length is kept. |
| Strings.ToLowerIdempotent | handlers.go:1268 | Lower-casing twice equals lower-casing once (used for the idempotence of environment ids). |
| Strings.ReplaceChar | handlers.go:1268 | Each occurrence of the character is replaced and nothing else changes. Afterwards the replaced character does not occur. |
| Strings.JoinAppend | main.go:164 | Joining a concatenation joins the two joins with one separator. |
| Strings.JoinStartsWithFirst | main.go:164 | A join starts with its first part (used to show the first GraphQL error is reported first). |
| GraphQLClient.WithProjectId | main.go:117-120 | `projectID` is set to the configured project. Every other key of the caller's map is kept with its value. A nil map becomes `{projectID}`. |
| GraphQLClient.WithProjectIdIdempotent | main.go:117-120 | Injecting the project twice equals injecting it once. |
| GraphQLClient.VarMap.constructor | main.go:117-119 | A map holding the given entries. |
| GraphQLClient.InjectProjectId | main.go:117-120 | The caller's map is updated in place and returned; for nil, a fresh map is returned. Either way it then holds `WithProjectId` of the old entries. |
| GraphQLClient.Messages | main.go:160-163 | One message per error, in order. |
| GraphQLClient.CollectMessages | main.go:160-163 | The loop fills exactly the messages of the errors, in order. |
| GraphQLClient.Fold | main.go:127-167 | Success exactly when the envelope decoded with no errors, and then it is the data. Each transport stage fails with its own wrapper: "failed to create request: ", "failed to execute request: ", "failed to read response: " or "failed to unmarshal response: ", followed by the cause. An envelope with errors fails with "GraphQL errors: " followed by all messages joined by ", ". |
| GraphQLClient.FoldOneError | main.go:159-165 | With one error, the text is the prefix plus that message. |
| GraphQLClient.FoldReportsFirstError | main.go:159-165 | The error text begins with the prefix and the first error's message. |
| GraphQLClient.FoldKeepsOrder | main.go:159-165 | Messages appear in list order: a longer list extends the message of its prefix. |
| GraphQLClient.Execute | main.go:116-168 | The call carries the operation, and its variables are the caller's map with the configured `projectID` injected. Its outcome is the fold of the transport's reply to exactly those variables. |
| Requests.RequiredString | handlers.go:259-262 | Fails with "<key> is required" exactly when the argument is missing, not a string, or empty. |
| Requests.IdVariables | handlers.go:259-266 | Either the "is required" error, or variables holding exactly the identifier. |
| Requests.ListChaosExperimentsVariables | handlers.go:119-132 | Pagination defaults to page 0 and limit 10. A filter is present exactly when a filter object was given. |
| Requests.ListChaosExperimentsDefaultPage | handlers.go:119-124 | With no pagination object, page 0 and limit 10 are requested. |
| Requests.ListChaosExperimentsExample | handlers.go:119-132 | A concrete request without a filter has no filter key. |
| Requests.StopChaosExperimentVariables | handlers.go:580-607 | `experimentId` is required. `experimentRunID` is sent exactly when a non-empty run id was given. |
| Requests.ListExperimentRunsVariables | handlers.go:678-697 | Page 0 and limit default 20. `experimentIDs` and the status filter are present exactly when their arguments are non-empty. |
| Requests.WrapNonEmpty | handlers.go:936-939 | `request` is present exactly when the built request map is non-empty. |
| Requests.ListChaosInfrastructuresVariables | handlers.go:924-939 | Environment and status filters are added only when set; `isActive` is true exactly for "Active". The request is omitted when empty. |
| Requests.InfraStatusFilter | handlers.go:930-934 | Any status other than exactly "Active" asks for inactive infrastructures. |
| Requests.SingleFilterVariables | handlers.go:1161-1172 | The filter request is present exactly when the argument is non-empty, and it holds that value. |
| Requests.ListResilienceProbesVariables | handlers.go:1350-1356 | `filter.type` is a one-element list, present exactly when `type` is set. |
| Requests.Slug | handlers.go:1268 | The environment id has the same length as the name and contains no space. Each character is either `-` for a space or the lower-cased character. |
| Requests.SlugIdempotent | handlers.go:1268 | Deriving the environment id of an environment id changes nothing. |
| Requests.SlugOfPlainName | handlers.go:1268 | A lower-case name without spaces is its own id. |
| Requests.Tags | handlers.go:1259-1265 | No tags when the argument is absent or not an array. Otherwise one formatted tag per element, in order. |
| Requests.FormatTags | handlers.go:1260-1265 | The tag loop computes exactly `Tags`. |
| Requests.StringTagsUnchanged | handlers.go:1262-1264 | String tags are sent unchanged. |
| Requests.StringArray | handlers.go:1259-1273 | A JSON array holding the strings in order. |
| Requests.CreateEnvironmentVariables | handlers.go:1232-1277 | `name` is checked first, then `type`. On success the request holds exactly the slug id, name, description, type and tags. |
| Requests.ProbeTiming | handlers.go:1468-1511 | The four timing keys exactly: the given timeout and interval (defaults 5s and 2s), retry 3 and attempt 1. |
| Requests.HttpProperties | handlers.go:1457-1474 | Exactly the timing keys plus `url`, `method` and `insecureSkipVerify`. The url is the user's (default ""), the method map has one key, the lower-cased method (default `get`), expecting `==` response code 200, and `insecureSkipVerify` is false. |
| Requests.CmdProperties | handlers.go:1476-1488 | Exactly the timing keys plus `command` and `comparator`. The command is the user's (default ""), and the comparator is string `==` "success". |
| Requests.K8sProperties | handlers.go:1490-1500 | Exactly the timing keys plus `group`, `version`, `resource` and `operation`. The resource is the user's (default ""); the group is "", the version v1 and the operation `present`. |
| Requests.PromProperties | handlers.go:1502-1515 | Exactly the timing keys plus `endpoint`, `query` and `comparator`. Endpoint and query are the user's (default ""), and the comparator is float `>=` "0". |
| Requests.ProbeProperties | handlers.go:1456-1515 | Every known probe type gets the timing fields, and each type gets exactly its own block, with the user's url, command, resource, or endpoint and query forwarded, and the block's fixed comparator and settings. |
| Requests.ProbeRequest | handlers.go:1446-1516 | The name, description, type, tags and the Kubernetes infrastructure type are set. The keys are exactly those five, plus the property block of the given type when the type is known. That block is `ProbeProperties` of the type, and carries the timing. |
| Requests.CreateResilienceProbeVariables | handlers.go:1406-1520 | `name`, `type` and a `properties` object are required, checked in that order, each with its message. On success the request is `ProbeRequest`. |
| Requests.InfraRequest | handlers.go:1954-1967 | The keys are exactly the twelve request fields. Name, environment and scope are as given. Description, platform and namespace default to "Registered via MCP Server", "Generic Kubernetes" and "litmus". The infrastructure type is Kubernetes and the service account `litmus-admin`. The three existence and SSL flags are false, and the tags are the formatted `tags` argument. |
| Requests.RegisterChaosInfrastructureVariables | handlers.go:1919-1971 | `name`, then `environmentId` (defaulting to the configured environment), then `infraScope` are required, each failing with its own message. On success the request is `InfraRequest`. |
| Requests.RegisterRejectsExplicitEmptyEnvironment | handlers.go:1925-1928 | An explicit empty `environmentId` is rejected even when a default is configured. |
| Responses.KeptExactly | handlers.go:1712-1727 | The kept categories are exactly the matching ones: each kept one is an input that matches, and every matching input is kept. They keep the input order, and their number is the count of matches. |
| Responses.SubsequenceExtend | handlers.go:1715-1725 | The filtered list stays a subsequence when an input is appended. |
| Responses.SubsequenceDropLast | handlers.go:1715-1725 | Dropping the last kept element keeps a subsequence. |
| Responses.EmptyCategoryKeepsAll | handlers.go:1721 | With no category given, every category is kept. |
| Responses.FilterCategories | handlers.go:1712-1765 | The loop keeps exactly `Kept`, and `totalFaultCategories` is the number of matches. |
| Responses.InfrastructureCount | handlers.go:1191-1196 | The count is the length of `infraIDs` when it is an array, and 0 with nil when it is null or absent. |
| Responses.FormatList | handlers.go:1370-1391 | One entry per item, in order, each reshaped; the total is the number of items. |
| Registry.ToolNames | main.go:171-454 | The advertised names, in descriptor order. |
| Registry.SwitchMatchesNames | main.go:465-502 | Each registered tool name dispatches to its own handler. |
| Registry.SwitchAcceptsOnlyNames | main.go:465-502 | Every name the switch accepts is the registered name of the handler it picks. |
| Registry.ListedKindsComplete | main.go:171-454 | Every handler is listed exactly once, sixteen in all. |
| Registry.ToolNamesUnique | main.go:171-454 | Sixteen descriptors, with pairwise distinct names. |
| Registry.EveryListedToolIsDispatched | main.go:171-502 | Every advertised tool dispatches to the handler listed under it. |
| Registry.EveryDispatchedToolIsListed | main.go:171-502 | Every dispatched name is advertised. |
| Registry.CreateChaosExperimentDisabled | main.go:470-471 | `create_chaos_experiment` is neither advertised nor dispatched. |
| Handlers.Render | handlers.go:201-210 | A successful result is one content item of type "text". It succeeds exactly when rendering succeeds. |
| Handlers.ManifestOrDefault | handlers.go:1080-1090 | The manifest is the non-null `getInfraManifest` of a successful object reply. Otherwise it is "Manifest not available". It is never null. |
| Handlers.SingleCall | handlers.go:79-211 | Invalid arguments fail with the validation error and no call. Otherwise exactly one call is sent: the handler's operation with the built variables plus `projectID`. A failed call's error is the tool's error. A successful reply's data is rendered into the result, which is one text item. |
| Handlers.InfraRecord | handlers.go:1052-1057 | The decoded infrastructure is the `getInfra` object of an object reply. A non-object reply fails with Go's decode error. A null reply, or a missing or non-object `getInfra`, fails the assertion. |
| Handlers.InfrastructureDetails | handlers.go:999-1133 | A missing `infraId` fails with no call. Otherwise the first call is `GetInfra` with the id, and its failure is the tool's error after that one call. When the reply decodes and `includeManifest` is set, `GetInfraManifest` (id, `upgrade` false) is sent as the second call, and the result renders the data with `ManifestOrDefault` of that reply. When the reply decodes without `includeManifest`, the result renders the data with a null manifest after one call. A second call happens only in the first case. Success is one text item. |
| Handlers.Statistics | handlers.go:1780-1917 | The three calls `GetExperimentStats`, `GetExperimentRunStats` and `GetInfraStats` are always sent, each with only `projectID`. The first failure in that order is the tool's error. When all three succeed, the result renders the three data documents. |
| Handlers.Handle | main.go:465-499 | `get_infrastructure_details` runs `InfrastructureDetails`, `get_experiment_statistics` runs `Statistics`, and every other tool runs the single-call plan. Success is one text item. |
| Handlers.DecodeArguments | main.go:458-463 | Absent or null arguments give a nil map, and an object gives its map. Any other value is an error. |
| Handlers.HandleTool | main.go:457-503 | Bad arguments fail first, with no call. An unknown name fails with "unknown tool: <name>". A known name runs that tool's handler on the decoded arguments. Success is one text item. |
| Handlers.UnknownTool | main.go:500-501 | A name outside the switch fails with "unknown tool: <name>" and makes no remote call. |
| Handlers.ArgumentsDecodedFirst | main.go:458-465 | Malformed arguments fail before the name is examined, with no remote call. |
| Handlers.CreateChaosExperimentUnknown | main.go:470-471 | `create_chaos_experiment` is answered as an unknown tool. |
| Handlers.CallsScopedToProject | main.go:117-120 | Every remote call any tool makes carries the configured `projectID`. |
| Handlers.CallCount | handlers.go:1780-1861 | At most three remote calls per tool call. Statistics makes exactly three, and single-call tools at most one. |
| Handlers.StatisticsAllOrNothing | handlers.go:1823-1861 | Statistics succeeds only if all three queries succeed; a failing query fails the call. |
| Handlers.ManifestFailureTolerated | handlers.go:1047-1090 | Suppose the infrastructure reply decoded and the manifest query failed. Then the call still renders, with the notice as manifest, after two calls. |
| Handlers.UndecodableInfraStopsEarly | handlers.go:1047-1057 | An infrastructure reply that does not decode fails the call after one remote call. No manifest query is sent. |
| Handlers.ListExperimentsEndToEnd | handlers.go:119-134 | `tools/call` of `list_chaos_experiments` with pagination {0, 10} sends one `ListExperiment` call. Its variables are exactly that pagination and the project id, with no filter key. |
| Handlers.RequiredFieldsEnforced | main.go:171-454 | Each field a schema lists as required is enforced by its handler. When it is missing, the call fails before any remote call. |
| Protocol.Initialize | main.go:530-541 | Protocol revision 2024-11-05; server `litmuschaos-mcp-server` version 3.16.0. |
| Protocol.DecodeCallParams | main.go:512-520 | Decoding fails exactly in three cases: params are absent, params are neither null nor an object, or `name` is neither a string nor null. Every failure text starts with "failed to parse call tool params: ". Null params give an empty name and no arguments. An absent or null `name` gives "", and a string `name` gives that string. `arguments` is passed on exactly when present. |
| Protocol.CallTool | main.go:512-528 | Undecodable params fail with the decoding error. Otherwise the result is that of `handleTool` on the decoded name and arguments. |
| Protocol.Respond | main.go:544-576 | No response exactly for `initialized`. Every response is JSON-RPC "2.0", echoes the request id, and carries exactly one of result and error. `initialize` is answered with the server-info result. |
| Protocol.UnknownMethod | main.go:568-572 | Any other method gets error -32601, "Method not found: <method>". |
| Protocol.ToolFailureIsInternalError | main.go:558-564 | A failed tool call is error -32603 carrying the failure text, with no result. |
| Protocol.ToolSuccessIsResult | main.go:558-567 | A successful tool call's output is the result, unchanged. |
| Protocol.ListToolsAnswersRegistry | main.go:506-510 | `tools/list` answers the sixteen descriptors. |
| Protocol.NotificationsAnswered | main.go:550-572 | The notification `notifications/initialized` gets a -32601 error response. |
| Protocol.NullParamsUnknownTool | main.go:512-522 | Null call params reach the switch with an empty name and fail as an unknown tool. |
| Protocol.LineOutput | main.go:583-605 | An empty or undecodable line writes nothing. Otherwise the line writes at most the request's response. |
| Protocol.Run | main.go:579-609 | The loop writes exactly `Written` for the lines. |
| Protocol.WrittenBound | main.go:582-606 | At most one response per line. |
| Protocol.WrittenAppend | main.go:582-606 | For fixed backend replies, the server keeps no state between lines: the output for two blocks of lines is the two outputs concatenated. |
| Protocol.WrittenCount | main.go:582-606 | A line that decodes to a request other than `initialized` adds exactly its response. |

## Left out

- HTTP itself is the `Transport` parameter: the URL, headers, bearer token and 30-second timeout. The HTTP status code is not inspected by the source either.
- JSON encoding and decoding are not modelled. The request is assembled into a document, and request lines are decoded by the `parse` parameter. The variables hold only strings, integers, booleans, string lists and decoded JSON values, on which `json.Marshal` cannot fail, so the "failed to marshal request" stage cannot occur and is not represented. Go's case-insensitive matching of struct field names is not modelled: `name` and `arguments` are looked up exactly.
- Protocol.DecodeCallParams: the decoder's cause text after "failed to parse call tool params: " is abbreviated; the prefix and which inputs fail are modelled.
- Handlers.InfraRecord: where Go's `getInfra` type assertion fails, the process panics. The model instead returns a failure with a fixed text, after the one call. A reply envelope without a `data` member is not representable: `Reply.Envelope` always carries a value. In Go every handler then fails decoding with "unexpected end of JSON input", after the one call; the nearest modelled reply, `null` data, fails `getInfrastructureDetails` with the assertion text instead.
- The backend's replies are a fixed function of operation and variables (`Transport`). Later replies that depend on earlier mutations, such as a duplicate `create_environment` rejected the second time, are not modelled. `Protocol.WrittenAppend` therefore states only that the server itself keeps no state between lines.
- The `capabilities` member of the `initialize` result is a constant announcing tools only. It is not represented in `Protocol.Payload`.
- The field renaming of each reply, the type assertions it makes (which panic on unexpected shapes) and `json.MarshalIndent` are the `Renderer` parameter. Only the derived values in `Responses` are modelled. `FormatList` leaves the per-entry renaming as its `reshape` parameter.
- Go unmarshals JSON numbers as float64, and `getIntFromArgs` truncates them; the model's numbers are integers.
- `strings.ToLower` is modelled for ASCII letters only.
- `fmt.Sprintf("%v", tag)` of a non-string tag is the `TagFormatter` parameter.
- Handlers.Statistics: the three queries run concurrently, and which error is returned when several fail depends on scheduling. The model reports the first in program order. That all three are issued, and that any failure fails the call, are modelled.
- `createChaosExperiment` is unreachable: its switch case is commented out. It is modelled only as "unknown tool".
- The GraphQL query texts are represented by their operation names. The optional `includeLogs` flag of `getExperimentRunDetails` only changes the rendered document.
- The input schemas keep only their `required` lists. The schema of `register_chaos_infrastructure` lists `environmentId` as required, but the handler falls back to the configured default environment; the model follows the handler.
- The following are not modelled: process start-up, the environment variables, `log.Fatal` on a missing project id, signal handling, and the scanner's 64 KiB line limit and read error at the end of `run`. Input arrives as already-split lines.
- A request without an `id` (a JSON-RPC notification) still receives a response. Section 4.1 of the JSON-RPC 2.0 specification says it should not; the model follows the code.
