/**
 * Tool execution (`handleTool` in main.go and the handlers of handlers.go): decode the
 * arguments, dispatch on the tool name, validate and build the variables, make the remote
 * call(s) and render the single text content item. Each run yields its result together with
 * the remote calls it made, so "no remote call" is a statement about that list.
 */
module Handlers {
  import opened Wrappers
  import opened JsonValue
  import opened Accessors
  import opened GraphQLClient
  import opened Requests
  import opened Registry

  /**
   * The response side of a handler: decode the remote data, rename and re-nest its fields and
   * pretty-print it; or fail when the data does not decode. Given the tool name, the arguments
   * and the data of the calls made.
   */
  type Renderer = (string, Option<Obj>, seq<Json>) -> Result<string, string>

  /** The server: immutable configuration plus the collaborators the model leaves abstract. */
  datatype Server = Server(config: Config, transport: Transport, render: Renderer, showTag: TagFormatter)

  datatype ContentItem = ContentItem(itemType: string, text: string)

  datatype ToolResult = ToolResult(content: seq<ContentItem>)

  /** What one tool call did: its result and the remote calls it made, in order. */
  datatype Outcome = Outcome(result: Result<ToolResult, string>, calls: seq<Call>)

  /** The GraphQL operation each single-call handler sends. */
  function Operation(k: ToolKind): string
  {
    match k
    case ListChaosExperiments => "ListExperiment"
    case GetChaosExperiment => "GetExperiment"
    case RunChaosExperiment => "RunChaosExperiment"
    case StopChaosExperiment => "StopExperimentRuns"
    case ListExperimentRuns => "ListExperimentRun"
    case GetExperimentRunDetails => "GetExperimentRun"
    case ListChaosInfrastructures => "ListInfras"
    case GetInfrastructureDetails => "GetInfra"
    case ListEnvironments => "ListEnvironments"
    case CreateEnvironment => "CreateEnvironment"
    case ListResilienceProbes => "ListProbes"
    case CreateResilienceProbe => "AddProbe"
    case ListChaosHubs => "ListChaosHub"
    case GetChaosFaults => "ListChaosFaults"
    case GetExperimentStatistics => "GetExperimentStats"
    case RegisterChaosInfrastructure => "RegisterInfra"
  }

  /** Each handler's validation and variable building; statistics sends no variables of its own. */
  function Variables(s: Server, k: ToolKind, args: Option<Obj>): Result<Obj, string>
  {
    match k
    case ListChaosExperiments => Success(ListChaosExperimentsVariables(args))
    case GetChaosExperiment => IdVariables(args, "experimentId", "experimentID")
    case RunChaosExperiment => IdVariables(args, "experimentId", "experimentID")
    case StopChaosExperiment => StopChaosExperimentVariables(args)
    case ListExperimentRuns => Success(ListExperimentRunsVariables(args))
    case GetExperimentRunDetails => IdVariables(args, "experimentRunId", "experimentRunID")
    case ListChaosInfrastructures => Success(ListChaosInfrastructuresVariables(args))
    case GetInfrastructureDetails => IdVariables(args, "infraId", "infraID")
    case ListEnvironments => Success(ListEnvironmentsVariables(args))
    case CreateEnvironment => CreateEnvironmentVariables(args, s.showTag)
    case ListResilienceProbes => Success(ListResilienceProbesVariables(args))
    case CreateResilienceProbe => CreateResilienceProbeVariables(args, s.showTag)
    case ListChaosHubs => Success(ListChaosHubsVariables(args))
    case GetChaosFaults => IdVariables(args, "hubId", "hubID")
    case GetExperimentStatistics => Success(map[])
    case RegisterChaosInfrastructure => RegisterChaosInfrastructureVariables(args, s.config, s.showTag)
  }

  /** The handler's `ToolResult`: one content item of type "text" holding the rendered document. */
  function Render(s: Server, k: ToolKind, args: Option<Obj>, data: seq<Json>): (r: Result<ToolResult, string>)
    ensures r.Success? ==> |r.value.content| == 1 && r.value.content[0].itemType == "text"
    ensures r.Success? <==> s.render(ToolName(k), args, data).Success?
  {
    match s.render(ToolName(k), args, data)
    case Failure(e) => Failure(e)
    case Success(text) => Success(ToolResult([ContentItem("text", text)]))
  }

  /**
   * The handlers that make one remote call: validate, call, render. Invalid arguments fail
   * with no call; otherwise exactly the built variables (plus the project) are sent, and a
   * failed call's error is the tool's error.
   */
  function SingleCall(s: Server, k: ToolKind, args: Option<Obj>): (o: Outcome)
    ensures o.result.Success? ==> |o.result.value.content| == 1 && o.result.value.content[0].itemType == "text"
    ensures var v := Variables(s, k, args);
      v.Failure? ==> o == Outcome(Failure(v.error), [])
    ensures var v := Variables(s, k, args);
      v.Success? ==> o.calls == [Call(Operation(k), WithProjectId(Some(v.value), s.config.projectId))]
    ensures var v := Variables(s, k, args);
      v.Success? && Execute(s.config, s.transport, Operation(k), Some(v.value)).1.Failure? ==>
        o.result == Failure(Execute(s.config, s.transport, Operation(k), Some(v.value)).1.error)
    ensures var v := Variables(s, k, args);
      v.Success? && Execute(s.config, s.transport, Operation(k), Some(v.value)).1.Success? ==>
        o.result == Render(s, k, args, [Execute(s.config, s.transport, Operation(k), Some(v.value)).1.value])
  {
    match Variables(s, k, args)
    case Failure(e) => Outcome(Failure(e), [])
    case Success(variables) =>
      var (call, reply) := Execute(s.config, s.transport, Operation(k), Some(variables));
      match reply
      case Failure(e) => Outcome(Failure(e), [call])
      case Success(data) => Outcome(Render(s, k, args, [data]), [call])
  }

  /** The manifest query succeeded with an object holding a non-null `getInfraManifest`. */
  predicate ManifestPresent(reply: Result<Json, string>)
  {
    && reply.Success? && reply.value.JObj?
    && "getInfraManifest" in reply.value.fields
    && reply.value.fields["getInfraManifest"] != JNull
  }

  /**
   * The manifest getInfrastructureDetails reports: the `getInfraManifest` field of a successful
   * reply that decodes to an object, else the text "Manifest not available".
   */
  function ManifestOrDefault(reply: Result<Json, string>): (m: Json)
    ensures m != JNull
    ensures ManifestPresent(reply) ==> m == reply.value.fields["getInfraManifest"]
    ensures !ManifestPresent(reply) ==> m == JStr("Manifest not available")
  {
    match reply
    case Success(JObj(fields)) =>
      if "getInfraManifest" in fields && fields["getInfraManifest"] != JNull then fields["getInfraManifest"]
      else JStr("Manifest not available")
    case _ => JStr("Manifest not available")
  }

  /** The text the model gives the failed `getInfra` type assertion, where Go panics. */
  const InfraAssertionFailure := "interface conversion: getInfra is not map[string]interface {}"

  /**
   * Decoding the `GetInfra` data and taking its `getInfra` object: a non-object document is
   * Go's decode error; a null document or a missing or non-object `getInfra` fails the assertion.
   */
  function InfraRecord(data: Json): (r: Result<Obj, string>)
    ensures r.Success? <==> data.JObj? && "getInfra" in data.fields && data.fields["getInfra"].JObj?
    ensures r.Success? ==> r.value == data.fields["getInfra"].fields
    ensures !data.JObj? && !data.JNull? ==> r == Failure(NotAnObject(data))
  {
    match data
    case JObj(fields) =>
      if "getInfra" in fields && fields["getInfra"].JObj? then Success(fields["getInfra"].fields)
      else Failure(InfraAssertionFailure)
    case JNull => Failure(InfraAssertionFailure)
    case _ => Failure(NotAnObject(data))
  }

  /** The variables of the `GetInfra` query. */
  function InfraVariables(args: Option<Obj>): Obj
  {
    map["infraID" := JStr(GetString(args, "infraId", ""))]
  }

  /**
   * getInfrastructureDetails: the infrastructure query and the decoding of its reply, then, when
   * `includeManifest` is true, a manifest query whose failure only replaces the manifest by a
   * notice. The manifest query is sent only after the infrastructure was decoded.
   */
  function InfrastructureDetails(s: Server, args: Option<Obj>): (o: Outcome)
    ensures o.result.Success? ==> |o.result.value.content| == 1 && o.result.value.content[0].itemType == "text"
    ensures GetString(args, "infraId", "") == "" ==> o == Outcome(Failure("infraId" + " is required"), [])
    ensures GetString(args, "infraId", "") != "" ==>
      1 <= |o.calls| <= 2 && o.calls[0] == Call("GetInfra", WithProjectId(Some(InfraVariables(args)), s.config.projectId))
    ensures |o.calls| == 2 ==>
      && GetBool(args, "includeManifest", false)
      && Execute(s.config, s.transport, "GetInfra", Some(InfraVariables(args))).1.Success?
      && InfraRecord(Execute(s.config, s.transport, "GetInfra", Some(InfraVariables(args))).1.value).Success?
      && o.calls[1] == Call("GetInfraManifest",
        WithProjectId(Some(ManifestVariables(GetString(args, "infraId", ""))), s.config.projectId))
    ensures var reply := Execute(s.config, s.transport, "GetInfra", Some(InfraVariables(args))).1;
      GetString(args, "infraId", "") != "" && reply.Failure? ==> o.result == Failure(reply.error) && |o.calls| == 1
    ensures var reply := Execute(s.config, s.transport, "GetInfra", Some(InfraVariables(args))).1;
      GetString(args, "infraId", "") != "" && reply.Success? && InfraRecord(reply.value).Success? ==>
        if GetBool(args, "includeManifest", false) then
          var manifestReply := Execute(s.config, s.transport, "GetInfraManifest", Some(ManifestVariables(GetString(args, "infraId", "")))).1;
          |o.calls| == 2 && o.result == Render(s, GetInfrastructureDetails, args, [reply.value, ManifestOrDefault(manifestReply)])
        else
          |o.calls| == 1 && o.result == Render(s, GetInfrastructureDetails, args, [reply.value, JNull])
  {
    match IdVariables(args, "infraId", "infraID")
    case Failure(e) => Outcome(Failure(e), [])
    case Success(variables) =>
      var (call, reply) := Execute(s.config, s.transport, "GetInfra", Some(variables));
      match reply
      case Failure(e) => Outcome(Failure(e), [call])
      case Success(data) =>
        if InfraRecord(data).Failure? then Outcome(Failure(InfraRecord(data).error), [call])
        else if GetBool(args, "includeManifest", false) then
          var (manifestCall, manifestReply) :=
            Execute(s.config, s.transport, "GetInfraManifest", Some(ManifestVariables(GetString(args, "infraId", ""))));
          Outcome(Render(s, GetInfrastructureDetails, args, [data, ManifestOrDefault(manifestReply)]), [call, manifestCall])
        else
          Outcome(Render(s, GetInfrastructureDetails, args, [data, JNull]), [call])
  }

  /**
   * getExperimentStatistics: three queries with nil variables, all of them issued; any failure
   * fails the whole call, with no partial document.
   */
  function Statistics(s: Server, args: Option<Obj>): (o: Outcome)
    ensures o.result.Success? ==> |o.result.value.content| == 1 && o.result.value.content[0].itemType == "text"
    ensures var only := map[ProjectIdKey := JStr(s.config.projectId)];
      o.calls == [Call("GetExperimentStats", only), Call("GetExperimentRunStats", only), Call("GetInfraStats", only)]
    ensures
      var r1 := Execute(s.config, s.transport, "GetExperimentStats", None).1;
      var r2 := Execute(s.config, s.transport, "GetExperimentRunStats", None).1;
      var r3 := Execute(s.config, s.transport, "GetInfraStats", None).1;
      if r1.Failure? then o.result == Failure(r1.error)
      else if r2.Failure? then o.result == Failure(r2.error)
      else if r3.Failure? then o.result == Failure(r3.error)
      else o.result == Render(s, GetExperimentStatistics, args, [r1.value, r2.value, r3.value])
  {
    var (c1, r1) := Execute(s.config, s.transport, "GetExperimentStats", None);
    var (c2, r2) := Execute(s.config, s.transport, "GetExperimentRunStats", None);
    var (c3, r3) := Execute(s.config, s.transport, "GetInfraStats", None);
    var calls := [c1, c2, c3];
    if r1.Failure? then Outcome(Failure(r1.error), calls)
    else if r2.Failure? then Outcome(Failure(r2.error), calls)
    else if r3.Failure? then Outcome(Failure(r3.error), calls)
    else Outcome(Render(s, GetExperimentStatistics, args, [r1.value, r2.value, r3.value]), calls)
  }

  /** The handler a tool name selects. */
  function Handle(s: Server, k: ToolKind, args: Option<Obj>): (o: Outcome)
    ensures o.result.Success? ==> |o.result.value.content| == 1 && o.result.value.content[0].itemType == "text"
    ensures k != GetInfrastructureDetails && k != GetExperimentStatistics ==> o == SingleCall(s, k, args)
    ensures k == GetInfrastructureDetails ==> o == InfrastructureDetails(s, args)
    ensures k == GetExperimentStatistics ==> o == Statistics(s, args)
  {
    match k
    case GetInfrastructureDetails => InfrastructureDetails(s, args)
    case GetExperimentStatistics => Statistics(s, args)
    case _ => SingleCall(s, k, args)
  }

  /** The arguments of `handleTool`: absent or null is a nil map, an object its map, anything else an error. */
  function DecodeArguments(arguments: Option<Json>): (r: Result<Option<Obj>, string>)
    ensures r.Success? <==> arguments.None? || arguments.value.JNull? || arguments.value.JObj?
    ensures arguments.Some? && arguments.value.JObj? ==> r == Success(Some(arguments.value.fields))
    ensures r.Success? && !(arguments.Some? && arguments.value.JObj?) ==> r.value.None?
  {
    match arguments
    case None => Success(None)
    case Some(JNull) => Success(None)
    case Some(JObj(fields)) => Success(Some(fields))
    case Some(other) => Failure("failed to parse arguments: " + NotAnObject(other))
  }

  /** `handleTool`: decode the arguments, then dispatch on the name. */
  function HandleTool(s: Server, name: string, arguments: Option<Json>): (o: Outcome)
    ensures o.result.Success? ==> |o.result.value.content| == 1 && o.result.value.content[0].itemType == "text"
    ensures DecodeArguments(arguments).Failure? ==> o == Outcome(Failure(DecodeArguments(arguments).error), [])
    ensures DecodeArguments(arguments).Success? && KindOf(name).None? ==> o == Outcome(Failure("unknown tool: " + name), [])
    ensures DecodeArguments(arguments).Success? && KindOf(name).Some? ==>
      o == Handle(s, KindOf(name).value, DecodeArguments(arguments).value)
  {
    match DecodeArguments(arguments)
    case Failure(e) => Outcome(Failure(e), [])
    case Success(args) =>
      match KindOf(name)
      case None => Outcome(Failure("unknown tool: " + name), [])
      case Some(k) => Handle(s, k, args)
  }

  /** A name outside the switch fails with "unknown tool: <name>" and calls nothing. */
  lemma UnknownTool(s: Server, name: string, arguments: Option<Json>)
    requires KindOf(name).None?
    requires DecodeArguments(arguments).Success?
    ensures HandleTool(s, name, arguments) == Outcome(Failure("unknown tool: " + name), [])
  {
  }

  /** Arguments are decoded before the name is looked at: bad arguments fail first, whatever the name. */
  lemma ArgumentsDecodedFirst(s: Server, name: string, arguments: Option<Json>)
    requires DecodeArguments(arguments).Failure?
    ensures HandleTool(s, name, arguments) == Outcome(Failure(DecodeArguments(arguments).error), [])
  {
  }

  /** `create_chaos_experiment` is answered as an unknown tool. */
  lemma CreateChaosExperimentUnknown(s: Server)
    ensures HandleTool(s, "create_chaos_experiment", None) == Outcome(Failure("unknown tool: " + "create_chaos_experiment"), [])
  {
    CreateChaosExperimentDisabled();
  }

  /** Every remote call any tool makes is scoped to the configured project. */
  lemma CallsScopedToProject(s: Server, k: ToolKind, args: Option<Obj>)
    ensures forall c :: c in Handle(s, k, args).calls ==>
      ProjectIdKey in c.variables && c.variables[ProjectIdKey] == JStr(s.config.projectId)
  {
  }

  /** A tool call makes at most three remote calls; statistics always makes exactly three. */
  lemma CallCount(s: Server, k: ToolKind, args: Option<Obj>)
    ensures |Handle(s, k, args).calls| <= 3
    ensures k == GetExperimentStatistics ==> |Handle(s, k, args).calls| == 3
    ensures k != GetExperimentStatistics && k != GetInfrastructureDetails ==> |Handle(s, k, args).calls| <= 1
  {
  }

  /** Statistics succeeds only when all three queries succeed; one failing query fails the call. */
  lemma StatisticsAllOrNothing(s: Server, args: Option<Obj>)
    ensures var o := Statistics(s, args);
      o.result.Success? ==>
        && Execute(s.config, s.transport, "GetExperimentStats", None).1.Success?
        && Execute(s.config, s.transport, "GetExperimentRunStats", None).1.Success?
        && Execute(s.config, s.transport, "GetInfraStats", None).1.Success?
    ensures Execute(s.config, s.transport, "GetExperimentRunStats", None).1.Failure? ==> Statistics(s, args).result.Failure?
  {
  }

  /** A failing manifest query does not fail getInfrastructureDetails: the notice replaces the manifest. */
  lemma ManifestFailureTolerated(s: Server, args: Option<Obj>, data: Json)
    requires GetString(args, "infraId", "") != ""
    requires GetBool(args, "includeManifest", false)
    requires Execute(s.config, s.transport, "GetInfra", Some(InfraVariables(args))).1 == Success(data)
    requires InfraRecord(data).Success?
    requires Execute(s.config, s.transport, "GetInfraManifest", Some(ManifestVariables(GetString(args, "infraId", "")))).1.Failure?
    ensures InfrastructureDetails(s, args).result ==
      Render(s, GetInfrastructureDetails, args, [data, JStr("Manifest not available")])
    ensures |InfrastructureDetails(s, args).calls| == 2
  {
  }

  /** An infrastructure reply that does not decode fails the call before the manifest query is sent. */
  lemma UndecodableInfraStopsEarly(s: Server, args: Option<Obj>, data: Json)
    requires GetString(args, "infraId", "") != ""
    requires Execute(s.config, s.transport, "GetInfra", Some(InfraVariables(args))).1 == Success(data)
    requires InfraRecord(data).Failure?
    ensures InfrastructureDetails(s, args).result == Failure(InfraRecord(data).error)
    ensures |InfrastructureDetails(s, args).calls| == 1
  {
  }

  /**
   * End to end: listing experiments with `{"pagination":{"page":0,"limit":10}}` sends one
   * `ListExperiment` call with exactly that pagination, no filter, and the project id.
   */
  lemma ListExperimentsEndToEnd(s: Server)
    ensures var page := JObj(map["page" := JNum(0), "limit" := JNum(10)]);
      HandleTool(s, "list_chaos_experiments", Some(JObj(map["pagination" := page]))).calls ==
        [Call("ListExperiment", map["request" := JObj(map["pagination" := page]), "projectID" := JStr(s.config.projectId)])]
  {
    var page := JObj(map["page" := JNum(0), "limit" := JNum(10)]);
    var args := Some(map["pagination" := page]);
    ListChaosExperimentsExample();
    assert Variables(s, ListChaosExperiments, args) == Success(map["request" := JObj(map["pagination" := page])]);
  }

  /**
   * A required field is missing: absent, not of its type or empty; `environmentId` of
   * registerChaosInfrastructure falls back to the configured default first.
   */
  predicate Lacks(config: Config, k: ToolKind, field: string, args: Option<Obj>)
  {
    if field == "properties" then GetMap(args, field).None?
    else if k == RegisterChaosInfrastructure && field == "environmentId" then
      GetString(args, field, config.defaultEnvironmentId) == ""
    else GetString(args, field, "") == ""
  }

  /** Every field a tool's schema lists as required is enforced: lacking it, the call fails before any remote call. */
  lemma RequiredFieldsEnforced(s: Server, k: ToolKind, field: string, args: Option<Obj>)
    requires field in ToolRequired(k)
    requires Lacks(s.config, k, field, args)
    ensures Handle(s, k, args).result.Failure?
    ensures Handle(s, k, args).calls == []
  {
  }
}
