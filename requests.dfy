/**
 * The argument-validation and variable-building prefix of every tool handler in handlers.go:
 * required arguments fail early with "<field> is required", optional ones get their defaults,
 * and optional request keys are added only when their argument is non-empty.
 */
module Requests {
  import opened Wrappers
  import opened JsonValue
  import opened Accessors
  import Strings
  import GraphQLClient

  /** How Go's `fmt.Sprintf("%v", v)` renders a non-string tag value; strings render as themselves. */
  type TagFormatter = Json -> string

  /** A required string argument: present as a non-empty string, else "<key> is required". */
  function RequiredString(args: Option<Obj>, key: string): (r: Result<string, string>)
    ensures r.Failure? <==> GetString(args, key, "") == ""
    ensures r.Failure? ==> r.error == key + " is required"
    ensures r.Success? ==> r.value == GetString(args, key, "") && r.value != ""
  {
    var s := GetString(args, key, "");
    if s == "" then Failure(key + " is required") else Success(s)
  }

  /**
   * The handlers whose only variable is one identifier taken from a required argument
   * (getChaosExperiment, runChaosExperiment, getExperimentRunDetails, getInfrastructureDetails,
   * getChaosFaults).
   */
  function IdVariables(args: Option<Obj>, argKey: string, varKey: string): (r: Result<Obj, string>)
    ensures r.Failure? <==> GetString(args, argKey, "") == ""
    ensures r.Failure? ==> r.error == argKey + " is required"
    ensures r.Success? ==> r.value.Keys == {varKey} && r.value[varKey] == JStr(GetString(args, argKey, ""))
  {
    match RequiredString(args, argKey)
    case Failure(e) => Failure(e)
    case Success(id) => Success(map[varKey := JStr(id)])
  }

  /** listChaosExperiments: `{request: {pagination: {page, limit}, filter?}}`. */
  function ListChaosExperimentsVariables(args: Option<Obj>): (r: Obj)
    ensures r.Keys == {"request"} && r["request"].JObj?
    ensures "pagination" in r["request"].fields
    ensures r["request"].fields["pagination"] == JObj(map[
      "page" := JNum(GetInt(GetMap(args, "pagination"), "page", 0)),
      "limit" := JNum(GetInt(GetMap(args, "pagination"), "limit", 10))])
    ensures "filter" in r["request"].fields <==> GetMap(args, "filter").Some?
    ensures "filter" in r["request"].fields ==> r["request"].fields["filter"] == JObj(GetMap(args, "filter").value)
    ensures r["request"].fields.Keys <= {"pagination", "filter"}
  {
    var pagination := GetMap(args, "pagination");
    var request := map["pagination" := JObj(map[
      "page" := JNum(GetInt(pagination, "page", 0)),
      "limit" := JNum(GetInt(pagination, "limit", 10))])];
    var request := match GetMap(args, "filter")
      case Some(filter) => request["filter" := JObj(filter)]
      case None => request;
    map["request" := JObj(request)]
  }

  /** Without a usable `pagination` object the listing asks for page 0 with 10 experiments. */
  lemma ListChaosExperimentsDefaultPage(args: Option<Obj>)
    requires GetMap(args, "pagination").None?
    ensures ListChaosExperimentsVariables(args)["request"].fields["pagination"] ==
      JObj(map["page" := JNum(0), "limit" := JNum(10)])
  {
  }

  /** `{"pagination":{"page":0,"limit":10}}` with no filter gives exactly that pagination and no filter key. */
  lemma ListChaosExperimentsExample()
    ensures ListChaosExperimentsVariables(Some(map["pagination" := JObj(map["page" := JNum(0), "limit" := JNum(10)])])) ==
      map["request" := JObj(map["pagination" := JObj(map["page" := JNum(0), "limit" := JNum(10)])])]
  {
  }

  /** stopChaosExperiment: `{experimentID, experimentRunID?}`. */
  function StopChaosExperimentVariables(args: Option<Obj>): (r: Result<Obj, string>)
    ensures r.Failure? <==> GetString(args, "experimentId", "") == ""
    ensures r.Failure? ==> r.error == "experimentId is required"
    ensures r.Success? ==> r.value.Keys <= {"experimentID", "experimentRunID"}
    ensures r.Success? ==> "experimentID" in r.value && r.value["experimentID"] == JStr(GetString(args, "experimentId", ""))
    ensures r.Success? ==> ("experimentRunID" in r.value <==> GetString(args, "experimentRunId", "") != "")
    ensures r.Success? && "experimentRunID" in r.value ==> r.value["experimentRunID"] == JStr(GetString(args, "experimentRunId", ""))
  {
    match RequiredString(args, "experimentId")
    case Failure(e) => Failure(e)
    case Success(id) =>
      var variables := map["experimentID" := JStr(id)];
      var runId := GetString(args, "experimentRunId", "");
      Success(if runId != "" then variables["experimentRunID" := JStr(runId)] else variables)
  }

  /** listExperimentRuns: `{request: {pagination: {page: 0, limit}, experimentIDs?, filter?}}`. */
  function ListExperimentRunsVariables(args: Option<Obj>): (r: Obj)
    ensures r.Keys == {"request"} && r["request"].JObj?
    ensures r["request"].fields.Keys <= {"pagination", "experimentIDs", "filter"}
    ensures "pagination" in r["request"].fields
    ensures r["request"].fields["pagination"] == JObj(map["page" := JNum(0), "limit" := JNum(GetInt(args, "limit", 20))])
    ensures "experimentIDs" in r["request"].fields <==> GetString(args, "experimentId", "") != ""
    ensures "experimentIDs" in r["request"].fields ==>
      r["request"].fields["experimentIDs"] == JArr([JStr(GetString(args, "experimentId", ""))])
    ensures "filter" in r["request"].fields <==> GetString(args, "status", "") != ""
    ensures "filter" in r["request"].fields ==>
      r["request"].fields["filter"] == JObj(map["experimentStatus" := JStr(GetString(args, "status", ""))])
  {
    var request := map["pagination" := JObj(map["page" := JNum(0), "limit" := JNum(GetInt(args, "limit", 20))])];
    var experimentId := GetString(args, "experimentId", "");
    var request := if experimentId != "" then request["experimentIDs" := JArr([JStr(experimentId)])] else request;
    var status := GetString(args, "status", "");
    var request := if status != "" then request["filter" := JObj(map["experimentStatus" := JStr(status)])] else request;
    map["request" := JObj(request)]
  }

  /** Wraps a request map as `{request}` only when it holds something (`len(request) > 0`). */
  function WrapNonEmpty(request: Obj): (r: Obj)
    ensures r.Keys <= {"request"}
    ensures "request" in r <==> request != map[]
    ensures "request" in r ==> r["request"] == JObj(request)
  {
    if |request| > 0 then map["request" := JObj(request)] else map[]
  }

  /** listChaosInfrastructures: `{request: {environmentIDs?, filter: {isActive}?}}`, `request` only when non-empty. */
  function ListChaosInfrastructuresVariables(args: Option<Obj>): (r: Obj)
    ensures "request" in r <==> GetString(args, "environmentId", "") != "" || GetString(args, "status", "") != ""
    ensures r.Keys <= {"request"}
    ensures "request" in r ==> r["request"].JObj? && r["request"].fields.Keys <= {"environmentIDs", "filter"}
    ensures "request" in r ==> ("environmentIDs" in r["request"].fields <==> GetString(args, "environmentId", "") != "")
    ensures "request" in r && "environmentIDs" in r["request"].fields ==>
      r["request"].fields["environmentIDs"] == JArr([JStr(GetString(args, "environmentId", ""))])
    ensures "request" in r ==> ("filter" in r["request"].fields <==> GetString(args, "status", "") != "")
    ensures "request" in r && "filter" in r["request"].fields ==>
      r["request"].fields["filter"] == JObj(map["isActive" := JBool(GetString(args, "status", "") == "Active")])
  {
    var request: Obj := map[];
    var environmentId := GetString(args, "environmentId", "");
    var request := if environmentId != "" then request["environmentIDs" := JArr([JStr(environmentId)])] else request;
    var status := GetString(args, "status", "");
    var request := if status != "" then request["filter" := JObj(map["isActive" := JBool(status == "Active")])] else request;
    WrapNonEmpty(request)
  }

  /** Any status other than exactly "Active" (e.g. "Inactive", "active") filters for inactive infrastructures. */
  lemma InfraStatusFilter(args: Option<Obj>, status: string)
    requires args.Some? && args.value == map["status" := JStr(status)] && status != ""
    ensures ListChaosInfrastructuresVariables(args) ==
      map["request" := JObj(map["filter" := JObj(map["isActive" := JBool(status == "Active")])])]
  {
  }

  /** The filters of listEnvironments and listChaosHubs: `{request: {filter: {<field>}}}` only when the argument is set. */
  function SingleFilterVariables(args: Option<Obj>, argKey: string, field: string): (r: Obj)
    ensures r.Keys <= {"request"}
    ensures "request" in r <==> GetString(args, argKey, "") != ""
    ensures "request" in r ==> r["request"] == JObj(map["filter" := JObj(map[field := JStr(GetString(args, argKey, ""))])])
  {
    var request: Obj := map[];
    var value := GetString(args, argKey, "");
    var request := if value != "" then request["filter" := JObj(map[field := JStr(value)])] else request;
    WrapNonEmpty(request)
  }

  /** listEnvironments filters on `type`. */
  function ListEnvironmentsVariables(args: Option<Obj>): Obj
  {
    SingleFilterVariables(args, "type", "type")
  }

  /** listChaosHubs filters on `hubType`. */
  function ListChaosHubsVariables(args: Option<Obj>): Obj
  {
    SingleFilterVariables(args, "hubType", "hubType")
  }

  /** listResilienceProbes: `{filter: {type: [type]}}` directly in the variables, only when `type` is set. */
  function ListResilienceProbesVariables(args: Option<Obj>): (r: Obj)
    ensures r.Keys <= {"filter"}
    ensures "filter" in r <==> GetString(args, "type", "") != ""
    ensures "filter" in r ==> r["filter"] == JObj(map["type" := JArr([JStr(GetString(args, "type", ""))])])
  {
    var variables: Obj := map[];
    var probeType := GetString(args, "type", "");
    if probeType != "" then variables["filter" := JObj(map["type" := JArr([JStr(probeType)])])] else variables
  }

  /** The environment id derived from its name: spaces become `-`, then everything is lower-cased. */
  function Slug(name: string): (id: string)
    ensures |id| == |name|
    ensures ' ' !in id
    ensures forall i :: 0 <= i < |name| ==> id[i] == (if name[i] == ' ' then '-' else Strings.LowerChar(name[i]))
  {
    Strings.ToLower(Strings.ReplaceChar(name, ' ', '-'))
  }

  /** An environment id is its own id: deriving it again changes nothing. */
  lemma SlugIdempotent(name: string)
    ensures Slug(Slug(name)) == Slug(name)
  {
    var id := Slug(name);
    assert Strings.ReplaceChar(id, ' ', '-') == id;
    Strings.ToLowerIdempotent(Strings.ReplaceChar(name, ' ', '-'));
  }

  /** A name without spaces or upper-case letters is its own id. */
  lemma SlugOfPlainName(name: string)
    requires forall i :: 0 <= i < |name| ==> name[i] != ' ' && !('A' <= name[i] <= 'Z')
    ensures Slug(name) == name
  {
  }

  /** One tag as sent: a string tag as it is, any other value as the formatter renders it. */
  function FormatTag(show: TagFormatter, tag: Json): string
  {
    if tag.JStr? then tag.str else show(tag)
  }

  /** The `tags` argument as sent: empty when absent or not an array, else every element formatted, in order. */
  function Tags(args: Option<Obj>, show: TagFormatter): (tags: seq<string>)
    ensures GetSlice(args, "tags").None? ==> tags == []
    ensures GetSlice(args, "tags").Some? ==> |tags| == |GetSlice(args, "tags").value|
    ensures GetSlice(args, "tags").Some? ==> forall i :: 0 <= i < |tags| ==>
      tags[i] == FormatTag(show, GetSlice(args, "tags").value[i])
  {
    match GetSlice(args, "tags")
    case None => []
    case Some(items) => seq(|items|, i requires 0 <= i < |items| => FormatTag(show, items[i]))
  }

  /** The loop that fills `tags[i]` from the `tags` argument. */
  method FormatTags(items: seq<Json>, show: TagFormatter) returns (tags: seq<string>)
    ensures tags == Tags(Some(map["tags" := JArr(items)]), show)
  {
    var buffer := new string[|items|];
    var i := 0;
    while i < |items|
      invariant 0 <= i <= |items|
      invariant forall j :: 0 <= j < i ==> buffer[j] == FormatTag(show, items[j])
    {
      buffer[i] := FormatTag(show, items[i]);
      i := i + 1;
    }
    tags := buffer[..];
  }

  /** String tags are sent unchanged. */
  lemma StringTagsUnchanged(args: Option<Obj>, show: TagFormatter, strs: seq<string>)
    requires GetSlice(args, "tags") == Some(seq(|strs|, i requires 0 <= i < |strs| => JStr(strs[i])))
    ensures Tags(args, show) == strs
  {
  }

  /** A sequence of strings as a JSON array. */
  function StringArray(ss: seq<string>): (j: Json)
    ensures j.JArr? && |j.items| == |ss|
    ensures forall i :: 0 <= i < |ss| ==> j.items[i] == JStr(ss[i])
  {
    JArr(seq(|ss|, i requires 0 <= i < |ss| => JStr(ss[i])))
  }

  /** createEnvironment: `name` and `type` required; `{request: {environmentID, name, description, type, tags}}`. */
  function CreateEnvironmentVariables(args: Option<Obj>, show: TagFormatter): (r: Result<Obj, string>)
    ensures r.Failure? <==> GetString(args, "name", "") == "" || GetString(args, "type", "") == ""
    ensures GetString(args, "name", "") == "" ==> r == Failure("name" + " is required")
    ensures GetString(args, "name", "") != "" && GetString(args, "type", "") == "" ==> r == Failure("type" + " is required")
    ensures r.Success? ==> r.value.Keys == {"request"} && r.value["request"].JObj?
    ensures r.Success? ==> r.value["request"].fields == map[
      "environmentID" := JStr(Slug(GetString(args, "name", ""))),
      "name" := JStr(GetString(args, "name", "")),
      "description" := JStr(GetString(args, "description", "")),
      "type" := JStr(GetString(args, "type", "")),
      "tags" := StringArray(Tags(args, show))]
  {
    match RequiredString(args, "name")
    case Failure(e) => Failure(e)
    case Success(name) =>
      match RequiredString(args, "type")
      case Failure(e) => Failure(e)
      case Success(envType) =>
        Success(map["request" := JObj(map[
          "environmentID" := JStr(Slug(name)),
          "name" := JStr(name),
          "description" := JStr(GetString(args, "description", "")),
          "type" := JStr(envType),
          "tags" := StringArray(Tags(args, show))])])
  }

  /** The request key that carries a probe type's properties; None for a type the switch does not know. */
  function ProbePropertiesKey(probeType: string): Option<string>
  {
    match probeType
    case "httpProbe" => Some("kubernetesHTTPProperties")
    case "cmdProbe" => Some("kubernetesCMDProperties")
    case "k8sProbe" => Some("k8sProperties")
    case "promProbe" => Some("promProperties")
    case _ => None
  }

  /** A probe's properties carry the given timeout and interval (defaults 5s and 2s), retry 3 and attempt 1. */
  predicate HasProbeTiming(p: Json, props: Option<Obj>)
  {
    && p.JObj?
    && "probeTimeout" in p.fields && p.fields["probeTimeout"] == JStr(GetString(props, "timeout", "5s"))
    && "interval" in p.fields && p.fields["interval"] == JStr(GetString(props, "interval", "2s"))
    && "retry" in p.fields && p.fields["retry"] == JNum(3)
    && "attempt" in p.fields && p.fields["attempt"] == JNum(1)
  }

  /** The timing keys every property block carries. */
  const ProbeTimingKeys := {"probeTimeout", "interval", "retry", "attempt"}

  /** The check an HTTP probe applies to the response of its method. */
  const HttpCriteria := JObj(map["criteria" := JStr("=="), "responseCode" := JStr("200")])

  /** A probe comparator of the given type, criteria and expected value. */
  function Comparator(kind: string, criteria: string, value: string): Json
  {
    JObj(map["type" := JStr(kind), "criteria" := JStr(criteria), "value" := JStr(value)])
  }

  /** The timing fields shared by every property block. */
  function ProbeTiming(props: Option<Obj>): (t: Obj)
    ensures t.Keys == ProbeTimingKeys
    ensures HasProbeTiming(JObj(t), props)
  {
    map[
      "probeTimeout" := JStr(GetString(props, "timeout", "5s")),
      "interval" := JStr(GetString(props, "interval", "2s")),
      "retry" := JNum(3),
      "attempt" := JNum(1)]
  }

  /** An httpProbe block: the user's url, the lower-cased method expecting a 200, and TLS verification on. */
  predicate IsHttpProperties(p: Json, props: Option<Obj>)
  {
    && p.JObj?
    && p.fields.Keys == ProbeTimingKeys + {"url", "method", "insecureSkipVerify"}
    && p.fields["url"] == JStr(GetString(props, "url", ""))
    && p.fields["method"] == JObj(map[Strings.ToLower(GetString(props, "method", "get")) := HttpCriteria])
    && p.fields["insecureSkipVerify"] == JBool(false)
  }

  /** A cmdProbe block: the user's command, whose output must equal "success". */
  predicate IsCmdProperties(p: Json, props: Option<Obj>)
  {
    && p.JObj?
    && p.fields.Keys == ProbeTimingKeys + {"command", "comparator"}
    && p.fields["command"] == JStr(GetString(props, "command", ""))
    && p.fields["comparator"] == Comparator("string", "==", "success")
  }

  /** A k8sProbe block: the user's resource in the core group, version v1, which must be present. */
  predicate IsK8sProperties(p: Json, props: Option<Obj>)
  {
    && p.JObj?
    && p.fields.Keys == ProbeTimingKeys + {"group", "version", "resource", "operation"}
    && p.fields["resource"] == JStr(GetString(props, "resource", ""))
    && p.fields["group"] == JStr("")
    && p.fields["version"] == JStr("v1")
    && p.fields["operation"] == JStr("present")
  }

  /** A promProbe block: the user's endpoint and query, whose value must be at least 0. */
  predicate IsPromProperties(p: Json, props: Option<Obj>)
  {
    && p.JObj?
    && p.fields.Keys == ProbeTimingKeys + {"endpoint", "query", "comparator"}
    && p.fields["endpoint"] == JStr(GetString(props, "endpoint", ""))
    && p.fields["query"] == JStr(GetString(props, "query", ""))
    && p.fields["comparator"] == Comparator("float", ">=", "0")
  }

  /** The kubernetesHTTPProperties block of an httpProbe. */
  function HttpProperties(props: Option<Obj>): (p: Json)
    ensures HasProbeTiming(p, props)
    ensures IsHttpProperties(p, props)
  {
    var httpMethod := Strings.ToLower(GetString(props, "method", "get"));
    JObj(ProbeTiming(props) + map[
      "url" := JStr(GetString(props, "url", "")),
      "method" := JObj(map[httpMethod := HttpCriteria]),
      "insecureSkipVerify" := JBool(false)])
  }

  /** The kubernetesCMDProperties block of a cmdProbe. */
  function CmdProperties(props: Option<Obj>): (p: Json)
    ensures HasProbeTiming(p, props)
    ensures IsCmdProperties(p, props)
  {
    JObj(ProbeTiming(props) + map[
      "command" := JStr(GetString(props, "command", "")),
      "comparator" := Comparator("string", "==", "success")])
  }

  /** The k8sProperties block of a k8sProbe. */
  function K8sProperties(props: Option<Obj>): (p: Json)
    ensures HasProbeTiming(p, props)
    ensures IsK8sProperties(p, props)
  {
    JObj(ProbeTiming(props) + map[
      "group" := JStr(""),
      "version" := JStr("v1"),
      "resource" := JStr(GetString(props, "resource", "")),
      "operation" := JStr("present")])
  }

  /** The promProperties block of a promProbe. */
  function PromProperties(props: Option<Obj>): (p: Json)
    ensures HasProbeTiming(p, props)
    ensures IsPromProperties(p, props)
  {
    JObj(ProbeTiming(props) + map[
      "endpoint" := JStr(GetString(props, "endpoint", "")),
      "query" := JStr(GetString(props, "query", "")),
      "comparator" := Comparator("float", ">=", "0")])
  }

  /** The per-type properties of createResilienceProbe, filled from the `properties` argument with defaults. */
  function ProbeProperties(probeType: string, props: Option<Obj>): (p: Json)
    requires ProbePropertiesKey(probeType).Some?
    ensures HasProbeTiming(p, props)
    ensures probeType == "httpProbe" ==> IsHttpProperties(p, props)
    ensures probeType == "cmdProbe" ==> IsCmdProperties(p, props)
    ensures probeType == "k8sProbe" ==> IsK8sProperties(p, props)
    ensures probeType == "promProbe" ==> IsPromProperties(p, props)
  {
    match probeType
    case "httpProbe" => HttpProperties(props)
    case "cmdProbe" => CmdProperties(props)
    case "k8sProbe" => K8sProperties(props)
    case _ => PromProperties(props)
  }

  /** The keys of the request fields every new probe carries. */
  const ProbeBaseKeys := {"name", "description", "type", "infrastructureType", "tags"}

  /** The request fields every new probe carries. */
  function ProbeBase(args: Option<Obj>, name: string, probeType: string, show: TagFormatter): Obj
  {
    map[
      "name" := JStr(name),
      "description" := JStr(GetString(args, "description", "")),
      "type" := JStr(probeType),
      "infrastructureType" := JStr("Kubernetes"),
      "tags" := StringArray(Tags(args, show))]
  }

  /** The common fields of a new probe plus, for a known type, that type's property block. */
  function ProbeRequest(args: Option<Obj>, name: string, probeType: string, props: Option<Obj>, show: TagFormatter): (request: Obj)
    ensures "name" in request && request["name"] == JStr(name)
    ensures "type" in request && request["type"] == JStr(probeType)
    ensures "infrastructureType" in request && request["infrastructureType"] == JStr("Kubernetes")
    ensures "description" in request && request["description"] == JStr(GetString(args, "description", ""))
    ensures "tags" in request && request["tags"] == StringArray(Tags(args, show))
    ensures ProbePropertiesKey(probeType).None? ==> request.Keys == ProbeBaseKeys
    ensures ProbePropertiesKey(probeType).Some? ==> request.Keys == ProbeBaseKeys + {ProbePropertiesKey(probeType).value}
    ensures forall t :: ProbePropertiesKey(t).Some? ==> (ProbePropertiesKey(t).value in request <==> t == probeType)
    ensures ProbePropertiesKey(probeType).Some? ==> request[ProbePropertiesKey(probeType).value] == ProbeProperties(probeType, props)
    ensures ProbePropertiesKey(probeType).Some? ==> HasProbeTiming(request[ProbePropertiesKey(probeType).value], props)
  {
    var base := ProbeBase(args, name, probeType, show);
    assert base.Keys == ProbeBaseKeys;
    var request :=
      match ProbePropertiesKey(probeType)
      case Some(key) => base[key := ProbeProperties(probeType, props)]
      case None => base;
    assert forall t :: ProbePropertiesKey(t).Some? ==> (ProbePropertiesKey(t).value in request <==> t == probeType) by {
      forall t | ProbePropertiesKey(t).Some?
        ensures ProbePropertiesKey(t).value in request <==> t == probeType
      {
        ProbePropertiesKeyDistinct(t, probeType);
      }
    }
    request
  }

  /** Each known probe type has its own properties key, and none of them is a common field. */
  lemma ProbePropertiesKeyDistinct(t: string, u: string)
    requires ProbePropertiesKey(t).Some?
    ensures ProbePropertiesKey(t).value !in ProbeBaseKeys
    ensures ProbePropertiesKey(u).Some? && ProbePropertiesKey(t).value == ProbePropertiesKey(u).value ==> t == u
  {
  }

  /**
   * createResilienceProbe: `name`, `type` and a `properties` object required; the request holds
   * the common fields and, for a known probe type, exactly that type's property block.
   */
  function CreateResilienceProbeVariables(args: Option<Obj>, show: TagFormatter): (r: Result<Obj, string>)
    ensures r.Failure? <==>
      GetString(args, "name", "") == "" || GetString(args, "type", "") == "" || GetMap(args, "properties").None?
    ensures GetString(args, "name", "") == "" ==> r == Failure("name" + " is required")
    ensures GetString(args, "name", "") != "" && GetString(args, "type", "") == "" ==> r == Failure("type" + " is required")
    ensures GetString(args, "name", "") != "" && GetString(args, "type", "") != "" && GetMap(args, "properties").None? ==>
      r == Failure("properties are required")
    ensures r.Success? ==> r.value.Keys == {"request"} && r.value["request"].JObj?
    ensures r.Success? ==>
      r.value["request"].fields ==
      ProbeRequest(args, GetString(args, "name", ""), GetString(args, "type", ""), GetMap(args, "properties"), show)
  {
    match RequiredString(args, "name")
    case Failure(e) => Failure(e)
    case Success(name) =>
      match RequiredString(args, "type")
      case Failure(e) => Failure(e)
      case Success(probeType) =>
        var props := GetMap(args, "properties");
        if props.None? then Failure("properties are required")
        else Success(map["request" := JObj(ProbeRequest(args, name, probeType, props, show))])
  }

  /** The request registerChaosInfrastructure sends once its three required fields are known. */
  function InfraRequest(args: Option<Obj>, name: string, environmentId: string, infraScope: string, show: TagFormatter): (request: Obj)
    ensures "name" in request && request["name"] == JStr(name)
    ensures "environmentID" in request && request["environmentID"] == JStr(environmentId)
    ensures "infraScope" in request && request["infraScope"] == JStr(infraScope)
    ensures "description" in request && request["description"] == JStr(GetString(args, "description", "Registered via MCP Server"))
    ensures "platformName" in request && request["platformName"] == JStr(GetString(args, "platformName", "Generic Kubernetes"))
    ensures "infraNamespace" in request && request["infraNamespace"] == JStr(GetString(args, "infraNamespace", "litmus"))
    ensures "serviceAccount" in request && request["serviceAccount"] == JStr("litmus-admin")
    ensures "infrastructureType" in request && request["infrastructureType"] == JStr("Kubernetes")
    ensures "tags" in request && request["tags"] == StringArray(Tags(args, show))
    ensures forall flag :: flag in {"infraNsExists", "infraSaExists", "skipSsl"} ==> flag in request && request[flag] == JBool(false)
    ensures request.Keys == {
      "name", "description", "environmentID", "infrastructureType", "platformName", "infraScope",
      "infraNamespace", "serviceAccount", "infraNsExists", "infraSaExists", "skipSsl", "tags"}
  {
    map[
      "name" := JStr(name),
      "description" := JStr(GetString(args, "description", "Registered via MCP Server")),
      "environmentID" := JStr(environmentId),
      "infrastructureType" := JStr("Kubernetes"),
      "platformName" := JStr(GetString(args, "platformName", "Generic Kubernetes")),
      "infraScope" := JStr(infraScope),
      "infraNamespace" := JStr(GetString(args, "infraNamespace", "litmus")),
      "serviceAccount" := JStr("litmus-admin"),
      "infraNsExists" := JBool(false),
      "infraSaExists" := JBool(false),
      "skipSsl" := JBool(false),
      "tags" := StringArray(Tags(args, show))]
  }

  /**
   * registerChaosInfrastructure: `name`, `environmentId` (defaulting to the configured environment)
   * and `infraScope` required; the request fills the documented defaults.
   */
  function RegisterChaosInfrastructureVariables(args: Option<Obj>, config: GraphQLClient.Config, show: TagFormatter): (r: Result<Obj, string>)
    ensures r.Failure? <==>
      || GetString(args, "name", "") == ""
      || GetString(args, "environmentId", config.defaultEnvironmentId) == ""
      || GetString(args, "infraScope", "") == ""
    ensures GetString(args, "name", "") == "" ==> r == Failure("name" + " is required")
    ensures GetString(args, "name", "") != "" && GetString(args, "environmentId", config.defaultEnvironmentId) == "" ==>
      r == Failure("environmentId is required")
    ensures
      && GetString(args, "name", "") != ""
      && GetString(args, "environmentId", config.defaultEnvironmentId) != ""
      && GetString(args, "infraScope", "") == ""
      ==> r == Failure("infraScope" + " is required")
    ensures r.Success? ==> r.value.Keys == {"request"} && r.value["request"].JObj?
    ensures r.Success? ==> r.value["request"].fields == InfraRequest(args, GetString(args, "name", ""),
      GetString(args, "environmentId", config.defaultEnvironmentId), GetString(args, "infraScope", ""), show)
  {
    match RequiredString(args, "name")
    case Failure(e) => Failure(e)
    case Success(name) =>
      var environmentId := GetString(args, "environmentId", config.defaultEnvironmentId);
      if environmentId == "" then Failure("environmentId is required")
      else
        match RequiredString(args, "infraScope")
        case Failure(e) => Failure(e)
        case Success(infraScope) =>
          Success(map["request" := JObj(InfraRequest(args, name, environmentId, infraScope, show))])
  }

  /** An `environmentId` given as the empty string is rejected even when a default environment is configured. */
  lemma RegisterRejectsExplicitEmptyEnvironment(args: Obj, config: GraphQLClient.Config, show: TagFormatter)
    requires "name" in args && args["name"] == JStr("edge")
    requires "environmentId" in args && args["environmentId"] == JStr("")
    ensures RegisterChaosInfrastructureVariables(Some(args), config, show) == Failure("environmentId is required")
  {
  }

  /** The variables of the optional manifest query of getInfrastructureDetails. */
  function ManifestVariables(infraId: string): Obj
  {
    map["infraID" := JStr(infraId), "upgrade" := JBool(false)]
  }
}
