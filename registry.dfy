/**
 * The tool registry of main.go: the descriptors `getTools` lists for `tools/list`, and the
 * name switch of `handleTool`. Both must name the same sixteen tools.
 */
module Registry {
  import opened Wrappers

  /**
   * A tool descriptor as `tools/list` returns it. Of the input schema only the `required`
   * list is kept; the property descriptions are advisory text for the calling agent.
   */
  datatype Tool = Tool(name: string, description: string, required: seq<string>)

  /** The tools `handleTool` dispatches to. */
  datatype ToolKind =
    | ListChaosExperiments
    | GetChaosExperiment
    | RunChaosExperiment
    | StopChaosExperiment
    | ListExperimentRuns
    | GetExperimentRunDetails
    | ListChaosInfrastructures
    | GetInfrastructureDetails
    | ListEnvironments
    | CreateEnvironment
    | ListResilienceProbes
    | CreateResilienceProbe
    | ListChaosHubs
    | GetChaosFaults
    | GetExperimentStatistics
    | RegisterChaosInfrastructure

  /** The `switch toolName` of `handleTool`; None is its `default` branch. */
  function KindOf(name: string): Option<ToolKind>
  {
    match name
    case "list_chaos_experiments" => Some(ListChaosExperiments)
    case "get_chaos_experiment" => Some(GetChaosExperiment)
    case "run_chaos_experiment" => Some(RunChaosExperiment)
    case "stop_chaos_experiment" => Some(StopChaosExperiment)
    case "list_experiment_runs" => Some(ListExperimentRuns)
    case "get_experiment_run_details" => Some(GetExperimentRunDetails)
    case "list_chaos_infrastructures" => Some(ListChaosInfrastructures)
    case "get_infrastructure_details" => Some(GetInfrastructureDetails)
    case "list_environments" => Some(ListEnvironments)
    case "create_environment" => Some(CreateEnvironment)
    case "list_resilience_probes" => Some(ListResilienceProbes)
    case "create_resilience_probe" => Some(CreateResilienceProbe)
    case "list_chaos_hubs" => Some(ListChaosHubs)
    case "get_chaos_faults" => Some(GetChaosFaults)
    case "get_experiment_statistics" => Some(GetExperimentStatistics)
    case "register_chaos_infrastructure" => Some(RegisterChaosInfrastructure)
    case _ => None
  }

  /** The name `getTools` gives each tool. */
  function ToolName(k: ToolKind): string
  {
    match k
    case ListChaosExperiments => "list_chaos_experiments"
    case GetChaosExperiment => "get_chaos_experiment"
    case RunChaosExperiment => "run_chaos_experiment"
    case StopChaosExperiment => "stop_chaos_experiment"
    case ListExperimentRuns => "list_experiment_runs"
    case GetExperimentRunDetails => "get_experiment_run_details"
    case ListChaosInfrastructures => "list_chaos_infrastructures"
    case GetInfrastructureDetails => "get_infrastructure_details"
    case ListEnvironments => "list_environments"
    case CreateEnvironment => "create_environment"
    case ListResilienceProbes => "list_resilience_probes"
    case CreateResilienceProbe => "create_resilience_probe"
    case ListChaosHubs => "list_chaos_hubs"
    case GetChaosFaults => "get_chaos_faults"
    case GetExperimentStatistics => "get_experiment_statistics"
    case RegisterChaosInfrastructure => "register_chaos_infrastructure"
  }

  /** The description `getTools` gives each tool. */
  function ToolDescription(k: ToolKind): string
  {
    match k
    case ListChaosExperiments => "List all chaos experiments with optional filtering"
    case GetChaosExperiment => "Get detailed information about a specific chaos experiment"
    case RunChaosExperiment => "Execute a chaos experiment immediately"
    case StopChaosExperiment => "Stop a running chaos experiment"
    case ListExperimentRuns => "List experiment runs with detailed execution history"
    case GetExperimentRunDetails => "Get detailed information about a specific experiment run"
    case ListChaosInfrastructures => "List all chaos infrastructures (formerly agents/delegates)"
    case GetInfrastructureDetails => "Get detailed information about a chaos infrastructure"
    case ListEnvironments => "List all environments for organizing chaos infrastructures"
    case CreateEnvironment => "Create a new environment for organizing chaos infrastructures"
    case ListResilienceProbes => "List all resilience probes with plug-and-play architecture"
    case CreateResilienceProbe => "Create a new resilience probe for steady-state validation"
    case ListChaosHubs => "List all ChaosHubs (experiment repositories)"
    case GetChaosFaults => "Get available chaos faults from ChaosHub"
    case GetExperimentStatistics => "Get comprehensive experiment and infrastructure statistics"
    case RegisterChaosInfrastructure => "Register a new chaos infrastructure"
  }

  /** The `required` list of each tool's input schema. */
  function ToolRequired(k: ToolKind): seq<string>
  {
    match k
    case ListChaosExperiments => []
    case GetChaosExperiment => ["experimentId"]
    case RunChaosExperiment => ["experimentId"]
    case StopChaosExperiment => ["experimentId"]
    case ListExperimentRuns => []
    case GetExperimentRunDetails => ["experimentRunId"]
    case ListChaosInfrastructures => []
    case GetInfrastructureDetails => ["infraId"]
    case ListEnvironments => []
    case CreateEnvironment => ["name", "type"]
    case ListResilienceProbes => []
    case CreateResilienceProbe => ["name", "type", "properties"]
    case ListChaosHubs => []
    case GetChaosFaults => ["hubId"]
    case GetExperimentStatistics => []
    case RegisterChaosInfrastructure => ["name", "environmentId", "infraScope"]
  }

  /** The handlers in the order `getTools` lists their tools. */
  function ListedKinds(): seq<ToolKind>
  {
    [
      ListChaosExperiments,
      GetChaosExperiment,
      RunChaosExperiment,
      StopChaosExperiment,
      ListExperimentRuns,
      GetExperimentRunDetails,
      ListChaosInfrastructures,
      GetInfrastructureDetails,
      ListEnvironments,
      CreateEnvironment,
      ListResilienceProbes,
      CreateResilienceProbe,
      ListChaosHubs,
      GetChaosFaults,
      GetExperimentStatistics,
      RegisterChaosInfrastructure
    ]
  }

  /** The descriptors of `getTools`, in its order. */
  function Tools(): seq<Tool>
  {
    seq(|ListedKinds()|, i requires 0 <= i < |ListedKinds()| =>
      Tool(ToolName(ListedKinds()[i]), ToolDescription(ListedKinds()[i]), ToolRequired(ListedKinds()[i])))
  }

  /** The tool names `tools/list` advertises. */
  function ToolNames(): (names: seq<string>)
    ensures |names| == |Tools()|
    ensures forall i :: 0 <= i < |Tools()| ==> names[i] == Tools()[i].name
  {
    seq(|Tools()|, i requires 0 <= i < |Tools()| => Tools()[i].name)
  }

  /** The switch sends each tool's registered name to that tool's handler. */
  lemma SwitchMatchesNames(k: ToolKind)
    ensures KindOf(ToolName(k)) == Some(k)
  {
  }

  /** A name the switch accepts is the registered name of the handler it picks. */
  lemma SwitchAcceptsOnlyNames(name: string)
    requires KindOf(name).Some?
    ensures ToolName(KindOf(name).value) == name
  {
    match KindOf(name).value
    case ListChaosExperiments => assert name == "list_chaos_experiments";
    case GetChaosExperiment => assert name == "get_chaos_experiment";
    case RunChaosExperiment => assert name == "run_chaos_experiment";
    case StopChaosExperiment => assert name == "stop_chaos_experiment";
    case ListExperimentRuns => assert name == "list_experiment_runs";
    case GetExperimentRunDetails => assert name == "get_experiment_run_details";
    case ListChaosInfrastructures => assert name == "list_chaos_infrastructures";
    case GetInfrastructureDetails => assert name == "get_infrastructure_details";
    case ListEnvironments => assert name == "list_environments";
    case CreateEnvironment => assert name == "create_environment";
    case ListResilienceProbes => assert name == "list_resilience_probes";
    case CreateResilienceProbe => assert name == "create_resilience_probe";
    case ListChaosHubs => assert name == "list_chaos_hubs";
    case GetChaosFaults => assert name == "get_chaos_faults";
    case GetExperimentStatistics => assert name == "get_experiment_statistics";
    case RegisterChaosInfrastructure => assert name == "register_chaos_infrastructure";
  }

  /** Every handler is listed exactly once. */
  lemma ListedKindsComplete()
    ensures |ListedKinds()| == 16
    ensures forall k :: k in ListedKinds()
    ensures forall i, j :: 0 <= i < j < |ListedKinds()| ==> ListedKinds()[i] != ListedKinds()[j]
  {
    var kinds := ListedKinds();
    forall k
      ensures k in kinds
    {
      match k
      case ListChaosExperiments => assert kinds[0] == k;
      case GetChaosExperiment => assert kinds[1] == k;
      case RunChaosExperiment => assert kinds[2] == k;
      case StopChaosExperiment => assert kinds[3] == k;
      case ListExperimentRuns => assert kinds[4] == k;
      case GetExperimentRunDetails => assert kinds[5] == k;
      case ListChaosInfrastructures => assert kinds[6] == k;
      case GetInfrastructureDetails => assert kinds[7] == k;
      case ListEnvironments => assert kinds[8] == k;
      case CreateEnvironment => assert kinds[9] == k;
      case ListResilienceProbes => assert kinds[10] == k;
      case CreateResilienceProbe => assert kinds[11] == k;
      case ListChaosHubs => assert kinds[12] == k;
      case GetChaosFaults => assert kinds[13] == k;
      case GetExperimentStatistics => assert kinds[14] == k;
      case RegisterChaosInfrastructure => assert kinds[15] == k;
    }
  }

  /** Sixteen tools, no name listed twice. */
  lemma ToolNamesUnique()
    ensures |Tools()| == 16
    ensures forall i, j :: 0 <= i < j < |Tools()| ==> Tools()[i].name != Tools()[j].name
  {
    ListedKindsComplete();
    forall i, j | 0 <= i < j < |Tools()|
      ensures Tools()[i].name != Tools()[j].name
    {
      SwitchMatchesNames(ListedKinds()[i]);
      SwitchMatchesNames(ListedKinds()[j]);
    }
  }

  /** Every advertised tool is dispatched, to the handler registered under its name. */
  lemma EveryListedToolIsDispatched()
    ensures forall i :: 0 <= i < |Tools()| ==> KindOf(Tools()[i].name) == Some(ListedKinds()[i])
  {
    forall i | 0 <= i < |Tools()|
      ensures KindOf(Tools()[i].name) == Some(ListedKinds()[i])
    {
      SwitchMatchesNames(ListedKinds()[i]);
    }
  }

  /** Every dispatched name is advertised. */
  lemma EveryDispatchedToolIsListed(name: string)
    requires KindOf(name).Some?
    ensures name in ToolNames()
  {
    SwitchAcceptsOnlyNames(name);
    ListedKindsComplete();
    var k := KindOf(name).value;
    var kinds := ListedKinds();
    assert k in kinds;
    var i :| 0 <= i < |kinds| && kinds[i] == k;
    assert ToolNames()[i] == name;
  }

  /** `create_chaos_experiment` is neither advertised nor dispatched. */
  lemma CreateChaosExperimentDisabled()
    ensures KindOf("create_chaos_experiment") == None
    ensures "create_chaos_experiment" !in ToolNames()
  {
  }
}
