/**
 * The logical part of the GraphQL remote-call client (`graphqlRequest` in main.go):
 * project-id injection into the variables, and folding the decoded response envelope into
 * data or one error. The HTTP exchange is the `transport` oracle.
 */
module GraphQLClient {
  import opened Wrappers
  import opened JsonValue
  import Strings

  /** Process configuration, read once at start-up and never changed. */
  datatype Config = Config(
    chaosCenterEndpoint: string,
    projectId: string,
    accessToken: string,
    defaultInfraId: string,
    defaultEnvironmentId: string)

  /** One entry of the envelope's `errors` list. */
  datatype GraphQLError = GraphQLError(message: string)

  /**
   * What the HTTP exchange yields for one request: a failure at one of its stages (with the
   * library's cause text) or the decoded `{data, errors}` envelope.
   */
  datatype Reply =
    | RequestInvalid(cause: string)
    | ExecuteFailed(cause: string)
    | ReadFailed(cause: string)
    | Undecodable(cause: string)
    | Envelope(data: Json, errors: seq<GraphQLError>)

  /** The HTTP exchange: given the operation and the variables as sent, the reply. */
  type Transport = (string, Obj) -> Reply

  const ProjectIdKey := "projectID"

  /**
   * The variables as sent: the caller's map (a fresh one for nil) with `projectID` set to the
   * configured project, overwriting any value the caller put there.
   */
  function WithProjectId(variables: Option<Obj>, projectId: string): (sent: Obj)
    ensures ProjectIdKey in sent && sent[ProjectIdKey] == JStr(projectId)
    ensures forall k :: k != ProjectIdKey ==> (k in sent <==> variables.Some? && k in variables.value)
    ensures forall k :: k != ProjectIdKey && k in sent ==> sent[k] == variables.value[k]
    ensures variables.None? ==> sent.Keys == {ProjectIdKey}
  {
    var base := if variables.Some? then variables.value else map[];
    base[ProjectIdKey := JStr(projectId)]
  }

  /** Injecting twice is injecting once. */
  lemma WithProjectIdIdempotent(variables: Option<Obj>, projectId: string)
    ensures WithProjectId(Some(WithProjectId(variables, projectId)), projectId) == WithProjectId(variables, projectId)
  {
  }

  /** A Go `map[string]interface{}` that callers hold by reference. */
  class VarMap {
    var entries: Obj

    constructor (initial: Obj)
      ensures entries == initial
    {
      entries := initial;
    }
  }

  /**
   * The prologue of `graphqlRequest`: a nil map is replaced by a fresh one, and `projectID`
   * is written into the map the caller passed, so the caller sees the change.
   */
  method InjectProjectId(variables: VarMap?, projectId: string) returns (sent: VarMap)
    modifies variables
    ensures variables != null ==> sent == variables
    ensures variables == null ==> fresh(sent)
    ensures sent.entries == WithProjectId(if variables == null then None else Some(old(variables.entries)), projectId)
  {
    if variables == null {
      sent := new VarMap(map[]);
    } else {
      sent := variables;
    }
    sent.entries := sent.entries[ProjectIdKey := JStr(projectId)];
  }

  /** The messages of an error list, in list order. */
  function Messages(errors: seq<GraphQLError>): (ms: seq<string>)
    ensures |ms| == |errors|
    ensures forall i :: 0 <= i < |errors| ==> ms[i] == errors[i].message
  {
    seq(|errors|, i requires 0 <= i < |errors| => errors[i].message)
  }

  /** The loop of `graphqlRequest` that fills `messages[i]` from the error list. */
  method CollectMessages(errors: seq<GraphQLError>) returns (messages: seq<string>)
    ensures messages == Messages(errors)
  {
    var buffer := new string[|errors|];
    var i := 0;
    while i < |errors|
      invariant 0 <= i <= |errors|
      invariant forall j :: 0 <= j < i ==> buffer[j] == errors[j].message
    {
      buffer[i] := errors[i].message;
      i := i + 1;
    }
    messages := buffer[..];
  }

  const ErrorsPrefix := "GraphQL errors: "
  const MessageSeparator := ", "

  /**
   * The end of `graphqlRequest`: each failure stage becomes its own wrapped error; an envelope
   * with errors becomes one error listing all messages; otherwise the data is returned.
   */
  function Fold(reply: Reply): (r: Result<Json, string>)
    ensures r.Success? <==> reply.Envelope? && |reply.errors| == 0
    ensures r.Success? ==> r.value == reply.data
    ensures reply.Envelope? && |reply.errors| > 0 ==>
      r == Failure(ErrorsPrefix + Strings.Join(Messages(reply.errors), MessageSeparator))
    ensures reply.RequestInvalid? ==> r == Failure("failed to create request: " + reply.cause)
    ensures reply.ExecuteFailed? ==> r == Failure("failed to execute request: " + reply.cause)
    ensures reply.ReadFailed? ==> r == Failure("failed to read response: " + reply.cause)
    ensures reply.Undecodable? ==> r == Failure("failed to unmarshal response: " + reply.cause)
  {
    match reply
    case RequestInvalid(cause) => Failure("failed to create request: " + cause)
    case ExecuteFailed(cause) => Failure("failed to execute request: " + cause)
    case ReadFailed(cause) => Failure("failed to read response: " + cause)
    case Undecodable(cause) => Failure("failed to unmarshal response: " + cause)
    case Envelope(data, errors) =>
      if |errors| > 0 then Failure(ErrorsPrefix + Strings.Join(Messages(errors), MessageSeparator))
      else Success(data)
  }

  /** With one error the message is that error's message after the prefix. */
  lemma FoldOneError(data: Json, e: GraphQLError)
    ensures Fold(Envelope(data, [e])) == Failure(ErrorsPrefix + e.message)
  {
  }

  /** The first error's message is reported first, right after the prefix. */
  lemma FoldReportsFirstError(data: Json, errors: seq<GraphQLError>)
    requires |errors| > 0
    ensures var e := Fold(Envelope(data, errors)).error;
      |ErrorsPrefix + errors[0].message| <= |e| && e[..|ErrorsPrefix + errors[0].message|] == ErrorsPrefix + errors[0].message
  {
    Strings.JoinStartsWithFirst(Messages(errors), MessageSeparator);
    var joined := Strings.Join(Messages(errors), MessageSeparator);
    assert (ErrorsPrefix + joined)[..|ErrorsPrefix + errors[0].message|] == ErrorsPrefix + joined[..|errors[0].message|];
  }

  /**
   * Errors are reported in list order: the errors of a longer list extend the message of a
   * shorter prefix of it by a separator and the remaining messages.
   */
  lemma FoldKeepsOrder(data: Json, first: seq<GraphQLError>, rest: seq<GraphQLError>)
    requires |first| > 0 && |rest| > 0
    ensures Fold(Envelope(data, first + rest)).error ==
      Fold(Envelope(data, first)).error + MessageSeparator + Strings.Join(Messages(rest), MessageSeparator)
  {
    assert Messages(first + rest) == Messages(first) + Messages(rest);
    Strings.JoinAppend(Messages(first), Messages(rest), MessageSeparator);
  }

  /** One remote call as it leaves the server: operation name and variables as sent. */
  datatype Call = Call(operation: string, variables: Obj)

  /** `graphqlRequest`: inject the project, exchange, fold. Returns the call made and its outcome. */
  function Execute(config: Config, transport: Transport, operation: string, variables: Option<Obj>): (r: (Call, Result<Json, string>))
    ensures r.0.operation == operation
    ensures r.0.variables == WithProjectId(variables, config.projectId)
    ensures ProjectIdKey in r.0.variables && r.0.variables[ProjectIdKey] == JStr(config.projectId)
    ensures r.1 == Fold(transport(operation, r.0.variables))
  {
    var sent := WithProjectId(variables, config.projectId);
    (Call(operation, sent), Fold(transport(operation, sent)))
  }
}
