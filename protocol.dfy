/**
 * The JSON-RPC 2.0 front end of main.go: answering one decoded request (`handleRequest`,
 * `handleCallTool`, `handleInitialize`, `handleListTools`) and the line-by-line serve loop (`run`).
 */
module Protocol {
  import opened Wrappers
  import opened JsonValue
  import opened Registry
  import opened Handlers

  const JsonRpcVersion := "2.0"
  const InternalError := -32603
  const MethodNotFound := -32601

  /** One decoded request line; `params` is absent when the line has no such member. */
  datatype Request = Request(jsonrpc: string, id: Json, rpcMethod: string, params: Option<Json>)

  datatype RpcError = RpcError(code: int, message: string)

  /** The `result` member of a response, one alternative per method that produces one. */
  datatype Payload =
    | ServerInfo(protocolVersion: string, name: string, version: string)
    | ToolList(tools: seq<Tool>)
    | ToolOutput(output: ToolResult)

  datatype Response = Response(jsonrpc: string, id: Json, result: Option<Payload>, error: Option<RpcError>)

  /** The `initialize` result: protocol revision and server identity. */
  function Initialize(): (p: Payload)
    ensures p.ServerInfo? && p.protocolVersion == "2024-11-05"
    ensures p.name == "litmuschaos-mcp-server" && p.version == "3.16.0"
  {
    ServerInfo("2024-11-05", "litmuschaos-mcp-server", "3.16.0")
  }

  /** The parameters of `tools/call`: the tool name and its raw arguments. */
  datatype CallParams = CallParams(name: string, arguments: Option<Json>)

  /** The wrapper `handleCallTool` puts around a parameter decoding error. */
  const CallParamsPrefix := "failed to parse call tool params: "

  /** A `name` member that is neither a string nor null cannot be decoded into the name. */
  predicate NameMistyped(m: Obj)
  {
    "name" in m && !(m["name"].JNull? || m["name"].JStr?)
  }

  /**
   * Decoding `params` into `{name, arguments}`: absent params are an empty document, null
   * decodes to the zero value, a non-string `name` or a non-object document is an error.
   */
  function DecodeCallParams(params: Option<Json>): (r: Result<CallParams, string>)
    ensures r.Failure? <==>
      || params.None?
      || !(params.value.JNull? || params.value.JObj?)
      || (params.value.JObj? && NameMistyped(params.value.fields))
    ensures params == Some(JNull) ==> r == Success(CallParams("", None))
    ensures r.Success? && params.Some? && params.value.JObj? ==>
      var m := params.value.fields;
      && (r.value.arguments.Some? <==> "arguments" in m)
      && (r.value.arguments.Some? ==> r.value.arguments.value == m["arguments"])
      && ("name" in m && m["name"].JStr? ==> r.value.name == m["name"].str)
      && ("name" !in m || m["name"].JNull? ==> r.value.name == "")
    ensures r.Failure? ==> |CallParamsPrefix| <= |r.error| && r.error[..|CallParamsPrefix|] == CallParamsPrefix
  {
    match params
    case None => Failure(CallParamsPrefix + "unexpected end of JSON input")
    case Some(JNull) => Success(CallParams("", None))
    case Some(JObj(m)) =>
      var arguments := if "arguments" in m then Some(m["arguments"]) else None;
      if "name" !in m || m["name"].JNull? then Success(CallParams("", arguments))
      else if m["name"].JStr? then Success(CallParams(m["name"].str, arguments))
      else Failure(CallParamsPrefix + "json: cannot unmarshal " + KindName(m["name"]) + " into Go struct field .name of type string")
    case Some(other) =>
      Failure(CallParamsPrefix + "json: cannot unmarshal " + KindName(other) + " into Go value of type struct")
  }

  /** `handleCallTool`: decode the parameters, then run the tool. */
  function CallTool(s: Server, params: Option<Json>): (r: Result<ToolResult, string>)
    ensures DecodeCallParams(params).Failure? ==> r == Failure(DecodeCallParams(params).error)
    ensures DecodeCallParams(params).Success? ==>
      r == HandleTool(s, DecodeCallParams(params).value.name, DecodeCallParams(params).value.arguments).result
  {
    match DecodeCallParams(params)
    case Failure(e) => Failure(e)
    case Success(p) => HandleTool(s, p.name, p.arguments).result
  }

  /**
   * `handleRequest`: the answer to one request, or None for the `initialized` notification.
   * Every answer is a JSON-RPC 2.0 response echoing the request id, with exactly one of
   * `result` and `error`.
   */
  function Respond(s: Server, req: Request): (r: Option<Response>)
    ensures r.None? <==> req.rpcMethod == "initialized"
    ensures r.Some? ==> r.value.jsonrpc == JsonRpcVersion && r.value.id == req.id
    ensures r.Some? ==> (r.value.result.Some? <==> r.value.error.None?)
    ensures req.rpcMethod == "initialize" ==> r == Some(Response(JsonRpcVersion, req.id, Some(Initialize()), None))
  {
    var answer := (result: Option<Payload>, error: Option<RpcError>) => Some(Response(JsonRpcVersion, req.id, result, error));
    match req.rpcMethod
    case "initialize" => answer(Some(Initialize()), None)
    case "initialized" => None
    case "tools/list" => answer(Some(ToolList(Tools())), None)
    case "tools/call" =>
      (match CallTool(s, req.params)
       case Failure(e) => answer(None, Some(RpcError(InternalError, e)))
       case Success(output) => answer(Some(ToolOutput(output)), None))
    case _ => answer(None, Some(RpcError(MethodNotFound, "Method not found: " + req.rpcMethod)))
  }

  /** A method outside the four handled ones is answered "Method not found" with code -32601. */
  lemma UnknownMethod(s: Server, req: Request)
    requires req.rpcMethod !in {"initialize", "initialized", "tools/list", "tools/call"}
    ensures Respond(s, req).Some?
    ensures Respond(s, req).value.error == Some(RpcError(MethodNotFound, "Method not found: " + req.rpcMethod))
  {
  }

  /** A failed tool call is reported as a JSON-RPC internal error carrying the failure text. */
  lemma ToolFailureIsInternalError(s: Server, req: Request)
    requires req.rpcMethod == "tools/call"
    requires CallTool(s, req.params).Failure?
    ensures Respond(s, req).Some?
    ensures Respond(s, req).value.error == Some(RpcError(InternalError, CallTool(s, req.params).error))
    ensures Respond(s, req).value.result.None?
  {
  }

  /** A successful tool call is the `result`, unchanged. */
  lemma ToolSuccessIsResult(s: Server, req: Request)
    requires req.rpcMethod == "tools/call"
    requires CallTool(s, req.params).Success?
    ensures Respond(s, req) == Some(Response(JsonRpcVersion, req.id, Some(ToolOutput(CallTool(s, req.params).value)), None))
  {
  }

  /** `tools/list` answers the sixteen registered descriptors. */
  lemma ListToolsAnswersRegistry(s: Server, req: Request)
    requires req.rpcMethod == "tools/list"
    ensures Respond(s, req) == Some(Response(JsonRpcVersion, req.id, Some(ToolList(Tools())), None))
    ensures |Tools()| == 16
  {
    ToolNamesUnique();
  }

  /**
   * Only the method name decides silence: the MCP notification `notifications/initialized`
   * gets an error response, and so does a request without an id.
   */
  lemma NotificationsAnswered(s: Server, id: Json, params: Option<Json>)
    ensures var r := Respond(s, Request(JsonRpcVersion, id, "notifications/initialized", params));
      r.Some? && r.value.error.Some? && r.value.error.value.code == MethodNotFound
  {
  }

  /** Tool call parameters of `null` reach the tool switch with an empty name. */
  lemma NullParamsUnknownTool(s: Server)
    ensures CallTool(s, Some(JNull)) == Failure("unknown tool: ")
  {
    assert KindOf("").None?;
    assert "unknown tool: " + "" == "unknown tool: ";
  }

  /** What one input line makes the loop write: nothing for an empty or undecodable line or a silent request. */
  function LineOutput(s: Server, parse: string -> Option<Request>, line: string): (out: seq<Response>)
    ensures |out| <= 1
    ensures line == "" || parse(line).None? ==> out == []
    ensures |out| == 1 ==> parse(line).Some? && Respond(s, parse(line).value) == Some(out[0])
  {
    if line == "" then []
    else match parse(line)
      case None => []
      case Some(req) =>
        match Respond(s, req)
        case None => []
        case Some(resp) => [resp]
  }

  /** The responses `run` writes for the given lines, in order. */
  function Written(s: Server, parse: string -> Option<Request>, lines: seq<string>): seq<Response>
  {
    if lines == [] then []
    else Written(s, parse, lines[..|lines| - 1]) + LineOutput(s, parse, lines[|lines| - 1])
  }

  /** The serve loop: one line at a time, each answered before the next is read. */
  method Run(s: Server, parse: string -> Option<Request>, lines: seq<string>) returns (written: seq<Response>)
    ensures written == Written(s, parse, lines)
  {
    written := [];
    var i := 0;
    while i < |lines|
      invariant 0 <= i <= |lines|
      invariant written == Written(s, parse, lines[..i])
    {
      assert lines[..i + 1][..i] == lines[..i];
      var line := lines[i];
      if line != "" {
        var parsed := parse(line);
        if parsed.Some? {
          var resp := Respond(s, parsed.value);
          if resp.Some? {
            written := written + [resp.value];
          }
        }
      }
      i := i + 1;
    }
    assert lines[..|lines|] == lines;
  }

  /** At most one response per line. */
  lemma {:induction false} WrittenBound(s: Server, parse: string -> Option<Request>, lines: seq<string>)
    ensures |Written(s, parse, lines)| <= |lines|
    decreases |lines|
  {
    if lines != [] {
      WrittenBound(s, parse, lines[..|lines| - 1]);
    }
  }

  /**
   * For a fixed transport the server keeps no state between lines: the output of a concatenation
   * is the concatenation of the outputs.
   */
  lemma {:induction false} WrittenAppend(s: Server, parse: string -> Option<Request>, a: seq<string>, b: seq<string>)
    ensures Written(s, parse, a + b) == Written(s, parse, a) + Written(s, parse, b)
    decreases |b|
  {
    if b == [] {
      assert a + b == a;
    } else {
      var init := b[..|b| - 1];
      assert (a + b)[..|a + b| - 1] == a + init;
      assert (a + b)[|a + b| - 1] == b[|b| - 1];
      WrittenAppend(s, parse, a, init);
    }
  }

  /** A response is written for every line that decodes to a request other than `initialized`. */
  lemma {:induction false} WrittenCount(s: Server, parse: string -> Option<Request>, lines: seq<string>, line: string)
    requires line != "" && parse(line).Some? && parse(line).value.rpcMethod != "initialized"
    ensures Written(s, parse, lines + [line]) == Written(s, parse, lines) + [Respond(s, parse(line).value).value]
  {
    assert (lines + [line])[..|lines|] == lines;
  }
}
