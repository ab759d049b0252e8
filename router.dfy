/**
 * The `POST /mcp` handler: it resolves the session id, dispatches on the
 * request body's `method`, and catches every thrown error at one boundary,
 * answering with HTTP 500 and the JSON-RPC 2.0 "Internal error" object
 * (code -32603, section 5.1 of the JSON-RPC 2.0 specification).
 */
module Router {
  import opened Wrappers
  import opened JsValues
  import opened Settings
  import opened Session
  import opened Tools

  const InternalErrorCode: int := -32603
  const InternalErrorMessage := "Internal error"

  const ProtocolVersion := "2025-01-01"
  const ServerName := "electron-mcp-server"
  const ServerVersion := "1.0.0"

  /** The `result` member of a successful reply. `capabilities` lists the
      keys of the capabilities object (each mapped to `{}`). */
  datatype Payload =
    | InitializeResult(protocolVersion: string, capabilities: seq<string>, serverName: string, serverVersion: string)
    | ToolsListResult(tools: seq<ToolDescriptor>)
    | ToolCallResult(toolResult: ToolResult)

  /** `{ code, message, data: error.message }`; `data` is the thrown error. */
  datatype ErrorObject = ErrorObject(code: int, message: string, data: Thrown)

  /** The JSON body of a reply: it carries either `result` or `error`, never
      both and never neither. An `id` of `undefined` is left out when the body
      is serialised. */
  datatype Envelope =
    | ResultEnvelope(id: Value, result: Payload)
    | ErrorEnvelope(id: Value, error: ErrorObject)

  /** What the handler sees of a request: the `mcp-session-id` header, if
      any, and the parsed body. */
  datatype Request = Request(sessionHeader: Option<string>, body: Value)

  /** `req.body` as `express.json()` and `express.text()` leave it: what
      they parsed when the request had a body they accept, otherwise `{}`
      under Express 4 and `undefined` under Express 5. */
  function ParsedBody(express: Express, parsed: Option<Value>): (body: Value)
    ensures parsed.Some? ==> body == parsed.value
    ensures parsed.None? ==> (body.Nullish() <==> express == Express5)
    ensures parsed.None? && express == Express4 ==> body == Obj(map[])
  {
    if parsed.Some? then parsed.value
    else match express
      case Express4 => Obj(map[])
      case Express5 => Undefined
  }

  /** What the handler sends back: the HTTP status, the `Mcp-Session-Id`
      header, if set, and the JSON body. */
  datatype Reply = Reply(status: int, sessionHeader: Option<string>, envelope: Envelope)

  const InitializePayload := InitializeResult(ProtocolVersion, ["tools"], ServerName, ServerVersion)

  /** The method a body names, or what reading it throws. */
  function MethodOf(body: Value): Result<Value, Thrown> {
    Member(body, "method")
  }

  /** The `switch (mcpRequest.method)` block: either the reply envelope or
      the error it throws. A successful envelope always carries the body's
      own `id`. */
  function Dispatch(body: Value, port: Port, now: string): (r: Result<Envelope, Thrown>)
    ensures body.Nullish() ==> r == Failure(TypeError)
    ensures r.Success? ==> r.value.ResultEnvelope? && r.value.id == OptionalMember(body, "id")
    ensures !body.Nullish() && !IsMethodName(MethodOf(body).value) ==>
      r == Failure(Error("Unknown method: " + JsString(MethodOf(body).value)))
    ensures !body.Nullish() && MethodOf(body).value == Str("initialize") ==>
      r == Success(ResultEnvelope(OptionalMember(body, "id"), InitializePayload))
    ensures !body.Nullish() && MethodOf(body).value == Str("tools/list") ==>
      r == Success(ResultEnvelope(OptionalMember(body, "id"), ToolsListResult(Catalogue())))
    ensures !body.Nullish() && MethodOf(body).value == Str("tools/call") ==>
      r == CallOutcome(body, port, now)
  {
    var rpcMethod :- MethodOf(body);
    if rpcMethod == Str("initialize") then
      Success(ResultEnvelope(Member(body, "id").value, InitializePayload))
    else if rpcMethod == Str("tools/list") then
      Success(ResultEnvelope(Member(body, "id").value, ToolsListResult(Catalogue())))
    else if rpcMethod == Str("tools/call") then
      var params := Member(body, "params").value;
      if params.Nullish() then Failure(TypeError)
      else
        var toolResult :- Call(Member(params, "name").value, Member(params, "arguments").value, port, now);
        Success(ResultEnvelope(Member(body, "id").value, ToolCallResult(toolResult)))
    else
      Failure(Error("Unknown method: " + JsString(rpcMethod)))
  }

  predicate IsMethodName(rpcMethod: Value) {
    rpcMethod == Str("initialize") || rpcMethod == Str("tools/list") || rpcMethod == Str("tools/call")
  }

  /** The outcome of the `tools/call` branch, for a body whose properties can
      be read: destructuring `params` throws when it is missing or `null`,
      otherwise the tool switch decides. */
  function CallOutcome(body: Value, port: Port, now: string): (r: Result<Envelope, Thrown>)
    requires !body.Nullish()
    ensures var params := OptionalMember(body, "params");
      var call := Call(OptionalMember(params, "name"), OptionalMember(params, "arguments"), port, now);
      && (r.Failure? <==> params.Nullish() || call.Failure?)
      && (params.Nullish() ==> r == Failure(TypeError))
      && (r.Failure? && !params.Nullish() ==> r.error == call.error)
      && (r.Success? ==> r.value == ResultEnvelope(OptionalMember(body, "id"), ToolCallResult(call.value)))
    ensures r.Success? ==>
      r.value.ResultEnvelope? && r.value.id == OptionalMember(body, "id")
      && r.value.result.ToolCallResult? && |r.value.result.toolResult.content| == 1
  {
    var params := OptionalMember(body, "params");
    if params.Nullish() then Failure(TypeError)
    else
      match Call(OptionalMember(params, "name"), OptionalMember(params, "arguments"), port, now)
      case Success(tr) => Success(ResultEnvelope(OptionalMember(body, "id"), ToolCallResult(tr)))
      case Failure(e) => Failure(e)
  }

  /** `req.body?.id || null`: the id put in an error reply. A falsy id
      (`0`, `""`, `false`, missing) becomes `null`. */
  function ErrorId(body: Value): (id: Value)
    ensures id.Truthy() || id == Null
    ensures OptionalMember(body, "id").Truthy() ==> id == OptionalMember(body, "id")
    ensures !OptionalMember(body, "id").Truthy() ==> id == Null
  {
    var id := OptionalMember(body, "id");
    if id.Truthy() then id else Null
  }

  /** The whole `POST /mcp` handler. The session header is always set; a
      reply is 200 with a result envelope carrying the request's own `id`,
      or 500 with the internal-error object and the `id` of `ErrorId`. */
  function Handle(req: Request, randomText: string, port: Port, now: string): (reply: Reply)
    ensures reply.sessionHeader == Some(ResolveSessionId(req.sessionHeader, randomText))
    ensures reply.status == 200 <==> reply.envelope.ResultEnvelope?
    ensures reply.status == 500 <==> reply.envelope.ErrorEnvelope?
    ensures reply.envelope.ResultEnvelope? ==> reply.envelope.id == OptionalMember(req.body, "id")
    ensures reply.envelope.ErrorEnvelope? ==>
      reply.envelope.id == ErrorId(req.body)
      && reply.envelope.error.code == InternalErrorCode
      && reply.envelope.error.message == InternalErrorMessage
    ensures reply.envelope.ErrorEnvelope? <==> Dispatch(req.body, port, now).Failure?
    ensures reply.envelope.ErrorEnvelope? ==> reply.envelope.error.data == Dispatch(req.body, port, now).error
    ensures Dispatch(req.body, port, now).Success? ==> reply.envelope == Dispatch(req.body, port, now).value
  {
    var sessionId := ResolveSessionId(req.sessionHeader, randomText);
    var header := if sessionId != "" then Some(sessionId) else None;
    match Dispatch(req.body, port, now)
    case Success(envelope) => Reply(200, header, envelope)
    case Failure(e) =>
      Reply(500, header, ErrorEnvelope(ErrorId(req.body), ErrorObject(InternalErrorCode, InternalErrorMessage, e)))
  }

  /** A body with the given `method`, `id` and optional `params`. */
  function Body(rpcMethod: Value, id: Value, params: Option<Value>): (body: Value)
    ensures !body.Nullish()
    ensures MethodOf(body) == Success(rpcMethod)
    ensures OptionalMember(body, "id") == id
    ensures params.Some? ==> OptionalMember(body, "params") == params.value
    ensures params.None? ==> OptionalMember(body, "params") == Undefined
  {
    var fields := map["method" := rpcMethod, "id" := id];
    Obj(if params.Some? then fields["params" := params.value] else fields)
  }

  /** `initialize` always succeeds with the fixed payload and the caller's id. */
  lemma InitializeReply(req: Request, randomText: string, port: Port, now: string)
    requires !req.body.Nullish() && MethodOf(req.body).value == Str("initialize")
    ensures Handle(req, randomText, port, now).status == 200
    ensures Handle(req, randomText, port, now).envelope
         == ResultEnvelope(OptionalMember(req.body, "id"),
                           InitializeResult("2025-01-01", ["tools"], "electron-mcp-server", "1.0.0"))
  {
  }

  /** `tools/list` always succeeds with exactly the three catalogue entries. */
  lemma ToolsListReply(req: Request, randomText: string, port: Port, now: string)
    requires !req.body.Nullish() && MethodOf(req.body).value == Str("tools/list")
    ensures Handle(req, randomText, port, now).status == 200
    ensures Handle(req, randomText, port, now).envelope
         == ResultEnvelope(OptionalMember(req.body, "id"), ToolsListResult(SdkListTools()))
    ensures |Handle(req, randomText, port, now).envelope.result.tools| == 3
  {
  }

  /** Any other method is an internal error naming the method. */
  lemma UnknownMethodReply(req: Request, randomText: string, port: Port, now: string)
    requires !req.body.Nullish() && !IsMethodName(MethodOf(req.body).value)
    ensures Handle(req, randomText, port, now)
         == Reply(500, Some(ResolveSessionId(req.sessionHeader, randomText)),
                  ErrorEnvelope(ErrorId(req.body),
                    ErrorObject(-32603, "Internal error",
                      Error("Unknown method: " + JsString(MethodOf(req.body).value)))))
  {
  }

  /** A body that is `undefined` or `null` fails on reading `method`, and
      the error reply's id is `null`. */
  lemma MissingBodyReply(req: Request, randomText: string, port: Port, now: string)
    requires req.body.Nullish()
    ensures Handle(req, randomText, port, now).status == 500
    ensures Handle(req, randomText, port, now).envelope
         == ErrorEnvelope(Null, ErrorObject(-32603, "Internal error", TypeError))
  {
  }

  /** A request with no body: under Express 4 the body is `{}`, whose
      `method` is `undefined`, so the reply names the method `undefined`;
      under Express 5 the body is `undefined`, and reading `method` throws.
      Both are 500 replies with id `null`. */
  lemma NoBodyReply(express: Express, header: Option<string>, randomText: string, port: Port, now: string)
    ensures var reply := Handle(Request(header, ParsedBody(express, None)), randomText, port, now);
      reply.status == 500
      && reply.envelope == ErrorEnvelope(Null, ErrorObject(-32603, "Internal error",
           if express == Express4 then Error("Unknown method: undefined") else TypeError))
  {
    if express == Express4 {
      assert MethodOf(Obj(map[])) == Success(Undefined);
    }
  }

  /** `tools/call` without `params` ends in the same catch block. */
  lemma CallWithoutParamsReply(rpcMethod: Value, id: Value, randomText: string, header: Option<string>, port: Port, now: string)
    requires rpcMethod == Str("tools/call")
    ensures var reply := Handle(Request(header, Body(rpcMethod, id, None)), randomText, port, now);
      reply.status == 500
      && reply.envelope == ErrorEnvelope(if id.Truthy() then id else Null,
                                         ErrorObject(-32603, "Internal error", TypeError))
  {
    var body := Body(rpcMethod, id, None);
    assert Dispatch(body, port, now) == Failure(TypeError);
  }

  /** The `params` object of a `tools/call` body, with `name` and, when
      given, `arguments`. */
  function CallParams(name: Value, args: Option<Value>): (params: Value)
    ensures !params.Nullish()
    ensures OptionalMember(params, "name") == name
    ensures args.Some? ==> OptionalMember(params, "arguments") == args.value
    ensures args.None? ==> OptionalMember(params, "arguments") == Undefined
  {
    var fields := map["name" := name];
    Obj(if args.Some? then fields["arguments" := args.value] else fields)
  }

  /** A `tools/call` request with readable `params` gets the tool switch's
      result in a 200 reply with the request's id, or the switch's error in
      the internal-error reply. */
  lemma ToolCallReply(params: Value, id: Value, randomText: string, header: Option<string>, port: Port, now: string)
    requires !params.Nullish()
    ensures var reply := Handle(Request(header, Body(Str("tools/call"), id, Some(params))), randomText, port, now);
      match Call(OptionalMember(params, "name"), OptionalMember(params, "arguments"), port, now)
      case Success(tr) => reply.status == 200 && reply.envelope == ResultEnvelope(id, ToolCallResult(tr))
      case Failure(e) =>
        reply.status == 500
        && reply.envelope == ErrorEnvelope(if id.Truthy() then id else Null, ErrorObject(-32603, "Internal error", e))
  {
    var body := Body(Str("tools/call"), id, Some(params));
    assert Dispatch(body, port, now) == CallOutcome(body, port, now);
  }

  /** A call to a name outside the switch is an internal error naming the tool. */
  lemma UnknownToolReply(name: Value, args: Value, id: Value, randomText: string, header: Option<string>, port: Port, now: string)
    requires !IsToolName(name)
    ensures var reply := Handle(Request(header, Body(Str("tools/call"), id, Some(CallParams(name, Some(args))))), randomText, port, now);
      reply.status == 500
      && reply.envelope == ErrorEnvelope(if id.Truthy() then id else Null,
                                         ErrorObject(-32603, "Internal error",
                                                     Error("Unknown tool: " + JsString(name))))
  {
    ToolCallReply(CallParams(name, Some(args)), id, randomText, header, port, now);
  }

  /** `echo` returns its message verbatim, the empty string included. */
  lemma EchoIsIdentity(s: string, id: Value, randomText: string, header: Option<string>, port: Port, now: string)
    ensures var params := CallParams(Str("echo"), Some(Obj(map["message" := Str(s)])));
      Handle(Request(header, Body(Str("tools/call"), id, Some(params))), randomText, port, now).envelope
      == ResultEnvelope(id, ToolCallResult(ToolResult([Text(Str(s))])))
  {
    var args := Obj(map["message" := Str(s)]);
    assert OptionalMember(args, "message") == Str(s);
    ToolCallReply(CallParams(Str("echo"), Some(args)), id, randomText, header, port, now);
  }

  /** `echo` does not check that `message` is present: with `arguments: {}`
      it succeeds with an `undefined` text rather than an error. */
  lemma EchoWithoutMessage(id: Value, randomText: string, header: Option<string>, port: Port, now: string)
    ensures var params := CallParams(Str("echo"), Some(Obj(map[])));
      var reply := Handle(Request(header, Body(Str("tools/call"), id, Some(params))), randomText, port, now);
      reply.status == 200
      && reply.envelope == ResultEnvelope(id, ToolCallResult(ToolResult([Text(Undefined)])))
  {
    ToolCallReply(CallParams(Str("echo"), Some(Obj(map[]))), id, randomText, header, port, now);
  }

  /** `ping` answers `Pong! <message>` for a non-empty message and the
      default greeting for an empty one. */
  lemma PingReply(s: string, id: Value, randomText: string, header: Option<string>, port: Port, now: string)
    ensures var params := CallParams(Str("ping"), Some(Obj(map["message" := Str(s)])));
      Handle(Request(header, Body(Str("tools/call"), id, Some(params))), randomText, port, now).envelope
      == ResultEnvelope(id, ToolCallResult(ToolResult([Text(Str(
           "Pong! " + if s != "" then s else "Hello from Electron MCP Server"))])))
  {
    var args := Obj(map["message" := Str(s)]);
    assert "message" in args.fields && args.fields["message"] == Str(s);
    ToolCallReply(CallParams(Str("ping"), Some(args)), id, randomText, header, port, now);
  }

  /** Correlation: a successful reply carries the request's id unchanged, even
      a falsy one, while an error reply replaces a falsy id by `null`. */
  lemma FalsyIdCorrelation(req: Request, randomText: string, port: Port, now: string)
    requires !OptionalMember(req.body, "id").Truthy()
    ensures var reply := Handle(req, randomText, port, now);
      (reply.envelope.ResultEnvelope? ==> reply.envelope.id == OptionalMember(req.body, "id"))
      && (reply.envelope.ErrorEnvelope? ==> reply.envelope.id == Null)
  {
  }

  /** The inline tool switch of the handler and the SDK's `tools/call`
      handler agree: for the same validated parameters, the handler replies
      with the SDK handler's result, or with its error inside the
      internal-error envelope. */
  lemma SdkCallAgrees(p: CallToolParams, id: Value, randomText: string, header: Option<string>, port: Port, now: string)
    ensures var params := CallParams(Str(p.name), if p.arguments.Some? then Some(Obj(p.arguments.value)) else None);
      var reply := Handle(Request(header, Body(Str("tools/call"), id, Some(params))), randomText, port, now);
      match SdkCallTool(p, port, now)
      case Success(tr) => reply.envelope == ResultEnvelope(id, ToolCallResult(tr))
      case Failure(e) =>
        reply.envelope == ErrorEnvelope(if id.Truthy() then id else Null, ErrorObject(-32603, "Internal error", e))
  {
    var params := CallParams(Str(p.name), if p.arguments.Some? then Some(Obj(p.arguments.value)) else None);
    assert OptionalMember(params, "arguments") == ArgumentsValue(p.arguments);
    ToolCallReply(params, id, randomText, header, port, now);
    SdkCallMatchesSwitch(p, port, now);
  }

  /** The reply always carries a session header: the caller's when it sent a
      non-empty one, otherwise a fresh `session_` token. */
  lemma SessionHeaderAlwaysSet(req: Request, randomText: string, port: Port, now: string)
    ensures var h := Handle(req, randomText, port, now).sessionHeader;
      h.Some? && h.value != ""
      && (req.sessionHeader.Some? && req.sessionHeader.value != "" ==> h == req.sessionHeader)
      && (req.sessionHeader.None? || req.sessionHeader.value == "" ==>
            |SessionPrefix| <= |h.value| && h.value[..|SessionPrefix|] == "session_")
  {
  }
}
