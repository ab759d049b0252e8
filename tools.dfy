/**
 * The tool registry and the tool switch of the MCP server: the three fixed
 * tool descriptors, what `ping`, `echo` and `get_server_info` return, and the
 * handlers registered with the MCP SDK for `tools/list` and `tools/call`.
 */
module Tools {
  import opened Wrappers
  import opened JsValues
  import opened Settings

  /** One entry of an input schema's `properties` object. */
  datatype PropertySchema = PropertySchema(name: string, valueType: string, description: string)

  /** `{ type: 'object', properties, required? }`; `required` is absent
      (`None`) unless the tool declares it. */
  datatype InputSchema = InputSchema(properties: seq<PropertySchema>, required: Option<seq<string>>)

  datatype ToolDescriptor = ToolDescriptor(name: string, description: string, inputSchema: InputSchema)

  const MessageProperty := PropertySchema("message", "string", "Message to echo back")

  const PingTool := ToolDescriptor(
    "ping", "Simple ping tool that returns pong",
    InputSchema([MessageProperty], None))

  const EchoTool := ToolDescriptor(
    "echo", "Echo back the provided message",
    InputSchema([MessageProperty], Some(["message"])))

  const ServerInfoTool := ToolDescriptor(
    "get_server_info", "Get information about the Electron MCP server",
    InputSchema([], None))

  /** The tools the server lists: `ping`, `echo` and `get_server_info`, in
      that order, with distinct names; only `echo` declares a required
      property (`message`), and `get_server_info` takes no properties. */
  function Catalogue(): (tools: seq<ToolDescriptor>)
    ensures |tools| == 3
    ensures tools[0].name == "ping" && tools[1].name == "echo" && tools[2].name == "get_server_info"
    ensures forall i, j :: 0 <= i < j < |tools| ==> tools[i].name != tools[j].name
    ensures forall i :: 0 <= i < |tools| ==>
      (tools[i].inputSchema.required.Some? <==> tools[i].name == "echo")
    ensures tools[1].inputSchema.required == Some(["message"])
    ensures tools[0].inputSchema.properties == tools[1].inputSchema.properties == [MessageProperty]
    ensures tools[2].inputSchema.properties == []
  {
    [PingTool, EchoTool, ServerInfoTool]
  }

  predicate IsToolName(name: Value) {
    name == Str("ping") || name == Str("echo") || name == Str("get_server_info")
  }

  /** Every name the switch accepts is listed, and every listed name is accepted. */
  lemma CatalogueMatchesSwitch(name: string)
    ensures IsToolName(Str(name)) <==> exists i :: 0 <= i < |Catalogue()| && Catalogue()[i].name == name
  {
    var tools := Catalogue();
    if IsToolName(Str(name)) {
      var i := if name == "ping" then 0 else if name == "echo" then 1 else 2;
      assert tools[i].name == name;
    }
  }

  /** `{ type: 'text', text }`; the text is whatever value the tool put there
      (for `echo`, possibly `undefined`). */
  datatype ContentItem = Text(text: Value)

  /** `{ content: [...] }` */
  datatype ToolResult = ToolResult(content: seq<ContentItem>)

  const DefaultGreeting := "Hello from Electron MCP Server"

  /** `Pong! ${args?.message || 'Hello from Electron MCP Server'}` */
  function PingText(args: Value): (text: string)
    ensures |text| >= 6 && text[..6] == "Pong! "
    ensures !OptionalMember(args, "message").Truthy() ==> text == "Pong! " + DefaultGreeting
    ensures OptionalMember(args, "message").Truthy() ==>
      text == "Pong! " + JsString(OptionalMember(args, "message"))
    ensures args.Nullish() ==> text == "Pong! " + DefaultGreeting
    ensures args.Obj? && "message" !in args.fields ==> text == "Pong! " + DefaultGreeting
    ensures args.Obj? && "message" in args.fields && args.fields["message"].Str? ==>
      text == "Pong! " + (if args.fields["message"].s != "" then args.fields["message"].s else DefaultGreeting)
  {
    var message := OptionalMember(args, "message");
    "Pong! " + (if message.Truthy() then JsString(message) else DefaultGreeting)
  }

  /** `JSON.stringify({ name, version, port, status: 'running', timestamp,
      capabilities }, null, 2)`, the clock reading `now` being a parameter. */
  function ServerInfoJson(port: Port, now: string): (text: string)
    ensures |text| >= 2 && text[0] == '{' && text[|text| - 1] == '}'
  {
    var text := InfoOpening + PortJson(port) + InfoMiddle + JsonQuote(now) + InfoClosing;
    assert text[0] == InfoOpening[0] == '{';
    assert text[|text| - 1] == InfoClosing[|InfoClosing| - 1] == '}';
    text
  }

  /** Before the port's value: the `name` and `version` members and the `port` key. */
  const InfoOpening := "{" + "\n  \"name\": \"Electron MCP Server\",\n  \"version\": \"1.0.0\",\n  \"port\": "

  /** Between the port's and the timestamp's value: the `status` member and the `timestamp` key. */
  const InfoMiddle := ",\n  \"status\": \"running\",\n  \"timestamp\": "

  /** After the timestamp's value: the `capabilities` member. */
  const InfoClosing := ",\n  \"capabilities\": [\n    \"tools\",\n    \"ping\",\n    \"echo\"\n  ]\n" + "}"

  /** The server-info text, member by member: the fixed name and version,
      the configured port as `JSON.stringify` writes it (a number bare, an
      `MCP_PORT` text quoted), status `running`, the clock reading as a JSON
      string, and the fixed capability list. A reading that needs no escaping,
      as an ISO timestamp, stands verbatim between the quotes. */
  lemma ServerInfoFields(port: Port, now: string)
    ensures var text := ServerInfoJson(port, now);
      var p := |InfoOpening|;
      var q := p + |PortJson(port)|;
      var t := q + |InfoMiddle|;
      var e := t + |JsonQuote(now)|;
      && |text| == e + |InfoClosing|
      && text[..p] == InfoOpening
      && text[p..q] == PortJson(port)
      && text[q..t] == InfoMiddle
      && text[t..e] == JsonQuote(now)
      && text[e..] == InfoClosing
      && ((forall i :: 0 <= i < |now| ==> IsPlainJsonChar(now[i])) ==> text[t..e] == "\"" + now + "\"")
  {
    Pieces(InfoOpening, PortJson(port), InfoMiddle, JsonQuote(now), InfoClosing);
    if forall i :: 0 <= i < |now| ==> IsPlainJsonChar(now[i]) {
      JsonEscapePlain(now);
    }
  }

  /** Each piece of a five-piece concatenation can be sliced back out. */
  lemma Pieces(a: string, b: string, c: string, d: string, f: string)
    ensures var s := a + b + c + d + f;
      var p, q := |a|, |a| + |b|;
      var t := q + |c|;
      var e := t + |d|;
      && |s| == e + |f|
      && s[..p] == a && s[p..q] == b && s[q..t] == c && s[t..e] == d && s[e..] == f
  {
    var s := a + b + c + d + f;
    assert s == (((a + b) + c) + d) + f;
    assert s[..|a|] == a;
    assert s[|a|..|a| + |b|] == b;
    assert s[|a| + |b|..|a| + |b| + |c|] == c;
    assert s[|a| + |b| + |c|..|a| + |b| + |c| + |d|] == d;
    assert s[|a| + |b| + |c| + |d|..] == f;
  }

  /** The tool switch: a known tool yields exactly one text item; `ping`
      never fails; `echo` returns `args.message` as it is, without checking
      that it is present, and fails only when `args` itself is missing;
      an unknown name throws `Unknown tool: <name>`. */
  function Call(name: Value, args: Value, port: Port, now: string): (r: Result<ToolResult, Thrown>)
    ensures r.Success? ==> |r.value.content| == 1
    ensures r.Failure? <==> !IsToolName(name) || (name == Str("echo") && args.Nullish())
    ensures name == Str("ping") ==> r == Success(ToolResult([Text(Str(PingText(args)))]))
    ensures name == Str("echo") && args.Nullish() ==> r == Failure(TypeError)
    ensures name == Str("echo") && !args.Nullish() ==>
      r == Success(ToolResult([Text(OptionalMember(args, "message"))]))
    ensures name == Str("echo") && args.Obj? && "message" !in args.fields ==>
      r == Success(ToolResult([Text(Undefined)]))
    ensures name == Str("get_server_info") ==>
      r == Success(ToolResult([Text(Str(ServerInfoJson(port, now)))]))
    ensures !IsToolName(name) ==> r == Failure(Error("Unknown tool: " + JsString(name)))
  {
    if name == Str("ping") then
      Success(ToolResult([Text(Str(PingText(args)))]))
    else if name == Str("echo") then
      var message :- Member(args, "message");
      Success(ToolResult([Text(message)]))
    else if name == Str("get_server_info") then
      Success(ToolResult([Text(Str(ServerInfoJson(port, now)))]))
    else
      Failure(Error("Unknown tool: " + JsString(name)))
  }

  /** `request.params` of a `tools/call` request once the SDK has validated it:
      `name` is a string and `arguments`, when present, an object. */
  datatype CallToolParams = CallToolParams(name: string, arguments: Option<map<string, Value>>)

  function ArgumentsValue(arguments: Option<map<string, Value>>): Value {
    if arguments.Some? then Obj(arguments.value) else Undefined
  }

  /** The SDK's `tools/list` handler, which writes out its own copy of the
      descriptors; the copy is the same list as the inline one. */
  function SdkListTools(): (tools: seq<ToolDescriptor>)
    ensures tools == Catalogue()
  {
    var message := PropertySchema("message", "string", "Message to echo back");
    [ ToolDescriptor("ping", "Simple ping tool that returns pong", InputSchema([message], None)),
      ToolDescriptor("echo", "Echo back the provided message", InputSchema([message], Some(["message"]))),
      ToolDescriptor("get_server_info", "Get information about the Electron MCP server", InputSchema([], None)) ]
  }

  /** `args?.message` on validated arguments. */
  function ArgumentMessage(arguments: Option<map<string, Value>>): (message: Value)
    ensures arguments.None? || "message" !in arguments.value ==> message == Undefined
    ensures arguments.Some? && "message" in arguments.value ==> message == arguments.value["message"]
  {
    if arguments.Some? && "message" in arguments.value then arguments.value["message"] else Undefined
  }

  /** The SDK's `tools/call` handler, its own copy of the tool switch, stated
      on the validated parameters. */
  function SdkCallTool(params: CallToolParams, port: Port, now: string): (r: Result<ToolResult, Thrown>)
    ensures r.Success? ==> |r.value.content| == 1
    ensures params.name == "ping" ==> r.Success? && r.value.content[0].text.Str?
    ensures params.name == "ping" && params.arguments.Some? && "message" in params.arguments.value
            && params.arguments.value["message"].Str?
            && params.arguments.value["message"].s != "" ==>
      r == Success(ToolResult([Text(Str("Pong! " + params.arguments.value["message"].s))]))
    ensures params.name == "ping" && params.arguments.Some? && "message" in params.arguments.value
            && params.arguments.value["message"] == Str("") ==>
      r == Success(ToolResult([Text(Str("Pong! " + DefaultGreeting))]))
    ensures params.name == "ping" && (params.arguments.None? || "message" !in params.arguments.value) ==>
      r == Success(ToolResult([Text(Str("Pong! " + DefaultGreeting))]))
    ensures params.name == "echo" ==> (r.Failure? <==> params.arguments.None?)
    ensures params.name == "echo" && params.arguments.None? ==> r == Failure(TypeError)
    ensures params.name == "echo" && params.arguments.Some? ==>
      r == Success(ToolResult([Text(
        if "message" in params.arguments.value then params.arguments.value["message"] else Undefined)]))
    ensures params.name == "get_server_info" ==>
      r == Success(ToolResult([Text(Str(ServerInfoJson(port, now)))]))
    ensures !IsToolName(Str(params.name)) ==> r == Failure(Error("Unknown tool: " + params.name))
  {
    if params.name == "ping" then
      var message := ArgumentMessage(params.arguments);
      Success(ToolResult([Text(Str("Pong! " + if message.Truthy() then JsString(message) else DefaultGreeting))]))
    else if params.name == "echo" then
      if params.arguments.None? then Failure(TypeError)
      else Success(ToolResult([Text(ArgumentMessage(params.arguments))]))
    else if params.name == "get_server_info" then
      Success(ToolResult([Text(Str(ServerInfoJson(port, now)))]))
    else
      Failure(Error("Unknown tool: " + params.name))
  }

  /** The two copies of the tool switch agree: on validated parameters the
      SDK handler returns or throws exactly what the inline switch does. */
  lemma SdkCallMatchesSwitch(params: CallToolParams, port: Port, now: string)
    ensures SdkCallTool(params, port, now) == Call(Str(params.name), ArgumentsValue(params.arguments), port, now)
  {
    var args := ArgumentsValue(params.arguments);
    assert OptionalMember(args, "message") == ArgumentMessage(params.arguments);
  }
}
