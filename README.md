# electron-mcp: a Dafny model of the MCP server core

This project models the protocol server that the electron-mcp desktop app
runs. The server implements a small subset of the Model Context Protocol (MCP)
over HTTP:

- `POST /mcp` accepts a request envelope `{ method, params?, id? }`.
- Three methods are known: `initialize`, `tools/list` and `tools/call`.
- Three tools are known: `ping`, `echo` and `get_server_info`.
- Every thrown error is caught at one boundary. The reply is then HTTP 500 with
  the JSON-RPC 2.0 "Internal error" object: code -32603, from section 5.1 of
  the JSON-RPC 2.0 specification.

Every reply carries an `Mcp-Session-Id` header. The server's listener can be
started and stopped, and its status can be read. The desktop host keeps the
current server instance and drives it through the IPC handlers
`get-server-status`, `stop-server` and `restart-server`, through
`startMCPServer` and through `cleanup`.

Modules, one per concern:

- `Wrappers`: `Option` and a failure-compatible `Result`.
- `JsValues`: the JavaScript semantics the handler relies on. It covers JSON
  values plus `undefined`, truthiness, reading a property (which throws a
  `TypeError` on `undefined`/`null`), template-literal string conversion, and
  string quoting by `JSON.stringify`.
- `Settings`: the port (`MCP_PORT` or 3999) and the endpoint URL.
- `Session`: session-id generation and reuse.
- `Tools`: the tool catalogue, the tool switch, and the two handlers registered
  with the MCP SDK.
- `Router`: the `POST /mcp` handler as a pure function from a request to a
  reply (status, session header, envelope).
- `Lifecycle`: class `McpServer` (`ElectronMCPServer`), whose `httpServer`
  field holds a `Listener` with a `listening` flag.
- `Host`: class `McpHost` (`ElectronMCPApp`), whose `mcpServer` field holds the
  current server.

Inputs from the outside world are parameters:

- the clock reading (`now`, for `get_server_info`);
- the text of `Math.random().toString(36)` (`randomText`);
- the outcome of `listen` (`BindOutcome`): bound, failed to bind, or thrown
  before returning;
- the `MCP_PORT` environment variable;
- whether a window exists to receive notifications. It is fixed per host, while
  in the app `mainWindow` is set when the window is created and cleared when it
  closes (src/main.js:79, 100-102);
- the major version of Express (`Settings.Express`, 4 or 5). The repository
  does not pin it, and the code behaves differently under each, so the model
  covers both:
  - Under Express 4, `app.listen`'s callback runs only on `'listening'`, so a
    failed bind rejects `start`. Under Express 5 the callback is also
    registered for the first `'error'`, ahead of the handler that rejects. A
    failed bind then resolves `start`, and `startMCPServer` reports success
    and sends a status that is not running.
  - For a request without a body, `express.json()` leaves `req.body` as `{}`
    under Express 4, so the reply says `Unknown method: undefined`. Under
    Express 5 it stays `undefined`, and reading `method` throws a `TypeError`
    (`Router.NoBodyReply`).

The handlers registered with the MCP SDK `Server` (src/mcp-server.js:40-125)
never run in the app: the `Server` is never connected to a transport, and
every request is answered by the `POST /mcp` handler's own switch. They are
modelled all the same, and `Tools.SdkCallMatchesSwitch` proves that the two
copies of the tool switch agree.

### Behaviour worth knowing

The model follows the code in each of these cases:

- `echo` declares `message` as required in its own input schema
  (src/mcp-server.js:66, 207) but never checks for it. With `arguments: {}`
  it succeeds with an `undefined` text. Only a missing `arguments` makes it
  throw.
- Section 5.1 of the JSON-RPC 2.0 specification gives distinct codes to an
  unknown method (-32601) and to invalid parameters (-32602). The handler does
  not use them: an unknown method, an unknown tool and a missing `params` all
  give -32603 with HTTP 500.
- The error reply's `id` is `req.body?.id || null`. A falsy id (`0`, `""`,
  `false`) therefore becomes `null`, while a successful reply keeps it.
- `start` does not refuse a second start. It overwrites `httpServer`, and the
  first listener keeps listening unreferenced (`SecondStartScenario`).
- Under Express 5 a failed bind does not make `start` reject, so
  `startMCPServer` returns `true` and tells the window the status changed
  (`Host.FailedBindScenario`).
- `restart-server` reports success even when the new server cannot bind. After
  that the host holds a server that is not running, rather than none.
- `stop` never rejects, so `stop-server` always reports `{ success: true }`.
  The `{ success: false }` branches are unreachable.

## Model

| member | source | states |
|---|---|---|
| `Tools.Catalogue` | src/mcp-server.js:177-221 | exactly three descriptors, in the order ping, echo, get_server_info, with distinct names; only echo has `required: ['message']`; ping and echo declare a string `message`; get_server_info has no properties |
| `Tools.SdkListTools` | src/mcp-server.js:40-78 | the SDK `tools/list` handler's own copy of the descriptors is the same list as the inline `tools/list` branch |
| `Tools.CatalogueMatchesSwitch` | src/mcp-server.js:228-271 | a tool name is accepted by the switch exactly when it is listed in the catalogue |
| `Tools.PingText` | src/mcp-server.js:234 | the text always starts with `Pong! `; a truthy `args.message` is appended as text; a missing `args`, a missing `message` or an empty (falsy) one gives `Pong! Hello from Electron MCP Server` |
| `Tools.ServerInfoJson` | src/mcp-server.js:256-263 | the server-info text is a JSON object text, enclosed in braces |
| `Tools.ServerInfoFields` | src/mcp-server.js:256-263 | the server-info text holds, in order: the fixed `name` and `version` members, `"port": ` followed by the configured port as `JSON.stringify` writes it, `"status": "running"`, `"timestamp": ` followed by the clock reading as a JSON string (verbatim between quotes when it needs no escaping), and the fixed `capabilities` list |
| `Tools.Call` | src/mcp-server.js:228-271 | a known tool yields one text item; ping never fails; echo returns `args.message` verbatim (undefined when absent) and fails only with a TypeError when `args` is missing; get_server_info returns the server-info text; any other name fails with `Unknown tool: <name>` |
| `Tools.SdkCallTool` | src/mcp-server.js:81-125 | on SDK-validated params: ping gives `Pong! <message>` for a non-empty string message and the default greeting for an empty or missing one; echo fails exactly when `arguments` is absent and otherwise returns `message` or undefined; get_server_info returns the server-info text; an unknown name fails with `Unknown tool: <name>` |
| `Tools.SdkCallMatchesSwitch` | src/mcp-server.js:81-125 | the SDK `tools/call` handler returns or throws exactly what the inline tool switch (src/mcp-server.js:228-271) does on the same arguments |
| `JsValues.Member` | src/mcp-server.js:225 | reading a property fails with a TypeError exactly on `undefined`/`null`; an object gives its field or `undefined`; any other value gives `undefined` |
| `JsValues.OptionalMember` | src/mcp-server.js:292 | `v?.key` is `undefined` on a nullish `v` and the plain property read otherwise |
| `JsValues.JsString` | src/mcp-server.js:270 | template-literal conversion: a string is itself; `undefined`, `null` and plain objects print as `undefined`, `null`, `[object Object]` |
| `JsValues.NatToDecimal` | src/mcp-server.js:387 | a number prints as a non-empty string of decimal digits with no leading zero |
| `JsValues.DecimalRoundTrip` | src/mcp-server.js:387 | reading back the printed digits gives the number |
| `JsValues.JsonEscape` | src/mcp-server.js:256-263 | `JSON.stringify` leaves no raw control character inside a string and never shortens it |
| `JsValues.JsonEscapePlain` | src/mcp-server.js:256-263 | a string with no quote, backslash or control character is written verbatim |
| `Settings.PortFromEnv` | src/main.js:14 | a non-empty `MCP_PORT` is used as given (a string); an unset or empty one gives 3999 |
| `Settings.EndpointUrl` | src/mcp-server.js:387 | the endpoint is `http://localhost:` + the port text + `/mcp`, and the port text can be read back from it |
| `Settings.EndpointUrlDeterminesPortText` | src/mcp-server.js:387 | two ports share an endpoint exactly when they print alike |
| `Settings.DefaultEndpoint` | src/main.js:14 | with no configuration the endpoint is `http://localhost:3999/mcp` |
| `Session.Substr` | src/mcp-server.js:347 | `substr(start, length)` takes at most `length` characters from `start`, fewer at the end, none past the end |
| `Session.GenerateSessionId` | src/mcp-server.js:346-348 | a generated id is `session_` followed by at most 9 characters, all base-36 digits when the random text has the shape of `Math.random().toString(36)` |
| `Session.GeneratedSuffixLength` | src/mcp-server.js:347 | the suffix has min(9, number of random digits) characters, and is empty when the draw was 0 |
| `Session.ResolveSessionId` | src/mcp-server.js:143 | a non-empty incoming header is reused; otherwise a `session_` id is generated; the result is never empty |
| `Router.Dispatch` | src/mcp-server.js:160-281 | an unreadable body throws a TypeError; initialize and tools/list succeed with their fixed payloads; tools/call follows `CallOutcome`; any other method throws `Unknown method: <m>`; every success carries the body's own id |
| `Router.CallOutcome` | src/mcp-server.js:223-277 | the branch fails exactly when `params` is missing or `null` (a TypeError) or the tool switch throws (its error, unchanged); a success is a result envelope with the body's own id and the switch's one-item result |
| `Router.ErrorId` | src/mcp-server.js:292 | the error id is the request id when it is truthy and `null` otherwise |
| `Router.Handle` | src/mcp-server.js:140-295 | the session header is always set to the resolved id; status 200 goes with a result envelope carrying the request id and exactly the envelope dispatch built; status 500 goes with an error envelope with code -32603, message `Internal error`, the thrown error as data and `ErrorId` as id; it errs exactly when dispatch throws |
| `Router.InitializeReply` | src/mcp-server.js:161-175 | initialize always answers 200 with protocol version 2025-01-01, a tools capability and server `electron-mcp-server` 1.0.0 |
| `Router.ToolsListReply` | src/mcp-server.js:177-221 | tools/list always answers 200 with the three descriptors of the SDK handler |
| `Router.UnknownMethodReply` | src/mcp-server.js:279-293 | any other method answers 500 with data `Unknown method: <m>` |
| `Router.MissingBodyReply` | src/mcp-server.js:157-293 | a body that is `undefined` or `null` answers 500 with a TypeError and id `null` |
| `Router.ParsedBody` | src/mcp-server.js:34-35 | `req.body` is what the parsers read; with no body it is `{}` under Express 4 and `undefined` (nullish) under Express 5 |
| `Router.NoBodyReply` | src/mcp-server.js:157-293 | a request without a body answers 500 with id `null`: `Unknown method: undefined` under Express 4, a TypeError under Express 5 |
| `Router.CallWithoutParamsReply` | src/mcp-server.js:225 | tools/call without params answers 500 with a TypeError |
| `Router.ToolCallReply` | src/mcp-server.js:223-294 | a `tools/call` request with readable `params` answers 200 with the tool switch's result and the request's id, or 500 with the switch's error and the id replaced by `null` when falsy |
| `Router.UnknownToolReply` | src/mcp-server.js:269-271 | an unknown tool answers 500 with data `Unknown tool: <name>` |
| `Router.EchoIsIdentity` | src/mcp-server.js:240-249 | echo returns any string message unchanged, the empty string included |
| `Router.EchoWithoutMessage` | src/mcp-server.js:240-249 | echo with `arguments: {}` answers 200 with an undefined text, not an error |
| `Router.PingReply` | src/mcp-server.js:229-238 | ping answers `Pong! <s>` for a non-empty message and the default greeting for an empty one |
| `Router.FalsyIdCorrelation` | src/mcp-server.js:292 | with a falsy id a success keeps the id unchanged and an error reports `null` |
| `Router.SdkCallAgrees` | src/mcp-server.js:81-125 | for the same parameters, the inline tool switch and the SDK handler agree: same result, or the same error wrapped in the internal-error envelope |
| `Router.SessionHeaderAlwaysSet` | src/mcp-server.js:150-152 | the reply header is always present and non-empty: the caller's header when given, else a `session_` id |
| `Lifecycle.Listener.Close` | src/mcp-server.js:373 | after `close` the listener does not listen |
| `Lifecycle.McpServer.constructor` | src/mcp-server.js:11-13 | a new server keeps its port and Express version and has no listener |
| `Lifecycle.McpServer.Status` | src/mcp-server.js:383-389 | status reports the configured port and its endpoint; running exactly when a listener exists and listens |
| `Lifecycle.StartResult` | src/mcp-server.js:350-368 | `start` resolves on a bind; it rejects with the error when `listen` throws; on a bind error it rejects under Express 4 and resolves under Express 5 |
| `Lifecycle.McpServer.Start` | src/mcp-server.js:350-368 | when `listen` returns, a fresh listener replaces `httpServer` and listens exactly when the bind succeeded; when `listen` throws, `httpServer` is unchanged; the promise settles as `StartResult` says; a previous listener is left as it was |
| `Lifecycle.McpServer.Stop` | src/mcp-server.js:370-381 | stop keeps the same listener reference and leaves it not listening; with no listener nothing changes; afterwards status reports not running |
| `Lifecycle.StartStopScenario` | src/mcp-server.js:350-389 | start then stop on one server: not running, then running, then not running, always with the same port and endpoint |
| `Lifecycle.SecondStartScenario` | src/mcp-server.js:350-368 | a second start whose bind fails reports not running while the first listener still listens; the second start rejects under Express 4 and resolves under Express 5 |
| `Lifecycle.ListenThrowsScenario` | src/mcp-server.js:364-366 | a `listen` that throws rejects `start` and leaves a fresh server without a listener, reporting not running |
| `Lifecycle.StopNeverStartedScenario` | src/mcp-server.js:370-381 | stop on a never-started server changes nothing; status reports not running |
| `Host.StartNotifications` | src/main.js:176-193 | with a window open, one notification is sent: `server-status-changed` with the new status when `start` resolved (running only if it bound), or `server-error` with the rejection's message; with no window, none |
| `Host.McpHost.constructor` | src/main.js:10-14 | a new host holds no server, takes its port from `MCP_PORT` or 3999, and fixes the Express version its servers use |
| `Host.McpHost.ServerStatusReply` | src/main.js:43-45 | no server held gives `{ running: false }`; otherwise it is the held server's status, on the host's port; running exactly when a held server's listener listens |
| `Host.McpHost.StartMcpServer` | src/main.js:164-197 | a fresh server on `serverPort` is held whether or not it starts; the result is true exactly when `start` resolved: on a bind under both versions, and also on a failed bind under Express 5; the status then reports running exactly when it bound; the matching notification is sent; the old server is not stopped |
| `Host.McpHost.StopServer` | src/main.js:60-71 | the held server, if any, is stopped and dropped; the result is always success |
| `Host.McpHost.RestartServer` | src/main.js:47-58 | the old server, if any, is stopped; a fresh server on the same port replaces it; the result is success even when the new server cannot bind |
| `Host.McpHost.Cleanup` | src/main.js:199-213 | the held server, if any, is stopped and dropped; with none held nothing changes |
| `Host.FailedRestartScenario` | src/main.js:47-58 | a restart whose bind fails reports success, and the status then shows a held server that is not running rather than no server |
| `Host.FailedBindScenario` | src/main.js:164-197 | a failed first bind with a window open: `false` and `server-error` under Express 4; `true` and a not-running `server-status-changed` under Express 5; the host then holds a server that is not running |
| `Host.StopTwiceScenario` | src/main.js:60-71 | stop-server twice succeeds both times and leaves no server held |
| `Host.DefaultStartScenario` | src/main.js:14 | an unconfigured host that starts reports running on port 3999 at `http://localhost:3999/mcp`, with one notification if a window is open |

## Left out

- Window, tray and menu code, the `open-endpoint` IPC handler (`shell.openExternal`), and the wiring of app events (`whenReady`, `window-all-closed`, `before-quit`) to `startMCPServer` and `cleanup`: desktop glue. Window notifications are kept only as a list of events.
- `GET /health`, `GET /mcp`, `OPTIONS /mcp`, the CORS headers and the Express/CORS middleware: fixed documents and library plumbing. Body parsing is modelled only through its result (`Router.ParsedBody`). JSON syntax errors, which the parser answers with HTTP 400 before the handler runs, are not modelled.
- Registering the handlers with the MCP SDK `Server`, and how the SDK turns thrown errors into replies, is foreign code. Only the handler bodies are modelled. The unused `StdioServerTransport` import is omitted.
- JsValues.Member: only own data properties are read. Inherited properties such as `length` or `toString` are not modelled, and none of the keys the handler reads exists on a prototype.
- JsValues.JsString: assumes the default `toString`. An object body whose own `toString`/`valueOf` keys make the conversion throw is not modelled.
- Numbers are integers only. Fractions, NaN, exponent notation (values of 1e21 and above) and the loss of precision beyond 2^53 are not modelled.
- The wording of the engine's `TypeError` messages is not modelled. The error `data` records only that a `TypeError` was thrown.
- JsValues.JsonEscape: characters are Unicode scalar values, so the escaping of lone surrogates by `JSON.stringify` is not modelled.
- Serialising the reply to JSON is not modelled. For example, an `undefined` id is dropped from the body.
- Tools.ServerInfoJson: the clock is a parameter. Its own contract states only the enclosing braces; the members are stated by `Tools.ServerInfoFields`, in terms of the fixed texts around the port and the timestamp.
- Real socket binding, the asynchronous `listen`/`close` callbacks, the graceful drain of open connections, and overlapping (concurrent) IPC calls are not modelled. Bind success is a parameter, and each operation runs to completion before the next starts.
- `console` logging is not modelled.
