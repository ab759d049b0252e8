/**
 * The desktop host's hold on the server (`ElectronMCPApp` in the main
 * process): the `mcpServer` field, `startMCPServer`, `cleanup`, and the IPC
 * handlers `get-server-status`, `stop-server` and `restart-server`. The
 * notifications sent to the window are kept as a list of events.
 */
module Host {
  import opened Wrappers
  import opened Settings
  import opened Lifecycle

  /** The answer of `get-server-status`: `{ running: false }` when no server
      is held, otherwise the held server's `getStatus()`. */
  datatype StatusReply = NoServer | Reported(status: ServerStatus) {
    function Running(): bool {
      Reported? && status.running
    }
  }

  /** `{ success: true }` or `{ success: false, error }`. */
  datatype IpcResult = Succeeded | Failed(error: string)

  /** What `startMCPServer` sends to the window: `server-status-changed` with
      the new status, or `server-error` with the bind error's message. */
  datatype Notification = ServerStatusChanged(status: ServerStatus) | ServerError(message: string)

  /** The notification a start attempt sends, if a window is open: a status
      change when `start` resolves (under Express 5 also after a failed bind,
      with a status that is not running), otherwise the rejection's message. */
  function StartNotifications(hasWindow: bool, express: Express, bind: BindOutcome, port: Port): (ns: seq<Notification>)
    ensures !hasWindow ==> ns == []
    ensures hasWindow ==> |ns| == 1
    ensures hasWindow && StartResult(express, bind).Resolved? ==>
      ns == [ServerStatusChanged(ServerStatus(bind.Bound?, port, EndpointUrl(port)))]
    ensures hasWindow && StartResult(express, bind).Rejected? ==> ns == [ServerError(bind.message)]
    ensures hasWindow && bind.Bound? ==> ns[0].ServerStatusChanged? && ns[0].status.running
    ensures hasWindow && bind.BindFailed? && express == Express5 ==>
      ns[0].ServerStatusChanged? && !ns[0].status.running
  {
    if !hasWindow then []
    else match StartResult(express, bind)
      case Resolved => [ServerStatusChanged(ServerStatus(bind.Bound?, port, EndpointUrl(port)))]
      case Rejected(message) => [ServerError(message)]
  }

  class McpHost {
    /** `process.env.MCP_PORT || 3999`, fixed at construction. */
    const serverPort: Port
    /** Whether a main window with web contents exists to be notified. */
    const hasWindow: bool
    /** The Express version every server the host creates runs on. */
    const express: Express
    var mcpServer: McpServer?
    var notifications: seq<Notification>

    /** Every server the host holds was created by the host: on its port,
        with its Express version. */
    ghost predicate Valid()
      reads this, mcpServer
    {
      mcpServer != null ==> mcpServer.port == serverPort && mcpServer.express == express
    }

    /** The listener of the held server, the only object besides the host
        that stopping the server changes. */
    ghost function HeldListener(): set<object>
      reads this, mcpServer
    {
      if mcpServer != null && mcpServer.httpServer != null then {mcpServer.httpServer} else {}
    }

    constructor (mcpPort: Option<string>, hasWindow: bool, express: Express)
      ensures Valid()
      ensures serverPort == PortFromEnv(mcpPort) && this.hasWindow == hasWindow && this.express == express
      ensures mcpServer == null && notifications == []
    {
      serverPort := PortFromEnv(mcpPort);
      this.hasWindow := hasWindow;
      this.express := express;
      mcpServer := null;
      notifications := [];
    }

    /** `get-server-status`: running exactly when a server is held and its
        listener listens; a reported status always names the host's port. */
    function ServerStatusReply(): (r: StatusReply)
      requires Valid()
      reads this, mcpServer, HeldListener()
      ensures mcpServer == null ==> r == NoServer
      ensures mcpServer != null ==> r == Reported(mcpServer.Status())
      ensures r.Reported? ==> r.status.port == serverPort && r.status.endpoint == EndpointUrl(serverPort)
      ensures r.Running() <==> mcpServer != null && mcpServer.httpServer != null && mcpServer.httpServer.listening
    {
      if mcpServer == null then NoServer else Reported(mcpServer.Status())
    }

    /** `startMCPServer()`: never throws. A new server on `serverPort` is held
        before it is started, so after a failed start the host still holds it
        and reports it as not running. The result says whether `start`
        resolved, which under Express 5 includes a failed bind. The
        previously held server, if any, is not stopped. */
    method StartMcpServer(bind: BindOutcome) returns (ok: bool)
      requires Valid()
      modifies this
      ensures Valid()
      ensures mcpServer != null && fresh(mcpServer) && mcpServer.port == serverPort
      ensures !bind.ListenThrew? ==> mcpServer.httpServer != null && fresh(mcpServer.httpServer)
      ensures bind.ListenThrew? ==> mcpServer.httpServer == null
      ensures ok <==> StartResult(express, bind).Resolved?
      ensures ok <==> bind.Bound? || (bind.BindFailed? && express == Express5)
      ensures ServerStatusReply() == Reported(ServerStatus(bind.Bound?, serverPort, EndpointUrl(serverPort)))
      ensures notifications == old(notifications) + StartNotifications(hasWindow, express, bind, serverPort)
      ensures old(mcpServer) != null ==> old(mcpServer).Status() == old(mcpServer.Status())
    {
      mcpServer := new McpServer(serverPort, express);
      var outcome := mcpServer.Start(bind);
      match outcome
      case Resolved =>
        if hasWindow {
          notifications := notifications + [ServerStatusChanged(mcpServer.Status())];
        }
        ok := true;
      case Rejected(message) =>
        if hasWindow {
          notifications := notifications + [ServerError(message)];
        }
        ok := false;
    }

    /** `stop-server`: stops the held server, if any, and drops it. `stop`
        never rejects, so the handler always reports success, and a second
        call finds nothing to stop and succeeds again. */
    method StopServer() returns (r: IpcResult)
      requires Valid()
      modifies this, HeldListener()
      ensures Valid()
      ensures r == Succeeded
      ensures mcpServer == null && ServerStatusReply() == NoServer
      ensures old(mcpServer) != null ==> !old(mcpServer).Status().running
      ensures notifications == old(notifications)
    {
      if mcpServer != null {
        mcpServer.Stop();
        mcpServer := null;
      }
      r := Succeeded;
    }

    /** `restart-server`: stops the held server, if any, without dropping it,
        then runs `startMCPServer`, which replaces it by a new server on the
        same port. The result of the start is ignored, so the handler reports
        success even when the new server could not start. */
    method RestartServer(bind: BindOutcome) returns (r: IpcResult)
      requires Valid()
      modifies this, HeldListener()
      ensures Valid()
      ensures r == Succeeded
      ensures old(mcpServer) != null ==> !old(mcpServer).Status().running
      ensures mcpServer != null && fresh(mcpServer) && mcpServer.port == serverPort
      ensures !bind.ListenThrew? ==> mcpServer.httpServer != null && fresh(mcpServer.httpServer)
      ensures bind.ListenThrew? ==> mcpServer.httpServer == null
      ensures ServerStatusReply() == Reported(ServerStatus(bind.Bound?, serverPort, EndpointUrl(serverPort)))
      ensures notifications == old(notifications) + StartNotifications(hasWindow, express, bind, serverPort)
    {
      if mcpServer != null {
        mcpServer.Stop();
      }
      var started := StartMcpServer(bind);
      r := Succeeded;
    }

    /** `cleanup()`: stops and drops the held server; with none held it does
        nothing. */
    method Cleanup()
      requires Valid()
      modifies this, HeldListener()
      ensures Valid()
      ensures mcpServer == null
      ensures old(mcpServer) != null ==> !old(mcpServer).Status().running
      ensures notifications == old(notifications)
    {
      if mcpServer != null {
        mcpServer.Stop();
        mcpServer := null;
      }
    }
  }

  /** A restart whose bind fails still reports success, and the status then
      reports a held server that is not running rather than no server. */
  method FailedRestartScenario(mcpPort: Option<string>, hasWindow: bool, express: Express, bindError: string)
    returns (restart: IpcResult, status: StatusReply)
    ensures restart == Succeeded
    ensures status == Reported(ServerStatus(false, PortFromEnv(mcpPort), EndpointUrl(PortFromEnv(mcpPort))))
    ensures !status.Running() && status != NoServer
  {
    var host := new McpHost(mcpPort, hasWindow, express);
    var started := host.StartMcpServer(Bound);
    restart := host.RestartServer(BindFailed(bindError));
    status := host.ServerStatusReply();
  }

  /** A first start whose bind fails, with a window open. Under Express 4
      `startMCPServer` returns false and the window gets `server-error`.
      Under Express 5 it returns true and the window gets
      `server-status-changed` with a status that is not running. Either way
      the host then holds a server that is not running. */
  method FailedBindScenario(mcpPort: Option<string>, express: Express, bindError: string)
    returns (ok: bool, status: StatusReply, sent: seq<Notification>)
    ensures express == Express4 ==> !ok && sent == [ServerError(bindError)]
    ensures express == Express5 ==>
      ok && sent == [ServerStatusChanged(ServerStatus(false, PortFromEnv(mcpPort), EndpointUrl(PortFromEnv(mcpPort))))]
    ensures status.Reported? && !status.Running()
  {
    var host := new McpHost(mcpPort, true, express);
    ok := host.StartMcpServer(BindFailed(bindError));
    status := host.ServerStatusReply();
    sent := host.notifications;
  }

  /** `stop-server` is idempotent: stopping twice succeeds twice and leaves
      no server held. */
  method StopTwiceScenario(mcpPort: Option<string>, express: Express, bind: BindOutcome)
    returns (first: IpcResult, second: IpcResult, status: StatusReply)
    ensures first == Succeeded && second == Succeeded
    ensures status == NoServer && !status.Running()
  {
    var host := new McpHost(mcpPort, false, express);
    var started := host.StartMcpServer(bind);
    first := host.StopServer();
    second := host.StopServer();
    status := host.ServerStatusReply();
  }

  /** With no `MCP_PORT`, a started host reports the default endpoint and
      notifies its window once. */
  method DefaultStartScenario(hasWindow: bool, express: Express) returns (ok: bool, status: StatusReply, sent: seq<Notification>)
    ensures ok && status.Running()
    ensures status.status.port == Number(3999)
    ensures status.status.endpoint == "http://localhost:3999/mcp"
    ensures |sent| == (if hasWindow then 1 else 0)
  {
    var host := new McpHost(None, hasWindow, express);
    ok := host.StartMcpServer(Bound);
    status := host.ServerStatusReply();
    sent := host.notifications;
    DefaultEndpoint();
  }
}
