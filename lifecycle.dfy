/**
 * The listener lifecycle of `ElectronMCPServer`: `start` stores the listener
 * returned by `listen` in `httpServer`, `stop` closes it, and `getStatus`
 * reads the configured port and the listener's `listening` flag. Whether the
 * port can be bound is an outcome supplied by the caller.
 */
module Lifecycle {
  import opened Settings

  /** What `app.listen` comes to:
      - `Bound`: the `'listening'` event fires;
      - `BindFailed`: the listener emits `'error'` (for example, the port is in use);
      - `ListenThrew`: `listen` throws before it returns (for example, a port
        number out of range), so no listener is handed back. */
  datatype BindOutcome = Bound | BindFailed(message: string) | ListenThrew(message: string)

  /** How the promise returned by `start` settles. */
  datatype StartOutcome = Resolved | Rejected(message: string)

  /** How `start` settles on each Express version. A synchronous throw is
      caught and rejects. On a bind error, Express 4 runs only the `'error'`
      handler, which rejects. Express 5 has registered the `listen` callback
      for the first `'error'` too, ahead of that handler, so `resolve()`
      runs first and the promise resolves although nothing listens. */
  function StartResult(express: Express, bind: BindOutcome): (outcome: StartOutcome)
    ensures bind.Bound? ==> outcome == Resolved
    ensures bind.ListenThrew? ==> outcome == Rejected(bind.message)
    ensures bind.BindFailed? ==>
      outcome == (if express == Express4 then Rejected(bind.message) else Resolved)
    ensures outcome.Rejected? <==> bind.ListenThrew? || (bind.BindFailed? && express == Express4)
  {
    match bind
    case Bound => Resolved
    case BindFailed(message) => if express == Express4 then Rejected(message) else Resolved
    case ListenThrew(message) => Rejected(message)
  }

  /** `{ running, port, endpoint }` as `getStatus` builds it. */
  datatype ServerStatus = ServerStatus(running: bool, port: Port, endpoint: string)

  /** The `http.Server` that `app.listen` returns, reduced to its `listening` flag. */
  class Listener {
    var listening: bool

    constructor (listening: bool)
      ensures this.listening == listening
    {
      this.listening := listening;
    }

    /** `close()`: afterwards the listener does not listen, whether or not it did before. */
    method Close()
      modifies this
      ensures !listening
    {
      listening := false;
    }
  }

  class McpServer {
    const port: Port
    /** The Express version the server's `app` comes from. */
    const express: Express
    var httpServer: Listener?

    /** `new ElectronMCPServer(port)`: no listener yet. */
    constructor (port: Port, express: Express)
      ensures this.port == port && this.express == express && httpServer == null
    {
      this.port := port;
      this.express := express;
      httpServer := null;
    }

    /** `getStatus()`: always the configured port and its endpoint; running
        exactly when a listener exists and listens, so a server that was
        never started reports not running. */
    function Status(): (s: ServerStatus)
      reads this, httpServer
      ensures s.port == port && s.endpoint == EndpointUrl(port)
      ensures s.running <==> httpServer != null && httpServer.listening
      ensures httpServer == null ==> !s.running
    {
      ServerStatus(httpServer != null && httpServer.listening, port, EndpointUrl(port))
    }

    /** `start()`: there is no guard against an existing listener. When
        `listen` hands back a listener, it replaces `httpServer` (the old one,
        if any, is left as it was, listening or not) and listens exactly when
        the bind succeeded. When `listen` throws, the assignment never runs
        and `httpServer` keeps its old value. The promise settles as
        `StartResult` says. */
    method Start(bind: BindOutcome) returns (outcome: StartOutcome)
      modifies this
      ensures !bind.ListenThrew? ==> httpServer != null && fresh(httpServer) && httpServer.listening == bind.Bound?
      ensures bind.ListenThrew? ==> httpServer == old(httpServer)
      ensures outcome == StartResult(express, bind)
      ensures old(httpServer) != null ==> old(httpServer).listening == old(httpServer.listening)
    {
      match bind
      case Bound =>
        httpServer := new Listener(true);
        outcome := Resolved;
      case BindFailed(message) =>
        httpServer := new Listener(false);
        if express == Express4 {
          outcome := Rejected(message);
        } else {
          outcome := Resolved;
        }
      case ListenThrew(message) =>
        outcome := Rejected(message);
    }

    /** `stop()`: always resolves. With no listener nothing changes; otherwise
        the listener is closed but stays referenced by `httpServer`. */
    method Stop()
      modifies httpServer
      ensures httpServer == old(httpServer)
      ensures httpServer != null ==> !httpServer.listening
      ensures !Status().running
    {
      if httpServer != null {
        httpServer.Close();
      }
    }
  }

  /** Start, status, stop, status on one server: the status reports running
      only in between, and always the same port and endpoint. */
  method StartStopScenario(port: Port, express: Express) returns (before: ServerStatus, during: ServerStatus, after: ServerStatus)
    ensures !before.running && during.running && !after.running
    ensures before.port == during.port == after.port == port
    ensures before.endpoint == during.endpoint == after.endpoint == EndpointUrl(port)
  {
    var server := new McpServer(port, express);
    before := server.Status();
    var started := server.Start(Bound);
    during := server.Status();
    server.Stop();
    after := server.Status();
  }

  /** A second `start` without `stop` does not keep the first listener: when
      the second bind fails (the port is still taken by the first listener),
      the status reports not running although the first listener, no longer
      referenced, still listens. Under Express 4 the second start rejects;
      under Express 5 it resolves all the same. */
  method SecondStartScenario(port: Port, express: Express, bindError: string)
    returns (firstStillListening: bool, status: ServerStatus, second: StartOutcome)
    ensures firstStillListening
    ensures express == Express4 ==> second == Rejected(bindError)
    ensures express == Express5 ==> second == Resolved
    ensures !status.running && status.port == port
  {
    var server := new McpServer(port, express);
    var first := server.Start(Bound);
    var firstListener := server.httpServer;
    second := server.Start(BindFailed(bindError));
    firstStillListening := firstListener.listening;
    status := server.Status();
  }

  /** A `listen` that throws (a port out of range) rejects and installs no
      listener, so a fresh server still has none and reports not running. */
  method ListenThrowsScenario(port: Port, express: Express, error: string)
    returns (outcome: StartOutcome, hasListener: bool, status: ServerStatus)
    ensures outcome == Rejected(error)
    ensures !hasListener && !status.running
  {
    var server := new McpServer(port, express);
    outcome := server.Start(ListenThrew(error));
    hasListener := server.httpServer != null;
    status := server.Status();
  }

  /** `stop` on a server that was never started changes nothing and the
      status still answers, reporting not running. */
  method StopNeverStartedScenario(port: Port, express: Express) returns (status: ServerStatus, hasListener: bool)
    ensures !status.running && !hasListener
    ensures status == ServerStatus(false, port, EndpointUrl(port))
  {
    var server := new McpServer(port, express);
    server.Stop();
    hasListener := server.httpServer != null;
    status := server.Status();
  }
}
