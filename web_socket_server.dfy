// WebSocketMCPServer: picks the first free port of its range, accepts the
// first MCP subprotocol a client offers, and keeps the Jetty server it starts.
// Which ports can be bound, and whether Jetty starts, are parameters.
module WebSocketMCPServer {
  import opened Wrappers

  const PortRangeStart: int := 8990
  const PortRangeEnd: int := 9100

  predicate InRange(port: int)
  {
    PortRangeStart <= port <= PortRangeEnd
  }

  /**
   * findAvailablePort: the lowest port of 8990..9100 that can be bound
   * (`bindable` answers for new ServerSocket(port)), or -1 when none can.
   */
  method FindAvailablePort(bindable: set<int>) returns (port: int)
    ensures port == -1 <==> forall p :: InRange(p) ==> p !in bindable
    ensures port != -1 ==> InRange(port) && port in bindable
    ensures port != -1 ==> forall p :: PortRangeStart <= p < port ==> p !in bindable
  {
    var candidate := PortRangeStart;
    while candidate <= PortRangeEnd
      invariant PortRangeStart <= candidate <= PortRangeEnd + 1
      invariant forall p :: PortRangeStart <= p < candidate ==> p !in bindable
    {
      if candidate in bindable {
        return candidate;
      }
      candidate := candidate + 1;
    }
    return -1;
  }

  /** The subprotocols the endpoint answers to. */
  predicate IsMcpSubprotocol(s: string)
  {
    s == "mcp" || s == "mcp-v1"
  }

  /**
   * The subprotocol set on the upgrade response: the first offered entry
   * that is "mcp" or "mcp-v1"; none for a null list or when no entry is.
   */
  method AcceptedSubprotocol(subprotocols: Option<seq<string>>) returns (accepted: Option<string>)
    ensures accepted.Some? <==>
      subprotocols.Some? && exists i :: 0 <= i < |subprotocols.value| && IsMcpSubprotocol(subprotocols.value[i])
    ensures accepted.Some? ==>
      exists i :: (0 <= i < |subprotocols.value| &&
                   subprotocols.value[i] == accepted.value && IsMcpSubprotocol(accepted.value) &&
                   forall j :: 0 <= j < i ==> !IsMcpSubprotocol(subprotocols.value[j]))
  {
    accepted := None;
    if subprotocols.None? {
      return;
    }
    var offered := subprotocols.value;
    var i := 0;
    while i < |offered|
      invariant 0 <= i <= |offered|
      invariant forall j :: 0 <= j < i ==> !IsMcpSubprotocol(offered[j])
    {
      if IsMcpSubprotocol(offered[i]) {
        accepted := Some(offered[i]);
        return;
      }
      i := i + 1;
    }
  }

  /** The server: the port it chose and the Jetty server it created, if any. */
  class Server {
    var port: int
    var created: bool     // server != null
    var started: bool     // server.isStarted()

    constructor ()
      ensures port == 0 && !created && !started
      ensures !IsRunning()
    {
      port := 0;
      created := false;
      started := false;
    }

    /** isRunning: a server exists and is started. */
    predicate IsRunning()
      reads this
    {
      created && started
    }

    /**
     * start: false when no port is free (no server is created) or when
     * Jetty fails to start (the new server exists but is not started);
     * true once the new server runs on the chosen port.
     */
    method Start(bindable: set<int>, jettyFails: bool) returns (ok: bool)
      modifies this
      ensures port != -1 <==> exists p :: InRange(p) && p in bindable
      ensures port != -1 ==> InRange(port) && port in bindable
      ensures port == -1 ==> !ok && created == old(created) && started == old(started)
      ensures port != -1 ==> created && (ok <==> !jettyFails) && (started <==> !jettyFails)
      ensures ok <==> IsRunning() && port != -1 && !jettyFails
    {
      port := FindAvailablePort(bindable);
      if port == -1 {
        return false;
      }
      created := true;
      started := false;
      if jettyFails {
        return false;
      }
      started := true;
      return true;
    }

    /** stop: stops a running server; nothing otherwise. */
    method Stop()
      modifies this
      ensures !IsRunning()
      ensures created == old(created) && port == old(port)
    {
      if created && started {
        started := false;
      }
    }

    /** getPort. */
    function GetPort(): int
      reads this
    {
      port
    }
  }
}
