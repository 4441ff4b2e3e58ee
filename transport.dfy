// MCPWebSocketHandler: the per-connection endpoint. It registers its session
// with the shared handler, hands each text frame to handleMessage and writes
// the returned response back on its own session.
module MCPWebSocketHandler {
  import opened Wrappers
  import opened Json
  import opened Ide
  import opened MCPResponseBuilder
  import NetBeansMCPHandler
  import opened HandlerSession

  /** The response frames a handled message puts on the endpoint's open session, in wire order. */
  function WireFrames(h: NetBeansMCPHandler.Handled, notificationFirst: bool): seq<Json>
  {
    if !h.initialized then [h.response]
    else if notificationFirst then [InitializedNotification, h.response]
    else [h.response, InitializedNotification]
  }

  /** The frames of a handled message, as the notification and the response are written one after the other. */
  lemma WireFramesSplit(h: NetBeansMCPHandler.Handled)
    ensures WireFrames(h, true) == (if h.initialized then [InitializedNotification] else []) + [h.response]
    ensures WireFrames(h, false) == [h.response] + (if h.initialized then [InitializedNotification] else [])
  {
  }

  /** Whether a message asks to initialize. */
  predicate IsInitialize(msg: Json)
  {
    Get(msg, "method").Some? && AsText(Get(msg, "method").value) == "initialize"
  }

  class Endpoint {
    var session: Session?           // getSession()
    const mcpHandler: Handler

    constructor (mcpHandler: Handler)
      ensures session == null && this.mcpHandler == mcpHandler
    {
      session := null;
      this.mcpHandler := mcpHandler;
    }

    /**
     * onWebSocketConnect: the endpoint keeps the session and the handler
     * takes it over, registers a new activation listener and tracks the
     * activated tab, owing the new session its initial selection event.
     */
    method OnWebSocketConnect(s: Session, activated: Option<Tab>)
      requires mcpHandler.Valid()
      modifies this, mcpHandler, mcpHandler.listeners, s
      ensures session == s && mcpHandler.webSocketSession == s && mcpHandler.Valid()
      ensures mcpHandler.topComponentListener == Some(old(mcpHandler.nextListener))
      ensures mcpHandler.listeners.registry == old(mcpHandler.listeners.registry) + [old(mcpHandler.nextListener)]
      ensures activated.None? ==>
        mcpHandler.currentTextComponent == old(mcpHandler.currentTextComponent) &&
        mcpHandler.selectionListeners == old(mcpHandler.selectionListeners) &&
        mcpHandler.listeners.caret == old(mcpHandler.listeners.caret) && s.sent == old(s.sent)
      ensures activated.Some? ==>
        var t := Track(old(mcpHandler.currentTextComponent), old(mcpHandler.selectionListeners),
                       old(mcpHandler.listeners.caret), activated.value, old(mcpHandler.nextListener) + 1);
        mcpHandler.currentTextComponent == t.current && mcpHandler.selectionListeners == t.selection &&
        mcpHandler.listeners.caret == t.caret &&
        s.isOpen == old(s.isOpen) && s.sent == old(s.sent) + (if old(s.isOpen) then t.events else [])
    {
      session := s;
      mcpHandler.SetWebSocketSession(s, activated);
    }

    /**
     * onWebSocketClose: Jetty's adapter drops the endpoint's session, and the
     * handler forgets its session, whichever connection that is, and stops
     * tracking: its activation listener and every caret listener go.
     */
    method OnWebSocketClose()
      requires mcpHandler.Valid()
      modifies this, mcpHandler, mcpHandler.listeners
      ensures session == null
      ensures mcpHandler.webSocketSession == null && mcpHandler.Valid()
      ensures mcpHandler.topComponentListener.None? && mcpHandler.currentTextComponent.None?
      ensures mcpHandler.selectionListeners == map[]
      ensures mcpHandler.listeners.registry ==
        if old(mcpHandler.topComponentListener).Some?
        then Unregistered(old(mcpHandler.listeners.registry), old(mcpHandler.topComponentListener).value)
        else old(mcpHandler.listeners.registry)
      ensures mcpHandler.listeners.caret ==
        old(mcpHandler.listeners.caret) - Registrations(old(mcpHandler.selectionListeners), old(mcpHandler.selectionListeners).Keys)
    {
      session := null;
      mcpHandler.SetWebSocketSession(null, None);
    }

    /**
     * onWebSocketText as written: handleMessage runs (and, for initialize,
     * writes notifications/initialized to the handler's session, which is
     * the latest connection's), then the returned response is written when
     * the endpoint's own session is open.
     */
    method OnWebSocketText(msg: Json, ide: Ide, ser: Serializer, windows: Registry) returns (ghost h: NetBeansMCPHandler.Handled)
      modifies windows, session, mcpHandler.webSocketSession
      ensures h == mcpHandler.dispatch(msg, ide.(tabs := old(windows.openTabs)), ser)
      ensures windows.openTabs == h.tabs
      ensures session != null && session == mcpHandler.webSocketSession ==>
        session.sent == old(session.sent) + (if old(session.isOpen) then WireFrames(h, true) else [])
      ensures session != null && session != mcpHandler.webSocketSession ==>
        session.sent == old(session.sent) + (if old(session.isOpen) then [h.response] else [])
      ensures mcpHandler.webSocketSession != null && session != mcpHandler.webSocketSession ==>
        mcpHandler.webSocketSession.sent == old(mcpHandler.webSocketSession.sent) +
          (if h.initialized && old(mcpHandler.webSocketSession.isOpen) then [InitializedNotification] else [])
    {
      var response;
      response, h := mcpHandler.HandleMessage(msg, ide, ser, windows);
      if session != null && session.isOpen {
        session.Send(response);
      }
      WireFramesSplit(h);
    }

    /**
     * onWebSocketText with the order its comments describe: the response is
     * written first, then the deferred notifications/initialized.
     */
    method OnWebSocketTextResponseFirst(msg: Json, ide: Ide, ser: Serializer, windows: Registry) returns (ghost h: NetBeansMCPHandler.Handled)
      modifies windows, session, mcpHandler.webSocketSession
      ensures h == mcpHandler.dispatch(msg, ide.(tabs := old(windows.openTabs)), ser)
      ensures windows.openTabs == h.tabs
      ensures session != null && session == mcpHandler.webSocketSession ==>
        session.sent == old(session.sent) + (if old(session.isOpen) then WireFrames(h, false) else [])
      ensures session != null && session != mcpHandler.webSocketSession ==>
        session.sent == old(session.sent) + (if old(session.isOpen) then [h.response] else [])
      ensures mcpHandler.webSocketSession != null && session != mcpHandler.webSocketSession ==>
        mcpHandler.webSocketSession.sent == old(mcpHandler.webSocketSession.sent) +
          (if h.initialized && old(mcpHandler.webSocketSession.isOpen) then [InitializedNotification] else [])
    {
      var response, notification;
      response, notification, h := mcpHandler.HandleMessageDeferred(msg, ide, ser, windows);
      if session != null && session.isOpen {
        session.Send(response);
      }
      if notification.Some? {
        mcpHandler.SendInitializedNotification();
      }
      WireFramesSplit(h);
    }
  }

  /**
   * As written, an initialize on an open session puts the notification on
   * the wire ahead of the response it follows.
   */
  method InitializeNotificationPrecedesResponse(endpoint: Endpoint, msg: Json, ide: Ide, ser: Serializer, windows: Registry)
    requires endpoint.session != null && endpoint.session.isOpen
    requires endpoint.session == endpoint.mcpHandler.webSocketSession
    requires endpoint.mcpHandler.dispatch == NetBeansMCPHandler.HandleMessage
    requires IsInitialize(msg)
    modifies windows, endpoint.session
    ensures |endpoint.session.sent| == |old(endpoint.session.sent)| + 2
    ensures endpoint.session.sent[|endpoint.session.sent| - 2] == InitializedNotification
    ensures endpoint.session.sent[|endpoint.session.sent| - 1] ==
      NetBeansMCPHandler.HandleMessage(msg, ide.(tabs := old(windows.openTabs)), ser).response
  {
    var _ := endpoint.OnWebSocketText(msg, ide, ser, windows);
  }

  /** With the response written first, the notification follows the response. */
  method InitializeResponsePrecedesNotification(endpoint: Endpoint, msg: Json, ide: Ide, ser: Serializer, windows: Registry)
    requires endpoint.session != null && endpoint.session.isOpen
    requires endpoint.session == endpoint.mcpHandler.webSocketSession
    requires endpoint.mcpHandler.dispatch == NetBeansMCPHandler.HandleMessage
    requires IsInitialize(msg)
    modifies windows, endpoint.session
    ensures |endpoint.session.sent| == |old(endpoint.session.sent)| + 2
    ensures endpoint.session.sent[|endpoint.session.sent| - 2] ==
      NetBeansMCPHandler.HandleMessage(msg, ide.(tabs := old(windows.openTabs)), ser).response
    ensures endpoint.session.sent[|endpoint.session.sent| - 1] == InitializedNotification
  {
    var _ := endpoint.OnWebSocketTextResponseFirst(msg, ide, ser, windows);
  }

  /**
   * With two connections, the one that connected first no longer owns the
   * handler's session: its initialize is answered on its own session, but
   * the notification goes to the later connection.
   */
  method EarlierClientInitializeNotifiesLater(endpoint: Endpoint, msg: Json, ide: Ide, ser: Serializer, windows: Registry)
    requires endpoint.session != null && endpoint.session.isOpen
    requires endpoint.mcpHandler.webSocketSession != null && endpoint.mcpHandler.webSocketSession.isOpen
    requires endpoint.session != endpoint.mcpHandler.webSocketSession
    requires endpoint.mcpHandler.dispatch == NetBeansMCPHandler.HandleMessage
    requires IsInitialize(msg)
    modifies windows, endpoint.session, endpoint.mcpHandler.webSocketSession
    ensures endpoint.session.sent ==
      old(endpoint.session.sent) + [NetBeansMCPHandler.HandleMessage(msg, ide.(tabs := old(windows.openTabs)), ser).response]
    ensures endpoint.mcpHandler.webSocketSession.sent ==
      old(endpoint.mcpHandler.webSocketSession.sent) + [InitializedNotification]
  {
    var _ := endpoint.OnWebSocketText(msg, ide, ser, windows);
  }

  /** Both orders put the same frames on the wire; only an initialize's two frames differ in order. */
  lemma OrdersDifferOnlyForInitialize(h: NetBeansMCPHandler.Handled)
    ensures multiset(WireFrames(h, true)) == multiset(WireFrames(h, false))
    ensures WireFrames(h, true) == WireFrames(h, false) <==> !h.initialized || h.response == InitializedNotification
  {
  }
}
