// The fields of NetBeansMCPHandler that change over a connection: the
// WebSocket session, the TopComponent registry listener, the tracked text
// component and its caret listener. Listener objects are modelled by
// identities drawn from a counter; text components by their ids.
module HandlerSession {
  import opened Wrappers
  import opened Text
  import opened Json
  import opened Ide
  import opened MCPResponseBuilder
  import opened NbUtils
  import NetBeansMCPHandler

  /** A WebSocket session: whether it is open, and the frames sent on it so far. */
  class Session {
    var isOpen: bool
    var sent: seq<Json>

    constructor (isOpen: bool)
      ensures this.isOpen == isOpen && sent == []
    {
      this.isOpen := isOpen;
      sent := [];
    }

    /** getRemote().sendString(..). */
    method Send(frame: Json)
      modifies this
      ensures sent == old(sent) + [frame] && isOpen == old(isOpen)
    {
      sent := sent + [frame];
    }
  }

  /** The platform's listener lists the handler adds to and removes from. */
  class Listeners {
    var registry: seq<nat>        // property-change listeners of TopComponent.Registry
    var caret: set<(nat, nat)>    // (text component, caret listener) registrations

    constructor ()
      ensures registry == [] && caret == {}
    {
      registry := [];
      caret := {};
    }
  }

  /** A listener list without one listener. */
  function Unregistered(registry: seq<nat>, l: nat): (r: seq<nat>)
    ensures l !in r
    ensures forall x :: x != l ==> (x in r <==> x in registry)
  {
    if |registry| == 0 then []
    else (if registry[0] == l then [] else [registry[0]]) + Unregistered(registry[1..], l)
  }

  /** The caret registrations of the map's entries whose keys are in `keys`. */
  function Registrations(m: map<nat, nat>, keys: set<nat>): set<(nat, nat)>
  {
    set k | k in keys && k in m :: (k, m[k])
  }

  /** The params of a selection_changed notification: 0-based lines, as the protocol reports them. */
  function SelectionChangedParams(c: TextComp, absolutePath: string): Json
  {
    JObj([("text", JStr(if c.selectedText.Some? then c.selectedText.value else "")),
          ("filePath", JStr(absolutePath)),
          ("fileUrl", JStr("file://" + absolutePath)),
          ("selection", JObj([("start", JObj([("line", JInt(c.startLine)), ("character", JInt(c.startColumn))])),
                              ("end", JObj([("line", JInt(c.endLine)), ("character", JInt(c.endColumn))])),
                              ("isEmpty", JBool(c.selectedText.None? || c.selectedText.value == ""))]))])
  }

  /** The selection_changed event for a pane of a node, when one can be built: a styled document of a file on disk. */
  function SelectionEvent(c: TextComp, node: Node): Option<Json>
  {
    if c.styled && node.dataObject.Some? && node.dataObject.value.diskPath.Some? then
      Some(CreateNotification("selection_changed", Some(SelectionChangedParams(c, node.dataObject.value.diskPath.value))))
    else None
  }

  /** The value reached by following a path of keys through nested objects. */
  function Field(j: Json, path: seq<string>): Option<Json>
    decreases |path|
  {
    if |path| == 0 then Some(j)
    else match Get(j, path[0])
      case None => None
      case Some(child) => Field(child, path[1..])
  }

  const InitializedNotification: Json := CreateNotification("notifications/initialized", None)

  /**
   * The selection-tracking state: the current text component, its caret
   * listener, the caret registrations and the events owed to an open session.
   */
  datatype Tracking = Tracking(current: Option<nat>, selection: map<nat, nat>, caret: set<(nat, nat)>, events: seq<Json>)

  /**
   * What trackEditorSelection does to the tracking state, with `listener` the
   * identity of the caret listener it would create: nothing without a first
   * pane or for the component already current; a null pane drops the old
   * listener and leaves no component current; a new component replaces the
   * old one's listener with a fresh one and is owed its initial event.
   */
  function Track(current: Option<nat>, selection: map<nat, nat>, caret: set<(nat, nat)>, tc: Tab, listener: nat): Tracking
  {
    var removed := if current.Some? then Registrations(selection, {current.value}) else {};
    match FirstPane(tc)
    case None => Tracking(current, selection, caret, [])
    case Some((node, pane)) =>
      if pane.None? then
        if current.Some? then Tracking(None, map[], caret - removed, []) else Tracking(current, selection, caret, [])
      else if current == Some(pane.value.id) then Tracking(current, selection, caret, [])
      else
        var event := SelectionEvent(pane.value, node);
        Tracking(Some(pane.value.id), map[pane.value.id := listener], caret - removed + {(pane.value.id, listener)},
                 if event.Some? then [event.value] else [])
  }

  /**
   * Tracking keeps the handler's invariant: only the current component has a
   * caret listener, and that listener is registered; at most one event is owed.
   */
  lemma TrackKeepsOneListener(current: Option<nat>, selection: map<nat, nat>, caret: set<(nat, nat)>, tc: Tab, listener: nat)
    requires current.None? ==> selection == map[]
    requires current.Some? ==> selection.Keys <= {current.value}
    requires forall k :: k in selection ==> (k, selection[k]) in caret
    ensures var t := Track(current, selection, caret, tc, listener);
      (t.current.None? ==> t.selection == map[]) &&
      (t.current.Some? ==> t.selection.Keys <= {t.current.value}) &&
      (forall k :: k in t.selection ==> (k, t.selection[k]) in t.caret) &&
      |t.events| <= 1
  {
  }

  /**
   * The selection the event reports is the one the selection tool reports,
   * one line lower: the event counts lines from 0, the tool from 1. Both
   * call the selection empty on the same condition.
   */
  lemma EventLinesAreToolLinesMinusOne(tab: Tab)
    requires FirstPane(tab).Some? && FirstPane(tab).value.1.Some?
    requires SelectionEvent(FirstPane(tab).value.1.value, FirstPane(tab).value.0).Some?
    ensures var c := FirstPane(tab).value.1.value;
      var d := GetCurrentSelectionData(Some(tab));
      var p := SelectionChangedParams(c, FirstPane(tab).value.0.dataObject.value.diskPath.value);
      d.Some? &&
      Field(p, ["selection", "start", "line"]) == Some(JInt(d.value.startLine - 1)) &&
      Field(p, ["selection", "end", "line"]) == Some(JInt(d.value.endLine - 1)) &&
      Field(p, ["selection", "isEmpty"]) == Some(JBool(d.value.isEmpty))
  {
    var c := FirstPane(tab).value.1.value;
    var p := SelectionChangedParams(c, FirstPane(tab).value.0.dataObject.value.diskPath.value);
    var sel := p.fields[3].1;
    LookupAt(p.fields, "selection", 3);
    LookupAt(sel.fields, "start", 0);
    LookupAt(sel.fields, "end", 1);
    LookupAt(sel.fields, "isEmpty", 2);
    LookupAt(sel.fields[0].1.fields, "line", 0);
    LookupAt(sel.fields[1].1.fields, "line", 0);
  }

  /** The handler's session and selection-tracking state. */
  class Handler {
    var webSocketSession: Session?
    var selectionListeners: map<nat, nat>    // text component -> its caret listener
    var topComponentListener: Option<nat>
    var currentTextComponent: Option<nat>
    var nextListener: nat                    // identity of the next listener object created
    const listeners: Listeners
    /** What handleMessage computes from a message; the constructor fixes it to `NetBeansMCPHandler.HandleMessage`. */
    const dispatch: (Json, Ide, Serializer) -> NetBeansMCPHandler.Handled

    /**
     * At most the current text component has a caret listener, and every
     * listener in the map is registered with its component.
     */
    predicate Valid()
      reads this, listeners
    {
      (currentTextComponent.None? ==> selectionListeners == map[]) &&
      (currentTextComponent.Some? ==> selectionListeners.Keys <= {currentTextComponent.value}) &&
      (forall k :: k in selectionListeners ==> (k, selectionListeners[k]) in listeners.caret)
    }

    constructor (platform: Listeners)
      ensures Valid()
      ensures webSocketSession == null && topComponentListener.None? && currentTextComponent.None?
      ensures selectionListeners == map[] && listeners == platform
      ensures dispatch == NetBeansMCPHandler.HandleMessage
    {
      webSocketSession := null;
      selectionListeners := map[];
      topComponentListener := None;
      currentTextComponent := None;
      nextListener := 0;
      listeners := platform;
      dispatch := NetBeansMCPHandler.HandleMessage;
    }

    /**
     * sendSelectionChangeEvent: nothing without an open session; otherwise
     * the event, when the pane shows a styled document of a file on disk.
     */
    method SendSelectionChangeEvent(c: TextComp, node: Node)
      modifies webSocketSession
      ensures webSocketSession != null ==> webSocketSession.isOpen == old(webSocketSession.isOpen)
      ensures webSocketSession != null ==>
        (webSocketSession.sent ==
           old(webSocketSession.sent) +
           (if old(webSocketSession.isOpen) && SelectionEvent(c, node).Some? then [SelectionEvent(c, node).value] else []))
    {
      if webSocketSession == null || !webSocketSession.isOpen {
        return;
      }
      if c.styled && node.dataObject.Some? && node.dataObject.value.diskPath.Some? {
        var absolutePath := node.dataObject.value.diskPath.value;
        var notification := CreateNotification("selection_changed", Some(SelectionChangedParams(c, absolutePath)));
        webSocketSession.Send(notification);
      }
    }

    /** Drops the caret listener of the current component, if any (the first half of a switch). */
    method ForgetCurrent()
      requires Valid()
      requires currentTextComponent.Some?
      modifies this, listeners
      ensures selectionListeners == map[] && currentTextComponent == old(currentTextComponent)
      ensures var cur := old(currentTextComponent).value;
        listeners.caret == old(listeners.caret) - Registrations(old(selectionListeners), {cur})
      ensures listeners.registry == old(listeners.registry)
      ensures webSocketSession == old(webSocketSession) && topComponentListener == old(topComponentListener)
      ensures nextListener == old(nextListener)
    {
      var cur := currentTextComponent.value;
      if cur in selectionListeners {
        var listener := selectionListeners[cur];
        selectionListeners := selectionListeners - {cur};
        listeners.caret := listeners.caret - {(cur, listener)};
        assert Registrations(old(selectionListeners), {cur}) == {(cur, listener)};
      } else {
        assert Registrations(old(selectionListeners), {cur}) == {};
      }
      assert selectionListeners.Keys == {};
    }

    /**
     * trackEditorSelection: when the tab's first pane is a different
     * component, the old component's listener goes, a new one is added to
     * the new component and one initial event is sent. A null pane only
     * drops the old listener: adding to it throws.
     */
    method TrackEditorSelection(tc: Tab)
      requires Valid()
      modifies this, listeners, webSocketSession
      ensures Valid()
      ensures webSocketSession == old(webSocketSession) && nextListener >= old(nextListener)
      ensures topComponentListener == old(topComponentListener) && listeners.registry == old(listeners.registry)
      ensures var target := if FirstPane(tc).Some? then Some(FirstPane(tc).value.1) else None;
        (target.None? || (target == Some(None) && old(currentTextComponent).None?) ||
         (target.Some? && target.value.Some? && old(currentTextComponent) == Some(target.value.value.id))) ==>
          currentTextComponent == old(currentTextComponent) && selectionListeners == old(selectionListeners) &&
          listeners.caret == old(listeners.caret) &&
          (webSocketSession != null ==> webSocketSession.sent == old(webSocketSession.sent))
      ensures FirstPane(tc).Some? && FirstPane(tc).value.1.None? && old(currentTextComponent).Some? ==>
        currentTextComponent.None? && selectionListeners == map[] &&
        listeners.caret == old(listeners.caret) - Registrations(old(selectionListeners), {old(currentTextComponent).value}) &&
        (webSocketSession != null ==> webSocketSession.sent == old(webSocketSession.sent))
      ensures FirstPane(tc).Some? && FirstPane(tc).value.1.Some? &&
              old(currentTextComponent) != Some(FirstPane(tc).value.1.value.id) ==>
        var c := FirstPane(tc).value.1.value;
        var removed := if old(currentTextComponent).Some?
                       then Registrations(old(selectionListeners), {old(currentTextComponent).value}) else {};
        currentTextComponent == Some(c.id) &&
        selectionListeners == map[c.id := old(nextListener)] &&
        listeners.caret == old(listeners.caret) - removed + {(c.id, old(nextListener))} &&
        (webSocketSession != null ==>
           (webSocketSession.sent ==
              old(webSocketSession.sent) +
              (if old(webSocketSession.isOpen) && SelectionEvent(c, FirstPane(tc).value.0).Some?
               then [SelectionEvent(c, FirstPane(tc).value.0).value] else [])))
      ensures var t := Track(old(currentTextComponent), old(selectionListeners), old(listeners.caret), tc, old(nextListener));
        currentTextComponent == t.current && selectionListeners == t.selection && listeners.caret == t.caret &&
        (webSocketSession != null ==>
           webSocketSession.isOpen == old(webSocketSession.isOpen) &&
           webSocketSession.sent == old(webSocketSession.sent) + (if old(webSocketSession.isOpen) then t.events else []))
    {
      var first := FirstPane(tc);
      if first.None? {
        return;
      }
      var node := first.value.0;
      var pane := first.value.1;
      if pane.None? {
        if currentTextComponent.Some? {
          ForgetCurrent();
          currentTextComponent := None;
        }
        return;
      }
      var textComponent := pane.value;
      if currentTextComponent == Some(textComponent.id) {
        return;
      }
      if currentTextComponent.Some? {
        ForgetCurrent();
      }
      currentTextComponent := Some(textComponent.id);
      var listener := nextListener;
      nextListener := nextListener + 1;
      listeners.caret := listeners.caret + {(textComponent.id, listener)};
      selectionListeners := selectionListeners[textComponent.id := listener];
      SendSelectionChangeEvent(textComponent, node);
    }

    /**
     * startSelectionTracking: registers a new registry listener (without
     * removing any earlier one) and tracks the activated tab, if any.
     */
    method StartSelectionTracking(activated: Option<Tab>)
      requires Valid()
      modifies this, listeners, webSocketSession
      ensures Valid()
      ensures webSocketSession == old(webSocketSession) && nextListener > old(nextListener)
      ensures topComponentListener == Some(old(nextListener))
      ensures listeners.registry == old(listeners.registry) + [old(nextListener)]
      ensures activated.None? ==>
        currentTextComponent == old(currentTextComponent) && selectionListeners == old(selectionListeners) &&
        listeners.caret == old(listeners.caret)
      ensures activated.Some? && FirstPane(activated.value).Some? && FirstPane(activated.value).value.1.Some? ==>
        currentTextComponent == Some(FirstPane(activated.value).value.1.value.id)
      ensures activated.Some? && FirstPane(activated.value).Some? && FirstPane(activated.value).value.1.Some? &&
              old(currentTextComponent) != Some(FirstPane(activated.value).value.1.value.id) ==>
        var (node, pane) := FirstPane(activated.value).value;
        var removed := if old(currentTextComponent).Some?
                       then Registrations(old(selectionListeners), {old(currentTextComponent).value}) else {};
        selectionListeners == map[pane.value.id := old(nextListener) + 1] &&
        listeners.caret == old(listeners.caret) - removed + {(pane.value.id, old(nextListener) + 1)} &&
        (webSocketSession != null ==>
           (webSocketSession.sent ==
              old(webSocketSession.sent) +
              (if old(webSocketSession.isOpen) && SelectionEvent(pane.value, node).Some?
               then [SelectionEvent(pane.value, node).value] else [])))
      ensures activated.Some? && FirstPane(activated.value).Some? && FirstPane(activated.value).value.1.None? ==>
        currentTextComponent.None? &&
        (old(currentTextComponent).Some? ==> selectionListeners == map[]) &&
        (webSocketSession != null ==> webSocketSession.sent == old(webSocketSession.sent))
      ensures activated.Some? && FirstPane(activated.value).None? ==>
        currentTextComponent == old(currentTextComponent) && selectionListeners == old(selectionListeners) &&
        listeners.caret == old(listeners.caret)
      ensures activated.Some? ==>
        var t := Track(old(currentTextComponent), old(selectionListeners), old(listeners.caret), activated.value, old(nextListener) + 1);
        currentTextComponent == t.current && selectionListeners == t.selection && listeners.caret == t.caret &&
        (webSocketSession != null ==>
           webSocketSession.isOpen == old(webSocketSession.isOpen) &&
           webSocketSession.sent == old(webSocketSession.sent) + (if old(webSocketSession.isOpen) then t.events else []))
      ensures activated.None? && webSocketSession != null ==> webSocketSession.sent == old(webSocketSession.sent)
    {
      var listener := nextListener;
      nextListener := nextListener + 1;
      topComponentListener := Some(listener);
      listeners.registry := listeners.registry + [listener];
      if activated.Some? {
        TrackEditorSelection(activated.value);
      }
    }

    /**
     * stopSelectionTracking: the registry listener and every caret listener
     * are removed, the map is emptied and no component is current.
     */
    method StopSelectionTracking()
      requires Valid()
      modifies this, listeners
      ensures Valid()
      ensures webSocketSession == old(webSocketSession)
      ensures topComponentListener.None? && currentTextComponent.None? && selectionListeners == map[]
      ensures listeners.registry ==
        if old(topComponentListener).Some? then Unregistered(old(listeners.registry), old(topComponentListener).value)
        else old(listeners.registry)
      ensures listeners.caret == old(listeners.caret) - Registrations(old(selectionListeners), old(selectionListeners).Keys)
    {
      if topComponentListener.Some? {
        listeners.registry := Unregistered(listeners.registry, topComponentListener.value);
        topComponentListener := None;
      }
      var keys := selectionListeners.Keys;
      while keys != {}
        invariant keys <= selectionListeners.Keys
        invariant selectionListeners == old(selectionListeners)
        invariant listeners.caret == old(listeners.caret) - Registrations(selectionListeners, selectionListeners.Keys - keys)
        invariant topComponentListener.None? && webSocketSession == old(webSocketSession)
        invariant listeners.registry ==
          if old(topComponentListener).Some? then Unregistered(old(listeners.registry), old(topComponentListener).value)
          else old(listeners.registry)
        decreases keys
      {
        var k :| k in keys;
        var done := selectionListeners.Keys - keys;
        listeners.caret := listeners.caret - {(k, selectionListeners[k])};
        keys := keys - {k};
        assert Registrations(selectionListeners, done) + {(k, selectionListeners[k])} ==
               Registrations(selectionListeners, selectionListeners.Keys - keys);
      }
      selectionListeners := map[];
      currentTextComponent := None;
    }

    /** setWebSocketSession: keeps the session and starts tracking, or stops it for null. */
    method SetWebSocketSession(session: Session?, activated: Option<Tab>)
      requires Valid()
      modifies this, listeners, session
      ensures Valid()
      ensures webSocketSession == session
      ensures session != null ==> topComponentListener == Some(old(nextListener)) &&
                                  listeners.registry == old(listeners.registry) + [old(nextListener)]
      ensures session == null ==> topComponentListener.None? && currentTextComponent.None? && selectionListeners == map[]
      ensures session == null ==>
        listeners.registry ==
          (if old(topComponentListener).Some? then Unregistered(old(listeners.registry), old(topComponentListener).value)
           else old(listeners.registry)) &&
        listeners.caret == old(listeners.caret) - Registrations(old(selectionListeners), old(selectionListeners).Keys)
      ensures session != null && activated.None? ==>
        currentTextComponent == old(currentTextComponent) && selectionListeners == old(selectionListeners) &&
        listeners.caret == old(listeners.caret) && session.sent == old(session.sent)
      ensures session != null && activated.Some? ==>
        var t := Track(old(currentTextComponent), old(selectionListeners), old(listeners.caret), activated.value, old(nextListener) + 1);
        currentTextComponent == t.current && selectionListeners == t.selection && listeners.caret == t.caret &&
        session.isOpen == old(session.isOpen) &&
        session.sent == old(session.sent) + (if old(session.isOpen) then t.events else [])
    {
      webSocketSession := session;
      if session != null {
        StartSelectionTracking(activated);
      } else {
        StopSelectionTracking();
      }
    }

    /** The registry listener's reaction to PROP_ACTIVATED: track the newly activated tab, if any. */
    method ActivatedChanged(activated: Option<Tab>)
      requires Valid()
      modifies this, listeners, webSocketSession
      ensures Valid()
      ensures webSocketSession == old(webSocketSession) && topComponentListener == old(topComponentListener)
      ensures activated.None? ==>
        currentTextComponent == old(currentTextComponent) && selectionListeners == old(selectionListeners) &&
        listeners.caret == old(listeners.caret)
      ensures activated.Some? && FirstPane(activated.value).Some? && FirstPane(activated.value).value.1.Some? ==>
        currentTextComponent == Some(FirstPane(activated.value).value.1.value.id)
      ensures activated.None? ==> webSocketSession != null ==> webSocketSession.sent == old(webSocketSession.sent)
      ensures activated.Some? ==>
        var t := Track(old(currentTextComponent), old(selectionListeners), old(listeners.caret), activated.value, old(nextListener));
        currentTextComponent == t.current && selectionListeners == t.selection && listeners.caret == t.caret &&
        (webSocketSession != null ==>
           webSocketSession.sent == old(webSocketSession.sent) + (if old(webSocketSession.isOpen) then t.events else []))
    {
      if activated.Some? {
        TrackEditorSelection(activated.value);
      }
    }

    /** sendInitializedNotification: only on a session that is there and open. */
    method SendInitializedNotification()
      modifies webSocketSession
      ensures webSocketSession != null ==> webSocketSession.isOpen == old(webSocketSession.isOpen)
      ensures webSocketSession != null ==>
        (webSocketSession.sent ==
           old(webSocketSession.sent) + (if old(webSocketSession.isOpen) then [InitializedNotification] else []))
    {
      if webSocketSession != null && webSocketSession.isOpen {
        webSocketSession.Send(InitializedNotification);
      }
    }

    /**
     * handleMessage on the live handler: the response is computed against
     * the registry's open tabs, the registry keeps the tabs the call leaves
     * open, and an initialize writes its notification to the session before
     * the response is handed back.
     */
    method HandleMessage(msg: Json, ide: Ide, ser: Serializer, windows: Registry)
      returns (response: Json, ghost h: NetBeansMCPHandler.Handled)
      modifies windows, webSocketSession
      ensures h == dispatch(msg, ide.(tabs := old(windows.openTabs)), ser)
      ensures response == h.response && windows.openTabs == h.tabs &&
        (webSocketSession != null ==>
           webSocketSession.isOpen == old(webSocketSession.isOpen) &&
           webSocketSession.sent == old(webSocketSession.sent) +
             (if h.initialized && old(webSocketSession.isOpen) then [InitializedNotification] else []))
    {
      var handled := dispatch(msg, ide.(tabs := windows.openTabs), ser);
      h := handled;
      windows.openTabs := handled.tabs;
      if handled.initialized {
        SendInitializedNotification();
      }
      response := handled.response;
    }

    /**
     * handleMessage with the notification handed back instead of written:
     * the same response and tabs, and the notification the caller is to send
     * after the response.
     */
    method HandleMessageDeferred(msg: Json, ide: Ide, ser: Serializer, windows: Registry)
      returns (response: Json, notification: Option<Json>, ghost h: NetBeansMCPHandler.Handled)
      modifies windows
      ensures h == dispatch(msg, ide.(tabs := old(windows.openTabs)), ser)
      ensures response == h.response && windows.openTabs == h.tabs &&
        notification == (if h.initialized then Some(InitializedNotification) else None)
    {
      var handled := dispatch(msg, ide.(tabs := windows.openTabs), ser);
      h := handled;
      windows.openTabs := handled.tabs;
      response := handled.response;
      notification := if handled.initialized then Some(InitializedNotification) else None;
    }
  }

  /**
   * A second start without a stop in between leaves the first registry
   * listener registered: stop then removes only the second.
   */
  method StartTwiceStopOnce(handler: Handler, activated: Option<Tab>)
    requires handler.Valid()
    requires handler.topComponentListener.None?
    requires handler.webSocketSession == null
    modifies handler, handler.listeners
    ensures handler.topComponentListener.None?
    ensures old(handler.nextListener) in handler.listeners.registry
  {
    handler.StartSelectionTracking(activated);
    var first := handler.topComponentListener.value;
    handler.StartSelectionTracking(activated);
    var second := handler.topComponentListener.value;
    assert first in handler.listeners.registry && first != second;
    handler.StopSelectionTracking();
  }
}
