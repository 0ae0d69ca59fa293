// The WebSocket service: the handler registry, the reconnect counter with
// its doubling delay, the send guard, and the choice between `ws:` and
// `wss:`. The socket itself, the timers and the handlers' bodies are outside
// the model: a handler is known by an identity, a timer by the delay it was
// set with, and the socket by its ready state.
module WebSocket {
  import opened Common

  /** A registered callback, known by its identity as a JavaScript `Set` knows it. */
  type HandlerId = nat

  /** `WebSocket.readyState`. */
  datatype ReadyState = Connecting | Open | Closing | Closed

  /** A message sent over the socket. */
  datatype WsMessage = WsMessage(msgType: string, channel: string)

  const MAX_RECONNECT_ATTEMPTS: nat := 5
  const RECONNECT_DELAY: nat := 1000

  function Pow2(k: nat): (r: nat)
    ensures r >= 1
  {
    if k == 0 then 1 else 2 * Pow2(k - 1)
  }

  /** The wait before reconnect attempt `attempt` (counting from 1): 1000 ms, doubling each time. */
  function ReconnectDelay(attempt: nat): (d: nat)
    requires attempt >= 1
    ensures d >= RECONNECT_DELAY
  {
    RECONNECT_DELAY * Pow2(attempt - 1)
  }

  /** Each wait is twice the one before, and the five allowed waits run from 1 to 16 seconds. */
  lemma ReconnectDelaySchedule(attempt: nat)
    requires 1 <= attempt <= MAX_RECONNECT_ATTEMPTS
    ensures 1000 <= ReconnectDelay(attempt) <= 16000
    ensures attempt > 1 ==> ReconnectDelay(attempt) == 2 * ReconnectDelay(attempt - 1)
  {
    assert Pow2(4) == 16;
    Pow2Monotone(attempt - 1, 4);
  }

  lemma {:induction false} Pow2Monotone(i: nat, j: nat)
    requires i <= j
    ensures Pow2(i) <= Pow2(j)
    decreases j - i
  {
    if i < j {
      Pow2Monotone(i + 1, j);
    }
  }

  /** The unsubscribe function `on` returns: it forgets `handler` for `event`. */
  datatype Unsubscriber = Unsubscriber(event: string, handler: HandlerId)

  class WebSocketService {
    /** The socket, when one was created and not yet dropped by `disconnect`. */
    var ws: Option<ReadyState>
    var reconnectAttempts: nat
    var handlers: map<string, set<HandlerId>>
    var token: Option<string>
    var url: string
    /** The address the current socket was opened with. */
    var socketUrl: string
    /** What has been sent over the socket, oldest first. */
    var sent: seq<WsMessage>

    /** The counter never passes its maximum. */
    predicate Valid()
      reads this
    {
      reconnectAttempts <= MAX_RECONNECT_ATTEMPTS
    }

    constructor ()
      ensures Valid()
      ensures ws.None? && reconnectAttempts == 0 && handlers == map[] && token.None? && url == "" && sent == []
    {
      ws := None;
      reconnectAttempts := 0;
      handlers := map[];
      token := None;
      url := "";
      socketUrl := "";
      sent := [];
    }

    /** The handlers registered for `event`. */
    function HandlersFor(event: string): (r: set<HandlerId>)
      reads this
      ensures event !in handlers ==> r == {}
      ensures event in handlers ==> r == handlers[event]
    {
      if event in handlers then handlers[event] else {}
    }

    /** `createConnection`: nothing without a URL and a token; otherwise a new socket on `url?token=…`. */
    method CreateConnection()
      modifies this
      ensures url == "" || token.None? || token == Some("") ==> ws == old(ws) && socketUrl == old(socketUrl)
      ensures url != "" && token.Some? && token.value != "" ==>
        ws == Some(Connecting) && socketUrl == url + "?token=" + token.value
      ensures url == old(url) && token == old(token) && handlers == old(handlers)
      ensures reconnectAttempts == old(reconnectAttempts) && sent == old(sent)
    {
      if url == "" || token.None? || token.value == "" {
        return;
      }
      socketUrl := url + "?token=" + token.value;
      ws := Some(Connecting);
    }

    /** `connect`: remember the address and the token, then open. */
    method Connect(newUrl: string, newToken: string)
      modifies this
      ensures url == newUrl && token == Some(newToken)
      ensures newUrl != "" && newToken != "" ==> ws == Some(Connecting) && socketUrl == newUrl + "?token=" + newToken
      ensures newUrl == "" || newToken == "" ==> ws == old(ws)
      ensures handlers == old(handlers) && reconnectAttempts == old(reconnectAttempts) && sent == old(sent)
    {
      url := newUrl;
      token := Some(newToken);
      CreateConnection();
    }

    /**
     * `emit`: every handler registered for `event` is called once, and no
     * other; one that throws is logged and the rest still run. `throws`
     * says which handlers throw on this call; `failed` are those logged.
     */
    method Emit(event: string, throws: HandlerId -> bool) returns (called: seq<HandlerId>, failed: set<HandlerId>)
      ensures forall h :: h in called <==> h in HandlersFor(event)
      ensures |called| == |HandlersFor(event)|
      ensures failed == set h | h in HandlersFor(event) && throws(h)
    {
      var all := HandlersFor(event);
      var remaining := all;
      called := [];
      failed := {};
      while remaining != {}
        invariant remaining <= all
        invariant forall h :: h in called <==> h in all - remaining
        invariant |called| + |remaining| == |all|
        invariant failed == set h | h in all - remaining && throws(h)
        decreases |remaining|
      {
        var h :| h in remaining;
        called := called + [h];
        if throws(h) {
          failed := failed + {h};
        }
        remaining := remaining - {h};
      }
    }

    /** `onopen`: the counter starts again from 0 and 'connection_established' is emitted. */
    method OnOpen(throws: HandlerId -> bool) returns (called: seq<HandlerId>)
      requires ws.Some?
      modifies this
      ensures ws == Some(Open) && reconnectAttempts == 0
      ensures forall h :: h in called <==> h in HandlersFor("connection_established")
      ensures handlers == old(handlers) && sent == old(sent) && url == old(url) && token == old(token)
      ensures Valid()
    {
      ws := Some(Open);
      reconnectAttempts := 0;
      var failed;
      called, failed := Emit("connection_established", throws);
    }

    /**
     * `onmessage`: the message's `type` names the event emitted; a message
     * that is not JSON (`None`) is only logged.
     */
    method OnMessage(parsedType: Option<string>, throws: HandlerId -> bool) returns (called: seq<HandlerId>)
      ensures parsedType.None? ==> called == []
      ensures parsedType.Some? ==> forall h :: h in called <==> h in HandlersFor(parsedType.value)
    {
      if parsedType.None? {
        return [];
      }
      var failed;
      called, failed := Emit(parsedType.value, throws);
    }

    /**
     * `attemptReconnect`: nothing once the maximum is reached; otherwise the
     * counter goes up and a new connection is scheduled after the returned
     * delay.
     */
    method AttemptReconnect() returns (delay: Option<nat>)
      requires Valid()
      modifies this
      ensures Valid()
      ensures old(reconnectAttempts) >= MAX_RECONNECT_ATTEMPTS ==> delay.None? && reconnectAttempts == old(reconnectAttempts)
      ensures old(reconnectAttempts) < MAX_RECONNECT_ATTEMPTS ==>
        && reconnectAttempts == old(reconnectAttempts) + 1
        && delay == Some(ReconnectDelay(reconnectAttempts))
      ensures ws == old(ws) && handlers == old(handlers) && sent == old(sent) && url == old(url) && token == old(token)
    {
      if reconnectAttempts >= MAX_RECONNECT_ATTEMPTS {
        return None;
      }
      reconnectAttempts := reconnectAttempts + 1;
      delay := Some(RECONNECT_DELAY * Pow2(reconnectAttempts - 1));
    }

    /**
     * `onclose`: 'connection_closed' is emitted, then a reconnect is
     * attempted. The handler stays attached to the socket after `disconnect`
     * drops it, so it also runs when the service no longer holds a socket.
     */
    method OnClose(throws: HandlerId -> bool) returns (called: seq<HandlerId>, delay: Option<nat>)
      requires Valid()
      modifies this
      ensures Valid()
      ensures old(ws).Some? ==> ws == Some(Closed)
      ensures old(ws).None? ==> ws.None?
      ensures forall h :: h in called <==> h in old(HandlersFor("connection_closed"))
      ensures old(reconnectAttempts) < MAX_RECONNECT_ATTEMPTS <==> delay.Some?
      ensures delay.Some? ==> reconnectAttempts == old(reconnectAttempts) + 1 && delay.value == ReconnectDelay(reconnectAttempts)
      ensures handlers == old(handlers) && sent == old(sent) && url == old(url) && token == old(token)
    {
      if ws.Some? {
        ws := Some(Closed);
      }
      var failed;
      called, failed := Emit("connection_closed", throws);
      delay := AttemptReconnect();
    }

    /**
     * `disconnect` as written: the socket is closed and dropped and every
     * handler is forgotten, but the address, the token and the attempt
     * counter are kept, so the dropped socket's `onclose` still reconnects.
     */
    method DisconnectAsWritten()
      modifies this
      ensures ws.None? && handlers == map[]
      ensures reconnectAttempts == old(reconnectAttempts) && sent == old(sent) && url == old(url) && token == old(token)
    {
      ws := None;
      handlers := map[];
    }

    /**
     * `disconnect` as intended: the socket is closed and dropped, every
     * handler is forgotten, and the attempt counter is spent, so the closing
     * socket's `onclose` schedules no reconnect. Only a later `onopen` resets
     * the counter: `connect` leaves it spent, so after a fresh `connect` a
     * socket that closes before it ever opens is not retried
     * (`NoRetryBeforeFirstOpen`).
     */
    method Disconnect()
      modifies this
      ensures Valid()
      ensures ws.None? && handlers == map[] && reconnectAttempts == MAX_RECONNECT_ATTEMPTS
      ensures sent == old(sent) && url == old(url) && token == old(token)
    {
      ws := None;
      handlers := map[];
      reconnectAttempts := MAX_RECONNECT_ATTEMPTS;
    }

    /** `isConnected`: there is a socket and it is open. */
    function IsConnected(): (r: bool)
      reads this
      ensures r <==> ws == Some(Open)
    {
      ws.Some? && ws.value == Open
    }

    /** `send`: the message goes out only over an open socket; otherwise it is only logged. */
    method Send(msg: WsMessage) returns (delivered: bool)
      modifies this
      ensures delivered <==> old(IsConnected())
      ensures delivered ==> sent == old(sent) + [msg]
      ensures !delivered ==> sent == old(sent)
      ensures ws == old(ws) && handlers == old(handlers) && reconnectAttempts == old(reconnectAttempts)
    {
      if ws.Some? && ws.value == Open {
        sent := sent + [msg];
        return true;
      }
      return false;
    }

    /** `subscribe`: send `{type: 'subscribe', channel}`. */
    method Subscribe(channel: string) returns (delivered: bool)
      modifies this
      ensures delivered <==> old(IsConnected())
      ensures delivered ==> sent == old(sent) + [WsMessage("subscribe", channel)]
      ensures !delivered ==> sent == old(sent)
      ensures ws == old(ws) && handlers == old(handlers)
    {
      delivered := Send(WsMessage("subscribe", channel));
    }

    /** `unsubscribe`: send `{type: 'unsubscribe', channel}`. */
    method Unsubscribe(channel: string) returns (delivered: bool)
      modifies this
      ensures delivered <==> old(IsConnected())
      ensures delivered ==> sent == old(sent) + [WsMessage("unsubscribe", channel)]
      ensures !delivered ==> sent == old(sent)
      ensures ws == old(ws) && handlers == old(handlers)
    {
      delivered := Send(WsMessage("unsubscribe", channel));
    }

    /** `on`: `handler` is registered for `event` (once, however often it is added); the result undoes exactly that. */
    method On(event: string, handler: HandlerId) returns (unsubscribe: Unsubscriber)
      modifies this
      ensures handlers == old(handlers)[event := old(HandlersFor(event)) + {handler}]
      ensures unsubscribe == Unsubscriber(event, handler)
      ensures ws == old(ws) && sent == old(sent) && reconnectAttempts == old(reconnectAttempts)
    {
      if event !in handlers {
        handlers := handlers[event := {}];
      }
      handlers := handlers[event := handlers[event] + {handler}];
      unsubscribe := Unsubscriber(event, handler);
    }

    /** `off`: `handler` is no longer registered for `event`; every other registration stays. */
    method Off(event: string, handler: HandlerId)
      modifies this
      ensures event in old(handlers) ==> handlers == old(handlers)[event := old(handlers)[event] - {handler}]
      ensures event !in old(handlers) ==> handlers == old(handlers)
      ensures ws == old(ws) && sent == old(sent) && reconnectAttempts == old(reconnectAttempts)
    {
      if event in handlers {
        handlers := handlers[event := handlers[event] - {handler}];
      }
    }

    /** Calling the function `on` returned. */
    method RunUnsubscriber(u: Unsubscriber)
      modifies this
      ensures u.event in old(handlers) ==> handlers == old(handlers)[u.event := old(handlers)[u.event] - {u.handler}]
      ensures u.event !in old(handlers) ==> handlers == old(handlers)
      ensures ws == old(ws) && sent == old(sent) && reconnectAttempts == old(reconnectAttempts)
    {
      Off(u.event, u.handler);
    }
  }

  /** Registering a handler and calling the returned function leaves the event's other handlers as they were. */
  method OnThenUnsubscribe(s: WebSocketService, event: string, handler: HandlerId)
    modifies s
    ensures s.HandlersFor(event) == old(s.HandlersFor(event)) - {handler}
    ensures forall e :: e != event ==> s.HandlersFor(e) == old(s.HandlersFor(e))
  {
    var u := s.On(event, handler);
    s.RunUnsubscriber(u);
  }

  /** A service that keeps failing reconnects five times, with waits of 1, 2, 4, 8 and 16 seconds, and then stops. */
  method ReconnectUntilExhausted(s: WebSocketService) returns (delays: seq<nat>)
    requires s.Valid() && s.reconnectAttempts == 0
    modifies s
    ensures delays == [1000, 2000, 4000, 8000, 16000]
    ensures s.reconnectAttempts == MAX_RECONNECT_ATTEMPTS
  {
    delays := [];
    var i := 0;
    while i < MAX_RECONNECT_ATTEMPTS
      invariant 0 <= i <= MAX_RECONNECT_ATTEMPTS
      invariant s.Valid() && s.reconnectAttempts == i
      invariant delays == [1000, 2000, 4000, 8000, 16000][..i]
    {
      var d := s.AttemptReconnect();
      assert Pow2(i) == [1, 2, 4, 8, 16][i];
      delays := delays + [d.value];
      i := i + 1;
    }
    var last := s.AttemptReconnect();
    assert last.None?;
  }

  /**
   * The source as written: after `disconnect`, the dropped socket's close
   * event schedules a reconnect, and when the timer fires a new socket is
   * opened on the old address with the old token.
   */
  method ReconnectAfterDisconnectAsWritten(s: WebSocketService) returns (delay: Option<nat>)
    requires s.Valid() && s.reconnectAttempts < MAX_RECONNECT_ATTEMPTS
    requires s.url != "" && s.token.Some? && s.token.value != ""
    modifies s
    ensures delay.Some?
    ensures s.ws == Some(Connecting) && s.socketUrl == old(s.url) + "?token=" + old(s.token.value)
  {
    s.DisconnectAsWritten();
    var called;
    called, delay := s.OnClose(_ => false);
    s.CreateConnection();
  }

  /** With the intended `disconnect`, the close event that follows schedules no reconnect and no socket remains. */
  method NoReconnectAfterDisconnect(s: WebSocketService) returns (delay: Option<nat>)
    modifies s
    ensures delay.None?
    ensures s.ws.None? && s.handlers == map[]
  {
    s.Disconnect();
    var called;
    called, delay := s.OnClose(_ => false);
  }

  // ---------------------------------------------------------------------
  // Address
  // ---------------------------------------------------------------------

  /**
   * The host `getWebSocketUrl` uses: the configured WebSocket host, else
   * the host of the configured API URL (`hostOf` parses it; `None` is a URL
   * that does not parse), else the page's own host.
   */
  function WsHost(wsHostEnv: string, apiUrl: string, hostOf: string -> Option<string>, pageHost: string): (r: string)
    ensures wsHostEnv != "" ==> r == wsHostEnv
    ensures wsHostEnv == "" && (apiUrl == "" || hostOf(apiUrl).None?) ==> r == pageHost
    ensures wsHostEnv == "" && apiUrl != "" && hostOf(apiUrl).Some? ==> r == hostOf(apiUrl).value
  {
    if wsHostEnv != "" then wsHostEnv
    else if apiUrl != "" then (match hostOf(apiUrl) case Some(h) => h case None => pageHost)
    else pageHost
  }

  /** The connection is secure for Railway and Vercel hosts and for pages served over https. */
  predicate IsSecure(host: string, pageProtocol: string)
  {
    Includes(host, "railway.app") || Includes(host, "vercel.app") || pageProtocol == "https:"
  }

  /** `getWebSocketUrl`: the protocol, '//', the host and the path. */
  function WebSocketUrl(path: string, host: string, pageProtocol: string): (r: string)
    ensures StartsWith(r, "wss://") <==> IsSecure(host, pageProtocol)
    ensures StartsWith(r, "ws://") <==> !IsSecure(host, pageProtocol)
    ensures IsSecure(host, pageProtocol) ==> r[6..] == host + path
    ensures !IsSecure(host, pageProtocol) ==> r[5..] == host + path
  {
    var protocol := if IsSecure(host, pageProtocol) then "wss:" else "ws:";
    var r := protocol + "//" + host + path;
    assert r == protocol + "//" + (host + path);
    assert r[2] == (if IsSecure(host, pageProtocol) then 's' else ':');
    assert r[..|protocol| + 2] == protocol + "//";
    r
  }

  // ---------------------------------------------------------------------
  // The shared services
  // ---------------------------------------------------------------------

  /**
   * `initializeWebSockets`: the notification and dashboard services connect
   * to their paths on the WebSocket host with the same token; their handlers
   * are kept.
   */
  method InitializeWebSockets(notificationWS: WebSocketService, dashboardWS: WebSocketService,
                              host: string, pageProtocol: string, token: string)
    requires notificationWS != dashboardWS
    modifies notificationWS, dashboardWS
    ensures notificationWS.url == WebSocketUrl("/ws/notifications/", host, pageProtocol)
    ensures dashboardWS.url == WebSocketUrl("/ws/dashboard/", host, pageProtocol)
    ensures notificationWS.token == Some(token) && dashboardWS.token == Some(token)
    ensures token != "" ==> notificationWS.ws == Some(Connecting) && dashboardWS.ws == Some(Connecting)
    ensures token != "" ==> notificationWS.socketUrl == notificationWS.url + "?token=" + token
    ensures token == "" ==> notificationWS.ws == old(notificationWS.ws) && dashboardWS.ws == old(dashboardWS.ws)
    ensures notificationWS.handlers == old(notificationWS.handlers) && dashboardWS.handlers == old(dashboardWS.handlers)
  {
    var notificationsUrl := WebSocketUrl("/ws/notifications/", host, pageProtocol);
    var dashboardUrl := WebSocketUrl("/ws/dashboard/", host, pageProtocol);
    assert notificationsUrl != "" && dashboardUrl != "" by {
      assert StartsWith(notificationsUrl, "wss://") || StartsWith(notificationsUrl, "ws://");
      assert StartsWith(dashboardUrl, "wss://") || StartsWith(dashboardUrl, "ws://");
    }
    notificationWS.Connect(notificationsUrl, token);
    dashboardWS.Connect(dashboardUrl, token);
  }

  /**
   * `disconnectWebSockets` as written: all three services drop their sockets
   * and forget their handlers through the shipped `disconnect`, so each keeps
   * its address, its token and its attempt counter.
   */
  method DisconnectWebSocketsAsWritten(notificationWS: WebSocketService, chatWS: WebSocketService, dashboardWS: WebSocketService)
    modifies notificationWS, chatWS, dashboardWS
    ensures notificationWS.ws.None? && chatWS.ws.None? && dashboardWS.ws.None?
    ensures notificationWS.handlers == map[] && chatWS.handlers == map[] && dashboardWS.handlers == map[]
    ensures notificationWS.reconnectAttempts == old(notificationWS.reconnectAttempts)
    ensures chatWS.reconnectAttempts == old(chatWS.reconnectAttempts)
    ensures dashboardWS.reconnectAttempts == old(dashboardWS.reconnectAttempts)
    ensures notificationWS.url == old(notificationWS.url) && notificationWS.token == old(notificationWS.token)
    ensures chatWS.url == old(chatWS.url) && chatWS.token == old(chatWS.token)
    ensures dashboardWS.url == old(dashboardWS.url) && dashboardWS.token == old(dashboardWS.token)
  {
    notificationWS.DisconnectAsWritten();
    chatWS.DisconnectAsWritten();
    dashboardWS.DisconnectAsWritten();
  }

  /**
   * The source as written: after logging out through `disconnectWebSockets`,
   * the close event of each of the three dropped sockets still schedules a
   * reconnect, each after the delay its own counter gives.
   */
  method ReconnectAfterDisconnectWebSocketsAsWritten(notificationWS: WebSocketService, chatWS: WebSocketService, dashboardWS: WebSocketService)
    returns (delays: seq<Option<nat>>)
    requires notificationWS != chatWS && chatWS != dashboardWS && notificationWS != dashboardWS
    requires notificationWS.Valid() && chatWS.Valid() && dashboardWS.Valid()
    requires notificationWS.reconnectAttempts < MAX_RECONNECT_ATTEMPTS
    requires chatWS.reconnectAttempts < MAX_RECONNECT_ATTEMPTS
    requires dashboardWS.reconnectAttempts < MAX_RECONNECT_ATTEMPTS
    modifies notificationWS, chatWS, dashboardWS
    ensures |delays| == 3 && delays[0].Some? && delays[1].Some? && delays[2].Some?
    ensures delays[0].value == ReconnectDelay(old(notificationWS.reconnectAttempts) + 1)
    ensures delays[1].value == ReconnectDelay(old(chatWS.reconnectAttempts) + 1)
    ensures delays[2].value == ReconnectDelay(old(dashboardWS.reconnectAttempts) + 1)
  {
    DisconnectWebSocketsAsWritten(notificationWS, chatWS, dashboardWS);
    var called0, d0 := notificationWS.OnClose(_ => false);
    var called1, d1 := chatWS.OnClose(_ => false);
    var called2, d2 := dashboardWS.OnClose(_ => false);
    delays := [d0, d1, d2];
  }

  /**
   * `disconnectWebSockets` with the intended `disconnect`: all three
   * services drop their sockets, forget their handlers and spend their
   * attempt counters. The shipped function keeps the counters
   * (`DisconnectWebSocketsAsWritten`).
   */
  method DisconnectWebSocketsIntended(notificationWS: WebSocketService, chatWS: WebSocketService, dashboardWS: WebSocketService)
    modifies notificationWS, chatWS, dashboardWS
    ensures notificationWS.ws.None? && chatWS.ws.None? && dashboardWS.ws.None?
    ensures notificationWS.handlers == map[] && chatWS.handlers == map[] && dashboardWS.handlers == map[]
    ensures notificationWS.sent == old(notificationWS.sent) && chatWS.sent == old(chatWS.sent)
    ensures dashboardWS.sent == old(dashboardWS.sent)
    ensures notificationWS.reconnectAttempts == MAX_RECONNECT_ATTEMPTS && chatWS.reconnectAttempts == MAX_RECONNECT_ATTEMPTS
    ensures dashboardWS.reconnectAttempts == MAX_RECONNECT_ATTEMPTS
  {
    notificationWS.Disconnect();
    chatWS.Disconnect();
    dashboardWS.Disconnect();
  }

  /** With the intended `disconnectWebSockets`, none of the three closing sockets schedules a reconnect. */
  method NoReconnectAfterDisconnectWebSockets(notificationWS: WebSocketService, chatWS: WebSocketService, dashboardWS: WebSocketService)
    returns (delays: seq<Option<nat>>)
    requires notificationWS != chatWS && chatWS != dashboardWS && notificationWS != dashboardWS
    modifies notificationWS, chatWS, dashboardWS
    ensures |delays| == 3 && delays[0].None? && delays[1].None? && delays[2].None?
    ensures notificationWS.ws.None? && chatWS.ws.None? && dashboardWS.ws.None?
  {
    DisconnectWebSocketsIntended(notificationWS, chatWS, dashboardWS);
    var called0, d0 := notificationWS.OnClose(_ => false);
    var called1, d1 := chatWS.OnClose(_ => false);
    var called2, d2 := dashboardWS.OnClose(_ => false);
    delays := [d0, d1, d2];
  }

  /**
   * The limit of the intended `disconnect`: after it, a fresh `connect`
   * opens a socket, but if that socket closes before `onopen` has reset the
   * counter, no reconnect is scheduled.
   */
  method NoRetryBeforeFirstOpen(s: WebSocketService, newUrl: string, newToken: string) returns (delay: Option<nat>)
    requires newUrl != "" && newToken != ""
    modifies s
    ensures delay.None?
    ensures s.ws == Some(Closed)
  {
    s.Disconnect();
    s.Connect(newUrl, newToken);
    var called;
    called, delay := s.OnClose(_ => false);
  }
}
