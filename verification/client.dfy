/**
 * The extension's WebSocket client: one socket at a time, a reconnect timer
 * that ticks every two seconds, and sends that do nothing unless the socket
 * is open. Socket events and timer ticks are explicit events.
 */
module Client {
  import opened Wrappers
  import opened JsonData
  import opened Sockets
  import opened ExtensionMessages

  const ReconnectIntervalMs: int := 2000

  /** Ticks a socket may spend connecting before it is force-closed. */
  const MaxConnectingTicks: int := 2

  /**
   * `socket` is the current socket (`null` is `None`), `reconnectTimer`
   * whether the client holds an interval handle, `intervals` how many
   * reconnect intervals are live, and `nextSocket` the id the next socket
   * object will get.
   */
  datatype WebsocketClient = WebsocketClient(
    port: int,
    socket: Option<Socket>,
    reconnectTimer: bool,
    intervals: nat,
    connectionAttempts: int,
    hasListener: bool,
    nextSocket: nat)

  /** The constructor: no socket, no timer, no attempts, no listener. */
  function NewClient(port: int): (c: WebsocketClient)
    ensures c.port == port && c.socket.None? && !c.reconnectTimer && c.connectionAttempts == 0 && !c.hasListener
    ensures OneTimer(c)
  {
    WebsocketClient(port, None, false, 0, 0, false, 0)
  }

  /**
   * `connect`: a new socket in the CONNECTING state replaces the current
   * one (which is not closed), and the reconnect timer is started only if
   * none is running.
   */
  function Connect(c: WebsocketClient): (r: WebsocketClient)
    ensures r.socket == Some(Socket(c.nextSocket, Connecting))
    ensures r.reconnectTimer
    ensures r.intervals == if c.reconnectTimer then c.intervals else c.intervals + 1
    ensures r.connectionAttempts == c.connectionAttempts
    ensures r.port == c.port && r.hasListener == c.hasListener && r.nextSocket == c.nextSocket + 1
  {
    var c' := c.(socket := Some(Socket(c.nextSocket, Connecting)), nextSocket := c.nextSocket + 1);
    if c.reconnectTimer then c' else c'.(reconnectTimer := true, intervals := c.intervals + 1)
  }

  /** `addMessageListener`: registers the callback and changes nothing else. */
  function AddMessageListener(c: WebsocketClient): (r: WebsocketClient)
    ensures r.hasListener
    ensures r.(hasListener := c.hasListener) == c
  {
    c.(hasListener := true)
  }

  predicate IsState(s: Option<Socket>, state: ReadyState) {
    s.Some? && s.value.state == state
  }

  /**
   * One tick of the reconnect interval: a CONNECTING socket counts an
   * attempt and is closed (entering CLOSING) once the count exceeds 2; then
   * a missing or CLOSED socket is replaced by a new connection.
   */
  function Tick(c: WebsocketClient): (r: WebsocketClient)
    ensures IsState(c.socket, Connecting) ==>
      && r.connectionAttempts == c.connectionAttempts + 1
      && r.socket.Some? && r.socket.value.id == c.socket.value.id
      && (r.socket.value.state == Closing <==> c.connectionAttempts + 1 > MaxConnectingTicks)
      && (r.socket.value.state == Connecting <==> c.connectionAttempts + 1 <= MaxConnectingTicks)
    ensures c.socket.None? || IsState(c.socket, Closed) ==>
      r == Connect(c) && r.socket == Some(Socket(c.nextSocket, Connecting))
    ensures IsState(c.socket, Open) || IsState(c.socket, Closing) ==> r == c
    ensures IsState(c.socket, Connecting) ==>
      r.(connectionAttempts := c.connectionAttempts, socket := c.socket) == c
    ensures r.port == c.port && r.hasListener == c.hasListener
  {
    var c1 :=
      if IsState(c.socket, Connecting) then
        var attempts := c.connectionAttempts + 1;
        if attempts > MaxConnectingTicks then
          c.(connectionAttempts := attempts, socket := Some(Socket(c.socket.value.id, Closing)))
        else c.(connectionAttempts := attempts)
      else c;
    if c1.socket.None? || IsState(c1.socket, Closed) then Connect(c1) else c1
  }

  /** The "open" listener of socket `id`: resets the attempt count; the current socket becomes OPEN. */
  function OnOpen(c: WebsocketClient, id: nat): (r: WebsocketClient)
    requires id < c.nextSocket
    ensures r.connectionAttempts == 0
    ensures c.socket.Some? && c.socket.value.id == id ==> r.socket == Some(Socket(id, Open))
    ensures !(c.socket.Some? && c.socket.value.id == id) ==> r.socket == c.socket
    ensures r.(connectionAttempts := c.connectionAttempts, socket := c.socket) == c
  {
    var c' := c.(connectionAttempts := 0);
    if c.socket.Some? && c.socket.value.id == id then c'.(socket := Some(Socket(id, Open))) else c'
  }

  /** The "close" listener of socket `id`: resets the attempt count; the current socket becomes CLOSED. */
  function OnClose(c: WebsocketClient, id: nat): (r: WebsocketClient)
    requires id < c.nextSocket
    ensures r.connectionAttempts == 0
    ensures c.socket.Some? && c.socket.value.id == id ==> r.socket == Some(Socket(id, Closed))
    ensures !(c.socket.Some? && c.socket.value.id == id) ==> r.socket == c.socket
    ensures r.(connectionAttempts := c.connectionAttempts, socket := c.socket) == c
  {
    var c' := c.(connectionAttempts := 0);
    if c.socket.Some? && c.socket.value.id == id then c'.(socket := Some(Socket(id, Closed))) else c'
  }

  /** The closing handshake starts on socket `id` (no listener runs). */
  function OnClosing(c: WebsocketClient, id: nat): (r: WebsocketClient)
    ensures c.socket.Some? && c.socket.value.id == id ==> r.socket == Some(Socket(id, Closing))
    ensures r.(socket := c.socket) == c
  {
    if c.socket.Some? && c.socket.value.id == id then c.(socket := Some(Socket(id, Closing))) else c
  }

  /**
   * The "message" listener: with no callback registered the message is
   * dropped; a frame that fails to parse (`None`) is caught and logged;
   * otherwise the parsed value goes to the callback.
   */
  function OnMessage(c: WebsocketClient, parsed: Option<Json>): (delivered: Option<Json>)
    ensures delivered.Some? <==> c.hasListener && parsed.Some?
    ensures delivered.Some? ==> delivered == parsed
  {
    if !c.hasListener then None else parsed
  }

  /** `sendResourceToServer`: transmits the resource only when the socket is OPEN. */
  function SendResourceToServer(c: WebsocketClient, msg: ExtensionMessage): (sent: Option<Json>)
    ensures sent.Some? <==> IsState(c.socket, Open)
    ensures sent.Some? ==> DecodeMessage(sent.value) == Some(msg)
    ensures sent.Some? ==> sent.value == EncodeMessage(msg)
  {
    MessageRoundTrip(msg);
    if IsState(c.socket, Open) then Some(EncodeMessage(msg)) else None
  }

  /** `sendErrorToServer`: transmits exactly the id and message, only when the socket is OPEN. */
  function SendErrorToServer(c: WebsocketClient, correlationId: string, errorMessage: string): (sent: Option<Json>)
    ensures sent.Some? <==> IsState(c.socket, Open)
    ensures sent.Some? ==> sent.value == JObj(map["correlationId" := JStr(correlationId), "errorMessage" := JStr(errorMessage)])
  {
    if IsState(c.socket, Open) then Some(EncodeError(ExtensionError(correlationId, errorMessage))) else None
  }

  /** `disconnect`: clears the reconnect timer and closes and drops the socket. */
  function Disconnect(c: WebsocketClient): (r: WebsocketClient)
    ensures r.socket.None? && !r.reconnectTimer
    ensures r.intervals == if c.reconnectTimer && c.intervals > 0 then c.intervals - 1 else c.intervals
    ensures r.(socket := c.socket, reconnectTimer := c.reconnectTimer, intervals := c.intervals) == c
  {
    var c' := if c.reconnectTimer then c.(reconnectTimer := false, intervals := if c.intervals > 0 then c.intervals - 1 else 0) else c;
    c'.(socket := None)
  }

  // The client as a state machine.

  datatype Event =
    | ConnectCalled
    | TimerTick
    | Opened(id: nat)
    | ClosingStarted(id: nat)
    | ClosedEvent(id: nat)
    | DisconnectCalled

  /** One event; a tick needs a live interval, a socket event a socket this client created. */
  function Next(c: WebsocketClient, e: Event): WebsocketClient {
    match e
    case ConnectCalled => Connect(c)
    case TimerTick => if c.intervals > 0 then Tick(c) else c
    case Opened(id) => if id < c.nextSocket then OnOpen(c, id) else c
    case ClosingStarted(id) => OnClosing(c, id)
    case ClosedEvent(id) => if id < c.nextSocket then OnClose(c, id) else c
    case DisconnectCalled => Disconnect(c)
  }

  function Run(c: WebsocketClient, events: seq<Event>): WebsocketClient
    decreases |events|
  {
    if events == [] then c else Run(Next(c, events[0]), events[1..])
  }

  /** At most one reconnect interval is live, and exactly when the client holds its handle. */
  ghost predicate OneTimer(c: WebsocketClient) {
    c.intervals == (if c.reconnectTimer then 1 else 0)
    && (c.socket.Some? ==> c.socket.value.id < c.nextSocket)
  }

  lemma NextOneTimer(c: WebsocketClient, e: Event)
    requires OneTimer(c)
    ensures OneTimer(Next(c, e))
  {
  }

  lemma {:induction false} RunOneTimer(c: WebsocketClient, events: seq<Event>)
    requires OneTimer(c)
    ensures OneTimer(Run(c, events))
    decreases |events|
  {
    if events != [] {
      NextOneTimer(c, events[0]);
      RunOneTimer(Next(c, events[0]), events[1..]);
    }
  }

  /**
   * A started client keeps its port and its message callback through any
   * sequence of connects, ticks, socket events and disconnects: no
   * reconnect loses the dispatcher.
   */
  lemma {:induction false} RunKeepsDispatcher(c: WebsocketClient, events: seq<Event>)
    ensures Run(c, events).port == c.port && Run(c, events).hasListener == c.hasListener
    decreases |events|
  {
    if events != [] {
      RunKeepsDispatcher(Next(c, events[0]), events[1..]);
    }
  }

  /**
   * A socket stuck connecting from a fresh count survives two ticks and is
   * force-closed by the third; after its close event the next tick opens a
   * new connection.
   */
  lemma StuckSocketReplaced(c: WebsocketClient, id: nat)
    requires c.socket == Some(Socket(id, Connecting)) && c.connectionAttempts == 0
    requires id < c.nextSocket
    ensures var c2 := Tick(Tick(c));
      c2.socket == Some(Socket(id, Connecting)) && c2.connectionAttempts == 2
    ensures var c3 := Tick(Tick(Tick(c)));
      c3.socket == Some(Socket(id, Closing)) && c3.connectionAttempts == 3
    ensures var c4 := Tick(OnClose(Tick(Tick(Tick(c))), id));
      c4.socket == Some(Socket(c.nextSocket, Connecting)) && c4.connectionAttempts == 0
  {
  }
}
