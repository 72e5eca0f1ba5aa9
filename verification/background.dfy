/**
 * The extension's background script: one client per configured port, each
 * with a listener that runs the dispatcher and turns a thrown `Error` into
 * an error envelope for the request's correlation id.
 */
module Background {
  import opened Wrappers
  import opened JsonData
  import opened ExtensionMessages
  import opened MessageHandler
  import opened Sockets
  import opened Client

  /** What the listener did for one request: the browser calls made and the frame sent, if any. */
  datatype Reaction = Reaction(effects: seq<Effect>, sent: Option<Json>)

  /**
   * The listener registered by `initClient`: a reply is sent as a resource;
   * an `Error` thrown by the handler is sent as an error envelope carrying
   * the request's correlation id and the error's message; any other thrown
   * value is only logged. Sends do nothing unless the socket is OPEN.
   */
  function HandleRequest(client: WebsocketClient, browser: Browser, settings: Settings, incoming: Incoming): (r: Reaction)
    ensures r.effects == HandleDecodedMessage(browser, settings, incoming).effects
    ensures r.sent.Some? ==> IsState(client.socket, Open)
    ensures var outcome := HandleDecodedMessage(browser, settings, incoming).outcome;
      && (outcome.Raised? && outcome.thrown.ErrorObject? && IsState(client.socket, Open) ==>
            r.sent == Some(EncodeError(ExtensionError(incoming.CorrelationId(), outcome.thrown.message))))
      && (outcome.Replied? && IsState(client.socket, Open) ==>
            r.sent.Some? && DecodeMessage(r.sent.value) == Some(outcome.msg))
      && ((outcome.Raised? && !outcome.thrown.ErrorObject?) || outcome.Unhandled? ==> r.sent.None?)
  {
    var h := HandleDecodedMessage(browser, settings, incoming);
    match h.outcome
    case Replied(msg) => Reaction(h.effects, SendResourceToServer(client, msg))
    case Raised(ErrorObject(m)) => Reaction(h.effects, SendErrorToServer(client, incoming.CorrelationId(), m))
    case Raised(_) => Reaction(h.effects, None)
    case Unhandled => Reaction(h.effects, None)
  }

  /**
   * A frame arriving at a client: the client's "message" listener parses it
   * and passes it to the callback `initClient` registered, which hands it to
   * the dispatcher when it reads as a request. A frame that is dropped
   * unparsed, or does not read as a request, yields no reaction here.
   */
  function OnServerFrame(client: WebsocketClient, browser: Browser, settings: Settings, parsed: Option<Json>): (r: Option<Reaction>)
    ensures r.Some? <==> client.hasListener && parsed.Some? && ParseIncoming(parsed.value).Some?
    ensures r.Some? ==> r.value == HandleRequest(client, browser, settings, ParseIncoming(parsed.value).value)
  {
    match OnMessage(client, parsed)
    case None => None
    case Some(frame) =>
      match ParseIncoming(frame)
      case None => None
      case Some(incoming) => Some(HandleRequest(client, browser, settings, incoming))
  }

  /** `initClient`: a new client, connected, with the request listener registered. */
  function InitClient(port: int): (c: WebsocketClient)
    ensures c.port == port && c.hasListener
    ensures c.socket == Some(Socket(0, Connecting)) && c.reconnectTimer && c.intervals == 1
    ensures OneTimer(c)
  {
    AddMessageListener(Connect(NewClient(port)))
  }

  /**
   * The start-up loop: one client per configured port, in order (an empty
   * port list, which the source reports and leaves, creates none).
   */
  method InitClients(ports: seq<int>) returns (clients: seq<WebsocketClient>)
    ensures |clients| == |ports|
    ensures forall i :: 0 <= i < |ports| ==> clients[i] == InitClient(ports[i])
  {
    clients := [];
    for i := 0 to |ports|
      invariant |clients| == i
      invariant forall j :: 0 <= j < i ==> clients[j] == InitClient(ports[j])
    {
      clients := clients + [InitClient(ports[i])];
    }
  }
}
