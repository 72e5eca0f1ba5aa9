/**
 * The MCP server's side of the broker: a table from correlation id to the
 * resolver of the caller's promise, filled when a command is sent and emptied
 * when the matching resource or error envelope comes back.
 *
 * Promises are modelled by `futures`: each correlation id's promise is
 * `Waiting` until it is settled, and settling an already settled promise does
 * nothing, as in JavaScript. Every step is a pure function of the broker
 * state and one event of the single-threaded event loop.
 */
module BrowserApi {
  import opened Wrappers
  import opened JsonData
  import opened Sockets
  import opened ServerMessages
  import opened ExtensionMessages

  /** `EXTENSION_RESPONSE_TIMEOUT_MS`: 0 means no timeout, callers wait indefinitely. */
  const ResponseTimeoutMs: int := 0

  const NotOpenMessage: string := "WebSocket is not open"
  const TimeoutReason: string := "Timed out waiting for response"

  /**
   * The resource each per-command method of the server waits for: the one
   * reply kind fixed for each command.
   */
  function ExpectedKind(k: CommandKind): ResourceKind {
    match k
    case OpenTabKind => OpenedTabIdKind
    case CloseTabsKind => TabsClosedKind
    case GetTabListKind => TabsKind
    case GetBrowserRecentHistoryKind => HistoryKind
    case GetTabContentKind => TabContentKind
    case ReorderTabsKind => TabsReorderedKind
    case FindHighlightKind => FindHighlightResultKind
    case GroupTabsKind => NewTabGroupKind
    case ClickElementKind => ElementClickedKind
    case FillFormFieldKind => FormFieldFilledKind
    case ExecuteJavaScriptKind => JavascriptExecutedKind
    case MonitorPageChangesKind => PageChangesDetectedKind
    case ScreenshotWebsiteKind => ScreenshotSavedKind
    case SearchBookmarksKind => BookmarksFoundKind
    case OpenBookmarkKind => BookmarkOpenedKind
  }

  /** The command a resource kind answers. */
  function AnsweredCommand(r: ResourceKind): CommandKind {
    match r
    case OpenedTabIdKind => OpenTabKind
    case TabsClosedKind => CloseTabsKind
    case TabsKind => GetTabListKind
    case HistoryKind => GetBrowserRecentHistoryKind
    case TabContentKind => GetTabContentKind
    case TabsReorderedKind => ReorderTabsKind
    case FindHighlightResultKind => FindHighlightKind
    case NewTabGroupKind => GroupTabsKind
    case ElementClickedKind => ClickElementKind
    case FormFieldFilledKind => FillFormFieldKind
    case JavascriptExecutedKind => ExecuteJavaScriptKind
    case PageChangesDetectedKind => MonitorPageChangesKind
    case ScreenshotSavedKind => ScreenshotWebsiteKind
    case BookmarksFoundKind => SearchBookmarksKind
    case BookmarkOpenedKind => OpenBookmarkKind
  }

  /** The `resource` literal the server waits for after sending `c`. */
  function ExpectedResource(c: Command): string {
    ExpectedKind(c.Kind()).Literal()
  }

  /** `AnsweredCommand` undoes `ExpectedKind`. */
  lemma ExpectedKindInverse(k: CommandKind)
    ensures AnsweredCommand(ExpectedKind(k)) == k
  {
  }

  /** `ExpectedKind` undoes `AnsweredCommand`. */
  lemma AnsweredCommandInverse(r: ResourceKind)
    ensures ExpectedKind(AnsweredCommand(r)) == r
  {
  }

  /**
   * The command-to-resource table is a bijection between the fifteen
   * command kinds and the fifteen resource kinds: two commands wait for the
   * same resource literal exactly when they have the same `cmd` literal.
   */
  lemma ExpectedResourceBijective(c1: Command, c2: Command)
    ensures forall r: ResourceKind :: ExpectedKind(AnsweredCommand(r)) == r
    ensures ExpectedResource(c1) == ExpectedResource(c2) <==> c1.Name() == c2.Name()
  {
    forall r: ResourceKind ensures ExpectedKind(AnsweredCommand(r)) == r {
      AnsweredCommandInverse(r);
    }
    ResourceLiteralInjective(ExpectedKind(c1.Kind()), ExpectedKind(c2.Kind()));
    CommandLiteralInjective(c1.Kind(), c2.Kind());
    ExpectedKindInverse(c1.Kind());
    ExpectedKindInverse(c2.Kind());
  }

  /** The part of a pending entry the model observes: the resource it expects. */
  datatype Resolver = Resolver(resource: string)

  /** The state of a caller's promise. */
  datatype Future = Waiting | Fulfilled(value: Json) | Rejected(reason: Json)

  /**
   * `ws` is the current connection (`this.ws`), `pending` is
   * `extensionRequestMap`, `futures` the callers' promises by correlation id,
   * and `timers` the ids whose response timeout is armed.
   */
  datatype Broker = Broker(
    ws: Option<Socket>,
    pending: map<string, Resolver>,
    futures: map<string, Future>,
    timers: set<string>)

  /** Settling a promise: only the first settlement takes effect. */
  function Settle(f: Future, outcome: Future): (r: Future)
    requires !outcome.Waiting?
    ensures f.Waiting? ==> r == outcome
    ensures !f.Waiting? ==> r == f
  {
    if f.Waiting? then outcome else f
  }

  function SettleId(futures: map<string, Future>, id: string, outcome: Future): (r: map<string, Future>)
    requires !outcome.Waiting?
    ensures r.Keys == futures.Keys
    ensures forall k :: k in futures && k != id ==> r[k] == futures[k]
    ensures id in futures ==> r[id] == Settle(futures[id], outcome)
  {
    if id in futures then futures[id := Settle(futures[id], outcome)] else futures
  }

  predicate IsOpen(ws: Option<Socket>) {
    ws.Some? && ws.value.state == Open
  }

  /** What `sendMessageToExtension` transmits and returns. */
  datatype Sent = Sent(correlationId: string, frame: Json)

  /**
   * `sendMessageToExtension`: refuses with "WebSocket is not open" unless the
   * current connection is open; otherwise transmits the command with the
   * freshly generated correlation id and returns that id.
   */
  function SendMessageToExtension(b: Broker, c: Command, freshId: string): (r: Result<Sent>)
    ensures r.Err? <==> !IsOpen(b.ws)
    ensures r.Err? ==> r.message == NotOpenMessage
    ensures r.Ok? ==> r.value.correlationId == freshId
    ensures r.Ok? ==> DecodeRequest(r.value.frame) == Some(Request(c, freshId))
    ensures r.Ok? ==> r.value.frame.JObj? && r.value.frame.fields - {"correlationId"} == EncodeCommand(c)
  {
    if !IsOpen(b.ws) then Err(NotOpenMessage)
    else
      RequestRoundTrip(Request(c, freshId));
      var frame := EncodeRequest(Request(c, freshId));
      assert frame.fields - {"correlationId"} == EncodeCommand(c);
      Ok(Sent(freshId, frame))
  }

  /** Whether `waitForResponse` arms a timer for a configured timeout. */
  predicate TimerArmed(timeoutMs: int) {
    timeoutMs > 0
  }

  /**
   * `waitForResponse`: registers the resolver of a new promise under the
   * correlation id (replacing any entry already there, as `Map.set` does) and
   * arms the timeout only when the configured value is positive.
   */
  function WaitForResponse(b: Broker, id: string, resource: string, timeoutMs: int): (r: Broker)
    ensures r.ws == b.ws
    ensures r.pending.Keys == b.pending.Keys + {id}
    ensures r.pending[id].resource == resource
    ensures forall k :: k in b.pending && k != id ==> r.pending[k] == b.pending[k]
    ensures r.futures.Keys == b.futures.Keys + {id}
    ensures r.futures[id].Waiting?
    ensures forall k :: k in b.futures && k != id ==> r.futures[k] == b.futures[k]
    ensures r.timers == if TimerArmed(timeoutMs) then b.timers + {id} else b.timers
  {
    b.(pending := b.pending[id := Resolver(resource)],
       futures := b.futures[id := Waiting],
       timers := if TimerArmed(timeoutMs) then b.timers + {id} else b.timers)
  }

  /** A command call that got onto the wire: the new broker state, the id and the frame sent. */
  datatype Invocation = Invocation(broker: Broker, correlationId: string, frame: Json)

  /**
   * A per-command method of the server (`openTab`, `closeTabs`, ...): send the
   * command, then wait for the resource fixed for it, with the configured
   * (disabled) timeout.
   */
  function Invoke(b: Broker, c: Command, freshId: string): (r: Result<Invocation>)
    ensures r.Err? <==> !IsOpen(b.ws)
    ensures r.Err? ==> r.message == NotOpenMessage
    ensures r.Ok? ==> r.value.correlationId == freshId
    ensures r.Ok? ==> DecodeRequest(r.value.frame) == Some(Request(c, freshId))
    ensures r.Ok? ==> r.value.broker.pending.Keys == b.pending.Keys + {freshId}
    ensures r.Ok? ==> r.value.broker.pending[freshId] == Resolver(ExpectedResource(c))
    ensures r.Ok? ==> freshId in r.value.broker.futures && r.value.broker.futures[freshId] == Waiting
    ensures r.Ok? ==> r.value.broker.timers == b.timers
    ensures r.Ok? ==> r.value.broker.ws == b.ws
    ensures r.Ok? ==> r.value.broker.futures.Keys == b.futures.Keys + {freshId}
    ensures r.Ok? ==> forall k :: k in b.pending && k != freshId ==> r.value.broker.pending[k] == b.pending[k]
    ensures r.Ok? ==> forall k :: k in b.futures && k != freshId ==> r.value.broker.futures[k] == b.futures[k]
  {
    var sent :- SendMessageToExtension(b, c, freshId);
    var b' := WaitForResponse(b, sent.correlationId, ExpectedResource(c), ResponseTimeoutMs);
    Ok(Invocation(b', sent.correlationId, sent.frame))
  }

  /**
   * `isErrorMessage`: both `errorMessage` and `correlationId` are defined.
   * Reading a property of a string, number, boolean or array yields
   * `undefined`; `null` is handled by the caller, where it throws.
   */
  predicate IsErrorMessage(decoded: Json)
    ensures IsErrorMessage(decoded) ==> decoded.JObj?
    ensures decoded.JObj? ==>
      (IsErrorMessage(decoded) <==> "errorMessage" in decoded.fields && "correlationId" in decoded.fields)
  {
    Member(decoded, "errorMessage").Some? && Member(decoded, "correlationId").Some?
  }

  /** What a received frame did to the promises. */
  datatype Delivery =
    | Resolved(id: string, value: Json)
    | RejectedWith(id: string, reason: Json)
    | Mismatch(id: string, expected: string)
    | Threw

  /** The pending entry `extensionRequestMap.get(decoded.correlationId)` finds, if any. */
  function PendingKey(b: Broker, decoded: Json): (r: Option<string>)
    ensures r.Some? ==> r.value in b.pending
    ensures r.Some? ==> Member(decoded, "correlationId") == Some(JStr(r.value))
    ensures var m := Member(decoded, "correlationId");
      m.Some? && m.value.JStr? && m.value.s in b.pending ==> r == Some(m.value.s)
  {
    match Member(decoded, "correlationId")
    case Some(JStr(id)) => if id in b.pending then Some(id) else None
    case _ => None
  }

  /**
   * `handleExtensionError`: removes the pending entry and rejects its promise
   * with the envelope's `errorMessage`; with no entry `get` yields
   * `undefined`, whose destructuring throws a `TypeError`, leaving the state
   * as it was.
   */
  function HandleExtensionError(b: Broker, decoded: Json): (r: (Broker, Delivery))
    requires IsErrorMessage(decoded)
    ensures r.1.Threw? || r.1.RejectedWith?
    ensures r.1.Threw? <==> PendingKey(b, decoded).None?
    ensures r.1.Threw? ==> r.0 == b
    ensures r.1.RejectedWith? ==>
      && Member(decoded, "correlationId") == Some(JStr(r.1.id)) && r.1.id in b.pending
      && Some(r.1.reason) == Member(decoded, "errorMessage")
      && r.0.pending == b.pending - {r.1.id}
      && r.0.futures.Keys == b.futures.Keys
      && (forall k :: k in b.futures && k != r.1.id ==> r.0.futures[k] == b.futures[k])
      && (r.1.id in b.futures && b.futures[r.1.id].Waiting? ==> r.0.futures[r.1.id] == Rejected(r.1.reason))
    ensures r.0.ws == b.ws && r.0.timers == b.timers
  {
    match PendingKey(b, decoded)
    case None => (b, Threw)
    case Some(id) =>
      var reason := Member(decoded, "errorMessage").value;
      (b.(pending := b.pending - {id}, futures := SettleId(b.futures, id, Rejected(reason))),
       RejectedWith(id, reason))
  }

  /**
   * `handleDecodedExtensionMessage`: with no pending entry the destructuring
   * of `undefined` throws; when the
   * message's `resource` differs from the expected one it is ignored and the
   * entry kept; otherwise the entry is deleted and its promise resolved with
   * the whole message.
   */
  function HandleDecodedExtensionMessage(b: Broker, decoded: Json): (r: (Broker, Delivery))
    ensures r.1.Threw? || r.1.Mismatch? || r.1.Resolved?
    ensures r.1.Threw? <==> PendingKey(b, decoded).None?
    ensures r.1.Threw? || r.1.Mismatch? ==> r.0 == b
    ensures r.1.Mismatch? ==>
      && r.1.id in b.pending && r.1.expected == b.pending[r.1.id].resource
      && Member(decoded, "resource") != Some(JStr(r.1.expected))
    ensures r.1.Resolved? ==>
      && Member(decoded, "correlationId") == Some(JStr(r.1.id)) && r.1.id in b.pending
      && Member(decoded, "resource") == Some(JStr(b.pending[r.1.id].resource))
      && r.1.value == decoded
      && r.0.pending == b.pending - {r.1.id}
      && r.0.futures.Keys == b.futures.Keys
      && (forall k :: k in b.futures && k != r.1.id ==> r.0.futures[k] == b.futures[k])
      && (r.1.id in b.futures && b.futures[r.1.id].Waiting? ==> r.0.futures[r.1.id] == Fulfilled(decoded))
    ensures r.0.ws == b.ws && r.0.timers == b.timers
  {
    match PendingKey(b, decoded)
    case None => (b, Threw)
    case Some(id) =>
      var expected := b.pending[id].resource;
      if Member(decoded, "resource") != Some(JStr(expected)) then (b, Mismatch(id, expected))
      else
        (b.(pending := b.pending - {id}, futures := SettleId(b.futures, id, Fulfilled(decoded))),
         Resolved(id, decoded))
  }

  /**
   * The connection's "message" listener: error envelopes are routed first.
   * A frame for no pending entry throws and changes nothing; a resource of
   * the wrong kind is ignored and keeps its entry; otherwise exactly the
   * frame's own entry is removed and its promise settled.
   */
  function OnMessage(b: Broker, decoded: Json): (r: (Broker, Delivery))
    ensures r.1.Threw? <==> decoded.JNull? || PendingKey(b, decoded).None?
    ensures r.1.Threw? || r.1.Mismatch? ==> r.0 == b
    ensures r.1.Mismatch? ==> r.1.id in r.0.pending && !IsErrorMessage(decoded)
    ensures r.1.Mismatch? ==> Member(decoded, "resource") != Some(JStr(b.pending[r.1.id].resource))
    ensures r.1.RejectedWith? <==> !r.1.Threw? && IsErrorMessage(decoded)
    ensures r.1.RejectedWith? ==> Some(r.1.reason) == Member(decoded, "errorMessage")
    ensures r.1.Resolved? ==> r.1.value == decoded && !IsErrorMessage(decoded)
    ensures r.1.Resolved? ==> r.1.id in b.pending && Member(decoded, "resource") == Some(JStr(b.pending[r.1.id].resource))
    ensures r.1.Resolved? || r.1.RejectedWith? ==>
      && Member(decoded, "correlationId") == Some(JStr(r.1.id))
      && r.1.id in b.pending
      && r.0.pending == b.pending - {r.1.id}
      && r.0.futures.Keys == b.futures.Keys
      && (forall k :: k in b.futures && k != r.1.id ==> r.0.futures[k] == b.futures[k])
    ensures r.1.Resolved? && r.1.id in b.futures && b.futures[r.1.id].Waiting? ==> r.0.futures[r.1.id] == Fulfilled(decoded)
    ensures r.1.RejectedWith? && r.1.id in b.futures && b.futures[r.1.id].Waiting? ==> r.0.futures[r.1.id] == Rejected(r.1.reason)
    ensures r.0.ws == b.ws && r.0.timers == b.timers
  {
    if decoded.JNull? then (b, Threw)
    else if IsErrorMessage(decoded) then HandleExtensionError(b, decoded)
    else HandleDecodedExtensionMessage(b, decoded)
  }

  /**
   * The expiry of an armed response timer: deletes the entry and rejects the
   * promise (a no-op on a promise already settled). No timer, no effect.
   */
  function Expire(b: Broker, id: string): (r: Broker)
    ensures id !in b.timers ==> r == b
    ensures id in b.timers ==>
      && r.pending == b.pending - {id}
      && r.timers == b.timers - {id}
      && r.futures.Keys == b.futures.Keys
      && (forall k :: k in b.futures && k != id ==> r.futures[k] == b.futures[k])
      && (id in b.futures && b.futures[id].Waiting? ==> r.futures[id] == Rejected(JStr(TimeoutReason)))
      && (id in b.futures && !b.futures[id].Waiting? ==> r.futures[id] == b.futures[id])
    ensures r.ws == b.ws
  {
    if id !in b.timers then b
    else b.(pending := b.pending - {id},
            futures := SettleId(b.futures, id, Rejected(JStr(TimeoutReason))),
            timers := b.timers - {id})
  }

  /** The server's "connection" handler: the newest connection replaces `this.ws`. */
  function OnConnection(b: Broker, conn: nat): (r: Broker)
    ensures IsOpen(r.ws) && r.ws.value.id == conn
    ensures r.pending == b.pending && r.futures == b.futures && r.timers == b.timers
  {
    b.(ws := Some(Socket(conn, Open)))
  }

  /** The connection's `readyState` changes (the `ws` library's doing). */
  function OnStateChange(b: Broker, conn: nat, state: ReadyState): (r: Broker)
    ensures b.ws.Some? && b.ws.value.id == conn ==> r.ws == Some(Socket(conn, state))
    ensures !(b.ws.Some? && b.ws.value.id == conn) ==> r.ws == b.ws
    ensures r.pending == b.pending && r.futures == b.futures && r.timers == b.timers
  {
    if b.ws.Some? && b.ws.value.id == conn then b.(ws := Some(Socket(conn, state))) else b
  }

  /** The connection's "close" listener: only the current connection clears `this.ws`. */
  function OnClose(b: Broker, conn: nat): (r: Broker)
    ensures r.pending == b.pending && r.futures == b.futures && r.timers == b.timers
    ensures b.ws.Some? && b.ws.value.id == conn ==> r.ws.None?
    ensures !(b.ws.Some? && b.ws.value.id == conn) ==> r.ws == b.ws
  {
    if b.ws.Some? && b.ws.value.id == conn then b.(ws := None) else b
  }

  // The broker as a state machine.

  datatype Event =
    | Call(command: Command, freshId: string)
    | Message(decoded: Json)
    | Expiry(id: string)
    | Connection(conn: nat)
    | StateChange(conn: nat, state: ReadyState)
    | ConnectionClosed(conn: nat)

  /** One event of the event loop. A call that throws "WebSocket is not open" changes nothing. */
  function Next(b: Broker, e: Event): Broker {
    match e
    case Call(c, id) =>
      (match Invoke(b, c, id) case Ok(inv) => inv.broker case Err(_) => b)
    case Message(decoded) => OnMessage(b, decoded).0
    case Expiry(id) => Expire(b, id)
    case Connection(conn) => OnConnection(b, conn)
    case StateChange(conn, st) => OnStateChange(b, conn, st)
    case ConnectionClosed(conn) => OnClose(b, conn)
  }

  function Run(b: Broker, events: seq<Event>): Broker
    decreases |events|
  {
    if events == [] then b else Run(Next(b, events[0]), events[1..])
  }

  /**
   * The table invariant: a pending entry exists exactly while its caller's
   * promise is unsettled, and no response timer is armed (the timeout is
   * disabled).
   */
  ghost predicate Valid(b: Broker) {
    && b.pending.Keys <= b.futures.Keys
    && (forall id :: id in b.futures ==> (b.futures[id].Waiting? <==> id in b.pending))
    && b.timers == {}
  }

  /** The environment's side of id generation: a fresh id has never been used. */
  ghost predicate Fresh(b: Broker, e: Event) {
    e.Call? ==> e.freshId !in b.futures
  }

  ghost predicate FreshRun(b: Broker, events: seq<Event>)
    decreases |events|
  {
    events != [] ==> Fresh(b, events[0]) && FreshRun(Next(b, events[0]), events[1..])
  }

  lemma InitialValid()
    ensures Valid(Broker(None, map[], map[], {}))
  {
  }

  /** Every step keeps the table invariant. */
  lemma NextValid(b: Broker, e: Event)
    requires Valid(b) && Fresh(b, e)
    ensures Valid(Next(b, e))
  {
  }

  /** A settled promise is never settled again, by any step. */
  lemma NextKeepsSettled(b: Broker, e: Event, id: string)
    requires Fresh(b, e)
    requires id in b.futures && !b.futures[id].Waiting?
    ensures id in Next(b, e).futures && Next(b, e).futures[id] == b.futures[id]
  {
  }

  lemma {:induction false} RunValid(b: Broker, events: seq<Event>)
    requires Valid(b) && FreshRun(b, events)
    ensures Valid(Run(b, events))
    decreases |events|
  {
    if events != [] {
      NextValid(b, events[0]);
      RunValid(Next(b, events[0]), events[1..]);
    }
  }

  /** At most one settlement per correlation id over any run of events. */
  lemma {:induction false} RunKeepsSettled(b: Broker, events: seq<Event>, id: string)
    requires FreshRun(b, events)
    requires id in b.futures && !b.futures[id].Waiting?
    ensures id in Run(b, events).futures && Run(b, events).futures[id] == b.futures[id]
    decreases |events|
  {
    if events != [] {
      NextKeepsSettled(b, events[0], id);
      RunKeepsSettled(Next(b, events[0]), events[1..], id);
    }
  }

  // Properties of receiving.

  /**
   * At-most-once resolution: once a frame resolved or rejected a promise,
   * no later frame with the same correlation id can settle anything; it
   * finds no entry and throws.
   */
  lemma SettlesAtMostOnce(b: Broker, first: Json, later: Json)
    requires OnMessage(b, first).1.Resolved? || OnMessage(b, first).1.RejectedWith?
    requires !later.JNull?
    requires Member(later, "correlationId") == Member(first, "correlationId")
    ensures OnMessage(OnMessage(b, first).0, later) == (OnMessage(b, first).0, Threw)
  {
  }

  /**
   * A resource of the wrong kind never resolves the waiting promise: the
   * entry stays, the promise stays waiting, and a correctly typed frame
   * afterwards still resolves it.
   */
  lemma MismatchLeavesEntry(b: Broker, wrong: Json, right: Json)
    requires Valid(b)
    requires OnMessage(b, wrong).1.Mismatch?
    requires !right.JNull? && !IsErrorMessage(right)
    requires Member(right, "correlationId") == Member(wrong, "correlationId")
    requires Member(right, "resource") == Some(JStr(b.pending[OnMessage(b, wrong).1.id].resource))
    ensures var (b1, d1) := OnMessage(b, wrong);
      && b1.futures[d1.id] == Waiting
      && OnMessage(b1, right).1 == Resolved(d1.id, right)
      && OnMessage(b1, right).0.futures[d1.id] == Fulfilled(right)
  {
  }

  /** Error envelopes are routed before normal messages, even when they also carry a `resource`. */
  lemma ErrorEnvelopeFirst(b: Broker, decoded: Json, id: string, message: Json)
    requires Valid(b) && id in b.pending
    requires decoded.JObj? && "correlationId" in decoded.fields && "errorMessage" in decoded.fields
    requires decoded.fields["correlationId"] == JStr(id) && decoded.fields["errorMessage"] == message
    ensures OnMessage(b, decoded).1 == RejectedWith(id, message)
    ensures OnMessage(b, decoded).0.futures[id] == Rejected(message)
    ensures id !in OnMessage(b, decoded).0.pending
  {
  }

  /**
   * `isErrorMessage` tells the two wire shapes apart: every error envelope
   * the extension sends satisfies it and no resource does.
   */
  lemma WireShapesRouted(msg: ExtensionMessage, e: ExtensionError)
    ensures IsErrorMessage(EncodeError(e))
    ensures !IsErrorMessage(EncodeMessage(msg))
  {
  }

  // Timeout.

  /** The configured timeout is disabled, so calls never arm a timer and expiries never happen. */
  lemma TimeoutDisabled(b: Broker, c: Command, freshId: string, id: string)
    requires Valid(b)
    ensures !TimerArmed(ResponseTimeoutMs)
    ensures Invoke(b, c, freshId).Ok? ==> Invoke(b, c, freshId).value.broker.timers == {}
    ensures Expire(b, id) == b
  {
  }

  /**
   * With a positive timeout, the expiry removes the entry and rejects with
   * "Timed out waiting for response"; a response arriving afterwards finds
   * no entry and throws, changing nothing.
   */
  lemma ExpiryThenLateResponse(b: Broker, id: string, resource: string, timeoutMs: int, late: Json)
    requires id !in b.futures && id !in b.timers
    requires timeoutMs > 0
    requires !late.JNull? && Member(late, "correlationId") == Some(JStr(id))
    ensures var b1 := Expire(WaitForResponse(b, id, resource, timeoutMs), id);
      && id !in b1.pending
      && b1.futures[id] == Rejected(JStr(TimeoutReason))
      && OnMessage(b1, late) == (b1, Threw)
  {
  }
}
