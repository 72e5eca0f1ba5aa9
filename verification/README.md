# Browser control: command broker and extension dispatcher

This project is a Dafny model of the command path of a browser-control MCP
server and its Firefox extension. The server side is the `BrowserAPI` broker.
It turns each tool call into a request frame with a fresh correlation id. It
registers a resolver for the one resource kind that answers that command, then
settles the caller's promise when a matching frame arrives. The extension side
has three parts:

- a WebSocket client that reconnects on a fixed interval;
- a dispatcher that gates each request by the command allow-list and starts an
  audit entry without waiting for it;
- one handler per command, which applies its own URL and tab deny checks and
  replies with its resource or throws.

The background script wires the two together and forwards thrown `Error`
messages back as error frames.

Modules, one per source file, plus shared infrastructure:

| module | models |
|---|---|
| `Wrappers` | `Option` / `Result` |
| `JsonData` | decoded JSON values, and field and array codecs with round-trip lemmas |
| `Sockets` | WebSocket `readyState` |
| `ServerMessages` | `common/server-messages.ts`: the fifteen commands and the request wire form |
| `ExtensionMessages` | `common/extension-messages.ts`: the fifteen resources, nested records and the error frame |
| `BrowserApi` | `mcp-server/browser-api.ts`: the broker as a state machine over sockets, resolvers and promises |
| `MessageHandler` | `firefox-extension/message-handler.ts`: the gate, the audit entry and the fifteen handlers |
| `Client` | `firefox-extension/client.ts`: the reconnecting socket client |
| `Background` | `firefox-extension/background.ts`: the listener that maps outcomes to frames, and client start-up |
| `Protocol` | end-to-end lemmas joining broker, dispatcher and client |

How the model is built:

- **Messages.** Frames are decoded JSON values (`Json`), not text.
  `ServerMessages` and `ExtensionMessages` give each message an encoder and a
  decoder.
  - Each command and resource has a kind (`CommandKind`, `ResourceKind`) whose
    `Literal()` is the wire string of its `cmd` or `resource` field.
- **Broker state.** The broker's state is `Broker`:
  - the current socket;
  - the resolver map, keyed by correlation id and holding the expected resource;
  - the state of every caller's promise (`futures`);
  - the armed response timers.
- **Broker operations.** Each broker operation is a total function from state
  to state. `Next` and `Run` replay any interleaving of calls, frames,
  connections, closes and timer expiries.
- **Browser and settings.** The browser APIs the handlers await are function
  fields of `Browser`. Each call returns a value or throws. The extension
  settings and the clock are fields of `Settings`.
- **Handler results.** A handler yields the ordered browser side effects and an
  outcome: a reply, a thrown value, or nothing.

## Model

| member | source | states |
|---|---|---|
| ServerMessages.EncodeRequest | common/server-messages.ts:94-111 | the request object carries every field of the command, `cmd` among them, plus the correlation id, and nothing else |
| ServerMessages.ParseCommandKind | common/server-messages.ts:94-109 | a `cmd` string that is recognised is the literal of the kind it yields |
| ServerMessages.CommandKindRoundTrip | common/server-messages.ts:94-109 | every command literal is recognised as its own kind |
| ServerMessages.CommandLiteralInjective | common/server-messages.ts:94-109 | no two commands share a `cmd` literal |
| ServerMessages.UnparsedNameIsNoCommand | common/server-messages.ts:94-109 | a string the parser rejects is the name of no command |
| ServerMessages.CommandRoundTrip | common/server-messages.ts:1-92 | decoding the fields of an encoded command, under its own kind, yields the command back, for every command |
| ServerMessages.RequestRoundTrip | common/server-messages.ts:94-111 | decoding an encoded request yields the same command and correlation id |
| ExtensionMessages.NestedRoundTrips | common/extension-messages.ts:15-97 | tabs, history items, links and bookmark items each decode back from their encodings |
| ExtensionMessages.Payload | common/extension-messages.ts:6-110 | a resource's own fields never use the envelope keys `resource`, `correlationId` or `errorMessage` |
| ExtensionMessages.EncodeMessage | common/extension-messages.ts:1-4 | the frame carries the resource literal and the correlation id, and no `errorMessage` key |
| ExtensionMessages.ParseResourceKind | common/extension-messages.ts:111-126 | a `resource` string that is recognised is the literal of the kind it yields |
| ExtensionMessages.ResourceKindRoundTrip | common/extension-messages.ts:111-126 | every resource literal is recognised as its own kind |
| ExtensionMessages.ResourceLiteralInjective | common/extension-messages.ts:111-126 | no two resources share a `resource` literal |
| ExtensionMessages.MessageRoundTrip | common/extension-messages.ts:1-126 | decoding an encoded resource yields the same resource, for all fifteen kinds |
| ExtensionMessages.EncodeError | common/extension-messages.ts:128-130 | the error frame has exactly the keys `correlationId` and `errorMessage` and no `resource` |
| BrowserApi.ExpectedKindInverse | mcp-server/browser-api.ts:91-308 | the command a resource kind answers, applied to the kind a command awaits, is that command |
| BrowserApi.AnsweredCommandInverse | mcp-server/browser-api.ts:91-308 | every resource kind is awaited by exactly the command it answers |
| BrowserApi.ExpectedResourceBijective | mcp-server/browser-api.ts:91-308 | two commands await the same resource literal if and only if they have the same `cmd` |
| BrowserApi.SettleId | mcp-server/browser-api.ts:342-362 | settling one promise leaves every other promise as it was, and a promise already settled stays settled |
| BrowserApi.SendMessageToExtension | mcp-server/browser-api.ts:310-322 | it fails with "WebSocket is not open" exactly when no open socket exists; otherwise the frame decodes to the command under the fresh id |
| BrowserApi.WaitForResponse | mcp-server/browser-api.ts:342-362 | it registers a resolver for the id with the given resource and an unsettled promise, changes no other entry, and arms a timer only for a positive timeout |
| BrowserApi.Invoke | mcp-server/browser-api.ts:91-308 | a tool call fails exactly when the socket is not open; otherwise it sends the request, awaits the resource that answers its command under the fresh id, and leaves the socket, the timers and every other resolver and promise as they were |
| BrowserApi.PendingKey | mcp-server/browser-api.ts:324-337 | a frame finds a resolver if and only if its correlation id is a string registered in the map, and then finds that one |
| BrowserApi.IsErrorMessage | mcp-server/browser-api.ts:373-377 | only objects are error envelopes, and an object is one exactly when it has both an `errorMessage` and a `correlationId` key |
| BrowserApi.HandleExtensionError | mcp-server/browser-api.ts:335-340 | an error envelope for a registered id removes that resolver and rejects its unsettled promise with the `errorMessage`, touching no other entry; for an unknown id it throws and changes nothing |
| BrowserApi.HandleDecodedExtensionMessage | mcp-server/browser-api.ts:324-333 | an unknown id throws and changes nothing; a resource other than the awaited one is ignored and keeps its resolver; the awaited resource removes the resolver and fulfils the promise with the whole frame, touching no other entry |
| BrowserApi.OnMessage | mcp-server/browser-api.ts:56-63 | an error envelope rejects with its message; a frame of the awaited resource resolves with the frame; any other resource leaves the entry in place; an unknown id or `null` throws and changes nothing |
| BrowserApi.OnConnection | mcp-server/browser-api.ts:51-53 | a new connection becomes the current, open socket; resolvers, promises and timers are kept |
| BrowserApi.OnStateChange | mcp-server/browser-api.ts:51-71 | a ready-state change affects only the current connection; resolvers, promises and timers are kept |
| BrowserApi.OnClose | mcp-server/browser-api.ts:66-71 | only the close of the current connection clears the socket; resolvers, promises and armed timers are kept |
| BrowserApi.Expire | mcp-server/browser-api.ts:355-358 | an armed timer removes its resolver and timer and rejects an unsettled promise with the timeout reason, touching no other entry; a settled promise stays as it was, and without an armed timer nothing changes |
| BrowserApi.InitialValid | mcp-server/browser-api.ts:28-31 | the empty broker satisfies the invariant: a resolver exists exactly for each unsettled promise, and no timer is armed |
| BrowserApi.NextValid | mcp-server/browser-api.ts:324-362 | every event keeps that invariant, provided call ids are fresh |
| BrowserApi.RunValid | mcp-server/browser-api.ts:324-362 | any sequence of events with fresh call ids keeps the invariant |
| BrowserApi.NextKeepsSettled | mcp-server/browser-api.ts:324-340 | no event changes a promise that is already settled |
| BrowserApi.RunKeepsSettled | mcp-server/browser-api.ts:324-340 | no sequence of events changes a promise that is already settled |
| BrowserApi.SettlesAtMostOnce | mcp-server/browser-api.ts:324-340 | after a frame settles an id, a second frame with the same id throws and changes nothing |
| BrowserApi.MismatchLeavesEntry | mcp-server/browser-api.ts:327-330 | a frame of the wrong resource leaves the promise unsettled, and a later frame of the right resource still resolves it |
| BrowserApi.ErrorEnvelopeFirst | mcp-server/browser-api.ts:56-63 | a frame with both `correlationId` and `errorMessage` rejects the caller with that message and removes the resolver, whatever else it carries |
| BrowserApi.WireShapesRouted | mcp-server/browser-api.ts:373-377 | error frames are always seen as errors; resource frames never are |
| BrowserApi.TimeoutDisabled | mcp-server/browser-api.ts:353-359 | with the timeout constant at 0 no timer is ever armed, and expiry changes nothing |
| BrowserApi.ExpiryThenLateResponse | mcp-server/browser-api.ts:353-359 | with a positive timeout, expiry rejects with the timeout reason and drops the resolver, so a late frame for that id throws |
| MessageHandler.ParseIncoming | firefox-extension/message-handler.ts:22-128 | a decodable request is taken as that known command, and only a decodable one is; an object whose string `cmd` is none of the fifteen literals, with a string correlation id, is taken as an unknown command that keeps the object's string `url` and numeric `tabId` fields for the audit entry |
| MessageHandler.AuditContextUrl | firefox-extension/message-handler.ts:117-128 | after a successful lookup of the request's `tabId` the URL is the tab's, even when undefined; without a `tabId`, or when the lookup throws, it is the request's `url` when non-empty and none otherwise |
| MessageHandler.StartOffset | firefox-extension/message-handler.ts:227 | a missing or negative offset reads from 0, an offset past the end reads nothing, any other offset is used as given |
| MessageHandler.ReadContent | firefox-extension/message-handler.ts:225-235 | the text is the slice of the page text from the offset, cut to 50000 characters; it is truncated exactly when more text remained |
| MessageHandler.PagingReadsWholeText | firefox-extension/message-handler.ts:225-235 | following pages by offset until one is not truncated reads the rest of the text exactly |
| MessageHandler.Filter | firefox-extension/message-handler.ts:191-193 | the kept elements all satisfy the test, every element that does is kept, and a one-element list keeps its element exactly when it passes |
| MessageHandler.FilterAppend | firefox-extension/message-handler.ts:191-193 | filtering a concatenation concatenates the filtered parts, so the result is the passing elements in order, each as often as it occurs |
| MessageHandler.ToBookmarkType | firefox-extension/message-handler.ts:559-581 | a node is a bookmark or a folder exactly when its type says so, and a separator otherwise |
| MessageHandler.CheckTab | firefox-extension/message-handler.ts:208-211 | a tab command proceeds with the tab exactly when the lookup succeeds and the tab URL is falsy or not denied; a failed lookup throws its own error |
| MessageHandler.OpenUrl | firefox-extension/message-handler.ts:141-160 | open-tab refuses non-https URLs and denied domains before creating any tab; otherwise it creates exactly that tab and replies `opened-tab-id` with the new tab's id, or rethrows the creation error |
| MessageHandler.CloseTabsHandler | firefox-extension/message-handler.ts:162-171 | replies `tabs-closed` with the request id, or throws |
| MessageHandler.SendTabs | firefox-extension/message-handler.ts:173-180 | replies `tabs` with the request id, or throws |
| MessageHandler.SendRecentHistory | firefox-extension/message-handler.ts:182-199 | the history is searched for `searchQuery`, or the empty string when it is missing, with at most 200 results from time 0; the reply holds exactly the items with a truthy `url`, in order; a failing search rethrows |
| MessageHandler.SendTabsContent | firefox-extension/message-handler.ts:203-258 | a failed tab check throws with no effect; otherwise the content script runs once, its failure is rethrown, and its success is replied with the page text cut by ReadContent at the offset, the truncation flag, the whole text's length and the links with text, an https URL and no fragment, in page order |
| MessageHandler.MoveTabs | firefox-extension/message-handler.ts:260-274 | tabs are moved one by one to their list index; the loop completes exactly when every move returns, and otherwise stops at the first move that throws, which is the last one made and whose error is returned |
| MessageHandler.ReorderTabsHandler | firefox-extension/message-handler.ts:260-274 | the moves made are tab i to index i in order; the handler replies `tabs-reordered` echoing the order exactly when every move returns, and otherwise throws the error of the first failing move, which is the last one made |
| MessageHandler.FindAndHighlightText | firefox-extension/message-handler.ts:276-307 | replies `find-highlight-result` with the request id, or throws |
| MessageHandler.GroupTabsHandler | firefox-extension/message-handler.ts:309-331 | replies `new-tab-group` with the request id, or throws |
| MessageHandler.ClickElementHandler | firefox-extension/message-handler.ts:333-382 | replies `element-clicked` with the request id, or throws |
| MessageHandler.FillFormFieldHandler | firefox-extension/message-handler.ts:384-436 | replies `form-field-filled` with the request id, or throws |
| MessageHandler.ExecuteJavaScriptHandler | firefox-extension/message-handler.ts:438-466 | replies `javascript-executed` with the request id, or throws |
| MessageHandler.MonitorPageChangesHandler | firefox-extension/message-handler.ts:468-531 | replies `page-changes-detected` with the request id, or throws |
| MessageHandler.ScreenshotHandler | firefox-extension/message-handler.ts:533-557 | replies `screenshot-saved` with the request id, or throws |
| MessageHandler.SearchBookmarksHandler | firefox-extension/message-handler.ts:559-581 | a truthy query is searched as given and a falsy one as no query; a successful search replies with one item per node, in order, carrying its id, title, url, parent and date and its type mapped to bookmark, folder or separator; a failing search rethrows |
| MessageHandler.OpenBookmarkHandler | firefox-extension/message-handler.ts:583-629 | replies `bookmark-opened` with the request id and never throws |
| MessageHandler.Execute | firefox-extension/message-handler.ts:22-112 | every known command is handled, and a reply carries the request's correlation id |
| MessageHandler.AuditEntryFor | firefox-extension/message-handler.ts:115-139 | the audit entry records the command, its tool id, the current time, and the context URL: the tab's URL after a successful lookup, none after a failed one, the non-empty `url` of open-tab, none for other commands; for an unknown command its own `tabId` and `url` fields decide it by the same rule |
| MessageHandler.HandleDecodedMessage | firefox-extension/message-handler.ts:12-113 | a disabled command throws before anything else happens; an allowed one first starts its audit entry and then runs its handler; only an unknown command ends unhandled |
| MessageHandler.DeniedTabStopsCommand | firefox-extension/message-handler.ts:208-211 | a tab command on a tab with a truthy denied URL throws the deny error after the audit entry, with no other browser effect |
| MessageHandler.FailedTabLookupStopsCommand | firefox-extension/message-handler.ts:208 | a tab command whose tab lookup throws rethrows that error, with no other browser effect |
| MessageHandler.FalsyTabUrlPasses | firefox-extension/message-handler.ts:209 | a tab with an empty or missing URL passes the deny check whatever the deny list says |
| MessageHandler.OpenTabRefusals | firefox-extension/message-handler.ts:141-149 | open-tab throws "Invalid URL" before consulting the deny list, and the deny error otherwise, with only the audit entry as effect |
| MessageHandler.AuditFailureIsolated | firefox-extension/message-handler.ts:18-20 | whether the audit write succeeds changes neither the outcome nor any later effect |
| MessageHandler.UnknownCommandIgnored | firefox-extension/message-handler.ts:22-112 | an allowed unknown command is audited, sends nothing and throws nothing |
| MessageHandler.ReorderMovesInOrder | firefox-extension/message-handler.ts:260-274 | when every move succeeds, tab i goes to index i in list order and the reply echoes the order |
| MessageHandler.OpenBookmarkOutcome | firefox-extension/message-handler.ts:583-629 | success is reported exactly when the bookmark exists, has a URL and a tab opens; only then is a tab id reported |
| MessageHandler.ExecuteJavaScriptCatchesFailures | firefox-extension/message-handler.ts:438-466 | once the tab passes, the script's result is replied; a thrown value is caught and replied with a `null` result and its `message` (the `Error`'s message, a non-Error's string `message` property, or none); a thrown `null` or `undefined` makes the catch block throw a `TypeError` instead |
| Client.NewClient | firefox-extension/client.ts:9-18 | a new client has its port and no socket, timer, attempts or listener |
| Client.AddMessageListener | firefox-extension/client.ts:57-61 | the listener is registered and nothing else changes |
| Client.Connect | firefox-extension/client.ts:20-55 | a new connecting socket replaces the old one, and a reconnect timer is started only if none runs; the port, the message callback and the attempt count are kept |
| Client.Tick | firefox-extension/client.ts:63-78 | a socket connecting for more than two ticks is closed, and until then only the attempt count changes; a missing or closed socket is replaced by a new connection; an open or closing socket is left alone; the port and the message callback are always kept |
| Client.OnOpen | firefox-extension/client.ts:25-28 | opening resets the attempt counter; the socket becomes OPEN only when the event is the current socket's, and nothing else changes |
| Client.OnClose | firefox-extension/client.ts:30-33 | closing resets the attempt counter; the socket becomes CLOSED only when the event is the current socket's, and nothing else changes |
| Client.OnMessage | firefox-extension/client.ts:39-49 | a frame reaches the dispatcher exactly when a listener exists and the frame parsed |
| Client.SendResourceToServer | firefox-extension/client.ts:80-86 | a resource is sent exactly when the socket is open, and what is sent decodes back to it |
| Client.SendErrorToServer | firefox-extension/client.ts:88-101 | an error frame is sent exactly when the socket is open, holding the id and the message |
| Client.Disconnect | firefox-extension/client.ts:103-113 | the timer is cleared and the socket dropped; the port, the message callback and the attempt count are kept |
| Client.NextOneTimer | firefox-extension/client.ts:51-54 | every event keeps at most one reconnect interval running, exactly when the timer is set |
| Client.RunOneTimer | firefox-extension/client.ts:63-78 | any sequence of events keeps that invariant |
| Client.RunKeepsDispatcher | firefox-extension/client.ts:16-113 | no sequence of connects, ticks, socket events and disconnects changes the client's port or removes its message callback |
| Client.StuckSocketReplaced | firefox-extension/client.ts:63-78 | a socket stuck connecting survives two ticks, is closed on the third, and is replaced by a new connection after its close |
| Background.HandleRequest | firefox-extension/background.ts:11-22 | a reply is sent as a resource frame; a thrown `Error` becomes an error frame for the request's id; a non-Error throw or an unknown command sends nothing; nothing is sent on a closed socket |
| Background.OnServerFrame | firefox-extension/background.ts:11-22 | a received frame is handled exactly when the client has its listener, the frame parsed and it reads as a request, and then it is handled as that request |
| Background.InitClient | firefox-extension/background.ts:5-23 | a started client has its port and listener, one connecting socket and one reconnect timer |
| Background.InitClients | firefox-extension/background.ts:30-41 | one client is started for each configured port, in order, and no other |
| Protocol.ReplyMatchesExpectedResource | mcp-server/browser-api.ts:91-308 | the resource the extension replies with is the one the broker awaits for that command |
| Protocol.ResourceFrameResolves | mcp-server/browser-api.ts:324-333 | a resource frame of the awaited kind resolves its caller with the frame and removes the resolver |
| Protocol.ErrorFrameRejects | mcp-server/browser-api.ts:335-340 | an error frame rejects its caller with the message and removes the resolver |
| Protocol.RequestIsSettledByItsReply | mcp-server/browser-api.ts:310-362 | on open sockets, the request the extension decodes is the one sent; its reply resolves the caller, and a thrown `Error` rejects the caller with its message |
| Protocol.SentRequestReachesDispatcher | mcp-server/browser-api.ts:310-322 | the frame a tool call sends on an open socket reaches a started client's dispatcher as exactly the request made, under the call's id |
| Protocol.DisabledCommandRejectsCaller | firefox-extension/message-handler.ts:13-16 | a disabled command touches no browser API and rejects the caller with the disabled-command message |

## Behaviour worth noting

- **Unknown correlation id.** The broker reads a frame's resolver with
  `extensionRequestMap.get(correlationId)!` and destructures the result
  (mcp-server/browser-api.ts:326 and 337). For an id with no resolver, `get`
  yields `undefined`; the `!` is only a compile-time annotation, so the
  destructuring throws a `TypeError`. Nothing in the "message" listener
  (mcp-server/browser-api.ts:56-63) catches it. The model reports `Threw` and
  leaves the state unchanged.
- **Disabled commands.** The allow-list check throws before the audit entry is
  started (firefox-extension/message-handler.ts:13-20), so a disabled command is
  never audited.
- **Tab deny check.** Tab commands consult the deny list only when the tab's
  URL is truthy (for example firefox-extension/message-handler.ts:209).
- **Open-tab deny check.** The extension checks an opened URL against the deny
  list (firefox-extension/message-handler.ts:147-149); the server does not.

## Left out

- JSON text: `JSON.parse` and `JSON.stringify` are not modelled. Frames are
  decoded values, numbers are integers, and a parse failure is `None`.
- Correlation ids: they come from `Math.random`. They are a parameter, and their
  freshness is a precondition of the invariant lemmas only.
- The MCP tool layer: mcp-server/server.ts, and the per-command projection of
  resolved frames into tool results, are not part of this model.
- Extension settings: the extension-config module (allow-list, deny-list,
  tool-id table, audit storage) is not part of this model. Its answers are the
  fields of `Settings`.
- Browser APIs: the WebExtension APIs and the content scripts' internals (the
  click, fill, find, observer and capture code) are uninterpreted function
  fields. Only the fields their results carry back are modelled.
- Timing: timers and intervals are explicit events (`Tick`, `Expire`), not
  wall-clock time. The client's socket `error` listener and the server's
  `error` listeners only log.
- Screenshot saving: the server writes screenshots to a file
  (mcp-server/browser-api.ts:250-285). This is file I/O and is left out. The
  `fullPage` flag, which the extension ignores, is carried but unused.
- Highlighting: find-highlight starts highlighting without awaiting it. The
  model records only the reply.
- Malformed requests: a request whose `cmd` is known but whose fields are
  malformed is `None` at parse time. The source would pass undefined fields to
  the browser.
- MessageHandler.ParseIncoming: some received objects are not modelled as
  requests and get no reaction: an unknown `cmd` without a string
  `correlationId`, a `cmd` that is not a string, and a value that is not an
  object. The source passes all of them to the dispatcher. For a non-string
  `cmd`, what happens depends on the allow-list lookup, which is not part of
  this model. For `null`, reading `req.cmd` throws, and so does reading
  `message.correlationId` in the listener's catch block.
- MessageHandler.AuditEntryFor: for a known command, the audit URL is read from
  the command's own fields. Extra `url` or `tabId` keys on such an object are
  not modelled; the server's request frames never carry them. A truthy `url`
  that is not a string, and a `tabId` that is not a number, are not modelled
  either: the unknown command carries neither.
- Nested records: extra raw fields of tabs and history items that the browser
  returns, and that are relayed unchanged, are not modelled.
- Logging: console output is not modelled.
- Concurrency on the extension: each request is handled as one atomic step,
  against one snapshot of the browser (the `Browser` functions) and one client
  state. In the source, a handler awaits between its tab check and its action,
  for example firefox-extension/message-handler.ts:208-214. The audit entry's tab lookup
  (firefox-extension/message-handler.ts:123) runs alongside the handler, because the audit promise
  is not awaited (firefox-extension/message-handler.ts:18-20). Requests arriving on the socket are
  handled concurrently, because the async callback (firefox-extension/background.ts:11) is not
  awaited (firefox-extension/client.ts:45). A send reads `readyState` only after those awaits
  (firefox-extension/client.ts:81). The model therefore hides check-then-act windows, and the
  interleaving of concurrent requests' browser effects and audit lookups.
- BrowserApi.OnMessage: a frame for an unknown id throws out of the socket
  listener uncaught. The model records `Threw` and keeps processing later
  events; what an uncaught listener exception does to the server process is not
  modelled, so `BrowserApi.SettlesAtMostOnce` and
  `BrowserApi.ExpiryThenLateResponse` assume the server survives it.
- MessageHandler.ReadContent: the offset, the 50000 cut and the text's length
  count Unicode scalar values. The source's `innerText.length` and `substring`
  count UTF-16 code units. The two agree only on text without characters
  outside the Basic Multilingual Plane; for other text the source cuts, flags
  truncation and pages at different places.
- MessageHandler.StartOffset: the offset it clamps is counted in Unicode scalar
  values, not in the UTF-16 code units the server's offsets count.
- MessageHandler.SendTabsContent: `totalLength` is the number of Unicode scalar
  values of the page text, not its UTF-16 length.
- MessageHandler.ExecuteJavaScriptHandler: the `TypeError` thrown when a
  script throws `null` or `undefined` carries an engine-specific message, which
  is the `nullishReadMessage` parameter of `Browser`. A non-Error's `message`
  property is modelled only when it is a string.
- MessageHandler.Execute: its own contract states only that every known command
  is handled and that a reply carries the request id. The fact that the reply is
  of the awaited resource kind is proved per command group in
  Protocol.ReplyMatchesExpectedResource.
- MessageHandler handlers: each contract states the reply's kind and id. The
  detailed behaviour is stated only for open-tab, tab checks, get-tab-content,
  get-browser-recent-history, reorder-tabs, search-bookmarks, open-bookmark and
  execute-javascript.
