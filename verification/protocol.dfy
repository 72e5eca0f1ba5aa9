/**
 * The two sides together: the server's command-to-resource table and the
 * extension's handlers agree, so a request the server sends is settled by
 * the frame the extension sends back.
 */
module Protocol {
  import opened Wrappers
  import opened JsonData
  import opened Sockets
  import opened ServerMessages
  import opened ExtensionMessages
  import opened BrowserApi
  import opened MessageHandler
  import opened Client
  import opened Background

  /**
   * Every reply the extension's handlers produce carries the request's
   * correlation id and exactly the resource the server waits for.
   */
  lemma {:induction false} ReplyMatchesExpectedResource(browser: Browser, settings: Settings, req: Request)
    ensures var outcome := Execute(browser, settings, req).outcome;
      outcome.Replied? ==>
        && outcome.msg.correlationId == req.correlationId
        && outcome.msg.Resource() == ExpectedResource(req.command)
  {
    match req.command
    case OpenTab(_) => NavigationReplies(browser, settings, req);
    case CloseTabs(_) => NavigationReplies(browser, settings, req);
    case GetTabList => NavigationReplies(browser, settings, req);
    case GetBrowserRecentHistory(_) => NavigationReplies(browser, settings, req);
    case ReorderTabs(_) => NavigationReplies(browser, settings, req);
    case GroupTabs(_, _, _, _) => NavigationReplies(browser, settings, req);
    case GetTabContent(_, _) => PageReplies(browser, settings, req);
    case FindHighlight(_, _) => PageReplies(browser, settings, req);
    case ClickElement(_, _, _, _) => PageReplies(browser, settings, req);
    case FillFormField(_, _, _, _) => PageReplies(browser, settings, req);
    case ExecuteJavaScript(_, _) => ScriptReplies(browser, settings, req);
    case MonitorPageChanges(_, _, _) => ScriptReplies(browser, settings, req);
    case ScreenshotWebsite(_, _) => ScriptReplies(browser, settings, req);
    case SearchBookmarks(_) => ScriptReplies(browser, settings, req);
    case OpenBookmark(_) => ScriptReplies(browser, settings, req);
  }

  lemma NavigationReplies(browser: Browser, settings: Settings, req: Request)
    requires req.command.OpenTab? || req.command.CloseTabs? || req.command.GetTabList? || req.command.GetBrowserRecentHistory? || req.command.ReorderTabs? || req.command.GroupTabs?
    ensures var outcome := Execute(browser, settings, req).outcome;
      outcome.Replied? ==> outcome.msg.Kind() == ExpectedKind(req.command.Kind())
  {
  }

  lemma PageReplies(browser: Browser, settings: Settings, req: Request)
    requires req.command.GetTabContent? || req.command.FindHighlight? || req.command.ClickElement? || req.command.FillFormField?
    ensures var outcome := Execute(browser, settings, req).outcome;
      outcome.Replied? ==> outcome.msg.Kind() == ExpectedKind(req.command.Kind())
  {
  }

  lemma ScriptReplies(browser: Browser, settings: Settings, req: Request)
    requires req.command.ExecuteJavaScript? || req.command.MonitorPageChanges? || req.command.ScreenshotWebsite? || req.command.SearchBookmarks? || req.command.OpenBookmark?
    ensures var outcome := Execute(browser, settings, req).outcome;
      outcome.Replied? ==> outcome.msg.Kind() == ExpectedKind(req.command.Kind())
  {
  }

  /** Delivering frame `f` resolves entry `id` with the frame and removes the entry. */
  predicate ResolvedBy(b: Broker, id: string, f: Json) {
    var d := BrowserApi.OnMessage(b, f);
    && d.1 == Resolved(id, f)
    && id in d.0.futures && d.0.futures[id] == Fulfilled(f)
    && id !in d.0.pending
  }

  /** Delivering frame `f` rejects entry `id` with `reason` and removes the entry. */
  predicate RejectedBy(b: Broker, id: string, f: Json, reason: Json) {
    var d := BrowserApi.OnMessage(b, f);
    && d.1 == RejectedWith(id, reason)
    && id in d.0.futures && d.0.futures[id] == Rejected(reason)
    && id !in d.0.pending
  }

  /** A resource frame for a pending entry of the right kind resolves that entry's promise with the frame. */
  lemma ResourceFrameResolves(b: Broker, msg: ExtensionMessage)
    requires msg.correlationId in b.pending && b.pending[msg.correlationId].resource == msg.Resource()
    requires msg.correlationId in b.futures && b.futures[msg.correlationId].Waiting?
    ensures ResolvedBy(b, msg.correlationId, EncodeMessage(msg))
  {
    var f := EncodeMessage(msg);
    WireShapesRouted(msg, ExtensionError(msg.correlationId, ""));
    assert PendingKey(b, f) == Some(msg.correlationId);
    var d := BrowserApi.OnMessage(b, f);
    assert !d.1.Threw? && !d.1.RejectedWith? && !d.1.Mismatch?;
  }

  /** An error envelope for a pending entry rejects that entry's promise with the envelope's message. */
  lemma ErrorFrameRejects(b: Broker, e: ExtensionError)
    requires e.correlationId in b.pending
    requires e.correlationId in b.futures && b.futures[e.correlationId].Waiting?
    ensures RejectedBy(b, e.correlationId, EncodeError(e), JStr(e.errorMessage))
  {
    var f := EncodeError(e);
    assert PendingKey(b, f) == Some(e.correlationId);
    assert IsErrorMessage(f);
  }

  /**
   * A frame the extension sends for the request is routed by the server to
   * the caller's promise: a reply resolves it with that frame (which decodes
   * back to the reply), a thrown `Error` rejects it with the error's message,
   * and in both cases the entry is removed.
   */
  lemma RequestIsSettledByItsReply(
    b: Broker, c: Command, freshId: string,
    client: WebsocketClient, browser: Browser, settings: Settings)
    requires Valid(b) && IsOpen(b.ws) && freshId !in b.futures
    requires IsState(client.socket, Open)
    ensures Invoke(b, c, freshId).Ok?
    ensures var inv := Invoke(b, c, freshId).value;
      var req := Request(c, freshId);
      var outcome := HandleDecodedMessage(browser, settings, Known(req)).outcome;
      var sent := HandleRequest(client, browser, settings, Known(req)).sent;
      && DecodeRequest(inv.frame) == Some(req)
      && (outcome.Replied? ==>
            sent.Some? && DecodeMessage(sent.value) == Some(outcome.msg) && ResolvedBy(inv.broker, freshId, sent.value))
      && (outcome.Raised? && outcome.thrown.ErrorObject? ==>
            sent.Some? && RejectedBy(inv.broker, freshId, sent.value, JStr(outcome.thrown.message)))
  {
    var inv := Invoke(b, c, freshId).value;
    var req := Request(c, freshId);
    var outcome := HandleDecodedMessage(browser, settings, Known(req)).outcome;
    if outcome.Replied? {
      ReplyMatchesExpectedResource(browser, settings, req);
      ResourceFrameResolves(inv.broker, outcome.msg);
    } else if outcome.Raised? && outcome.thrown.ErrorObject? {
      ErrorFrameRejects(inv.broker, ExtensionError(freshId, outcome.thrown.message));
    }
  }

  /**
   * The frame a tool call sends reaches a started client's dispatcher as
   * exactly the request the server made, under the call's fresh id.
   */
  lemma SentRequestReachesDispatcher(
    b: Broker, c: Command, freshId: string,
    client: WebsocketClient, browser: Browser, settings: Settings)
    requires IsOpen(b.ws) && client.hasListener
    ensures Invoke(b, c, freshId).Ok?
    ensures OnServerFrame(client, browser, settings, Some(Invoke(b, c, freshId).value.frame)) ==
      Some(HandleRequest(client, browser, settings, Known(Request(c, freshId))))
  {
  }

  /** A disabled command is refused on the extension, and the caller's promise is rejected with the reason. */
  lemma DisabledCommandRejectsCaller(
    b: Broker, c: Command, freshId: string,
    client: WebsocketClient, browser: Browser, settings: Settings)
    requires Valid(b) && IsOpen(b.ws) && freshId !in b.futures
    requires IsState(client.socket, Open)
    requires !settings.isCommandAllowed(c.Name())
    ensures var inv := Invoke(b, c, freshId).value;
      var reaction := HandleRequest(client, browser, settings, Known(Request(c, freshId)));
      && reaction.effects == []
      && reaction.sent.Some?
      && RejectedBy(inv.broker, freshId, reaction.sent.value, JStr(DisabledMessage(c.Name())))
  {
    RequestIsSettledByItsReply(b, c, freshId, client, browser, settings);
  }
}
