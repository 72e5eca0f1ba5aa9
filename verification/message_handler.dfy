/**
 * The extension's dispatcher: every request passes the command gate, then
 * starts an audit entry without waiting for it, then runs the handler of its
 * command, which applies its own checks and replies with the one resource
 * fixed for the command, carrying the request's correlation id.
 *
 * Browser APIs are the fields of `Browser`: each awaited call either returns
 * a value or throws. The extension's configuration (command allow-list,
 * domain deny-list, tool ids, audit sink) and the clock are the fields of
 * `Settings`.
 */
module MessageHandler {
  import opened Wrappers
  import opened JsonData
  import opened ServerMessages
  import opened ExtensionMessages

  /**
   * A thrown value: an `Error` with its message; any other value that is not
   * `null` or `undefined`, with its `message` property when that is a string;
   * or `null` / `undefined` itself, whose properties cannot be read.
   */
  datatype Thrown = ErrorObject(message: string) | NonError(messageProperty: Option<string>) | Nullish

  /** The settled result of an awaited browser call. */
  datatype Call<+T> = Returns(value: T) | Throws(thrown: Thrown)

  /** The fields of a browser tab the handlers read. */
  datatype Tab = Tab(url: Option<string>, windowId: int)

  /** What the content script sees: `document.body.innerText` and every `a[href]` as (href, text). */
  datatype Page = Page(innerText: string, anchors: seq<Link>)

  /** The element a click targets: by selector, or at page coordinates. */
  datatype ClickTarget = BySelector(selector: string) | ByPoint(x: int, y: int)

  datatype Clicked = Clicked(success: bool, elementInfo: Option<string>)

  datatype PageChanges = PageChanges(changes: string, timedOut: bool)

  /** The query of `browser.history.search`. */
  datatype HistoryQuery = HistoryQuery(text: string, maxResults: int, startTime: int)

  /** A bookmark tree node as the bookmarks API returns it. */
  datatype BookmarkNode = BookmarkNode(
    id: string, title: string, url: Option<string>, nodeType: Option<string>,
    parentId: Option<string>, dateAdded: Option<int>)

  /**
   * The WebExtension APIs the handlers await, as uninterpreted functions, and
   * the message of the `TypeError` the script engine throws when a property
   * of `null` or `undefined` is read.
   */
  datatype Browser = Browser(
    getTab: int -> Call<Tab>,
    createTab: string -> Call<Option<int>>,
    removeTabs: seq<int> -> Call<()>,
    queryTabs: Call<seq<BrowserTab>>,
    searchHistory: HistoryQuery -> Call<seq<HistoryItem>>,
    readPage: int -> Call<Page>,
    moveTab: (int, int) -> Call<()>,
    find: (string, int) -> Call<int>,
    activateTab: int -> Call<()>,
    groupTabs: seq<int> -> Call<int>,
    updateGroup: (int, bool, string, string) -> Call<int>,
    click: (int, ClickTarget) -> Call<Clicked>,
    fill: (int, string, string, bool) -> Call<bool>,
    runScript: (int, string) -> Call<Option<Json>>,
    observe: (int, Option<string>, int) -> Call<PageChanges>,
    captureTab: int -> Call<string>,
    searchBookmarks: Option<string> -> Call<seq<BookmarkNode>>,
    getBookmarks: string -> Call<seq<BookmarkNode>>,
    nullishReadMessage: string)

  /** An audit entry handed to the audit sink. */
  datatype AuditEntry = AuditEntry(toolId: Option<string>, command: string, timestamp: int, url: Option<string>)

  /**
   * The extension's configuration and clock. `auditSink` says whether
   * `addAuditLogEntry` succeeds for an entry.
   */
  datatype Settings = Settings(
    isCommandAllowed: string -> bool,
    isDomainInDenyList: string -> bool,
    toolIdOf: string -> Option<string>,
    auditSink: AuditEntry -> bool,
    now: int)

  /** The side-effecting browser calls a handler makes, in order. */
  datatype Effect =
    | Audited(entry: AuditEntry, written: bool)
    | CreatedTab(url: string)
    | RemovedTabs(tabIds: seq<int>)
    | MovedTab(tabId: int, index: int)
    | RanScript(tabId: int)
    | ActivatedTab(tabId: int)
    | GroupedTabs(tabIds: seq<int>)
    | UpdatedGroup(groupId: int)
    | CapturedTab(windowId: int)

  /** How handling ended: a resource handed to the client, a thrown value, or nothing (unknown command). */
  datatype Outcome = Replied(msg: ExtensionMessage) | Raised(thrown: Thrown) | Unhandled

  datatype Handled = Handled(effects: seq<Effect>, outcome: Outcome)

  /**
   * A request as the listener receives it: a known command, or a `cmd`
   * outside the union, with the object's string `url` and numeric `tabId`
   * fields, which the audit entry reads whatever the command.
   */
  datatype Incoming =
    | Known(req: Request)
    | UnknownCommand(cmd: string, correlationId: string, url: Option<string>, tabId: Option<int>)
  {
    function Cmd(): string {
      match this
      case Known(req) => req.command.Name()
      case UnknownCommand(cmd, _, _, _) => cmd
    }

    function CorrelationId(): string {
      match this
      case Known(req) => req.correlationId
      case UnknownCommand(_, id, _, _) => id
    }

    /** The request's `url` field: only `open-tab` among the commands has one. */
    function UrlField(): Option<string> {
      match this
      case Known(req) => if req.command.OpenTab? then Some(req.command.url) else None
      case UnknownCommand(_, _, url, _) => url
    }

    /** The request's `tabId` field. */
    function TabIdField(): Option<int> {
      match this
      case Known(req) => req.command.TargetTab()
      case UnknownCommand(_, _, _, tabId) => tabId
    }
  }

  /** A field of a received object, when present and of the decoder's type. */
  function FieldOf<T>(j: Json, key: string, decode: Json -> Option<T>): Option<T> {
    match Member(j, key)
    case Some(v) => decode(v)
    case None => None
  }

  /**
   * The request a received object stands for: a decodable request, or an
   * object whose `cmd` string is none of the fifteen literals.
   */
  function ParseIncoming(j: Json): (r: Option<Incoming>)
    ensures r.Some? && r.value.Known? ==> DecodeRequest(j) == Some(r.value.req)
    ensures r.Some? && r.value.UnknownCommand? ==> ParseCommandKind(r.value.cmd).None?
    ensures DecodeRequest(j).Some? ==> r == Some(Known(DecodeRequest(j).value))
    ensures var cmd := Member(j, "cmd"); var id := Member(j, "correlationId");
      cmd.Some? && cmd.value.JStr? && ParseCommandKind(cmd.value.s).None? && id.Some? && id.value.JStr? ==>
      && r.Some? && r.value.UnknownCommand?
      && r.value.cmd == cmd.value.s && r.value.correlationId == id.value.s
      && (r.value.url.Some? <==> Member(j, "url").Some? && Member(j, "url").value.JStr?)
      && (r.value.url.Some? ==> Member(j, "url") == Some(JStr(r.value.url.value)))
      && (r.value.tabId.Some? <==> Member(j, "tabId").Some? && Member(j, "tabId").value.JNum?)
      && (r.value.tabId.Some? ==> Member(j, "tabId") == Some(JNum(r.value.tabId.value)))
  {
    match DecodeRequest(j)
    case Some(req) => Some(Known(req))
    case None =>
      match (Member(j, "cmd"), Member(j, "correlationId"))
      case (Some(JStr(cmd)), Some(JStr(id))) =>
        if ParseCommandKind(cmd).Some? then None
        else Some(UnknownCommand(cmd, id, FieldOf(j, "url", AsString), FieldOf(j, "tabId", AsInt)))
      case _ => None
  }

  const InvalidUrlMessage: string := "Invalid URL"
  const DeniedUrlMessage: string := "Domain in user defined deny list"
  const DeniedTabMessage: string := "Domain in tab URL is in the deny list"
  const MaxHistoryResults: int := 200
  const MaxContentLength: nat := 50000
  const DefaultObserveTimeout: int := 10000

  function DisabledMessage(cmd: string): string {
    "Command '" + cmd + "' is disabled in extension settings"
  }

  // Pure rules of the handlers.

  /**
   * The audit entry's context URL: the request's `url` when present and
   * non-empty, overridden by the tab's URL for a request with a `tabId`
   * (even when that URL is undefined); a failed tab lookup keeps the earlier
   * value.
   */
  function AuditContextUrl(getTab: int -> Call<Tab>, url: Option<string>, tabId: Option<int>): (r: Option<string>)
    ensures tabId.Some? && getTab(tabId.value).Returns? ==> r == getTab(tabId.value).value.url
    ensures tabId.None? || getTab(tabId.value).Throws? ==>
      (r.Some? <==> TruthyStr(url)) && (r.Some? ==> r == url)
  {
    var fromRequest := if TruthyStr(url) then url else None;
    match tabId
    case None => fromRequest
    case Some(t) =>
      match getTab(t)
      case Returns(tab) => tab.url
      case Throws(_) => fromRequest
  }

  /** `Number(offset) || 0`, then clamped to the text as `substring` clamps its start. */
  function StartOffset(offset: Option<int>, length: nat): (r: nat)
    ensures r <= length
    ensures offset.Some? && 0 <= offset.value <= length ==> r == offset.value
    ensures offset.None? || offset.value < 0 ==> r == 0
    ensures offset.Some? && offset.value > length ==> r == length
  {
    match offset
    case None => 0
    case Some(n) => if n < 0 then 0 else if n > length then length else n
  }

  datatype Content = Content(text: string, isTruncated: bool)

  /** The page text from the offset on, cut to at most 50,000 characters. */
  function ReadContent(innerText: string, offset: Option<int>): (c: Content)
    ensures |c.text| <= MaxContentLength
    ensures var start := StartOffset(offset, |innerText|);
      && start + |c.text| <= |innerText|
      && c.text == innerText[start..start + |c.text|]
      && (c.isTruncated <==> |innerText| - start > MaxContentLength)
      && (!c.isTruncated ==> start + |c.text| == |innerText|)
      && (c.isTruncated ==> |c.text| == MaxContentLength)
  {
    var rest := innerText[StartOffset(offset, |innerText|)..];
    if |rest| > MaxContentLength then Content(rest[..MaxContentLength], true) else Content(rest, false)
  }

  /** Reading page after page, each from where the previous truncated one stopped. */
  function ReadFrom(innerText: string, start: nat): string
    requires start <= |innerText|
    decreases |innerText| - start
  {
    var c := ReadContent(innerText, Some(start));
    if c.isTruncated then c.text + ReadFrom(innerText, start + |c.text|) else c.text
  }

  /** Paging with the offset loses and repeats nothing: the pages concatenate to the rest of the text. */
  lemma {:induction false} PagingReadsWholeText(innerText: string, start: nat)
    requires start <= |innerText|
    ensures ReadFrom(innerText, start) == innerText[start..]
    decreases |innerText| - start
  {
    var c := ReadContent(innerText, Some(start));
    if c.isTruncated {
      PagingReadsWholeText(innerText, start + |c.text|);
      assert innerText[start..] == c.text + innerText[start + |c.text|..];
    }
  }

  /** The elements of `xs` satisfying `keep`, in order. */
  function Filter<T>(xs: seq<T>, keep: T -> bool): (r: seq<T>)
    ensures |r| <= |xs|
    ensures forall i :: 0 <= i < |r| ==> keep(r[i])
    ensures forall i :: 0 <= i < |r| ==> r[i] in xs
    ensures forall i :: 0 <= i < |xs| && keep(xs[i]) ==> xs[i] in r
    ensures |xs| == 1 ==> r == if keep(xs[0]) then xs else []
  {
    if xs == [] then []
    else if keep(xs[0]) then [xs[0]] + Filter(xs[1..], keep)
    else Filter(xs[1..], keep)
  }

  /**
   * Filtering distributes over concatenation; with the one-element case this
   * pins `Filter` down to the kept elements, in order, each as often as it
   * occurs.
   */
  lemma {:induction false} FilterAppend<T>(xs: seq<T>, ys: seq<T>, keep: T -> bool)
    ensures Filter(xs + ys, keep) == Filter(xs, keep) + Filter(ys, keep)
  {
    if xs == [] {
      assert xs + ys == ys;
    } else {
      assert (xs + ys)[1..] == xs[1..] + ys;
      FilterAppend(xs[1..], ys, keep);
    }
  }

  /** A link is reported when it has text, an https URL and no fragment. */
  predicate ShownLink(l: Link) {
    l.text != "" && StartsWith(l.url, "https://") && '#' !in l.url
  }

  /** History items are kept when their `url` is truthy. */
  predicate HasUrl(h: HistoryItem) {
    TruthyStr(h.url)
  }

  /** The bookmark type mapping: anything but "bookmark" or "folder" is a separator. */
  function ToBookmarkType(nodeType: Option<string>): (t: BookmarkType)
    ensures t == Bookmark <==> nodeType == Some("bookmark")
    ensures t == Folder <==> nodeType == Some("folder")
  {
    if nodeType == Some("bookmark") then Bookmark
    else if nodeType == Some("folder") then Folder
    else Separator
  }

  function ToBookmarkItem(n: BookmarkNode): BookmarkItem {
    BookmarkItem(n.id, n.title, n.url, ToBookmarkType(n.nodeType), n.parentId, n.dateAdded)
  }

  /** The code `executeJavaScript` runs: the caller's code wrapped in a function and invoked. */
  function WrapCode(code: string): string {
    "(function() { " + code + " })();"
  }

  /** The target of `clickElement`: a truthy selector wins, else the point `(x ?? 0, y ?? 0)`. */
  function ClickTargetOf(selector: Option<string>, x: Option<int>, y: Option<int>): ClickTarget {
    if TruthyStr(selector) then BySelector(selector.value)
    else ByPoint(if x.Some? then x.value else 0, if y.Some? then y.value else 0)
  }

  // Handlers.

  /**
   * A handler settles its request: it throws, or it replies to request `id`
   * with a resource of kind `kind`.
   */
  predicate Answers(h: Handled, id: string, kind: ResourceKind) {
    && !h.outcome.Unhandled?
    && (h.outcome.Replied? ==> h.outcome.msg.correlationId == id && h.outcome.msg.Kind() == kind)
  }

  function Raise(effects: seq<Effect>, message: string): Handled {
    Handled(effects, Raised(ErrorObject(message)))
  }

  /**
   * `openUrl`: only https URLs, then the deny list, both before a tab is
   * created; replies with the new tab's id (possibly undefined).
   */
  function OpenUrl(browser: Browser, settings: Settings, id: string, url: string): (h: Handled)
    ensures Answers(h, id, OpenedTabIdKind)
    ensures !StartsWith(url, "https://") ==> h == Raise([], InvalidUrlMessage)
    ensures StartsWith(url, "https://") && settings.isDomainInDenyList(url) ==> h == Raise([], DeniedUrlMessage)
    ensures h.outcome.Replied? || CreatedTab(url) in h.effects ==>
      StartsWith(url, "https://") && !settings.isDomainInDenyList(url)
    ensures StartsWith(url, "https://") && !settings.isDomainInDenyList(url) ==>
      && h.effects == [CreatedTab(url)]
      && (browser.createTab(url).Returns? ==> h.outcome == Replied(OpenedTabId(id, browser.createTab(url).value)))
      && (browser.createTab(url).Throws? ==> h.outcome == Raised(browser.createTab(url).thrown))
  {
    if !StartsWith(url, "https://") then Raise([], InvalidUrlMessage)
    else if settings.isDomainInDenyList(url) then Raise([], DeniedUrlMessage)
    else
      match browser.createTab(url)
      case Throws(t) => Handled([CreatedTab(url)], Raised(t))
      case Returns(tabId) => Handled([CreatedTab(url)], Replied(OpenedTabId(id, tabId)))
  }

  /**
   * The check every tab-scoped handler runs first: look the tab up (a failed
   * lookup throws), then throw if its URL is truthy and deny-listed.
   */
  function CheckTab(browser: Browser, settings: Settings, tabId: int): (r: Call<Tab>)
    ensures browser.getTab(tabId).Throws? ==> r == browser.getTab(tabId)
    ensures r.Returns? ==> browser.getTab(tabId) == r
    ensures r.Returns? ==> !(TruthyStr(r.value.url) && settings.isDomainInDenyList(r.value.url.value))
    ensures browser.getTab(tabId).Returns? ==>
      (r.Throws? <==> TruthyStr(browser.getTab(tabId).value.url) && settings.isDomainInDenyList(browser.getTab(tabId).value.url.value))
    ensures r.Throws? && browser.getTab(tabId).Returns? ==> r.thrown == ErrorObject(DeniedTabMessage)
  {
    match browser.getTab(tabId)
    case Throws(t) => Throws(t)
    case Returns(tab) =>
      if TruthyStr(tab.url) && settings.isDomainInDenyList(tab.url.value) then Throws(ErrorObject(DeniedTabMessage))
      else Returns(tab)
  }

  function CloseTabsHandler(browser: Browser, id: string, tabIds: seq<int>): (h: Handled)
    ensures Answers(h, id, TabsClosedKind)
  {
    match browser.removeTabs(tabIds)
    case Throws(t) => Handled([RemovedTabs(tabIds)], Raised(t))
    case Returns(_) => Handled([RemovedTabs(tabIds)], Replied(TabsClosed(id)))
  }

  function SendTabs(browser: Browser, id: string): (h: Handled)
    ensures Answers(h, id, TabsKind)
  {
    match browser.queryTabs
    case Throws(t) => Handled([], Raised(t))
    case Returns(tabs) => Handled([], Replied(Tabs(id, tabs)))
  }

  /**
   * The reply of `sendRecentHistory` to the outcome of a history search: the
   * items with a truthy `url`, in the order the search returned them.
   */
  predicate ListsHistory(h: Handled, id: string, found: Call<seq<HistoryItem>>) {
    && h.effects == []
    && match found
       case Throws(t) => h.outcome == Raised(t)
       case Returns(items) => h.outcome == Replied(History(id, Filter(items, HasUrl)))
  }

  /** `sendRecentHistory`: up to 200 items matching `searchQuery ?? ""`, keeping those with a URL. */
  function SendRecentHistory(browser: Browser, id: string, searchQuery: Option<string>): (h: Handled)
    ensures Answers(h, id, HistoryKind)
    ensures searchQuery.None? ==> ListsHistory(h, id, browser.searchHistory(HistoryQuery("", 200, 0)))
    ensures searchQuery.Some? ==> ListsHistory(h, id, browser.searchHistory(HistoryQuery(searchQuery.value, 200, 0)))
  {
    var query := HistoryQuery(if searchQuery.Some? then searchQuery.value else "", MaxHistoryResults, 0);
    match browser.searchHistory(query)
    case Throws(t) => Handled([], Raised(t))
    case Returns(items) => Handled([], Replied(History(id, Filter(items, HasUrl))))
  }

  /**
   * `sendTabsContent`: after the tab check, the page text from the offset on,
   * cut by `ReadContent`, with the whole text's length and the shown links.
   */
  function SendTabsContent(browser: Browser, settings: Settings, id: string, tabId: int, offset: Option<int>): (h: Handled)
    ensures Answers(h, id, TabContentKind)
    ensures CheckTab(browser, settings, tabId).Throws? ==> h == Handled([], Raised(CheckTab(browser, settings, tabId).thrown))
    ensures CheckTab(browser, settings, tabId).Returns? ==> h.effects == [RanScript(tabId)]
    ensures CheckTab(browser, settings, tabId).Returns? && browser.readPage(tabId).Throws? ==>
      h.outcome == Raised(browser.readPage(tabId).thrown)
    ensures CheckTab(browser, settings, tabId).Returns? && browser.readPage(tabId).Returns? ==>
      var page := browser.readPage(tabId).value;
      var c := ReadContent(page.innerText, offset);
      h.outcome == Replied(TabContent(id, tabId, c.text, c.isTruncated, |page.innerText|, Filter(page.anchors, ShownLink)))
  {
    match CheckTab(browser, settings, tabId)
    case Throws(t) => Handled([], Raised(t))
    case Returns(_) =>
      match browser.readPage(tabId)
      case Throws(t) => Handled([RanScript(tabId)], Raised(t))
      case Returns(page) =>
        var content := ReadContent(page.innerText, offset);
        Handled([RanScript(tabId)], Replied(TabContent(id, tabId, content.text, content.isTruncated,
          |page.innerText|, Filter(page.anchors, ShownLink))))
  }

  /**
   * The moves of `reorderTabs` from position `from` on: `tabOrder[i]` to
   * index `i`, for `i` ascending, stopping at the first move that throws.
   */
  function MoveTabs(browser: Browser, tabOrder: seq<int>, from: nat): (r: (seq<Effect>, Option<Thrown>))
    requires from <= |tabOrder|
    ensures |r.0| <= |tabOrder| - from
    ensures r.1.None? ==> |r.0| == |tabOrder| - from
    ensures r.1.Some? ==> 0 < |r.0|
    ensures forall k :: 0 <= k < |r.0| ==> r.0[k] == MovedTab(tabOrder[from + k], from + k)
    ensures r.1.None? <==> forall k :: from <= k < |tabOrder| ==> browser.moveTab(tabOrder[k], k).Returns?
    ensures r.1.Some? ==>
      && (forall k :: from <= k < from + |r.0| - 1 ==> browser.moveTab(tabOrder[k], k).Returns?)
      && browser.moveTab(tabOrder[from + |r.0| - 1], from + |r.0| - 1) == Throws(r.1.value)
    decreases |tabOrder| - from
  {
    if from == |tabOrder| then ([], None)
    else
      match browser.moveTab(tabOrder[from], from)
      case Throws(t) => ([MovedTab(tabOrder[from], from)], Some(t))
      case Returns(_) =>
        var rest := MoveTabs(browser, tabOrder, from + 1);
        ([MovedTab(tabOrder[from], from)] + rest.0, rest.1)
  }

  /**
   * `reorderTabs`: the moves in order; a failed move stops the loop and is
   * thrown, otherwise the requested order is echoed.
   */
  function ReorderTabsHandler(browser: Browser, id: string, tabOrder: seq<int>): (h: Handled)
    ensures Answers(h, id, TabsReorderedKind)
    ensures |h.effects| <= |tabOrder|
    ensures forall k :: 0 <= k < |h.effects| ==> h.effects[k] == MovedTab(tabOrder[k], k)
    ensures h.outcome.Replied? <==> forall k :: 0 <= k < |tabOrder| ==> browser.moveTab(tabOrder[k], k).Returns?
    ensures h.outcome.Replied? ==> h.outcome.msg == TabsReordered(id, tabOrder) && |h.effects| == |tabOrder|
    ensures h.outcome.Raised? ==>
      && 0 < |h.effects|
      && (forall k :: 0 <= k < |h.effects| - 1 ==> browser.moveTab(tabOrder[k], k).Returns?)
      && browser.moveTab(tabOrder[|h.effects| - 1], |h.effects| - 1) == Throws(h.outcome.thrown)
  {
    var (moves, failure) := MoveTabs(browser, tabOrder, 0);
    match failure
    case Some(t) => Handled(moves, Raised(t))
    case None => Handled(moves, Replied(TabsReordered(id, tabOrder)))
  }

  function FindAndHighlightText(browser: Browser, settings: Settings, id: string, tabId: int, phrase: string): (h: Handled)
    ensures Answers(h, id, FindHighlightResultKind)
  {
    match CheckTab(browser, settings, tabId)
    case Throws(t) => Handled([], Raised(t))
    case Returns(_) =>
      match browser.find(phrase, tabId)
      case Throws(t) => Handled([], Raised(t))
      case Returns(count) =>
        if count > 0 then
          match browser.activateTab(tabId)
          case Throws(t) => Handled([ActivatedTab(tabId)], Raised(t))
          case Returns(_) => Handled([ActivatedTab(tabId)], Replied(FindHighlightResult(id, count)))
        else Handled([], Replied(FindHighlightResult(id, count)))
  }

  function GroupTabsHandler(browser: Browser, id: string, tabIds: seq<int>, collapsed: bool, color: string, title: string): (h: Handled)
    ensures Answers(h, id, NewTabGroupKind)
  {
    match browser.groupTabs(tabIds)
    case Throws(t) => Handled([GroupedTabs(tabIds)], Raised(t))
    case Returns(groupId) =>
      match browser.updateGroup(groupId, collapsed, color, title)
      case Throws(t) => Handled([GroupedTabs(tabIds), UpdatedGroup(groupId)], Raised(t))
      case Returns(updated) => Handled([GroupedTabs(tabIds), UpdatedGroup(groupId)], Replied(NewTabGroup(id, updated)))
  }

  function ClickElementHandler(browser: Browser, settings: Settings, id: string, tabId: int,
                               selector: Option<string>, x: Option<int>, y: Option<int>): (h: Handled)
    ensures Answers(h, id, ElementClickedKind)
  {
    match CheckTab(browser, settings, tabId)
    case Throws(t) => Handled([], Raised(t))
    case Returns(_) =>
      match browser.click(tabId, ClickTargetOf(selector, x, y))
      case Throws(t) => Handled([RanScript(tabId)], Raised(t))
      case Returns(c) => Handled([RanScript(tabId)], Replied(ElementClicked(id, c.success, c.elementInfo)))
  }

  function FillFormFieldHandler(browser: Browser, settings: Settings, id: string, tabId: int,
                                selector: string, value: string, submit: Option<bool>): (h: Handled)
    ensures Answers(h, id, FormFieldFilledKind)
  {
    match CheckTab(browser, settings, tabId)
    case Throws(t) => Handled([], Raised(t))
    case Returns(_) =>
      match browser.fill(tabId, selector, value, submit == Some(true))
      case Throws(t) => Handled([RanScript(tabId)], Raised(t))
      case Returns(ok) => Handled([RanScript(tabId)], Replied(FormFieldFilled(id, ok)))
  }

  /**
   * `executeJavaScript`: after the tab check, a failing script is caught and
   * reported in the reply (`result: null` and the thrown value's `message`);
   * reading `message` of a thrown `null` or `undefined` throws a `TypeError`
   * out of the catch block instead.
   */
  function ExecuteJavaScriptHandler(browser: Browser, settings: Settings, id: string, tabId: int, code: string): (h: Handled)
    ensures Answers(h, id, JavascriptExecutedKind)
  {
    match CheckTab(browser, settings, tabId)
    case Throws(t) => Handled([], Raised(t))
    case Returns(_) =>
      match browser.runScript(tabId, WrapCode(code))
      case Returns(result) => Handled([RanScript(tabId)], Replied(JavascriptExecuted(id, result, None)))
      case Throws(ErrorObject(m)) => Handled([RanScript(tabId)], Replied(JavascriptExecuted(id, Some(JNull), Some(m))))
      case Throws(NonError(m)) => Handled([RanScript(tabId)], Replied(JavascriptExecuted(id, Some(JNull), m)))
      case Throws(Nullish) => Handled([RanScript(tabId)], Raised(ErrorObject(browser.nullishReadMessage)))
  }

  function MonitorPageChangesHandler(browser: Browser, settings: Settings, id: string, tabId: int,
                                     selector: Option<string>, timeout: Option<int>): (h: Handled)
    ensures Answers(h, id, PageChangesDetectedKind)
  {
    match CheckTab(browser, settings, tabId)
    case Throws(t) => Handled([], Raised(t))
    case Returns(_) =>
      var maxTimeout := if timeout.Some? then timeout.value else DefaultObserveTimeout;
      var target := if TruthyStr(selector) then selector else None;
      match browser.observe(tabId, target, maxTimeout)
      case Throws(t) => Handled([RanScript(tabId)], Raised(t))
      case Returns(c) => Handled([RanScript(tabId)], Replied(PageChangesDetected(id, c.changes, c.timedOut)))
  }

  /** `screenshotWebsite`: activates the tab and captures its window; `fullPage` is not used. */
  function ScreenshotHandler(browser: Browser, settings: Settings, id: string, tabId: int): (h: Handled)
    ensures Answers(h, id, ScreenshotSavedKind)
  {
    match CheckTab(browser, settings, tabId)
    case Throws(t) => Handled([], Raised(t))
    case Returns(tab) =>
      match browser.activateTab(tabId)
      case Throws(t) => Handled([ActivatedTab(tabId)], Raised(t))
      case Returns(_) =>
        match browser.captureTab(tab.windowId)
        case Throws(t) => Handled([ActivatedTab(tabId), CapturedTab(tab.windowId)], Raised(t))
        case Returns(dataUrl) => Handled([ActivatedTab(tabId), CapturedTab(tab.windowId)], Replied(ScreenshotSaved(id, dataUrl)))
  }

  /** A reported bookmark carries the node's fields, its type mapped to the three literals. */
  predicate Mirrors(item: BookmarkItem, node: BookmarkNode) {
    && item.id == node.id && item.title == node.title && item.url == node.url
    && item.kind == ToBookmarkType(node.nodeType)
    && item.parentId == node.parentId && item.dateAdded == node.dateAdded
  }

  /** The reply of `searchBookmarks` to the outcome of the search: every node, in order. */
  predicate ListsBookmarks(h: Handled, id: string, found: Call<seq<BookmarkNode>>) {
    && h.effects == []
    && match found
       case Throws(t) => h.outcome == Raised(t)
       case Returns(nodes) =>
         && h.outcome.Replied? && h.outcome.msg.BookmarksFound? && h.outcome.msg.correlationId == id
         && |h.outcome.msg.bookmarks| == |nodes|
         && forall i :: 0 <= i < |nodes| ==> Mirrors(h.outcome.msg.bookmarks[i], nodes[i])
  }

  /** `searchBookmarks`: an empty or missing query searches everything. */
  function SearchBookmarksHandler(browser: Browser, id: string, query: Option<string>): (h: Handled)
    ensures Answers(h, id, BookmarksFoundKind)
    ensures TruthyStr(query) ==> ListsBookmarks(h, id, browser.searchBookmarks(query))
    ensures !TruthyStr(query) ==> ListsBookmarks(h, id, browser.searchBookmarks(None))
  {
    match browser.searchBookmarks(if TruthyStr(query) then query else None)
    case Throws(t) => Handled([], Raised(t))
    case Returns(nodes) =>
      Handled([], Replied(BookmarksFound(id, seq(|nodes|, i requires 0 <= i < |nodes| => ToBookmarkItem(nodes[i])))))
  }

  /**
   * `openBookmark`: never throws; reports failure when the bookmark is not
   * found, has no URL, or any call throws.
   */
  function OpenBookmarkHandler(browser: Browser, id: string, bookmarkId: string): (h: Handled)
    ensures Answers(h, id, BookmarkOpenedKind)
  {
    match browser.getBookmarks(bookmarkId)
    case Throws(_) => Handled([], Replied(BookmarkOpened(id, None, false)))
    case Returns(nodes) =>
      if |nodes| == 0 || !TruthyStr(nodes[0].url) then Handled([], Replied(BookmarkOpened(id, None, false)))
      else
        var url := nodes[0].url.value;
        match browser.createTab(url)
        case Throws(_) => Handled([CreatedTab(url)], Replied(BookmarkOpened(id, None, false)))
        case Returns(tabId) => Handled([CreatedTab(url)], Replied(BookmarkOpened(id, tabId, true)))
  }

  /** The `switch` on `req.cmd`. */
  function Execute(browser: Browser, settings: Settings, req: Request): (h: Handled)
    ensures !h.outcome.Unhandled?
    ensures h.outcome.Replied? ==> h.outcome.msg.correlationId == req.correlationId
  {
    var id := req.correlationId;
    match req.command
    case OpenTab(url) => OpenUrl(browser, settings, id, url)
    case CloseTabs(tabIds) => CloseTabsHandler(browser, id, tabIds)
    case GetTabList => SendTabs(browser, id)
    case GetBrowserRecentHistory(q) => SendRecentHistory(browser, id, q)
    case GetTabContent(tabId, offset) => SendTabsContent(browser, settings, id, tabId, offset)
    case ReorderTabs(order) => ReorderTabsHandler(browser, id, order)
    case FindHighlight(tabId, phrase) => FindAndHighlightText(browser, settings, id, tabId, phrase)
    case GroupTabs(tabIds, collapsed, color, title) => GroupTabsHandler(browser, id, tabIds, collapsed, color, title)
    case ClickElement(tabId, sel, x, y) => ClickElementHandler(browser, settings, id, tabId, sel, x, y)
    case FillFormField(tabId, sel, value, submit) => FillFormFieldHandler(browser, settings, id, tabId, sel, value, submit)
    case ExecuteJavaScript(tabId, code) => ExecuteJavaScriptHandler(browser, settings, id, tabId, code)
    case MonitorPageChanges(tabId, sel, timeout) => MonitorPageChangesHandler(browser, settings, id, tabId, sel, timeout)
    case ScreenshotWebsite(tabId, _) => ScreenshotHandler(browser, settings, id, tabId)
    case SearchBookmarks(q) => SearchBookmarksHandler(browser, id, q)
    case OpenBookmark(bookmarkId) => OpenBookmarkHandler(browser, id, bookmarkId)
  }

  /**
   * The audit entry of an allowed request. The `url` and `tabId` tests are
   * made on the received object, so they apply to an unknown command too.
   */
  function AuditEntryFor(browser: Browser, settings: Settings, incoming: Incoming): (e: AuditEntry)
    ensures e.command == incoming.Cmd() && e.toolId == settings.toolIdOf(incoming.Cmd()) && e.timestamp == settings.now
    ensures incoming.Known? && incoming.req.command.OpenTab? ==>
      (e.url.Some? <==> incoming.req.command.url != "") && (e.url.Some? ==> e.url == Some(incoming.req.command.url))
    ensures incoming.Known? && incoming.req.command.TargetTab().Some? ==>
      var lookup := browser.getTab(incoming.req.command.TargetTab().value);
      e.url == if lookup.Returns? then lookup.value.url else None
    ensures incoming.Known? && incoming.req.command.TargetTab().None? && !incoming.req.command.OpenTab? ==> e.url.None?
    ensures incoming.UnknownCommand? && incoming.tabId.Some? && browser.getTab(incoming.tabId.value).Returns? ==>
      e.url == browser.getTab(incoming.tabId.value).value.url
    ensures incoming.UnknownCommand? && (incoming.tabId.None? || browser.getTab(incoming.tabId.value).Throws?) ==>
      e.url == if TruthyStr(incoming.url) then incoming.url else None
  {
    AuditEntry(settings.toolIdOf(incoming.Cmd()), incoming.Cmd(), settings.now,
      AuditContextUrl(browser.getTab, incoming.UrlField(), incoming.TabIdField()))
  }

  /**
   * `handleDecodedMessage`: the command gate first (a disabled command throws
   * before anything else happens, audit included), then the audit entry,
   * whose failure is only logged, then the handler of the command.
   */
  function HandleDecodedMessage(browser: Browser, settings: Settings, incoming: Incoming): (h: Handled)
    ensures !settings.isCommandAllowed(incoming.Cmd()) ==>
      h == Handled([], Raised(ErrorObject(DisabledMessage(incoming.Cmd()))))
    ensures settings.isCommandAllowed(incoming.Cmd()) ==>
      |h.effects| >= 1 && h.effects[0].Audited? && h.effects[0].entry == AuditEntryFor(browser, settings, incoming)
    ensures h.outcome.Unhandled? <==> settings.isCommandAllowed(incoming.Cmd()) && incoming.UnknownCommand?
    ensures settings.isCommandAllowed(incoming.Cmd()) && incoming.Known? ==>
      h == Handled([AuditEffect(browser, settings, incoming)] + Execute(browser, settings, incoming.req).effects,
                   Execute(browser, settings, incoming.req).outcome)
  {
    if !settings.isCommandAllowed(incoming.Cmd()) then Raise([], DisabledMessage(incoming.Cmd()))
    else
      var entry := AuditEntryFor(browser, settings, incoming);
      var audit := Audited(entry, settings.auditSink(entry));
      var h := match incoming
        case Known(req) => Execute(browser, settings, req)
        case UnknownCommand(_, _, _, _) => Handled([], Unhandled);
      Handled([audit] + h.effects, h.outcome)
  }

  // Properties of the dispatcher.

  /** The audit record an allowed request starts with. */
  function AuditEffect(browser: Browser, settings: Settings, incoming: Incoming): Effect {
    var entry := AuditEntryFor(browser, settings, incoming);
    Audited(entry, settings.auditSink(entry))
  }

  /**
   * A tab-scoped command whose tab URL is truthy and deny-listed throws
   * "Domain in tab URL is in the deny list" before doing anything but the
   * audit entry, and sends no resource.
   */
  lemma DeniedTabStopsCommand(browser: Browser, settings: Settings, req: Request, tab: Tab)
    requires settings.isCommandAllowed(req.command.Name())
    requires req.command.TargetTab().Some? && browser.getTab(req.command.TargetTab().value) == Returns(tab)
    requires TruthyStr(tab.url) && settings.isDomainInDenyList(tab.url.value)
    ensures HandleDecodedMessage(browser, settings, Known(req)) ==
      Handled([AuditEffect(browser, settings, Known(req))], Raised(ErrorObject(DeniedTabMessage)))
  {
  }

  /** A tab lookup that throws stops a tab-scoped command with that thrown value (fail-closed). */
  lemma FailedTabLookupStopsCommand(browser: Browser, settings: Settings, req: Request, thrown: Thrown)
    requires settings.isCommandAllowed(req.command.Name())
    requires req.command.TargetTab().Some? && browser.getTab(req.command.TargetTab().value) == Throws(thrown)
    ensures HandleDecodedMessage(browser, settings, Known(req)) ==
      Handled([AuditEffect(browser, settings, Known(req))], Raised(thrown))
  {
  }

  /**
   * The deny check is skipped for a tab whose URL is undefined or empty:
   * such a tab passes whatever the deny list says.
   */
  lemma FalsyTabUrlPasses(browser: Browser, settings: Settings, tabId: int, tab: Tab)
    requires browser.getTab(tabId) == Returns(tab) && !TruthyStr(tab.url)
    ensures CheckTab(browser, settings, tabId) == Returns(tab)
  {
  }

  /** `open-tab` with a non-https or deny-listed URL throws; no tab is created and nothing is sent. */
  lemma OpenTabRefusals(browser: Browser, settings: Settings, id: string, url: string)
    requires settings.isCommandAllowed("open-tab")
    requires !StartsWith(url, "https://") || settings.isDomainInDenyList(url)
    ensures var req := Request(OpenTab(url), id);
      HandleDecodedMessage(browser, settings, Known(req)) ==
      Handled([AuditEffect(browser, settings, Known(req))],
        Raised(ErrorObject(if !StartsWith(url, "https://") then InvalidUrlMessage else DeniedUrlMessage)))
  {
  }

  /** Whether the audit entry is written or its failure logged, the command itself runs the same. */
  lemma AuditFailureIsolated(browser: Browser, settings: Settings, incoming: Incoming, sink: AuditEntry -> bool)
    requires settings.isCommandAllowed(incoming.Cmd())
    ensures var h1 := HandleDecodedMessage(browser, settings, incoming);
      var h2 := HandleDecodedMessage(browser, settings.(auditSink := sink), incoming);
      && h1.outcome == h2.outcome
      && h1.effects[1..] == h2.effects[1..]
      && h1.effects[0].entry == h2.effects[0].entry
  {
    var h1 := HandleDecodedMessage(browser, settings, incoming);
    var h2 := HandleDecodedMessage(browser, settings.(auditSink := sink), incoming);
    match incoming
    case Known(req) =>
      assert h1.effects[1..] == Execute(browser, settings, req).effects;
      assert Execute(browser, settings, req) == Execute(browser, settings.(auditSink := sink), req);
    case UnknownCommand(_, _, _, _) =>
  }

  /** An allowed command outside the union is audited, logged and otherwise ignored. */
  lemma UnknownCommandIgnored(browser: Browser, settings: Settings, incoming: Incoming)
    requires incoming.UnknownCommand? && settings.isCommandAllowed(incoming.cmd)
    ensures HandleDecodedMessage(browser, settings, incoming) ==
      Handled([AuditEffect(browser, settings, incoming)], Unhandled)
  {
  }

  /**
   * `reorder-tabs` moves `tabOrder[i]` to index `i` for `i` ascending and,
   * when every move succeeds, echoes `tabOrder` unchanged.
   */
  lemma ReorderMovesInOrder(browser: Browser, id: string, tabOrder: seq<int>)
    requires forall i :: 0 <= i < |tabOrder| ==> browser.moveTab(tabOrder[i], i).Returns?
    ensures var h := ReorderTabsHandler(browser, id, tabOrder);
      && h.outcome == Replied(TabsReordered(id, tabOrder))
      && |h.effects| == |tabOrder|
      && forall i :: 0 <= i < |tabOrder| ==> h.effects[i] == MovedTab(tabOrder[i], i)
  {
  }

  /**
   * `open-bookmark` always replies; it succeeds exactly when the bookmark is
   * found, has a URL, and the tab is created, and then reports the tab's id.
   */
  lemma OpenBookmarkOutcome(browser: Browser, id: string, bookmarkId: string)
    ensures var h := OpenBookmarkHandler(browser, id, bookmarkId);
      var found := browser.getBookmarks(bookmarkId);
      && h.outcome.Replied? && h.outcome.msg.BookmarkOpened? && h.outcome.msg.correlationId == id
      && (h.outcome.msg.success <==>
            found.Returns? && |found.value| > 0 && TruthyStr(found.value[0].url)
            && browser.createTab(found.value[0].url.value).Returns?)
      && (h.outcome.msg.success ==> h.outcome.msg.openedTabId == browser.createTab(found.value[0].url.value).value)
      && (!h.outcome.msg.success ==> h.outcome.msg.openedTabId.None?)
  {
  }

  /**
   * Once its tab passes the check, `execute-javascript` replies whatever the
   * script does, except when the script throws `null` or `undefined`: then
   * reading the thrown value's `message` throws a `TypeError`.
   */
  lemma ExecuteJavaScriptCatchesFailures(browser: Browser, settings: Settings, id: string, tabId: int, code: string)
    requires CheckTab(browser, settings, tabId).Returns?
    ensures var h := ExecuteJavaScriptHandler(browser, settings, id, tabId, code);
      var run := browser.runScript(tabId, WrapCode(code));
      && h.effects == [RanScript(tabId)]
      && (h.outcome.Replied? <==> run != Throws(Nullish))
      && (run.Returns? ==> h.outcome.msg == JavascriptExecuted(id, run.value, None))
      && (run.Throws? && run.thrown.ErrorObject? ==>
            h.outcome.msg == JavascriptExecuted(id, Some(JNull), Some(run.thrown.message)))
      && (run.Throws? && run.thrown.NonError? ==>
            h.outcome.msg == JavascriptExecuted(id, Some(JNull), run.thrown.messageProperty))
      && (run == Throws(Nullish) ==> h.outcome == Raised(ErrorObject(browser.nullishReadMessage)))
  {
  }
}
