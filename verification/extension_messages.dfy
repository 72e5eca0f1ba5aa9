/**
 * The replies the browser extension sends back: a closed union of fifteen
 * resources tagged by their `resource` literal, each carrying the
 * `correlationId` of the request it answers, plus the error envelope.
 */
module ExtensionMessages {
  import opened Wrappers
  import opened JsonData

  /** `BrowserTab`: the fields of a browser tab the server reads. */
  datatype BrowserTab = BrowserTab(id: Option<int>, url: Option<string>, title: Option<string>, lastAccessed: Option<int>)

  /** `BrowserHistoryItem`. */
  datatype HistoryItem = HistoryItem(url: Option<string>, title: Option<string>, lastVisitTime: Option<int>)

  /** A link of a page's content: its target and its visible text. */
  datatype Link = Link(url: string, text: string)

  /** The three kinds a bookmark item may have. */
  datatype BookmarkType = Bookmark | Folder | Separator {
    function Literal(): string {
      match this
      case Bookmark => "bookmark"
      case Folder => "folder"
      case Separator => "separator"
    }
  }

  /** `BookmarkItem`. */
  datatype BookmarkItem = BookmarkItem(
    id: string, title: string, url: Option<string>, kind: BookmarkType,
    parentId: Option<string>, dateAdded: Option<int>)

  /** The fifteen `resource` literals, as an enumeration. */
  datatype ResourceKind =
    | TabContentKind
    | TabsKind
    | OpenedTabIdKind
    | HistoryKind
    | TabsReorderedKind
    | FindHighlightResultKind
    | TabsClosedKind
    | NewTabGroupKind
    | ElementClickedKind
    | FormFieldFilledKind
    | JavascriptExecutedKind
    | PageChangesDetectedKind
    | ScreenshotSavedKind
    | BookmarksFoundKind
    | BookmarkOpenedKind
  {
    /** The literal on the wire. */
    function Literal(): string {
      match this
      case TabContentKind => "tab-content"
      case TabsKind => "tabs"
      case OpenedTabIdKind => "opened-tab-id"
      case HistoryKind => "history"
      case TabsReorderedKind => "tabs-reordered"
      case FindHighlightResultKind => "find-highlight-result"
      case TabsClosedKind => "tabs-closed"
      case NewTabGroupKind => "new-tab-group"
      case ElementClickedKind => "element-clicked"
      case FormFieldFilledKind => "form-field-filled"
      case JavascriptExecutedKind => "javascript-executed"
      case PageChangesDetectedKind => "page-changes-detected"
      case ScreenshotSavedKind => "screenshot-saved"
      case BookmarksFoundKind => "bookmarks-found"
      case BookmarkOpenedKind => "bookmark-opened"
    }
  }

  /**
   * One variant per resource. The optional `tabId` of opened-tab-id and
   * bookmark-opened is `openedTabId` here (a destructor has one type across
   * variants); on the wire its key is "tabId" in all three resources.
   */
  datatype ExtensionMessage =
    | TabContent(correlationId: string, tabId: int, fullText: string, isTruncated: bool, totalLength: int, links: seq<Link>)
    | Tabs(correlationId: string, tabs: seq<BrowserTab>)
    | OpenedTabId(correlationId: string, openedTabId: Option<int>)
    | History(correlationId: string, historyItems: seq<HistoryItem>)
    | TabsReordered(correlationId: string, tabOrder: seq<int>)
    | FindHighlightResult(correlationId: string, noOfResults: int)
    | TabsClosed(correlationId: string)
    | NewTabGroup(correlationId: string, groupId: int)
    | ElementClicked(correlationId: string, success: bool, elementInfo: Option<string>)
    | FormFieldFilled(correlationId: string, success: bool)
    | JavascriptExecuted(correlationId: string, result: Option<Json>, error: Option<string>)
    | PageChangesDetected(correlationId: string, changes: string, timedOut: bool)
    | ScreenshotSaved(correlationId: string, dataUrl: string)
    | BookmarksFound(correlationId: string, bookmarks: seq<BookmarkItem>)
    | BookmarkOpened(correlationId: string, openedTabId: Option<int>, success: bool)
  {
    /** The kind of the variant. */
    function Kind(): ResourceKind {
      match this
      case TabContent(_, _, _, _, _, _) => TabContentKind
      case Tabs(_, _) => TabsKind
      case OpenedTabId(_, _) => OpenedTabIdKind
      case History(_, _) => HistoryKind
      case TabsReordered(_, _) => TabsReorderedKind
      case FindHighlightResult(_, _) => FindHighlightResultKind
      case TabsClosed(_) => TabsClosedKind
      case NewTabGroup(_, _) => NewTabGroupKind
      case ElementClicked(_, _, _) => ElementClickedKind
      case FormFieldFilled(_, _) => FormFieldFilledKind
      case JavascriptExecuted(_, _, _) => JavascriptExecutedKind
      case PageChangesDetected(_, _, _) => PageChangesDetectedKind
      case ScreenshotSaved(_, _) => ScreenshotSavedKind
      case BookmarksFound(_, _) => BookmarksFoundKind
      case BookmarkOpened(_, _, _) => BookmarkOpenedKind
    }

    /** The `resource` literal of the variant. */
    function Resource(): string {
      Kind().Literal()
    }
  }

  /** `ExtensionError`: the envelope sent instead of a resource when a command throws. */
  datatype ExtensionError = ExtensionError(correlationId: string, errorMessage: string)

  // Nested records.

  function EncodeTab(t: BrowserTab): Json {
    JObj(Put(Put(Put(Put(map[], "id", OptNum(t.id)), "url", OptStr(t.url)), "title", OptStr(t.title)),
      "lastAccessed", OptNum(t.lastAccessed)))
  }

  function DecodeTab(j: Json): Option<BrowserTab> {
    if !j.JObj? then None
    else
      var id :- Optional(j.fields, "id", AsInt);
      var url :- Optional(j.fields, "url", AsString);
      var title :- Optional(j.fields, "title", AsString);
      var last :- Optional(j.fields, "lastAccessed", AsInt);
      Some(BrowserTab(id, url, title, last))
  }

  function EncodeHistoryItem(h: HistoryItem): Json {
    JObj(Put(Put(Put(map[], "url", OptStr(h.url)), "title", OptStr(h.title)), "lastVisitTime", OptNum(h.lastVisitTime)))
  }

  function DecodeHistoryItem(j: Json): Option<HistoryItem> {
    if !j.JObj? then None
    else
      var url :- Optional(j.fields, "url", AsString);
      var title :- Optional(j.fields, "title", AsString);
      var last :- Optional(j.fields, "lastVisitTime", AsInt);
      Some(HistoryItem(url, title, last))
  }

  function EncodeLink(l: Link): Json {
    JObj(map["url" := JStr(l.url), "text" := JStr(l.text)])
  }

  function DecodeLink(j: Json): Option<Link> {
    if !j.JObj? then None
    else
      var url :- Required(j.fields, "url", AsString);
      var text :- Required(j.fields, "text", AsString);
      Some(Link(url, text))
  }

  function ParseBookmarkType(s: string): Option<BookmarkType> {
    if s == "bookmark" then Some(Bookmark)
    else if s == "folder" then Some(Folder)
    else if s == "separator" then Some(Separator)
    else None
  }

  function EncodeBookmark(b: BookmarkItem): Json {
    JObj(Put(Put(Put(map["id" := JStr(b.id), "title" := JStr(b.title)], "url", OptStr(b.url))
      ["type" := JStr(b.kind.Literal())], "parentId", OptStr(b.parentId)), "dateAdded", OptNum(b.dateAdded)))
  }

  function DecodeBookmark(j: Json): Option<BookmarkItem> {
    if !j.JObj? then None
    else
      var id :- Required(j.fields, "id", AsString);
      var title :- Required(j.fields, "title", AsString);
      var url :- Optional(j.fields, "url", AsString);
      var literal :- Required(j.fields, "type", AsString);
      var kind :- ParseBookmarkType(literal);
      var parent :- Optional(j.fields, "parentId", AsString);
      var added :- Optional(j.fields, "dateAdded", AsInt);
      Some(BookmarkItem(id, title, url, kind, parent, added))
  }

  lemma TabRoundTrip(t: BrowserTab)
    ensures DecodeTab(EncodeTab(t)) == Some(t)
  {
  }

  lemma HistoryItemRoundTrip(h: HistoryItem)
    ensures DecodeHistoryItem(EncodeHistoryItem(h)) == Some(h)
  {
  }

  lemma BookmarkRoundTrip(b: BookmarkItem)
    ensures DecodeBookmark(EncodeBookmark(b)) == Some(b)
  {
  }

  lemma NestedRoundTrips()
    ensures forall t :: DecodeTab(EncodeTab(t)) == Some(t)
    ensures forall h :: DecodeHistoryItem(EncodeHistoryItem(h)) == Some(h)
    ensures forall l :: DecodeLink(EncodeLink(l)) == Some(l)
    ensures forall b :: DecodeBookmark(EncodeBookmark(b)) == Some(b)
  {
    forall t: BrowserTab ensures DecodeTab(EncodeTab(t)) == Some(t) {
      TabRoundTrip(t);
    }
    forall h: HistoryItem ensures DecodeHistoryItem(EncodeHistoryItem(h)) == Some(h) {
      HistoryItemRoundTrip(h);
    }
    forall b: BookmarkItem ensures DecodeBookmark(EncodeBookmark(b)) == Some(b) {
      BookmarkRoundTrip(b);
    }
  }

  // Messages.

  /** The fields of a resource beyond its kind and correlation id; `undefined` fields are omitted. */
  function Payload(msg: ExtensionMessage): (m: map<string, Json>)
    ensures "resource" !in m && "correlationId" !in m && "errorMessage" !in m
  {
    match msg
    case TabContent(_, tabId, text, truncated, total, links) =>
      map["tabId" := Num(tabId), "fullText" := Str(text), "isTruncated" := Bool(truncated),
          "totalLength" := Num(total), "links" := ArrayOf(links, EncodeLink)]
    case Tabs(_, tabs) => map["tabs" := ArrayOf(tabs, EncodeTab)]
    case OpenedTabId(_, tabId) => Put(map[], "tabId", OptNum(tabId))
    case History(_, items) => map["historyItems" := ArrayOf(items, EncodeHistoryItem)]
    case TabsReordered(_, order) => map["tabOrder" := ArrayOf(order, Num)]
    case FindHighlightResult(_, n) => map["noOfResults" := Num(n)]
    case TabsClosed(_) => map[]
    case NewTabGroup(_, g) => map["groupId" := Num(g)]
    case ElementClicked(_, ok, info) => Put(map["success" := Bool(ok)], "elementInfo", OptStr(info))
    case FormFieldFilled(_, ok) => map["success" := Bool(ok)]
    case JavascriptExecuted(_, result, error) => Put(Put(map[], "result", result), "error", OptStr(error))
    case PageChangesDetected(_, changes, timedOut) => map["changes" := Str(changes), "timedOut" := Bool(timedOut)]
    case ScreenshotSaved(_, dataUrl) => map["dataUrl" := Str(dataUrl)]
    case BookmarksFound(_, items) => map["bookmarks" := ArrayOf(items, EncodeBookmark)]
    case BookmarkOpened(_, tabId, ok) => Put(map["success" := Bool(ok)], "tabId", OptNum(tabId))
  }

  /** The object the extension sends for a resource: its kind, its correlation id and its payload. */
  function EncodeMessage(msg: ExtensionMessage): (j: Json)
    ensures j.JObj?
    ensures "resource" in j.fields && j.fields["resource"] == JStr(msg.Resource())
    ensures "correlationId" in j.fields && j.fields["correlationId"] == JStr(msg.correlationId)
    ensures "errorMessage" !in j.fields
  {
    JObj(Payload(msg)["resource" := JStr(msg.Resource())]["correlationId" := JStr(msg.correlationId)])
  }

  /** The kind whose literal is `name`, if any. */
  function ParseResourceKind(name: string): (k: Option<ResourceKind>)
    ensures k.Some? ==> k.value.Literal() == name
  {
    if name == "tab-content" then Some(TabContentKind)
    else if name == "tabs" then Some(TabsKind)
    else if name == "opened-tab-id" then Some(OpenedTabIdKind)
    else if name == "history" then Some(HistoryKind)
    else if name == "tabs-reordered" then Some(TabsReorderedKind)
    else if name == "find-highlight-result" then Some(FindHighlightResultKind)
    else if name == "tabs-closed" then Some(TabsClosedKind)
    else if name == "new-tab-group" then Some(NewTabGroupKind)
    else if name == "element-clicked" then Some(ElementClickedKind)
    else if name == "form-field-filled" then Some(FormFieldFilledKind)
    else if name == "javascript-executed" then Some(JavascriptExecutedKind)
    else if name == "page-changes-detected" then Some(PageChangesDetectedKind)
    else if name == "screenshot-saved" then Some(ScreenshotSavedKind)
    else if name == "bookmarks-found" then Some(BookmarksFoundKind)
    else if name == "bookmark-opened" then Some(BookmarkOpenedKind)
    else None
  }

  /** The resource of kind `kind`, from the fields of `m`. */
  function DecodeResource(kind: ResourceKind, id: string, m: map<string, Json>): Option<ExtensionMessage> {
    match kind
    case TabContentKind =>
      var tabId :- Required(m, "tabId", AsInt);
      var text :- Required(m, "fullText", AsString);
      var truncated :- Required(m, "isTruncated", AsBool);
      var total :- Required(m, "totalLength", AsInt);
      var links :- Required(m, "links", AsArrayOf(DecodeLink));
      Some(TabContent(id, tabId, text, truncated, total, links))
    case TabsKind =>
      var tabs :- Required(m, "tabs", AsArrayOf(DecodeTab));
      Some(Tabs(id, tabs))
    case OpenedTabIdKind =>
      var tabId :- Optional(m, "tabId", AsInt);
      Some(OpenedTabId(id, tabId))
    case HistoryKind =>
      var items :- Required(m, "historyItems", AsArrayOf(DecodeHistoryItem));
      Some(History(id, items))
    case TabsReorderedKind =>
      var order :- Required(m, "tabOrder", AsArrayOf(AsInt));
      Some(TabsReordered(id, order))
    case FindHighlightResultKind =>
      var n :- Required(m, "noOfResults", AsInt);
      Some(FindHighlightResult(id, n))
    case TabsClosedKind =>
      Some(TabsClosed(id))
    case NewTabGroupKind =>
      var g :- Required(m, "groupId", AsInt);
      Some(NewTabGroup(id, g))
    case ElementClickedKind =>
      var ok :- Required(m, "success", AsBool);
      var info :- Optional(m, "elementInfo", AsString);
      Some(ElementClicked(id, ok, info))
    case FormFieldFilledKind =>
      var ok :- Required(m, "success", AsBool);
      Some(FormFieldFilled(id, ok))
    case JavascriptExecutedKind =>
      var result :- Optional(m, "result", AsAny);
      var error :- Optional(m, "error", AsString);
      Some(JavascriptExecuted(id, result, error))
    case PageChangesDetectedKind =>
      var changes :- Required(m, "changes", AsString);
      var timedOut :- Required(m, "timedOut", AsBool);
      Some(PageChangesDetected(id, changes, timedOut))
    case ScreenshotSavedKind =>
      var dataUrl :- Required(m, "dataUrl", AsString);
      Some(ScreenshotSaved(id, dataUrl))
    case BookmarksFoundKind =>
      var items :- Required(m, "bookmarks", AsArrayOf(DecodeBookmark));
      Some(BookmarksFound(id, items))
    case BookmarkOpenedKind =>
      var tabId :- Optional(m, "tabId", AsInt);
      var ok :- Required(m, "success", AsBool);
      Some(BookmarkOpened(id, tabId, ok))
  }

  /** The decoded resource: `None` when the object is not a well-typed resource. */
  function DecodeMessage(j: Json): Option<ExtensionMessage> {
    if !j.JObj? then None
    else
      var name :- Required(j.fields, "resource", AsString);
      var id :- Required(j.fields, "correlationId", AsString);
      var kind :- ParseResourceKind(name);
      DecodeResource(kind, id, j.fields)
  }

  /** Parsing a resource literal gives back its kind. */
  lemma {:induction false} ResourceKindRoundTrip(k: ResourceKind)
    ensures ParseResourceKind(k.Literal()) == Some(k)
  {
    match k
    case TabContentKind => EarlyKindsParse(k);
    case TabsKind => EarlyKindsParse(k);
    case OpenedTabIdKind => EarlyKindsParse(k);
    case HistoryKind => EarlyKindsParse(k);
    case TabsReorderedKind => EarlyKindsParse(k);
    case FindHighlightResultKind => EarlyKindsParse(k);
    case TabsClosedKind => MiddleKindsParse(k);
    case NewTabGroupKind => MiddleKindsParse(k);
    case ElementClickedKind => MiddleKindsParse(k);
    case FormFieldFilledKind => MiddleKindsParse(k);
    case JavascriptExecutedKind => MiddleKindsParse(k);
    case PageChangesDetectedKind => LateKindsParse(k);
    case ScreenshotSavedKind => LateKindsParse(k);
    case BookmarksFoundKind => LateKindsParse(k);
    case BookmarkOpenedKind => LateKindsParse(k);
  }

  lemma EarlyKindsParse(k: ResourceKind)
    requires k.TabContentKind? || k.TabsKind? || k.OpenedTabIdKind? || k.HistoryKind? || k.TabsReorderedKind? || k.FindHighlightResultKind?
    ensures ParseResourceKind(k.Literal()) == Some(k)
  {
  }

  lemma MiddleKindsParse(k: ResourceKind)
    requires k.TabsClosedKind? || k.NewTabGroupKind? || k.ElementClickedKind? || k.FormFieldFilledKind? || k.JavascriptExecutedKind?
    ensures ParseResourceKind(k.Literal()) == Some(k)
  {
  }

  lemma LateKindsParse(k: ResourceKind)
    requires k.PageChangesDetectedKind? || k.ScreenshotSavedKind? || k.BookmarksFoundKind? || k.BookmarkOpenedKind?
    ensures ParseResourceKind(k.Literal()) == Some(k)
  {
  }

  /** Two kinds share a literal only when they are the same kind. */
  lemma ResourceLiteralInjective(k1: ResourceKind, k2: ResourceKind)
    ensures k1.Literal() == k2.Literal() <==> k1 == k2
  {
    ResourceKindRoundTrip(k1);
    ResourceKindRoundTrip(k2);
  }

  /** Round trip: the server reads back exactly the resource the extension sent, for every variant. */
  lemma {:induction false} MessageRoundTrip(msg: ExtensionMessage)
    ensures DecodeMessage(EncodeMessage(msg)) == Some(msg)
  {
    ResourceKindRoundTrip(msg.Kind());
    NestedRoundTrips();
    match msg
    case TabContent(_, _, _, _, _, links) =>
      ArrayRoundTrip(links, EncodeLink, DecodeLink); PageRoundTrip(msg);
    case Tabs(_, tabs) =>
      ArrayRoundTrip(tabs, EncodeTab, DecodeTab); PageRoundTrip(msg);
    case History(_, items) =>
      ArrayRoundTrip(items, EncodeHistoryItem, DecodeHistoryItem); HistoryRoundTrip(msg);
    case TabsReordered(_, order) =>
      ArrayRoundTrip(order, Num, AsInt); ReorderedRoundTrip(msg);
    case BookmarksFound(_, items) =>
      ArrayRoundTrip(items, EncodeBookmark, DecodeBookmark); BookmarksFoundRoundTrip(msg);
    case OpenedTabId(_, _) => CountRoundTrip(msg);
    case FindHighlightResult(_, _) => CountRoundTrip(msg);
    case TabsClosed(_) => CountRoundTrip(msg);
    case NewTabGroup(_, _) => CountRoundTrip(msg);
    case ElementClicked(_, _, _) => ActionRoundTrip(msg);
    case FormFieldFilled(_, _) => ActionRoundTrip(msg);
    case JavascriptExecuted(_, _, _) => ActionRoundTrip(msg);
    case PageChangesDetected(_, _, _) => CaptureRoundTrip(msg);
    case ScreenshotSaved(_, _) => CaptureRoundTrip(msg);
    case BookmarkOpened(_, _, _) => OpenedRoundTrip(msg);
  }

  lemma PageRoundTrip(msg: ExtensionMessage)
    requires msg.TabContent? || msg.Tabs?
    requires msg.TabContent? ==> AsArrayOf(DecodeLink)(ArrayOf(msg.links, EncodeLink)) == Some(msg.links)
    requires msg.Tabs? ==> AsArrayOf(DecodeTab)(ArrayOf(msg.tabs, EncodeTab)) == Some(msg.tabs)
    ensures DecodeResource(msg.Kind(), msg.correlationId, EncodeMessage(msg).fields) == Some(msg)
  {
  }

  lemma HistoryRoundTrip(msg: ExtensionMessage)
    requires msg.History?
    requires AsArrayOf(DecodeHistoryItem)(ArrayOf(msg.historyItems, EncodeHistoryItem)) == Some(msg.historyItems)
    ensures DecodeResource(msg.Kind(), msg.correlationId, EncodeMessage(msg).fields) == Some(msg)
  {
  }

  lemma ReorderedRoundTrip(msg: ExtensionMessage)
    requires msg.TabsReordered?
    requires AsArrayOf(AsInt)(ArrayOf(msg.tabOrder, Num)) == Some(msg.tabOrder)
    ensures DecodeResource(msg.Kind(), msg.correlationId, EncodeMessage(msg).fields) == Some(msg)
  {
  }

  lemma BookmarksFoundRoundTrip(msg: ExtensionMessage)
    requires msg.BookmarksFound?
    requires AsArrayOf(DecodeBookmark)(ArrayOf(msg.bookmarks, EncodeBookmark)) == Some(msg.bookmarks)
    ensures DecodeResource(msg.Kind(), msg.correlationId, EncodeMessage(msg).fields) == Some(msg)
  {
  }

  lemma CountRoundTrip(msg: ExtensionMessage)
    requires msg.OpenedTabId? || msg.FindHighlightResult? || msg.TabsClosed? || msg.NewTabGroup?
    ensures DecodeResource(msg.Kind(), msg.correlationId, EncodeMessage(msg).fields) == Some(msg)
  {
  }

  lemma ActionRoundTrip(msg: ExtensionMessage)
    requires msg.ElementClicked? || msg.FormFieldFilled? || msg.JavascriptExecuted?
    ensures DecodeResource(msg.Kind(), msg.correlationId, EncodeMessage(msg).fields) == Some(msg)
  {
  }

  lemma CaptureRoundTrip(msg: ExtensionMessage)
    requires msg.PageChangesDetected? || msg.ScreenshotSaved?
    ensures DecodeResource(msg.Kind(), msg.correlationId, EncodeMessage(msg).fields) == Some(msg)
  {
  }

  lemma OpenedRoundTrip(msg: ExtensionMessage)
    requires msg.BookmarkOpened?
    ensures DecodeResource(msg.Kind(), msg.correlationId, EncodeMessage(msg).fields) == Some(msg)
  {
  }

  /** The error envelope on the wire: exactly a correlation id and a message, and no `resource`. */
  function EncodeError(e: ExtensionError): (j: Json)
    ensures j.JObj? && j.fields.Keys == {"correlationId", "errorMessage"}
    ensures j.fields["correlationId"] == JStr(e.correlationId)
    ensures j.fields["errorMessage"] == JStr(e.errorMessage)
    ensures "resource" !in j.fields
  {
    JObj(map["correlationId" := JStr(e.correlationId), "errorMessage" := JStr(e.errorMessage)])
  }
}
