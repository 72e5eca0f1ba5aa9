/**
 * The requests the MCP server sends to the browser extension: a closed union
 * of fifteen commands tagged by their `cmd` literal, each carried on the wire
 * together with a `correlationId`.
 */
module ServerMessages {
  import opened Wrappers
  import opened JsonData

  /** The fifteen `cmd` literals, as an enumeration. */
  datatype CommandKind =
    | OpenTabKind
    | CloseTabsKind
    | GetTabListKind
    | GetBrowserRecentHistoryKind
    | GetTabContentKind
    | ReorderTabsKind
    | FindHighlightKind
    | GroupTabsKind
    | ClickElementKind
    | FillFormFieldKind
    | ExecuteJavaScriptKind
    | MonitorPageChangesKind
    | ScreenshotWebsiteKind
    | SearchBookmarksKind
    | OpenBookmarkKind
  {
    /** The literal on the wire. */
    function Literal(): string {
      match this
      case OpenTabKind => "open-tab"
      case CloseTabsKind => "close-tabs"
      case GetTabListKind => "get-tab-list"
      case GetBrowserRecentHistoryKind => "get-browser-recent-history"
      case GetTabContentKind => "get-tab-content"
      case ReorderTabsKind => "reorder-tabs"
      case FindHighlightKind => "find-highlight"
      case GroupTabsKind => "group-tabs"
      case ClickElementKind => "click-element"
      case FillFormFieldKind => "fill-form-field"
      case ExecuteJavaScriptKind => "execute-javascript"
      case MonitorPageChangesKind => "monitor-page-changes"
      case ScreenshotWebsiteKind => "screenshot-website"
      case SearchBookmarksKind => "search-bookmarks"
      case OpenBookmarkKind => "open-bookmark"
    }
  }

  /**
   * One variant per command. A Dafny destructor name has one type across all
   * variants, so the required `selector` of fill-form-field is called
   * `fieldSelector` here; on the wire its key is still "selector".
   */
  datatype Command =
    | OpenTab(url: string)
    | CloseTabs(tabIds: seq<int>)
    | GetTabList
    | GetBrowserRecentHistory(searchQuery: Option<string>)
    | GetTabContent(tabId: int, offset: Option<int>)
    | ReorderTabs(tabOrder: seq<int>)
    | FindHighlight(tabId: int, queryPhrase: string)
    | GroupTabs(tabIds: seq<int>, isCollapsed: bool, groupColor: string, groupTitle: string)
    | ClickElement(tabId: int, selector: Option<string>, x: Option<int>, y: Option<int>)
    | FillFormField(tabId: int, fieldSelector: string, value: string, submit: Option<bool>)
    | ExecuteJavaScript(tabId: int, code: string)
    | MonitorPageChanges(tabId: int, selector: Option<string>, timeout: Option<int>)
    | ScreenshotWebsite(tabId: int, fullPage: Option<bool>)
    | SearchBookmarks(query: Option<string>)
    | OpenBookmark(bookmarkId: string)
  {
    /** The kind of the variant. */
    function Kind(): CommandKind {
      match this
      case OpenTab(_) => OpenTabKind
      case CloseTabs(_) => CloseTabsKind
      case GetTabList => GetTabListKind
      case GetBrowserRecentHistory(_) => GetBrowserRecentHistoryKind
      case GetTabContent(_, _) => GetTabContentKind
      case ReorderTabs(_) => ReorderTabsKind
      case FindHighlight(_, _) => FindHighlightKind
      case GroupTabs(_, _, _, _) => GroupTabsKind
      case ClickElement(_, _, _, _) => ClickElementKind
      case FillFormField(_, _, _, _) => FillFormFieldKind
      case ExecuteJavaScript(_, _) => ExecuteJavaScriptKind
      case MonitorPageChanges(_, _, _) => MonitorPageChangesKind
      case ScreenshotWebsite(_, _) => ScreenshotWebsiteKind
      case SearchBookmarks(_) => SearchBookmarksKind
      case OpenBookmark(_) => OpenBookmarkKind
    }

    /** The `cmd` literal of the variant. */
    function Name(): string {
      Kind().Literal()
    }

    /** The tab a command is scoped to, for the variants that carry a `tabId` field. */
    function TargetTab(): Option<int> {
      match this
      case GetTabContent(t, _) => Some(t)
      case FindHighlight(t, _) => Some(t)
      case ClickElement(t, _, _, _) => Some(t)
      case FillFormField(t, _, _, _) => Some(t)
      case ExecuteJavaScript(t, _) => Some(t)
      case MonitorPageChanges(t, _, _) => Some(t)
      case ScreenshotWebsite(t, _) => Some(t)
      case _ => None
    }
  }

  /** `ServerMessageRequest`: a command plus the correlation id of its reply. */
  datatype Request = Request(command: Command, correlationId: string)

  /** The object the server builds for a command; optional fields left `undefined` are omitted. */
  function EncodeCommand(c: Command): (m: map<string, Json>)
    ensures "cmd" in m && m["cmd"] == JStr(c.Name())
    ensures "correlationId" !in m
  {
    var base := map["cmd" := JStr(c.Name())];
    match c
    case OpenTab(url) => base["url" := Str(url)]
    case CloseTabs(ids) => base["tabIds" := ArrayOf(ids, Num)]
    case GetTabList => base
    case GetBrowserRecentHistory(q) => Put(base, "searchQuery", OptStr(q))
    case GetTabContent(t, off) => Put(base["tabId" := Num(t)], "offset", OptNum(off))
    case ReorderTabs(order) => base["tabOrder" := ArrayOf(order, Num)]
    case FindHighlight(t, phrase) => base["tabId" := Num(t)]["queryPhrase" := Str(phrase)]
    case GroupTabs(ids, collapsed, color, title) =>
      base["tabIds" := ArrayOf(ids, Num)]["isCollapsed" := Bool(collapsed)]
        ["groupColor" := Str(color)]["groupTitle" := Str(title)]
    case ClickElement(t, sel, x, y) =>
      Put(Put(Put(base["tabId" := Num(t)], "selector", OptStr(sel)), "x", OptNum(x)), "y", OptNum(y))
    case FillFormField(t, sel, v, submit) =>
      Put(base["tabId" := Num(t)]["selector" := Str(sel)]["value" := Str(v)], "submit", OptBool(submit))
    case ExecuteJavaScript(t, code) => base["tabId" := Num(t)]["code" := Str(code)]
    case MonitorPageChanges(t, sel, timeout) =>
      Put(Put(base["tabId" := Num(t)], "selector", OptStr(sel)), "timeout", OptNum(timeout))
    case ScreenshotWebsite(t, full) => Put(base["tabId" := Num(t)], "fullPage", OptBool(full))
    case SearchBookmarks(q) => Put(base, "query", OptStr(q))
    case OpenBookmark(id) => base["bookmarkId" := Str(id)]
  }

  /** `{ ...message, correlationId }`: the request as it is put on the wire. */
  function EncodeRequest(r: Request): (j: Json)
    ensures j.JObj?
    ensures j.fields.Keys == EncodeCommand(r.command).Keys + {"correlationId"}
    ensures forall k :: k in EncodeCommand(r.command) ==> j.fields[k] == EncodeCommand(r.command)[k]
    ensures j.fields["correlationId"] == JStr(r.correlationId)
  {
    JObj(EncodeCommand(r.command)["correlationId" := JStr(r.correlationId)])
  }

  /** The kind whose literal is `name`, if any. */
  function ParseCommandKind(name: string): (k: Option<CommandKind>)
    ensures k.Some? ==> k.value.Literal() == name
  {
    if name == "open-tab" then Some(OpenTabKind)
    else if name == "close-tabs" then Some(CloseTabsKind)
    else if name == "get-tab-list" then Some(GetTabListKind)
    else if name == "get-browser-recent-history" then Some(GetBrowserRecentHistoryKind)
    else if name == "get-tab-content" then Some(GetTabContentKind)
    else if name == "reorder-tabs" then Some(ReorderTabsKind)
    else if name == "find-highlight" then Some(FindHighlightKind)
    else if name == "group-tabs" then Some(GroupTabsKind)
    else if name == "click-element" then Some(ClickElementKind)
    else if name == "fill-form-field" then Some(FillFormFieldKind)
    else if name == "execute-javascript" then Some(ExecuteJavaScriptKind)
    else if name == "monitor-page-changes" then Some(MonitorPageChangesKind)
    else if name == "screenshot-website" then Some(ScreenshotWebsiteKind)
    else if name == "search-bookmarks" then Some(SearchBookmarksKind)
    else if name == "open-bookmark" then Some(OpenBookmarkKind)
    else None
  }

  /** The fields of a command of kind `kind`; `None` if they do not have the declared types. */
  function DecodeCommand(kind: CommandKind, m: map<string, Json>): Option<Command> {
    match kind
    case OpenTabKind =>
      var url :- Required(m, "url", AsString);
      Some(OpenTab(url))
    case CloseTabsKind =>
      var ids :- Required(m, "tabIds", AsArrayOf(AsInt));
      Some(CloseTabs(ids))
    case GetTabListKind =>
      Some(GetTabList)
    case GetBrowserRecentHistoryKind =>
      var q :- Optional(m, "searchQuery", AsString);
      Some(GetBrowserRecentHistory(q))
    case GetTabContentKind =>
      var t :- Required(m, "tabId", AsInt);
      var off :- Optional(m, "offset", AsInt);
      Some(GetTabContent(t, off))
    case ReorderTabsKind =>
      var order :- Required(m, "tabOrder", AsArrayOf(AsInt));
      Some(ReorderTabs(order))
    case FindHighlightKind =>
      var t :- Required(m, "tabId", AsInt);
      var phrase :- Required(m, "queryPhrase", AsString);
      Some(FindHighlight(t, phrase))
    case GroupTabsKind =>
      var ids :- Required(m, "tabIds", AsArrayOf(AsInt));
      var collapsed :- Required(m, "isCollapsed", AsBool);
      var color :- Required(m, "groupColor", AsString);
      var title :- Required(m, "groupTitle", AsString);
      Some(GroupTabs(ids, collapsed, color, title))
    case ClickElementKind =>
      var t :- Required(m, "tabId", AsInt);
      var sel :- Optional(m, "selector", AsString);
      var x :- Optional(m, "x", AsInt);
      var y :- Optional(m, "y", AsInt);
      Some(ClickElement(t, sel, x, y))
    case FillFormFieldKind =>
      var t :- Required(m, "tabId", AsInt);
      var sel :- Required(m, "selector", AsString);
      var v :- Required(m, "value", AsString);
      var submit :- Optional(m, "submit", AsBool);
      Some(FillFormField(t, sel, v, submit))
    case ExecuteJavaScriptKind =>
      var t :- Required(m, "tabId", AsInt);
      var code :- Required(m, "code", AsString);
      Some(ExecuteJavaScript(t, code))
    case MonitorPageChangesKind =>
      var t :- Required(m, "tabId", AsInt);
      var sel :- Optional(m, "selector", AsString);
      var timeout :- Optional(m, "timeout", AsInt);
      Some(MonitorPageChanges(t, sel, timeout))
    case ScreenshotWebsiteKind =>
      var t :- Required(m, "tabId", AsInt);
      var full :- Optional(m, "fullPage", AsBool);
      Some(ScreenshotWebsite(t, full))
    case SearchBookmarksKind =>
      var q :- Optional(m, "query", AsString);
      Some(SearchBookmarks(q))
    case OpenBookmarkKind =>
      var id :- Required(m, "bookmarkId", AsString);
      Some(OpenBookmark(id))
  }

  /** The decoded request: `None` when the object is not a well-typed request. */
  function DecodeRequest(j: Json): Option<Request> {
    if !j.JObj? then None
    else
      var name :- Required(j.fields, "cmd", AsString);
      var id :- Required(j.fields, "correlationId", AsString);
      var kind :- ParseCommandKind(name);
      var c :- DecodeCommand(kind, j.fields);
      Some(Request(c, id))
  }

  /** Decoding reads back exactly the command the encoder wrote, for every variant. */
  lemma {:induction false} CommandRoundTrip(c: Command, id: string)
    ensures DecodeCommand(c.Kind(), EncodeCommand(c)["correlationId" := JStr(id)]) == Some(c)
  {
    match c
    case CloseTabs(ids) => ArrayRoundTrip(ids, Num, AsInt); TabListRoundTrip(c, id);
    case ReorderTabs(order) => ArrayRoundTrip(order, Num, AsInt); TabListRoundTrip(c, id);
    case GroupTabs(ids, _, _, _) => ArrayRoundTrip(ids, Num, AsInt); TabListRoundTrip(c, id);
    case OpenTab(_) => NavigationRoundTrip(c, id);
    case GetTabList => NavigationRoundTrip(c, id);
    case GetBrowserRecentHistory(_) => NavigationRoundTrip(c, id);
    case SearchBookmarks(_) => BookmarkCommandsRoundTrip(c, id);
    case OpenBookmark(_) => BookmarkCommandsRoundTrip(c, id);
    case GetTabContent(_, _) => TabReadRoundTrip(c, id);
    case FindHighlight(_, _) => TabReadRoundTrip(c, id);
    case ClickElement(_, _, _, _) => ClickRoundTrip(c, id);
    case FillFormField(_, _, _, _) => FillRoundTrip(c, id);
    case ExecuteJavaScript(_, _) => ScriptRoundTrip(c, id);
    case MonitorPageChanges(_, _, _) => MonitorRoundTrip(c, id);
    case ScreenshotWebsite(_, _) => ScriptRoundTrip(c, id);
  }

  lemma TabListRoundTrip(c: Command, id: string)
    requires c.CloseTabs? || c.ReorderTabs? || c.GroupTabs?
    requires c.CloseTabs? || c.GroupTabs? ==> AsArrayOf(AsInt)(ArrayOf(c.tabIds, Num)) == Some(c.tabIds)
    requires c.ReorderTabs? ==> AsArrayOf(AsInt)(ArrayOf(c.tabOrder, Num)) == Some(c.tabOrder)
    ensures DecodeCommand(c.Kind(), EncodeCommand(c)["correlationId" := JStr(id)]) == Some(c)
  {
  }

  lemma NavigationRoundTrip(c: Command, id: string)
    requires c.OpenTab? || c.GetTabList? || c.GetBrowserRecentHistory?
    ensures DecodeCommand(c.Kind(), EncodeCommand(c)["correlationId" := JStr(id)]) == Some(c)
  {
  }

  lemma BookmarkCommandsRoundTrip(c: Command, id: string)
    requires c.SearchBookmarks? || c.OpenBookmark?
    ensures DecodeCommand(c.Kind(), EncodeCommand(c)["correlationId" := JStr(id)]) == Some(c)
  {
  }

  lemma TabReadRoundTrip(c: Command, id: string)
    requires c.GetTabContent? || c.FindHighlight?
    ensures DecodeCommand(c.Kind(), EncodeCommand(c)["correlationId" := JStr(id)]) == Some(c)
  {
  }

  lemma ScriptRoundTrip(c: Command, id: string)
    requires c.ExecuteJavaScript? || c.ScreenshotWebsite?
    ensures DecodeCommand(c.Kind(), EncodeCommand(c)["correlationId" := JStr(id)]) == Some(c)
  {
  }

  lemma ClickRoundTrip(c: Command, id: string)
    requires c.ClickElement?
    ensures DecodeCommand(c.Kind(), EncodeCommand(c)["correlationId" := JStr(id)]) == Some(c)
  {
  }

  lemma FillRoundTrip(c: Command, id: string)
    requires c.FillFormField?
    ensures DecodeCommand(c.Kind(), EncodeCommand(c)["correlationId" := JStr(id)]) == Some(c)
  {
  }

  lemma MonitorRoundTrip(c: Command, id: string)
    requires c.MonitorPageChanges?
    ensures DecodeCommand(c.Kind(), EncodeCommand(c)["correlationId" := JStr(id)]) == Some(c)
  {
  }

  /** Parsing a command literal gives back its kind. */
  lemma {:induction false} CommandKindRoundTrip(k: CommandKind)
    ensures ParseCommandKind(k.Literal()) == Some(k)
  {
    match k
    case OpenTabKind => EarlyKindsParse(k);
    case CloseTabsKind => EarlyKindsParse(k);
    case GetTabListKind => EarlyKindsParse(k);
    case GetBrowserRecentHistoryKind => EarlyKindsParse(k);
    case GetTabContentKind => EarlyKindsParse(k);
    case ReorderTabsKind => EarlyKindsParse(k);
    case FindHighlightKind => MiddleKindsParse(k);
    case GroupTabsKind => MiddleKindsParse(k);
    case ClickElementKind => MiddleKindsParse(k);
    case FillFormFieldKind => MiddleKindsParse(k);
    case ExecuteJavaScriptKind => MiddleKindsParse(k);
    case MonitorPageChangesKind => LateKindsParse(k);
    case ScreenshotWebsiteKind => LateKindsParse(k);
    case SearchBookmarksKind => LateKindsParse(k);
    case OpenBookmarkKind => LateKindsParse(k);
  }

  lemma EarlyKindsParse(k: CommandKind)
    requires k.OpenTabKind? || k.CloseTabsKind? || k.GetTabListKind? || k.GetBrowserRecentHistoryKind? || k.GetTabContentKind? || k.ReorderTabsKind?
    ensures ParseCommandKind(k.Literal()) == Some(k)
  {
  }

  lemma MiddleKindsParse(k: CommandKind)
    requires k.FindHighlightKind? || k.GroupTabsKind? || k.ClickElementKind? || k.FillFormFieldKind? || k.ExecuteJavaScriptKind?
    ensures ParseCommandKind(k.Literal()) == Some(k)
  {
  }

  lemma LateKindsParse(k: CommandKind)
    requires k.MonitorPageChangesKind? || k.ScreenshotWebsiteKind? || k.SearchBookmarksKind? || k.OpenBookmarkKind?
    ensures ParseCommandKind(k.Literal()) == Some(k)
  {
  }

  /** Two kinds share a literal only when they are the same kind. */
  lemma CommandLiteralInjective(k1: CommandKind, k2: CommandKind)
    ensures k1.Literal() == k2.Literal() <==> k1 == k2
  {
    CommandKindRoundTrip(k1);
    CommandKindRoundTrip(k2);
  }

  /** A name the parser rejects is the `cmd` literal of no command. */
  lemma UnparsedNameIsNoCommand(name: string)
    requires ParseCommandKind(name).None?
    ensures forall c: Command :: c.Name() != name
  {
    forall c: Command ensures c.Name() != name {
      CommandKindRoundTrip(c.Kind());
    }
  }

  /** Round trip over the wire: the extension reads back the very request the server sent. */
  lemma RequestRoundTrip(r: Request)
    ensures DecodeRequest(EncodeRequest(r)) == Some(r)
  {
    CommandKindRoundTrip(r.command.Kind());
    CommandRoundTrip(r.command, r.correlationId);
  }
}
