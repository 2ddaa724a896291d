/**
 * The decisions inside the notifications view `Scene`: the flags it derives
 * from its props, which controls are enabled and what clicking them asks
 * for, which status tab is highlighted, what the body shows, and which
 * actions each notification row offers.
 *
 * The view never changes anything itself: every click hands an intent to a
 * callback of the data layer. A click is modelled as the list of intents it
 * hands over; a control with no handler hands over none.
 */
module Scene {
  import opened Wrappers
  import Text
  import RelativeTime
  import Icons

  /** The lifecycle bucket shown: unread, read, resolved. */
  datatype Status = Queued | Staged | Closed

  /** Values of the status constants. */
  function StatusName(s: Status): string {
    match s
    case Queued => "QUEUED"
    case Staged => "STAGED"
    case Closed => "CLOSED"
  }

  datatype Notification = Notification(
    id: string,
    kind: string,
    name: string,
    number: int,
    repository: string,
    repositoryUrl: string,
    url: string,
    updated: RelativeTime.Age,
    isAuthor: bool,
    score: int,
    badges: seq<string>,
    reasons: seq<string>)

  /** The props the view reads (its callbacks are the intents below). */
  datatype Props = Props(
    queuedCount: int,
    stagedCount: int,
    closedCount: int,
    first: int,
    last: int,
    lastPage: int,
    page: int,
    notifications: seq<Notification>,
    query: string,
    activeStatus: Status,
    allNotificationsCount: int,
    isSearching: bool,
    isFetchingNotifications: bool)

  /** A request handed to one of the view's callbacks, or to the browser. */
  datatype Intent =
    | ChangePage(page: int)
    | SetActiveStatus(status: Status)
    | ClearQuery
    | FetchNotifications
    | ClearCache
    | StageThread(id: string, repository: string)
    | RestoreThread(id: string)
    | MarkAsRead(id: string)
    | OpenWindow(url: string)

  /** A click handler: it hands over its intents, or does so only once the user confirms. */
  datatype Action =
    | Run(intents: seq<Intent>)
    | RunIfConfirmed(question: string, intents: seq<Intent>)

  /** A clickable icon: whether it is drawn disabled, its tooltip, and its handler if any. */
  datatype Control = Control(disabled: bool, tooltip: Option<string>, onClick: Option<Action>)

  /** The intents one click hands over, given the user's answer to a confirmation prompt. */
  function Perform(a: Action, confirmed: bool): seq<Intent> {
    match a
    case Run(intents) => intents
    case RunIfConfirmed(_, intents) => if confirmed then intents else []
  }

  function Click(c: Control, confirmed: bool): (fired: seq<Intent>)
    ensures c.onClick.None? ==> fired == []
  {
    if c.onClick.Some? then Perform(c.onClick.value, confirmed) else []
  }

  /** `x` while `enabled`, nothing otherwise: a tooltip or handler that is dropped while loading. */
  function When<T>(enabled: bool, x: T): Option<T> {
    if enabled then Some(x) else None
  }

  /** The view is loading while either kind of work is in flight, and only then. */
  predicate Loading(p: Props): (b: bool)
    ensures p.isSearching ==> b
    ensures p.isFetchingNotifications ==> b
    ensures b ==> p.isSearching || p.isFetchingNotifications
  {
    p.isSearching || p.isFetchingNotifications
  }

  /** Page numbers start at 1. */
  predicate IsFirstPage(p: Props): (b: bool)
    ensures b <==> p.page == 1
  {
    p.page == 1
  }

  /** The last page is the one numbered `lastPage`. */
  predicate IsLastPage(p: Props): (b: bool)
    ensures b <==> p.page == p.lastPage
  {
    p.page == p.lastPage
  }

  // ----- Header and toolbar -----

  datatype SearchField = SearchField(disabled: bool, spinner: bool)

  datatype QueryBar = QueryBar(text: string, clear: Control)

  datatype Toolbar = Toolbar(
    refresh: Control,
    clearCache: Control,
    queryBar: Option<QueryBar>,
    first: int,
    last: int,
    total: int,
    prev: Control,
    next: Control)

  function SearchFieldOf(p: Props): (f: SearchField)
    ensures f.disabled <==> p.isSearching || p.isFetchingNotifications
    ensures f.spinner <==> p.isSearching
  {
    SearchField(Loading(p), p.isSearching)
  }

  function RefreshControl(p: Props): (c: Control)
    ensures c.disabled <==> p.isSearching || p.isFetchingNotifications
    ensures c.tooltip.Some? <==> !c.disabled
    ensures forall confirmed :: Click(c, confirmed) == (if c.disabled then [] else [FetchNotifications])
  {
    var enabled := !Loading(p);
    Control(!enabled, When(enabled, "Refresh your notifications"), When(enabled, Run([FetchNotifications])))
  }

  function ClearCacheControl(p: Props): (c: Control)
    ensures c.disabled <==> p.isSearching || p.isFetchingNotifications
    ensures c.tooltip.Some? <==> !c.disabled
    ensures forall confirmed :: Click(c, confirmed) == (if !c.disabled && confirmed then [ClearCache] else [])
  {
    var enabled := !Loading(p);
    Control(
      !enabled,
      When(enabled, "Delete all of your notifications from the cache"),
      When(enabled, RunIfConfirmed("Are you sure you want to clear the cache?", [ClearCache])))
  }

  /** The active-query indicator and its clear button, drawn only for a non-empty query. */
  function QueryBarOf(p: Props): (r: Option<QueryBar>)
    ensures r.Some? <==> p.query != ""
    ensures r.Some? ==> r.value.text == p.query
    ensures r.Some? ==> (r.value.clear.disabled <==> p.isSearching || p.isFetchingNotifications)
    ensures r.Some? ==> forall confirmed ::
      Click(r.value.clear, confirmed) == (if r.value.clear.disabled then [] else [ClearQuery])
  {
    if p.query == "" then None
    else
      var enabled := !Loading(p);
      Some(QueryBar(p.query, Control(!enabled, None, When(enabled, Run([ClearQuery])))))
  }

  function PrevControl(p: Props): (c: Control)
    ensures c.disabled <==> p.isSearching || p.isFetchingNotifications || p.page == 1
    ensures forall confirmed :: Click(c, confirmed) == (if c.disabled then [] else [ChangePage(p.page - 1)])
  {
    var enabled := !Loading(p) && !IsFirstPage(p);
    Control(!enabled, None, When(enabled, Run([ChangePage(p.page - 1)])))
  }

  function NextControl(p: Props): (c: Control)
    ensures c.disabled <==> p.isSearching || p.isFetchingNotifications || p.page == p.lastPage
    ensures forall confirmed :: Click(c, confirmed) == (if c.disabled then [] else [ChangePage(p.page + 1)])
  {
    var enabled := !Loading(p) && !IsLastPage(p);
    Control(!enabled, None, When(enabled, Run([ChangePage(p.page + 1)])))
  }

  /** A control has a handler exactly when it is not drawn disabled. */
  predicate HandlerIffEnabled(c: Control) {
    c.disabled <==> c.onClick.None?
  }

  /**
   * The toolbar: every control on it has a handler exactly when it is
   * enabled, and the page-range text shows the first and last item shown
   * and the approximate total.
   */
  function ToolbarOf(p: Props): (t: Toolbar)
    ensures HandlerIffEnabled(t.refresh) && HandlerIffEnabled(t.clearCache)
    ensures HandlerIffEnabled(t.prev) && HandlerIffEnabled(t.next)
    ensures t.queryBar.Some? ==> HandlerIffEnabled(t.queryBar.value.clear)
    ensures t.first == p.first && t.last == p.last && t.total == p.allNotificationsCount
  {
    Toolbar(
      RefreshControl(p),
      ClearCacheControl(p),
      QueryBarOf(p),
      p.first,
      p.last,
      p.allNotificationsCount,
      PrevControl(p),
      NextControl(p))
  }

  // ----- Status tabs -----

  datatype Tab = Tab(status: Status, name: string, count: int, active: bool, onClick: Action)

  function TabFor(p: Props, s: Status, name: string, count: int): Tab {
    Tab(s, name, count, p.activeStatus == s, Run([SetActiveStatus(s)]))
  }

  /**
   * The Unread, Read and Resolved tabs: exactly one is highlighted, the one
   * of the active status, and each asks to switch to its own status.
   */
  function StatusTabs(p: Props): (tabs: seq<Tab>)
    ensures |tabs| == 3
    ensures tabs[0].status == Queued && tabs[0].count == p.queuedCount
    ensures tabs[1].status == Staged && tabs[1].count == p.stagedCount
    ensures tabs[2].status == Closed && tabs[2].count == p.closedCount
    ensures tabs[0].name == "Unread" && tabs[1].name == "Read" && tabs[2].name == "Resolved"
    ensures forall i :: 0 <= i < 3 ==> (tabs[i].active <==> tabs[i].status == p.activeStatus)
    ensures forall i :: 0 <= i < 3 ==> tabs[i].onClick == Run([SetActiveStatus(tabs[i].status)])
    ensures exists i :: 0 <= i < 3 && tabs[i].active
    ensures forall i, j :: 0 <= i < 3 && 0 <= j < 3 && tabs[i].active && tabs[j].active ==> i == j
  {
    var tabs := [
      TabFor(p, Queued, "Unread", p.queuedCount),
      TabFor(p, Staged, "Read", p.stagedCount),
      TabFor(p, Closed, "Resolved", p.closedCount)];
    assert p.activeStatus == tabs[0].status || p.activeStatus == tabs[1].status || p.activeStatus == tabs[2].status;
    tabs
  }

  // ----- Notification rows -----

  datatype Row = Row(
    key: string,
    typeIcon: Option<Icons.Glyph>,
    title: string,
    number: int,
    time: RelativeTime.Phrase,
    authorIcon: bool,
    badges: seq<Option<Icons.BadgeIcon>>,
    repository: string,
    score: int,
    open: Action,
    openRepository: Action,
    primary: Control,
    secondary: Control)

  /** Mark as read (stage) on the unread tab, revert to unread on the others. */
  function PrimaryAction(p: Props, n: Notification): (c: Control)
    ensures !c.disabled
    ensures forall confirmed :: Click(c, confirmed) ==
                                 if p.isSearching || p.isFetchingNotifications then []
                                 else if p.activeStatus == Queued then [StageThread(n.id, n.repository)]
                                 else [RestoreThread(n.id)]
  {
    var enabled := !Loading(p);
    if p.activeStatus == Queued then
      Control(false, When(enabled, "Mark as read"), When(enabled, Run([StageThread(n.id, n.repository)])))
    else
      Control(false, When(enabled, "Revert back to unread"), When(enabled, Run([RestoreThread(n.id)])))
  }

  /**
   * Mark as resolved on the unread and read tabs; on the resolved tab a help
   * icon whose handler, present only while not loading, does nothing.
   */
  function SecondaryAction(p: Props, n: Notification): (c: Control)
    ensures !c.disabled
    ensures c.onClick.Some? <==> !(p.isSearching || p.isFetchingNotifications)
    ensures forall confirmed :: Click(c, confirmed) ==
                                 if p.isSearching || p.isFetchingNotifications || p.activeStatus == Closed then []
                                 else [MarkAsRead(n.id)]
  {
    var enabled := !Loading(p);
    if p.activeStatus == Closed then
      Control(false, None, When(enabled, Run([])))
    else
      Control(false, When(enabled, "Mark as resolved"), When(enabled, Run([MarkAsRead(n.id)])))
  }

  /**
   * One table row. Clicking the title opens the thread and stages it; that
   * handler is attached whether or not the view is loading.
   */
  function RowOf(p: Props, n: Notification): (row: Row)
    ensures row.key == n.id
    ensures Perform(row.open, false) == [OpenWindow(n.url), StageThread(n.id, n.repository)]
    ensures Perform(row.openRepository, false) == [OpenWindow(n.repositoryUrl)]
    ensures row.typeIcon == Icons.PRIssueIcon(n.kind, n.reasons)
    ensures n.updated.Elapsed? ==>
      row.time == RelativeTime.RelativeTime(n.updated.diffMinutes, n.updated.diffDays, n.updated.weekday)
    ensures n.updated.InvalidDate? ==> row.time == RelativeTime.LongTimeAgo
    ensures |row.badges| == |n.badges|
    ensures forall i :: 0 <= i < |n.badges| ==> row.badges[i] == Icons.BadgeIconOf(n.badges[i])
    ensures row.primary == PrimaryAction(p, n) && row.secondary == SecondaryAction(p, n)
  {
    Row(
      n.id,
      Icons.PRIssueIcon(n.kind, n.reasons),
      n.name,
      n.number,
      RelativeTime.PhraseOf(n.updated),
      n.isAuthor,
      Icons.BadgeIcons(n.badges),
      n.repository,
      n.score,
      Run([OpenWindow(n.url), StageThread(n.id, n.repository)]),
      Run([OpenWindow(n.repositoryUrl)]),
      PrimaryAction(p, n),
      SecondaryAction(p, n))
  }

  // ----- Body -----

  datatype Body =
    | Loader
    | EmptyMessage(text: string, subtext: string)
    | Table(rows: seq<Row>)

  const AllSetText: string := "\U{1F389} You're all set here for the moment"

  /** The empty-list message: "No ", the status name lower-cased, " notifications". */
  function EmptyText(s: Status): (t: string)
    ensures |t| == |StatusName(s)| + 17
    ensures t[..3] == "No " && t[|t| - 14..] == " notifications"
    ensures t[3..|t| - 14] == Text.Lower(StatusName(s))
  {
    "No " + Text.Lower(StatusName(s)) + " notifications"
  }

  /**
   * The loader while fetching; otherwise a message naming the active status
   * when the list is empty; otherwise one row per notification, in order.
   */
  function BodyOf(p: Props): (b: Body)
    ensures b.Loader? <==> p.isFetchingNotifications
    ensures b.EmptyMessage? <==> !p.isFetchingNotifications && |p.notifications| == 0
    ensures b.Table? <==> !p.isFetchingNotifications && |p.notifications| > 0
    ensures b.EmptyMessage? ==> b.text == EmptyText(p.activeStatus) && b.subtext == AllSetText
    ensures b.Table? ==> |b.rows| == |p.notifications|
    ensures b.Table? ==> forall i :: 0 <= i < |b.rows| ==> b.rows[i] == RowOf(p, p.notifications[i])
  {
    if p.isFetchingNotifications then Loader
    else if |p.notifications| <= 0 then EmptyMessage(EmptyText(p.activeStatus), AllSetText)
    else Table(seq(|p.notifications|, i requires 0 <= i < |p.notifications| => RowOf(p, p.notifications[i])))
  }

  // ----- The whole view -----

  datatype View = View(search: SearchField, toolbar: Toolbar, tabs: seq<Tab>, body: Body)

  /**
   * The whole view. The search field is disabled exactly when a spinner is
   * showing: the search spinner for a search, the loader for a fetch.
   */
  function SceneOf(p: Props): (v: View)
    ensures v.search.spinner <==> p.isSearching
    ensures v.body.Loader? <==> p.isFetchingNotifications
    ensures v.search.disabled <==> v.search.spinner || v.body.Loader?
    ensures |v.tabs| == 3 && exists i :: 0 <= i < 3 && v.tabs[i].active && v.tabs[i].status == p.activeStatus
    ensures forall i :: 0 <= i < 3 ==> (v.tabs[i].active <==> v.tabs[i].status == p.activeStatus)
    ensures forall i, j :: 0 <= i < 3 && 0 <= j < 3 && v.tabs[i].active && v.tabs[j].active ==> i == j
  {
    View(SearchFieldOf(p), ToolbarOf(p), StatusTabs(p), BodyOf(p))
  }

  /** Everything the rows can ask for about the thread they show. */
  function IntentId(i: Intent): Option<string> {
    match i
    case StageThread(id, _) => Some(id)
    case RestoreThread(id) => Some(id)
    case MarkAsRead(id) => Some(id)
    case _ => None
  }

  /**
   * While loading, no control guarded by the loading flag hands over an
   * intent: no toolbar control and no row button, and the search field is
   * disabled. A table is then on screen only because a search, not a
   * fetch, is running. The status tabs and a row's title link are not
   * guarded and still hand over their intents.
   */
  lemma GuardedControlsInertWhileLoading(p: Props, confirmed: bool)
    requires Loading(p)
    ensures var v := SceneOf(p);
      && v.search.disabled
      && Click(v.toolbar.refresh, confirmed) == []
      && Click(v.toolbar.clearCache, confirmed) == []
      && Click(v.toolbar.prev, confirmed) == []
      && Click(v.toolbar.next, confirmed) == []
      && (v.toolbar.queryBar.Some? ==> Click(v.toolbar.queryBar.value.clear, confirmed) == [])
      && (v.body.Table? ==> p.isSearching && !p.isFetchingNotifications)
      && (v.body.Table? ==> forall i :: 0 <= i < |v.body.rows| ==>
            Click(v.body.rows[i].primary, confirmed) == [] && Click(v.body.rows[i].secondary, confirmed) == [])
  {
  }

  /**
   * The page controls ask for the neighbouring page exactly when they are
   * enabled, and a page within range never asks for one outside it.
   */
  lemma PaginationIntents(p: Props, confirmed: bool, k: int)
    ensures ChangePage(k) in Click(SceneOf(p).toolbar.prev, confirmed) <==>
      !Loading(p) && !IsFirstPage(p) && k == p.page - 1
    ensures ChangePage(k) in Click(SceneOf(p).toolbar.next, confirmed) <==>
      !Loading(p) && !IsLastPage(p) && k == p.page + 1
    ensures 1 <= p.page <= p.lastPage && ChangePage(k) in Click(SceneOf(p).toolbar.prev, confirmed) + Click(SceneOf(p).toolbar.next, confirmed)
      ==> 1 <= k <= p.lastPage
  {
  }

  /** The cache is cleared only when not loading and the user confirms. */
  lemma ClearCacheNeedsConfirmation(p: Props, confirmed: bool)
    ensures ClearCache in Click(SceneOf(p).toolbar.clearCache, confirmed) <==> !Loading(p) && confirmed
  {
  }

  /**
   * A row's buttons act on that row's thread only: each has exactly one of
   * stage and restore, and mark-as-resolved except on the resolved tab.
   */
  lemma RowsActOnTheirOwnThread(p: Props, k: int, confirmed: bool, i: Intent)
    requires SceneOf(p).body.Table? && 0 <= k < |SceneOf(p).body.rows|
    ensures var row := SceneOf(p).body.rows[k];
      i in Click(row.primary, confirmed) + Click(row.secondary, confirmed) ==>
        IntentId(i) == Some(p.notifications[k].id)
    ensures var row := SceneOf(p).body.rows[k];
      !Loading(p) ==>
        && (StageThread(p.notifications[k].id, p.notifications[k].repository) in Click(row.primary, confirmed)
            <==> p.activeStatus == Queued)
        && (RestoreThread(p.notifications[k].id) in Click(row.primary, confirmed) <==> p.activeStatus != Queued)
        && (MarkAsRead(p.notifications[k].id) in Click(row.secondary, confirmed) <==> p.activeStatus != Closed)
  {
  }

  /** The empty-list message names the status in lower case. */
  lemma EmptyQueuedText()
    ensures EmptyText(Queued) == "No queued notifications"
  {
    LowerStatusNames();
    EmptyTextOf(Queued, "queued");
  }

  lemma EmptyStagedText()
    ensures EmptyText(Staged) == "No staged notifications"
  {
    LowerStatusNames();
    EmptyTextOf(Staged, "staged");
  }

  lemma EmptyClosedText()
    ensures EmptyText(Closed) == "No closed notifications"
  {
    LowerStatusNames();
    EmptyTextOf(Closed, "closed");
  }

  lemma LowerStatusNames()
    ensures Text.Lower(StatusName(Queued)) == "queued"
    ensures Text.Lower(StatusName(Staged)) == "staged"
    ensures Text.Lower(StatusName(Closed)) == "closed"
  {
    LowerOfUpperWord("QUEUED", "queued");
    LowerOfUpperWord("STAGED", "staged");
    LowerOfUpperWord("CLOSED", "closed");
  }

  lemma EmptyTextOf(s: Status, lower: string)
    requires Text.Lower(StatusName(s)) == lower
    ensures EmptyText(s) == "No " + lower + " notifications"
  {
  }

  lemma LowerOfUpperWord(s: string, t: string)
    requires |s| == |t|
    requires forall i :: 0 <= i < |s| ==> Text.IsUpper(s[i]) && t[i] as int == s[i] as int + 32
    ensures Text.Lower(s) == t
  {
  }

  /** An empty unread list, not being fetched, shows the unread message. */
  lemma EmptyQueuedMessage(p: Props)
    requires p.activeStatus == Queued && !p.isFetchingNotifications && p.notifications == []
    ensures SceneOf(p).body == EmptyMessage("No queued notifications", AllSetText)
  {
    EmptyQueuedText();
  }
}
