# Notifications view: a Dafny model of its decisions

This project models the decision logic of the notifications inbox view of a
GitHub-notifications web client (`src/pages/Notifications/SceneAlt.js`). The
view itself only lays out markup and passes clicks to callbacks. The
decisions it makes along the way are modelled here as pure functions with
proved properties:

- **Relative time** (`getRelativeTime`). A notification's age becomes a
  phrase through an ordered chain of thresholds: just now, a few minutes,
  N minutes, N hours, yesterday, last <weekday>, long time ago. The clock
  is not modelled. The function takes what the date library computes: the
  elapsed minutes, the elapsed whole days and the timestamp's weekday, or
  an invalid date (`RelativeTime.Age`). The phrase is a datatype. `RelativeTime.Render`
  gives the exact text the source returns, and a lemma proves that no two
  phrases render the same.
- **Type icon** (`getPRIssueIcon`) and **badge icons** (the `switch` inside
  `n.badges.map`). These are total lookups. Unknown values draw nothing.
- **The view's controls** (`Scene`). The model covers:
  - the derived `loading`, `isFirstPage` and `isLastPage` flags;
  - refresh, clear-cache (behind a confirmation prompt) and clear-query;
  - previous and next page;
  - the three status tabs;
  - the choice between loader, empty message and table;
  - each row's status-dependent buttons.

  A click is the list of intents it hands to the data layer
  (`Scene.Click`). A control whose handler is `undefined` hands over none.
  The browser's confirmation prompt is the boolean `confirmed`.

Modules: `Wrappers` (Option), `Text` (decimal digits, lower-casing),
`RelativeTime`, `Icons`, `Scene`.

Line 34 tests only `diffDays <= 7`. Any day difference other than 1 that
is at most 7 therefore names a weekday. That includes 0, which a
daylight-saving change can produce once 1440 minutes have passed, and
negative differences. `RelativeTime.NonPositiveDaysNameAWeekday` states it.

## Model

| member | source | states |
|---|---|---|
| RelativeTime.RelativeTime | src/pages/Notifications/SceneAlt.js:18-38 | the phrase returned lies in the bucket the inputs fall in: under 1 minute just now, [1,5) a few minutes, [5,60) that many minutes, [60,1440) hours h with 60h <= minutes < 60(h+1), so h is in [1,23]; from 1440 minutes on, day difference 1 yesterday, any other difference up to 7 the target's weekday, above 7 long ago |
| RelativeTime.PhraseOf | src/pages/Notifications/SceneAlt.js:18-38 | a valid timestamp gets the phrase of its bucket; an invalid one (its differences are not numbers, so every test fails) gets "Long time ago" |
| RelativeTime.DescribesOnlyResult | src/pages/Notifications/SceneAlt.js:22-37 | the buckets do not overlap: any phrase whose bucket contains the inputs is the one returned (first match wins) |
| RelativeTime.DaysIgnoredWithinADay | src/pages/Notifications/SceneAlt.js:22-31 | under 1440 minutes the day difference and the weekday never change the result |
| RelativeTime.MinutesIgnoredFromADay | src/pages/Notifications/SceneAlt.js:28-37 | from 1440 minutes on, only the day difference and the weekday decide the result |
| RelativeTime.NonPositiveDaysNameAWeekday | src/pages/Notifications/SceneAlt.js:34-35 | a full day of minutes with a day difference of 0 or less yields "Last <weekday>", not "Long time ago" |
| RelativeTime.OlderReadsOlder | src/pages/Notifications/SceneAlt.js:22-29 | more elapsed minutes never give a phrase that reads more recent: buckets and their minute or hour counts are monotone |
| RelativeTime.Render | src/pages/Notifications/SceneAlt.js:23-37 | the text returned for each phrase: "Just now", "Few minutes ago", "Yesterday", "Long time ago" exactly; the minute and hour texts are the count's digits followed by " minutes ago" or " hours ago"; the weekday text is "Last " and the day's name; the first characters tell the kinds of phrase apart |
| RelativeTime.RenderInjective | src/pages/Notifications/SceneAlt.js:23-37 | distinct phrases have distinct texts ("N minutes ago", "N hours ago", "Last <weekday>", ...), so the phrase datatype loses nothing |
| Text.Decimal | src/pages/Notifications/SceneAlt.js:27-29 | the number-to-text conversion yields one or more digits without a leading zero |
| Text.DecimalRoundTrip | src/pages/Notifications/SceneAlt.js:27-29 | reading the digits back gives the number |
| Text.DecimalInjective | src/pages/Notifications/SceneAlt.js:27-29 | different counts are written differently |
| Text.Lower | src/pages/Notifications/SceneAlt.js:736 | lower-casing keeps the length, maps each upper-case letter to its lower-case letter and keeps every other character |
| Icons.PRIssueIcon | src/pages/Notifications/SceneAlt.js:416-430 | "PullRequest" gives the merged-PR icon, "Issue" the open-issue icon, and any other type no icon |
| Icons.IconIgnoresReasons | src/pages/Notifications/SceneAlt.js:416-430 | the type icon does not depend on the reasons argument |
| Icons.TypeIconRoundTrip | src/pages/Notifications/SceneAlt.js:418-428 | a type yields a glyph exactly when that glyph stands for that type |
| Icons.BadgeIconOf | src/pages/Notifications/SceneAlt.js:784-817 | a tag draws an icon iff it is HOT, OLD or COMMENTS, and the glyph drawn stands for that tag |
| Icons.BadgeRoundTrip | src/pages/Notifications/SceneAlt.js:784-817 | a tag draws a glyph exactly when that glyph stands for that tag (HOT with Hot, OLD with Timer, COMMENTS with Convo), so different known tags never share an icon |
| Icons.BadgeIcons | src/pages/Notifications/SceneAlt.js:783-818 | one slot per badge, in input order, each the icon and tooltip of its tag, or none for an unknown tag |
| Icons.ShownFollowsKnownTags | src/pages/Notifications/SceneAlt.js:783-818 | the icons drawn are exactly one per known tag, in the tags' order; unknown tags are skipped and repeated tags each draw an icon |
| Icons.BadgeExamples | src/pages/Notifications/SceneAlt.js:783-818 | HOT, OLD, COMMENTS draw Hot "Lots of recent activity", Timer "Old pull request that needs your review", Convo "Very talkative thread" in that order; no badges or an unknown one draw nothing |
| Scene.Loading | src/pages/Notifications/SceneAlt.js:462 | the view is loading while a search or a fetch is in flight, and only then |
| Scene.IsFirstPage | src/pages/Notifications/SceneAlt.js:463 | the first page is exactly page 1 |
| Scene.IsLastPage | src/pages/Notifications/SceneAlt.js:464 | the last page is exactly the page equal to `lastPage` |
| Scene.SearchFieldOf | src/pages/Notifications/SceneAlt.js:490-496 | the search input is disabled iff searching or fetching; the spinner shows iff searching |
| Scene.RefreshControl | src/pages/Notifications/SceneAlt.js:622-627 | refresh is disabled iff loading, has its tooltip iff enabled, and a click asks to fetch notifications iff enabled |
| Scene.ClearCacheControl | src/pages/Notifications/SceneAlt.js:628-638 | clear-cache is disabled iff loading, and a click asks to clear the cache iff enabled and the prompt is confirmed |
| Scene.QueryBarOf | src/pages/Notifications/SceneAlt.js:639-662 | the query indicator shows iff the query is non-empty, and its clear button asks to clear the query iff not loading |
| Scene.ToolbarOf | src/pages/Notifications/SceneAlt.js:621-690 | every toolbar control has a handler exactly when it is not disabled, and the page-range text shows first, last and the approximate total |
| Scene.PrevControl | src/pages/Notifications/SceneAlt.js:678-683 | prev is disabled iff loading or on page 1; otherwise a click asks for page - 1 |
| Scene.NextControl | src/pages/Notifications/SceneAlt.js:684-689 | next is disabled iff loading or on the last page; otherwise a click asks for page + 1 |
| Scene.PaginationIntents | src/pages/Notifications/SceneAlt.js:462-689 | a page change is requested iff not loading and not at the matching end, to the neighbouring page only; from a page in [1, lastPage] no requested page leaves that range |
| Scene.ClearCacheNeedsConfirmation | src/pages/Notifications/SceneAlt.js:628-638 | the cache is cleared iff not loading and the user confirms |
| Scene.StatusTabs | src/pages/Notifications/SceneAlt.js:693-722 | the tabs are named Unread, Read and Resolved and carry their counts, exactly one is highlighted (the active status), and each asks to switch to its own status |
| Scene.PrimaryAction | src/pages/Notifications/SceneAlt.js:831-845 | a row's first button asks to stage (id, repository) on the unread tab and to restore (id) on the others, and nothing while loading |
| Scene.SecondaryAction | src/pages/Notifications/SceneAlt.js:846-861 | a row's second button asks to mark (id) as resolved unless on the resolved tab, where its handler does nothing; nothing while loading |
| Scene.RowOf | src/pages/Notifications/SceneAlt.js:750-864 | a row shows its notification's type icon, relative time and badge icons; clicking the title opens the thread and stages it, loading or not; the repository link opens the repository |
| Scene.BodyOf | src/pages/Notifications/SceneAlt.js:726-744 | loader iff fetching; otherwise "No <status lower-cased> notifications" iff the list is empty; otherwise one row per notification, in order |
| Scene.EmptyText | src/pages/Notifications/SceneAlt.js:736 | the empty-list message is "No ", the status name lower-cased, then " notifications" |
| Scene.EmptyQueuedText | src/pages/Notifications/SceneAlt.js:736 | the unread message reads "No queued notifications" |
| Scene.EmptyStagedText | src/pages/Notifications/SceneAlt.js:736 | the read message reads "No staged notifications" |
| Scene.EmptyClosedText | src/pages/Notifications/SceneAlt.js:736 | the resolved message reads "No closed notifications" |
| Scene.EmptyQueuedMessage | src/pages/Notifications/SceneAlt.js:730-742 | an empty unread list that is not being fetched shows "No queued notifications" and the all-set line |
| Scene.SceneOf | src/pages/Notifications/SceneAlt.js:468-873 | the whole view: the search spinner shows iff searching, the loader iff fetching, and the search field is disabled iff one of them shows; exactly the active status's tab is highlighted |
| Scene.GuardedControlsInertWhileLoading | src/pages/Notifications/SceneAlt.js:622-861 | while loading, search is disabled and no toolbar control or row button hands over an intent; a table is then shown only because a search, not a fetch, is running (the unguarded status tabs and row title link still fire) |
| Scene.RowsActOnTheirOwnThread | src/pages/Notifications/SceneAlt.js:831-861 | a row's buttons only ask about that row's thread; when not loading, stage iff unread tab, restore iff not, mark-as-resolved iff not resolved tab |

## Left out

- Styling, theming, layout, icon sizes and tooltip offsets (lines 40-414 and the inline styles). They carry no decision.
- The clock and date library. The current time, the minute and day differences and the weekday are inputs (`RelativeTime.Age`). The weekday's name is the English one (`RelativeTime.WeekdayName`); other locales of the date library's day-of-week format are not modelled. The sidebar's clock and date lines (541, 548) are not modelled.
- RelativeTime.RelativeTime: takes integer differences only. A null, empty or unparsable `updated_at` is not an input to it; `RelativeTime.PhraseOf` maps that case (`InvalidDate`) to "Long time ago", as the source's tests all fail on its non-numeric differences. An undefined `updated_at` reads as the current time, which `Elapsed(0, 0, w)` already covers ("Just now").
- Browser side effects. `window.open` becomes the intent `OpenWindow(url)`. The `window.confirm` answer is the boolean `confirmed`. `console.warn` (466) is dropped.
- React rendering and the tooltip and on-enter wrappers. A tooltip is an optional text on a control. The text typed into search and handed to `onSearch` (494) is not modelled; the search field's disabled flag and spinner are.
- The logo click (483-486), the sign-out link (514) and the sidebar filter links (571-596). They are unconditional callbacks or equality highlighting.
- The sidebar line "You've triaged N notifications today" (554). It shows `stagedTodayCount` verbatim and decides nothing.
- The tooltips of the three status tabs (694, 704, 714). They are fixed texts that do not depend on any prop, so `Scene.Tab` does not carry them.
- The constants of the status, badge and filter files are not part of this model. Their string values are taken to be their names ("QUEUED", "HOT", ...). The same holds for the type strings "PullRequest" and "Issue", which the source spells out.
- Text.Lower: maps only ASCII letters, not the full Unicode case mapping of `toLowerCase`; the status names it is applied to are ASCII.
- Scene.QueryBarOf: the query is a string, and the empty string stands for every falsy query (`null`, `undefined`, `""`).
- Numbers (`page`, counts, `score`, `number`) are unbounded integers rather than JavaScript floating-point numbers. The page range text (`first-last of about total`) is kept as its three numbers.
- Props the modelled decisions never read: `onRefreshNotifications`, `fetchingNotificationsError`, `activeFilter`. Refresh calls `onFetchNotifications`.
