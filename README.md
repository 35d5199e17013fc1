# OneSupportAI console logic in Dafny

OneSupportAI is a customer-support console: a React single-page application
in which support agents browse doors and windows, look up product details,
work through support cases, chat with an AI assistant and take phone calls
in an embedded softphone. Most of the console is screens wired to REST
calls. Inside those screens there are many small rules that decide what
the agent sees, and this project states those rules in Dafny and proves
them.

The model follows the console's own structure. Each source file of
interest becomes one module. Pure helpers become functions with lemmas.
Components and services that change their state step by step become
classes. Each of their handlers is a method, and its `ensures` states the
new state in terms of the old one. Time, ids, confirmations and server
replies are parameters of those methods.

| module | file | what it covers |
|---|---|---|
| `Wrappers`, `Strings` | — | `null`/`undefined` as `Option`, and the JavaScript string operations used below (ASCII only) |
| `ProductCache` | `services/productCacheService.js` | memory plus localStorage caches with absolute expiry; search results, product details, doors home page |
| `Phone` | `utils/phoneUtils.js` | splitting, formatting and validating phone numbers |
| `CaseStatus` | `utils/caseUtils.js` | status badges and the 24-hour alert rule |
| `NameFormat` | `utils/nameFormatter.js` | display names from e-mail addresses |
| `ApiError` | `utils/errorHelper.js` | the message every failed API call throws |
| `Tabs` | `contexts/TabContext.jsx` | the tab bar: add, close, switch, unsaved marks |
| `PageStates` | `contexts/PageStateContext.jsx` | the per-tab page-state store and the navigation type |
| `Connect`, `RateLimit` | `services/connectService.js` | the softphone service's own bookkeeping and its two log limiters |
| `ConsoleFilter` | `main.jsx` | the start-up `console.error` filter |
| `IncomingCall` | `components/IncomingCallNotification.jsx` | the incoming-call pop-up |
| `Layout`, `Sidebar`, `Faq` | `components/Layout.jsx`, `Sidebar.jsx`, `FAQDropdown/index.jsx` | titles, visibility rules, menu highlighting, accordion |
| `AISidebar`, `AIHistory` | `components/AISidebar.jsx`, `AIHistoryArea.jsx` | the assistant panel and the conversation history |
| `ProductDetail` | `pages/ProductDetailPage.jsx` | the product shown, its images, section keys, overview order |
| `Catalog`, `DoorsArea`, `WindowsArea`, `ProductArea` | `components/DoorsArea.jsx`, `WindowsArea.jsx`, `ProductArea.jsx` | the product lists, their pagers and searches |
| `Pagination` | seven list components | the page-number window, in its two variants |
| `Documents`, `Users`, `Settings`, `FormErrors` | `components/DocumentManagement.jsx`, `UserManagement.jsx`, `pages/SettingsPage.jsx` | the upload picker, the user form and the password form |
| `CaseForms` | `pages/NewCasePage.jsx`, `pages/CallPage.jsx` | the case forms and the call page's case drafts |
| `CasesPages` | `pages/CasesPage.jsx`, `CasesByStatusPage.jsx`, `AlertCasesPage.jsx` | the three paged case lists and their cursors |
| `Dashboard` | `pages/AllCasesDashboardPage.jsx` | the filter, the date buckets and the chart series |

Source cells name files of the OneSupportAI repository, with line numbers.

## Model

The table lists the members whose contracts state something. A helper without an `ensures` clause of its own, such as `Pagination.PageWindow`, `Users.Validate`, `Settings.ValidatePassword`, `Dashboard.MetricsOf` or `Dashboard.DashboardFilter.QueryEnabled`, is covered by the rows of the members and lemmas that state its properties, which cite the same lines.

| member | source | states |
|---|---|---|
| NameFormat.LocalPart | OneSupportAI/frontend/src/utils/nameFormatter.js:5 | the local part is a prefix of the address without `@`, ending at the first `@` |
| NameFormat.SplitFirstIsPrefix | OneSupportAI/frontend/src/utils/nameFormatter.js:8 | the first piece of the split on `.`, `_`, `-` is the prefix up to the first separator |
| NameFormat.FormatUserName | OneSupportAI/frontend/src/utils/nameFormatter.js:1-14 | `'User'` for an empty address; otherwise the local part with separators as spaces and each piece capitalised, of the local part's length |
| NameFormat.DisplayNameHasNoSeparators | OneSupportAI/frontend/src/utils/nameFormatter.js:8-13 | no `.`, `_` or `-` survives in the display name |
| NameFormat.SpacedNameHasNoSeparators | OneSupportAI/frontend/src/utils/nameFormatter.js:8-13 | the piece-by-piece rewrite leaves no separator, from any starting state |
| CaseStatus.StatusIndex | OneSupportAI/frontend/src/utils/caseUtils.js:6-14 | a mapped status word indexes one of the three badges |
| CaseStatus.BadgeOf | OneSupportAI/frontend/src/pages/CasesPage.jsx:141-143 | the badge shown for a status is always one of `CASE_STATUS`, Pending by default |
| CaseStatus.BadgeOfLabel | OneSupportAI/frontend/src/utils/caseUtils.js:1-14 | each badge label, lower-cased, maps back to its own badge |
| CaseStatus.StatusIndexKeys | OneSupportAI/frontend/src/utils/caseUtils.js:6-14 | exactly pending/open/active map to Pending, closed/resolved/cancelled to Closed, alert to Alert |
| CaseStatus.ShouldCaseBeAlerted | OneSupportAI/frontend/src/utils/caseUtils.js:19-35 | only a present case with a creation time that is not closed can be alerted |
| CaseStatus.AlertedIffDayOld | OneSupportAI/frontend/src/utils/caseUtils.js:32-35 | an open case is alerted iff at least one whole day has passed since creation |
| CaseStatus.AlertStaysOn | OneSupportAI/frontend/src/utils/caseUtils.js:32-35 | once alerted, a case stays alerted at every later time |
| CaseStatus.ClosedNeverAlerted | OneSupportAI/frontend/src/utils/caseUtils.js:23 | a closed case, in any letter case, is never alerted |
| ApiError.BaseMessage | OneSupportAI/frontend/src/utils/errorHelper.js:10 | never empty; the server's message first, then the client's, then the generic text |
| ApiError.HandleApiError | OneSupportAI/frontend/src/utils/errorHelper.js:9-46 | 401, 403, 404 and every status from 500 up throw their fixed messages |
| ApiError.PassedOnMessage | OneSupportAI/frontend/src/utils/errorHelper.js:12-15 | for any other status the thrown text is context tag, base message and status tag, and the base message reads back from it (see also line 45) |
| ApiError.ContextTagged | OneSupportAI/frontend/src/utils/errorHelper.js:12 | the thrown text starts with `[context] `, or with the base message when there is no context (see also line 15) |
| ApiError.StatusTagReadsBack | OneSupportAI/frontend/src/utils/errorHelper.js:15 | the ` (Status: n)` tag carries `n`, which reads back with `parseInt` |
| Phone.Clean | OneSupportAI/frontend/src/utils/phoneUtils.js:14 | the cleaned number keeps only digits and `+`, and is no longer than the input |
| Phone.CleanAppend | OneSupportAI/frontend/src/utils/phoneUtils.js:14 | cleaning a concatenation cleans each part, so the kept characters stay in their order |
| Phone.CleanOneChar | OneSupportAI/frontend/src/utils/phoneUtils.js:14 | one character is kept exactly when it is a digit or `+` |
| Phone.CleanKeepsPhoneChars | OneSupportAI/frontend/src/utils/phoneUtils.js:14 | a string of digits and `+` only is left as it is |
| Phone.CleanIdempotent | OneSupportAI/frontend/src/utils/phoneUtils.js:14 | cleaning twice is cleaning once (see also line 57) |
| Phone.MatchCode | OneSupportAI/frontend/src/utils/phoneUtils.js:19-30 | the code found is from the list or the default, and the local part is a suffix of the cleaned number (see also line 34) |
| Phone.ParsePhoneNumber | OneSupportAI/frontend/src/utils/phoneUtils.js:10-35 | the parsed code is always a known code; the local part is digits and `+` only and no longer than the input |
| Phone.FormatPhoneNumber | OneSupportAI/frontend/src/utils/phoneUtils.js:43-46 | empty exactly when the local part is empty; otherwise the code followed by the local part |
| Phone.ValidatePhoneNumber | OneSupportAI/frontend/src/utils/phoneUtils.js:53-67 | valid iff non-empty and the cleaned number has at least 8 characters with a leading `+`, 7 without |
| Phone.ParseFormatRoundTrip | OneSupportAI/frontend/src/utils/phoneUtils.js:10-46 | parsing a formatted known code and digits-only local part gives back both parts (for +64, when the local part has no leading 0) |
| Phone.MatchCodeFindsCode | OneSupportAI/frontend/src/utils/phoneUtils.js:19-29 | the first matching code in list order is the intended one: no listed code shadows another |
| Phone.MatchCodeSkips | OneSupportAI/frontend/src/utils/phoneUtils.js:21-22 | codes that do not prefix the number are passed over in order |
| Phone.ParseDropsNewZealandTrunkZero | OneSupportAI/frontend/src/utils/phoneUtils.js:24-27 | a +64 number written with its trunk 0 loses that 0 |
| Phone.LocalNumberGetsDefaultCode | OneSupportAI/frontend/src/utils/phoneUtils.js:17 | a number without a leading `+` parses to +64 and the cleaned number (see also lines 33-34) |
| PageStates.PageStateStore.constructor | OneSupportAI/frontend/src/contexts/PageStateContext.jsx:6 | the store starts empty with navigation type `'tab'` (see also line 29) |
| PageStates.PageStateStore.SavePageState | OneSupportAI/frontend/src/contexts/PageStateContext.jsx:9-11 | the tab's entry is set, every other entry unchanged |
| PageStates.PageStateStore.GetPageState | OneSupportAI/frontend/src/contexts/PageStateContext.jsx:14-16 | returns the saved state iff one exists for the tab |
| PageStates.PageStateStore.ClearPageState | OneSupportAI/frontend/src/contexts/PageStateContext.jsx:19-21 | removes exactly the tab's entry |
| PageStates.PageStateStore.HasPageState | OneSupportAI/frontend/src/contexts/PageStateContext.jsx:24-26 | true iff a state is saved for the tab |
| PageStates.PageStateStore.SetNavigationType | OneSupportAI/frontend/src/contexts/PageStateContext.jsx:31-33 | the marker becomes the given type |
| PageStates.PageStateStore.GetNavigationType | OneSupportAI/frontend/src/contexts/PageStateContext.jsx:35-37 | returns the current marker |
| ConsoleFilter.StreamsErrorFilter.constructor | OneSupportAI/frontend/src/main.jsx:9-11 | the counter and its window start at 0 with nothing written |
| ConsoleFilter.StreamsErrorFilter.ConsoleError | OneSupportAI/frontend/src/main.jsx:13-49 | the window is refreshed on every call; other messages always pass; noise is counted and passed, noticed or dropped by the limiter |
| ConsoleFilter.NoiseBurstIsCapped | OneSupportAI/frontend/src/main.jsx:17-44 | a burst of noise within ten seconds of the first shows at most three messages, then one notice when there are more |
| RateLimit.Refresh | OneSupportAI/frontend/src/main.jsx:17-21 | the reset either keeps the window or opens a new one at `now`, never raising the count |
| RateLimit.Decide | OneSupportAI/frontend/src/main.jsx:40-44 | pass iff the count is below the limit, one notice exactly at it |
| RateLimit.Step | OneSupportAI/frontend/src/main.jsx:17-21 | one counted message refreshes the window, counts itself and is decided on the refreshed count (see also lines 38-44) |
| RateLimit.Emit | OneSupportAI/frontend/src/main.jsx:40-45 | at most one line reaches the console: the message when passed, the notice when noticed |
| RateLimit.Run | OneSupportAI/frontend/src/main.jsx:13-49 | one decision per counted message |
| RateLimit.RunInWindow | OneSupportAI/frontend/src/main.jsx:17-21 | while no message leaves the window, the i-th is decided on the window's count plus i (see also lines 38-44) |
| RateLimit.CountDecisions | OneSupportAI/frontend/src/main.jsx:40-44 | over counts 0..n-1 there are min(n, limit) passes and one notice iff n exceeds the limit |
| RateLimit.BurstIsCapped | OneSupportAI/frontend/src/main.jsx:17-44 | a burst within one fresh window passes min(n, limit) messages and one notice when there are more |
| Connect.ConnectService.constructor | OneSupportAI/frontend/src/services/connectService.js:4-18 | a new service is uninitialised, not ready, without agent, contact, container or last call, unlocked, with cleanup time 0 |
| Connect.ConnectService.IsCCPEmbeddedIn | OneSupportAI/frontend/src/services/connectService.js:668-671 | true iff the recorded location is the target and the container's parent is the target |
| Connect.ConnectService.IsCCPReadyForEmbedding | OneSupportAI/frontend/src/services/connectService.js:985-987 | true iff initialised, a container exists and no embed holds the lock |
| Connect.ConnectService.CreateContainer | OneSupportAI/frontend/src/services/connectService.js:184-195 | the new container is held, with no parent and no recorded location |
| Connect.ConnectService.MarkInitialized | OneSupportAI/frontend/src/services/connectService.js:36-48 | initialisation ends initialised whether or not the set-up succeeded |
| Connect.ConnectService.OnAgent | OneSupportAI/frontend/src/services/connectService.js:301-303 | the agent is stored and the service is ready |
| Connect.ConnectService.OnContact | OneSupportAI/frontend/src/services/connectService.js:327-333 | the contact and its id become current |
| Connect.ConnectService.EmbedCCPToContainer | OneSupportAI/frontend/src/services/connectService.js:613-665 | succeeds iff unlocked with a target and a container; success leaves the container in the target; failure or an existing embed moves nothing; the lock is released |
| Connect.ConnectService.CleanupExistingCCP | OneSupportAI/frontend/src/services/connectService.js:51-117 | nothing changes within 2000 ms of the last cleanup; otherwise the time is recorded and an uninitialised service terminates a loaded library and forgets its container |
| Connect.ConnectService.HangupCall | OneSupportAI/frontend/src/services/connectService.js:568-585 | fails with "No active call to hang up" iff there is no contact; otherwise reports success with the contact id |
| Connect.ConnectService.OnEnd | OneSupportAI/frontend/src/services/connectService.js:367-380 | the ended call's id, `CustomerPhone` (or "") and end time are kept, and the current contact is cleared |
| Connect.ConnectService.NeedsConnectLogin | OneSupportAI/frontend/src/services/connectService.js:1077-1130 | a login is needed iff the session flag is not `'1'`, whatever the softphone probe shows |
| Connect.ConnectService.Status | OneSupportAI/frontend/src/services/connectService.js:1375-1383 | the status reports the flags, agent and contact presence and the contact id |
| Connect.ConnectService.GetStatus | OneSupportAI/frontend/src/services/connectService.js:1375-1383 | returns the same status as `Status()` |
| Connect.ConnectService.Destroy | OneSupportAI/frontend/src/services/connectService.js:1386-1400 | terminates once iff it was initialised; afterwards the status is all false with no contact id, and the softphone is not ready for embedding |
| Connect.ConnectService.ConsoleError | OneSupportAI/frontend/src/services/connectService.js:890-919 | the window is refreshed first; known library noise is dropped uncounted; other errors are counted, ten per five seconds, then one notice |
| Connect.ConnectService.ConsoleWarn | OneSupportAI/frontend/src/services/connectService.js:928-945 | warnings are counted, five per five seconds, then one notice |
| Connect.ErrorBurstIsCapped | OneSupportAI/frontend/src/services/connectService.js:895-918 | within one five-second window at most ten counted errors pass, then one notice |
| Connect.WarnBurstIsCapped | OneSupportAI/frontend/src/services/connectService.js:932-944 | within one five-second window at most five warnings pass, then one notice |
| Wrappers.FirstTruthy | OneSupportAI/frontend/src/components/IncomingCallNotification.jsx:42 | `a \|\| b`: the first non-empty of the two, `None` exactly when both are falsy (every caller only tests it for truthiness) |
| IncomingCall.NotificationId | OneSupportAI/frontend/src/components/IncomingCallNotification.jsx:42 | a notification has an id iff its `callId` or `callerId` is non-empty |
| IncomingCall.CallPath | OneSupportAI/frontend/src/components/IncomingCallNotification.jsx:102 | the path is `/call/` followed by the non-empty `callerId`, else `callId`, else `test-call-` and the time (see also lines 153-155) |
| IncomingCall.AutoNavigation | OneSupportAI/frontend/src/components/IncomingCallNotification.jsx:98-106 | navigates iff the state is `Connected`, the notification is visible, a call is held and no earlier automatic move happened, to that call's page |
| IncomingCall.MountSnapshotNeverNavigates | OneSupportAI/frontend/src/components/IncomingCallNotification.jsx:93-118 | with the mount-time values the callback closes over it never navigates, while the current values would |
| IncomingCall.IncomingCallNotifier.constructor | OneSupportAI/frontend/src/components/IncomingCallNotification.jsx:7-16 | nothing shown, no call, no socket, nothing navigated |
| IncomingCall.IncomingCallNotifier.OnMessage | OneSupportAI/frontend/src/components/IncomingCallNotification.jsx:36-58 | a repeat of the last call id is ignored; a new call is recorded and shown; `CALL_ENDED` hides and clears it; anything else changes nothing |
| IncomingCall.IncomingCallNotifier.OnClose | OneSupportAI/frontend/src/components/IncomingCallNotification.jsx:60-74 | code 1000 is final; any other drops the socket and schedules one reconnect |
| IncomingCall.IncomingCallNotifier.HandleAnswer | OneSupportAI/frontend/src/components/IncomingCallNotification.jsx:121-161 | no call or an answer in progress changes nothing; otherwise the customer details are handed on, the pop-up hides and the call page opens |
| IncomingCall.IncomingCallNotifier.AnswerTimeout | OneSupportAI/frontend/src/components/IncomingCallNotification.jsx:158-160 | the answering flag is cleared |
| IncomingCall.IncomingCallNotifier.HandleDismiss | OneSupportAI/frontend/src/components/IncomingCallNotification.jsx:163-166 | hides and clears the call, so nothing renders |
| IncomingCall.IncomingCallNotifier.OnServiceIncomingCall | OneSupportAI/frontend/src/components/IncomingCallNotification.jsx:90-92 | the Answer button is enabled |
| IncomingCall.IncomingCallNotifier.OnCallStateChangeAsWritten | OneSupportAI/frontend/src/components/IncomingCallNotification.jsx:93-107 | the registered body, were it invoked, over the mount-time values: `Ended` would clear the ready flag and nothing else would change; the service never invokes it (connectService.js stores the callback and calls only the contact-state and incoming-call callbacks), so as written no call-state event reaches the pop-up |
| IncomingCall.IncomingCallNotifier.OnCallStateChange | OneSupportAI/frontend/src/components/IncomingCallNotification.jsx:93-107 | corrected, with call-state events delivered and the current values read: `Connected` with a visible call hides it and opens the call page, at most once |
| IncomingCall.IdsChosenInOppositeOrder | OneSupportAI/frontend/src/components/IncomingCallNotification.jsx:42 | with two different ids the de-duplication uses `callId` but the page opened uses `callerId` (see also line 153) |
| Layout.NonEmpty | OneSupportAI/frontend/src/components/Layout.jsx:26 | `filter(Boolean)` keeps only non-empty pieces of the input, in order |
| Layout.Segments | OneSupportAI/frontend/src/components/Layout.jsx:26 | segments are non-empty and contain no `/` |
| Layout.GetTitleFromPath | OneSupportAI/frontend/src/components/Layout.jsx:25-45 | `Home` without segments; the mapped title of a known last segment; otherwise the last segment's words capitalised and joined with spaces |
| Layout.TitleFromLastSegment | OneSupportAI/frontend/src/components/Layout.jsx:26-29 | the title depends on the last segment alone |
| Layout.RootTitles | OneSupportAI/frontend/src/components/Layout.jsx:27 | `/`, `` and `//` are titled `Home` |
| Layout.TabPanelIff | OneSupportAI/frontend/src/components/Layout.jsx:61-63 | the tab bar is hidden exactly on `/login` and `/`; the always-show clause never overrides |
| Layout.OnPathChange | OneSupportAI/frontend/src/components/Layout.jsx:17-22 | every path change adds a tab for the path with its title, excluded paths changing nothing |
| Sidebar.GetActiveItem | OneSupportAI/frontend/src/components/Sidebar.jsx:15-29 | first matching rule wins: `/management` paths give `management`, other `/cases` paths `cases`, everything else `products` |
| Sidebar.TopLevelRoutes | OneSupportAI/frontend/src/components/Sidebar.jsx:16-20 | the exactly matched top routes contain neither `/management` nor `/cases` (see also line 27) |
| Sidebar.ActiveItemForLocation | OneSupportAI/frontend/src/components/Sidebar.jsx:35-48 | the effect's `else if` chain computes the same item as `getActiveItem` for every path |
| Sidebar.ExpandedGroup | OneSupportAI/frontend/src/components/Sidebar.jsx:51-57 | the auto-expanded group is `cases`, `management`, `products` or none |
| Sidebar.AutoExpanded | OneSupportAI/frontend/src/components/Sidebar.jsx:51-57 | the route's group, if any, is set to true; nothing else changes |
| Sidebar.AutoExpandNeverCollapses | OneSupportAI/frontend/src/components/Sidebar.jsx:51-57 | auto-expansion sets at most one group and never collapses one |
| Sidebar.Toggled | OneSupportAI/frontend/src/components/Sidebar.jsx:60-65 | flips exactly one key, a missing key reading as false; others unchanged |
| Sidebar.ToggleTwice | OneSupportAI/frontend/src/components/Sidebar.jsx:60-65 | toggling twice restores a present group, and leaves a missing one collapsed |
| Sidebar.SidebarState.constructor | OneSupportAI/frontend/src/components/Sidebar.jsx:8 | products expanded, management and cases collapsed, the route's item highlighted (see also line 31) |
| Sidebar.SidebarState.OnLocationChange | OneSupportAI/frontend/src/components/Sidebar.jsx:34-58 | highlights the route's item and auto-expands its group |
| Sidebar.SidebarState.ToggleExpanded | OneSupportAI/frontend/src/components/Sidebar.jsx:60-65 | the expansion map becomes its toggle at the item |
| Sidebar.SidebarState.HandleItemClick | OneSupportAI/frontend/src/components/Sidebar.jsx:67-85 | the three groups only toggle; history, FAQs and settings navigate to their routes; the item is highlighted |
| Sidebar.SidebarState.HandleSubitemClick | OneSupportAI/frontend/src/components/Sidebar.jsx:87-100 | highlights the sub-item and opens its route when it has one |
| Sidebar.SubitemRoute | OneSupportAI/frontend/src/components/Sidebar.jsx:89-99 | a sub-item's route is empty or absolute |
| Sidebar.SubitemRouteHighlightsSubitem | OneSupportAI/frontend/src/components/Sidebar.jsx:15-29 | opening a sub-item's route highlights the same sub-item again (see also lines 87-100) |
| Faq.InitialExpansion | OneSupportAI/frontend/src/components/FAQDropdown/index.jsx:7-9 | one all-false row per section, as long as its question list |
| Faq.FlipAt | OneSupportAI/frontend/src/components/FAQDropdown/index.jsx:13 | flips only entry `qIdx` of a row |
| Faq.Toggle | OneSupportAI/frontend/src/components/FAQDropdown/index.jsx:11-15 | flips exactly entry `[s][q]`; every other entry and every row length unchanged |
| Faq.ToggleKeepsShape | OneSupportAI/frontend/src/components/FAQDropdown/index.jsx:11-15 | a toggle keeps the matrix shaped like the sections |
| Faq.ToggleTwice | OneSupportAI/frontend/src/components/FAQDropdown/index.jsx:11-15 | toggling the same entry twice restores the matrix |
| Faq.TogglesCommute | OneSupportAI/frontend/src/components/FAQDropdown/index.jsx:11-15 | two toggles commute |
| Faq.ToggleOutside | OneSupportAI/frontend/src/components/FAQDropdown/index.jsx:12-13 | a toggle outside the matrix changes nothing |
| Tabs.FindFirst | OneSupportAI/frontend/src/contexts/TabContext.jsx:54 | the index of the first tab whose field reads the value, or none exactly when no tab's does (see also line 74) |
| Tabs.FindByPath | OneSupportAI/frontend/src/contexts/TabContext.jsx:54 | the first tab with the path, or none when no tab has it |
| Tabs.FindById | OneSupportAI/frontend/src/contexts/TabContext.jsx:74 | the first tab with the id, or none when no tab has it (see also lines 87, 108) |
| Tabs.RemoveId | OneSupportAI/frontend/src/contexts/TabContext.jsx:83 | the remaining tabs all come from the list and none has the id |
| Tabs.AddTabIdempotent | OneSupportAI/frontend/src/contexts/TabContext.jsx:53-70 | adding the same path a second time changes nothing and activates the same tab |
| Tabs.AddKeepsUnique | OneSupportAI/frontend/src/contexts/TabContext.jsx:53-70 | adding keeps paths unique, and ids unique for a fresh clock reading |
| Tabs.RemoveIdSplices | OneSupportAI/frontend/src/contexts/TabContext.jsx:83 | with unique ids, closing removes exactly that tab and keeps the others in order |
| Tabs.RemoveAbsent | OneSupportAI/frontend/src/contexts/TabContext.jsx:83 | removing an id no tab has changes nothing |
| Tabs.RemoveKeepsUnique | OneSupportAI/frontend/src/contexts/TabContext.jsx:82-98 | closing keeps the tab list's invariants and every other tab is still found |
| Tabs.AddThenClose | OneSupportAI/frontend/src/contexts/TabContext.jsx:53-70 | opening a new page and closing its tab restores the tab list (see also line 83) |
| Tabs.NextIsNeighbour | OneSupportAI/frontend/src/contexts/TabContext.jsx:86-90 | closing the active tab shows its right-hand neighbour, or the left-hand one when it was last |
| Tabs.TabManager.constructor | OneSupportAI/frontend/src/contexts/TabContext.jsx:10-12 | no tabs, no active tab, nothing unsaved |
| Tabs.TabManager.AddTab | OneSupportAI/frontend/src/contexts/TabContext.jsx:46-71 | excluded paths change nothing; otherwise the navigation type is recorded and the path's existing or new tab becomes active |
| Tabs.TabManager.CloseTab | OneSupportAI/frontend/src/contexts/TabContext.jsx:73-105 | an unknown tab or a refused prompt changes nothing; otherwise the tab closes, loses its unsaved mark, and an active tab hands over to its neighbour or to `/home` |
| Tabs.TabManager.SwitchTab | OneSupportAI/frontend/src/contexts/TabContext.jsx:107-146 | a known tab becomes active and the saved location (with its state to restore) or the tab's path is opened; an unknown one changes nothing |
| Tabs.TabManager.SyncPageState | OneSupportAI/frontend/src/contexts/TabContext.jsx:18-44 | when the active tab's path is the current location its state is saved with the form values and scroll position; otherwise nothing is saved |
| Tabs.TabManager.MarkTabUnsaved | OneSupportAI/frontend/src/contexts/TabContext.jsx:148-158 | adds the tab to, or removes it from, the unsaved set |
| Tabs.TabManager.GetActiveTabInfo | OneSupportAI/frontend/src/contexts/TabContext.jsx:160-162 | finds a tab iff one is active, and it is the active one |
| Pagination.PageCount | OneSupportAI/frontend/src/components/DocumentManagement.jsx:174 | `Math.ceil(n / size)`: the fewest pages of `size` that hold `n` items |
| Pagination.Pages | OneSupportAI/frontend/src/pages/CasesPage.jsx:198-200 | the buttons `lo..hi` in order, none when `lo > hi` |
| Pagination.BuildPageWindow | OneSupportAI/frontend/src/components/DocumentManagement.jsx:462-491 | the render loop (also CasesPage, AlertCasesPage, CasesByStatusPage, UserManagement, DoorsArea, WindowsArea) builds exactly the window function, in both variants |
| Pagination.WindowAscending | OneSupportAI/frontend/src/pages/CasesByStatusPage.jsx:108-137 | page numbers in the window strictly increase, so none repeats |
| Pagination.WindowPages | OneSupportAI/frontend/src/pages/CasesPage.jsx:181-213 | page 1 always has a button; a page in `2..total` has one iff it is next to the current page or, with the last-page button, is the last page |
| Pagination.CurrentPageShown | OneSupportAI/frontend/src/pages/AlertCasesPage.jsx:142-172 | the current page always has a button when it is in range |
| Pagination.AdjacentPagesConsecutive | OneSupportAI/frontend/src/components/UserManagement.jsx:426-455 | two page buttons side by side are consecutive pages: any skip shows an ellipsis |
| Pagination.EllipsisMarksGap | OneSupportAI/frontend/src/components/DoorsArea.jsx:476-505 | an ellipsis never opens the window and always stands for at least one skipped page |
| ProductCache.MirrorsFrame | OneSupportAI/frontend/src/services/productCacheService.js:37-64 | the memory entry keeps mirroring localStorage when other keys change |
| ProductCache.StoredAfterWrite | OneSupportAI/frontend/src/services/productCacheService.js:71-81 | a stored payload reads back exactly while now is before the three-hour expiry |
| ProductCache.StoredAfterRemove | OneSupportAI/frontend/src/services/productCacheService.js:185-199 | after removing both keys nothing is found, and payload and expiry stay paired |
| ProductCache.OtherCachesUnaffected | OneSupportAI/frontend/src/services/productCacheService.js:185-225 | writing or removing one cache's keys leaves every other cache's answer unchanged |
| ProductCache.ValidIffHit | OneSupportAI/frontend/src/services/productCacheService.js:231-244 | for paired storage, a live stored expiry holds exactly when the lookup finds a payload |
| ProductCache.MirroredLookup | OneSupportAI/frontend/src/services/productCacheService.js:37-64 | while memory mirrors localStorage, the memory-first read answers what localStorage alone would |
| ProductCache.StoredWriteMirrors | OneSupportAI/frontend/src/services/productCacheService.js:71-81 | a complete write leaves the written slot mirroring localStorage and the other cache's mirror intact |
| ProductCache.FailedWriteServesMemory | OneSupportAI/frontend/src/services/productCacheService.js:71-86 | after a refused write the new payload is still served from memory until it expires, while localStorage keeps what it held |
| ProductCache.SearchKey | OneSupportAI/frontend/src/services/productCacheService.js:139-141 | the key is the search type, two separator characters, then the query |
| ProductCache.SearchKeyInjective | OneSupportAI/frontend/src/services/productCacheService.js:139-158 | for colon-free search types, two searches share a key exactly when type and query agree |
| ProductCache.SearchAfterWrite | OneSupportAI/frontend/src/services/productCacheService.js:150-158 | a cached search answers with its results exactly for five minutes |
| ProductCache.ClearAllKeepsEntries | OneSupportAI/frontend/src/services/productCacheService.js:170-178 | the clear-all branch as written keeps an entry that was cached |
| ProductCache.ClearedDetails | OneSupportAI/frontend/src/services/productCacheService.js:170-178 | an id removes only that entry; no id empties the detail cache |
| ProductCache.ProductCacheService.constructor | OneSupportAI/frontend/src/services/productCacheService.js:24-31 | both memory slots and both memory maps start empty over the persisted localStorage |
| ProductCache.ProductCacheService.GetCachedProducts | OneSupportAI/frontend/src/services/productCacheService.js:37-64 | the live memory entry, else the stored payload while its stored expiry is ahead (copied into memory), else none; while memory mirrors localStorage the answer is what localStorage alone holds |
| ProductCache.ProductCacheService.SetCachedProducts | OneSupportAI/frontend/src/services/productCacheService.js:71-86 | memory holds the payload with expiry now plus three hours; localStorage takes payload and expiry, the payload only, or nothing, as far as the writes got before one was refused; a complete write keeps both slots mirrored |
| ProductCache.ProductCacheService.GetCachedDoorCounts | OneSupportAI/frontend/src/services/productCacheService.js:92-117 | the same two-level lookup for the door counts, agreeing with localStorage alone while memory mirrors it |
| ProductCache.ProductCacheService.SetCachedDoorCounts | OneSupportAI/frontend/src/services/productCacheService.js:123-136 | memory holds the counts with expiry now plus three hours; localStorage takes both keys, the counts only, or nothing, as far as the writes got |
| ProductCache.ProductCacheService.GetCachedSearchResults | OneSupportAI/frontend/src/services/productCacheService.js:139-148 | the results under the combined key while its expiry is ahead, else none |
| ProductCache.ProductCacheService.SetCachedSearchResults | OneSupportAI/frontend/src/services/productCacheService.js:150-158 | the combined key now maps to the results expiring in five minutes; other keys unchanged |
| ProductCache.ProductCacheService.GetCachedProductDetail | OneSupportAI/frontend/src/services/productCacheService.js:161-163 | a result exactly when the id is cached, and it is the cached detail |
| ProductCache.ProductCacheService.SetCachedProductDetail | OneSupportAI/frontend/src/services/productCacheService.js:165-168 | the detail cache maps the id to the data, other ids unchanged |
| ProductCache.ProductCacheService.ClearProductDetailCache | OneSupportAI/frontend/src/services/productCacheService.js:170-178 | the detail cache becomes the corrected clearing of the old one |
| ProductCache.ProductCacheService.ClearCache | OneSupportAI/frontend/src/services/productCacheService.js:185-199 | the products memory slot is empty and both product keys are removed from localStorage |
| ProductCache.ProductCacheService.ClearDoorCountsCache | OneSupportAI/frontend/src/services/productCacheService.js:203-215 | the door-counts memory slot is empty and both door-count keys are removed |
| ProductCache.ProductCacheService.ClearAllCaches | OneSupportAI/frontend/src/services/productCacheService.js:221-225 | both memory slots empty and all four keys removed |
| ProductCache.ProductCacheService.IsCacheValid | OneSupportAI/frontend/src/services/productCacheService.js:231-244 | true exactly when the memory entry is live or the stored expiry is; true whenever the two-level lookup would hit |
| ProductCache.ProductCacheService.IsDoorCountsCacheValid | OneSupportAI/frontend/src/services/productCacheService.js:250-262 | the same for the door counts |
| ProductCache.ProductCacheService.GetCachedDoorsHome | OneSupportAI/frontend/src/services/productCacheService.js:325-336 | localStorage alone: the stored page while its expiry is ahead |
| ProductCache.ProductCacheService.SetCachedDoorsHome | OneSupportAI/frontend/src/services/productCacheService.js:338-346 | localStorage holds the page and its expiry three hours ahead, the page only, or nothing, as far as the writes got |
| ProductCache.ProductCacheService.ClearDoorsHomeCache | OneSupportAI/frontend/src/services/productCacheService.js:348-353 | both doors-home keys are removed |
| ProductDetail.ResolveProduct | OneSupportAI/frontend/src/pages/ProductDetailPage.jsx:17-27 | a cached detail for the id wins and the cache is untouched; otherwise the router's product is cached under the id and shown; with neither, nothing is shown and the cache is untouched |
| ProductDetail.FormatImageUrl | OneSupportAI/frontend/src/pages/ProductDetailPage.jsx:33-39 | a missing or empty URL gives nothing; a non-S3 URL is kept; an S3 URL is kept when it starts with https:// and otherwise gains that prefix, so it comes back starting with https:// and still naming the S3 host |
| ProductDetail.FormatImageUrlIdempotent | OneSupportAI/frontend/src/pages/ProductDetailPage.jsx:33-39 | formatting an already formatted URL changes nothing |
| ProductDetail.FormattedImages | OneSupportAI/frontend/src/pages/ProductDetailPage.jsx:48-50 | no more images than entries, and every kept image is already in formatted form |
| ProductDetail.FormattedImagesAppend | OneSupportAI/frontend/src/pages/ProductDetailPage.jsx:48-50 | the images of a concatenation are those of each part, in order |
| ProductDetail.FormattedImagesCons | OneSupportAI/frontend/src/pages/ProductDetailPage.jsx:48-50 | the first entry is kept, formatted, exactly when it formats to something, and the rest follow |
| ProductDetail.FormattedImagesOne | OneSupportAI/frontend/src/pages/ProductDetailPage.jsx:48-50 | one entry gives its formatted URL, or nothing when it formats to nothing |
| ProductDetail.ProductImages | OneSupportAI/frontend/src/pages/ProductDetailPage.jsx:30-55 | no product gives no images; otherwise the main image and then the additional images go through the same format-and-drop step, in that order |
| ProductDetail.ImagesAreSecure | OneSupportAI/frontend/src/pages/ProductDetailPage.jsx:30-55 | every listed image is non-empty, and an S3 image is fetched over https:// |
| ProductDetail.JsRemainder | OneSupportAI/frontend/src/pages/ProductDetailPage.jsx:84-90 | the remainder of JavaScript's % lies strictly between -n and n and agrees with Dafny's for a non-negative dividend |
| ProductDetail.ArrowsAreInverse | OneSupportAI/frontend/src/pages/ProductDetailPage.jsx:84-90 | both arrows keep the index inside the image list, and each undoes the other |
| ProductDetail.ImageViewer.constructor | OneSupportAI/frontend/src/pages/ProductDetailPage.jsx:13-14 | the viewer starts on the first image, closed |
| ProductDetail.ImageViewer.ToggleZoom | OneSupportAI/frontend/src/pages/ProductDetailPage.jsx:80-82 | the zoom flag flips |
| ProductDetail.ImageViewer.NextImage | OneSupportAI/frontend/src/pages/ProductDetailPage.jsx:84-86 | the index moves to the next image, wrapping, and stays in the list |
| ProductDetail.ImageViewer.PreviousImage | OneSupportAI/frontend/src/pages/ProductDetailPage.jsx:88-90 | the index moves to the previous image, wrapping, and stays in the list |
| ProductDetail.CollapseSeparators | OneSupportAI/frontend/src/pages/ProductDetailPage.jsx:251 | the result is no longer than the input and holds no & or white space; each character is a dash or comes from the input |
| ProductDetail.CollapseRun | OneSupportAI/frontend/src/pages/ProductDetailPage.jsx:251 | a maximal run of separators, however long, becomes exactly one dash |
| ProductDetail.SectionKey | OneSupportAI/frontend/src/pages/ProductDetailPage.jsx:251 | the key is no longer than the section name, lower case, and free of & and white space |
| ProductDetail.SectionKeyIdempotent | OneSupportAI/frontend/src/pages/ProductDetailPage.jsx:251 | a section key is its own key |
| ProductDetail.TabKeys | OneSupportAI/frontend/src/pages/ProductDetailPage.jsx:249-261 | one tab key at most per section |
| ProductDetail.Panels | OneSupportAI/frontend/src/pages/ProductDetailPage.jsx:305-310 | every drawn panel is a shown section of the product whose key is the active tab |
| ProductDetail.PanelsMatchTabs | OneSupportAI/frontend/src/pages/ProductDetailPage.jsx:249-261 | a panel is drawn exactly when the active tab is one of the tab keys (see also lines 305-310) |
| ProductDetail.SortByRank | OneSupportAI/frontend/src/pages/ProductDetailPage.jsx:271-284 | the comparator sort yields keys in ascending rank and a permutation of its input |
| ProductDetail.InsertOfRank | OneSupportAI/frontend/src/pages/ProductDetailPage.jsx:271-284 | an inserted key passes over lower ranks only, so it goes in front of the keys of its own rank |
| ProductDetail.SortByRankStable | OneSupportAI/frontend/src/pages/ProductDetailPage.jsx:271-284 | the sort is stable: the keys of any one rank, such as every key at the default 500, keep their input order |
| ProductDetail.SameRankUnchanged | OneSupportAI/frontend/src/pages/ProductDetailPage.jsx:271-284 | keys that all share one rank come back exactly in their input order |
| ProductDetail.WithoutImage | OneSupportAI/frontend/src/pages/ProductDetailPage.jsx:270 | no key is Image and every other key keeps its multiplicity |
| ProductDetail.OverviewOrder | OneSupportAI/frontend/src/pages/ProductDetailPage.jsx:268-284 | the overview drops Image, is sorted by rank and keeps every other key with its multiplicity |
| ProductDetail.WarrantyComesLast | OneSupportAI/frontend/src/pages/ProductDetailPage.jsx:272-283 | WARRANTY comes after every key without a fixed rank |
| Catalog.Lookup | OneSupportAI/frontend/src/components/DoorsArea.jsx:377-389 | `obj[key]`: none exactly when no entry has the key; otherwise the value of an entry with that key |
| Catalog.IndexOf | OneSupportAI/frontend/src/components/DoorsArea.jsx:367 | the position of the first occurrence of the character, none exactly when it is absent |
| Catalog.ReplaceFirst | OneSupportAI/frontend/src/components/DoorsArea.jsx:367 | a string pattern replaces only the first occurrence; every other character is kept |
| Catalog.TypeBadge | OneSupportAI/frontend/src/components/DoorsArea.jsx:367 | the badge has the length of the type |
| Catalog.BadgeAt | OneSupportAI/frontend/src/components/DoorsArea.jsx:367 | character by character: the first hyphen becomes a space, word starts are upper-cased, later hyphens stay |
| Catalog.DoorBadge | OneSupportAI/frontend/src/components/DoorsArea.jsx:367 | the type's badge, or Door when the type is missing |
| Catalog.WindowBadge | OneSupportAI/frontend/src/components/WindowsArea.jsx:267-269 | the type's badge, else the product type's badge, else Window |
| Catalog.SpecTags | OneSupportAI/frontend/src/components/WindowsArea.jsx:278-286 | no tags without specifications; otherwise one tag per bar-separated piece, each trimmed |
| Catalog.SpecTagsClean | OneSupportAI/frontend/src/components/WindowsArea.jsx:280-282 | no tag holds a bar or starts or ends with white space |
| Catalog.SpecTagsRoundTrip | OneSupportAI/frontend/src/components/WindowsArea.jsx:280-282 | when no piece needed trimming, joining the tags with bars gives the specifications back |
| Catalog.BeforeFirst | OneSupportAI/frontend/src/components/DoorsArea.jsx:390 | the text before the first separator: a prefix, the whole string when the separator is absent |
| Catalog.BeforeFirstHasNoSeparator | OneSupportAI/frontend/src/components/DoorsArea.jsx:390 | the text before the first separator holds no separator |
| Catalog.DoorSpecTags | OneSupportAI/frontend/src/components/DoorsArea.jsx:377-392 | material, style and the core type up to its first ' or ', each present exactly when set, in that order |
| Catalog.PagerAfter | OneSupportAI/frontend/src/components/DoorsArea.jsx:229-248 | the pager takes the reported page, page count and total, or stays as it was when none is reported |
| Catalog.PagerStepsInRange | OneSupportAI/frontend/src/components/DoorsArea.jsx:453-513 | from a page in range, the pages Previous and Next ask for when enabled are in range |
| Catalog.ListError | OneSupportAI/frontend/src/components/DoorsArea.jsx:244-250 | a thrown error keeps its message; an API error reads 'API returned error:' then the message or 'Unknown error' |
| Catalog.SearchErrorText | OneSupportAI/frontend/src/components/DoorsArea.jsx:148-155 | token expiry wins, then 'Product not found', else the generic search failure text |
| Catalog.UrlKeyText | OneSupportAI/frontend/src/components/DoorsArea.jsx:160-161 | a query present in the URL is the cache key text |
| Catalog.ShownAfterReRead | OneSupportAI/frontend/src/components/DoorsArea.jsx:160-166 | without live cached results for the URL's query, what the search produced is shown |
| Catalog.StaleSearchShown | OneSupportAI/frontend/src/components/DoorsArea.jsx:133-166 | as written, a second search within five minutes shows the first search's results |
| Catalog.StaleSearchExample | OneSupportAI/frontend/src/components/DoorsArea.jsx:133-166 | searching oak after pine shows pine's doors |
| Catalog.ShownAfterSearch | OneSupportAI/frontend/src/components/DoorsArea.jsx:133-166 | with the re-read keyed by the query just searched, a successful search shows exactly what it fetched |
| Catalog.DetailPath | OneSupportAI/frontend/src/components/DoorsArea.jsx:404 | a non-empty id without a slash gives a path the detail route matches |
| Catalog.WindowFallbackUnrouted | OneSupportAI/frontend/src/App.jsx:87 | no route matches the path the windows fallback navigates to |
| Catalog.DoorDetail | OneSupportAI/frontend/src/components/DoorsArea.jsx:397-441 | the detail route for the id, carrying the fetched product, or the card's fields with the door specification values joined by ' \| ' |
| Catalog.WindowDetail | OneSupportAI/frontend/src/components/WindowsArea.jsx:290-330 | the detail route for the id, carrying the fetched product or the card's fields with the type defaulting to windows |
| Catalog.WindowDetailAsWritten | OneSupportAI/frontend/src/components/WindowsArea.jsx:290-330 | as written, a fallback goes to the bare /product-detail path with the same state |
| Catalog.WindowDetailRouted | OneSupportAI/frontend/src/components/WindowsArea.jsx:290-330 | with a usable id both corrected outcomes are routed; as written the fallback never is |
| DoorsArea.ApiType | OneSupportAI/frontend/src/components/DoorsArea.jsx:75 | the all filter asks for every door; any other filter is asked for by name |
| DoorsArea.HomepageOnlyForFirstPage | OneSupportAI/frontend/src/components/DoorsArea.jsx:69-81 | the home-page cache is used exactly for page 1 of all doors; every other load names its type and page |
| DoorsArea.CountOf | OneSupportAI/frontend/src/components/DoorsArea.jsx:45-49 | a reported count, or 0 when it is missing |
| DoorsArea.CountsAfter | OneSupportAI/frontend/src/components/DoorsArea.jsx:39-66 | a failed fetch shows 0 everywhere; otherwise all is the doors count and each category its own |
| DoorsArea.MissingCountsAreZero | OneSupportAI/frontend/src/components/DoorsArea.jsx:45-49 | an unreported count shows 0, and a reported one shows its value |
| DoorsArea.ProductsProperty | OneSupportAI/frontend/src/components/DoorsArea.jsx:140 | a page object has a product list; a search's result array has none |
| DoorsArea.ClearAfterSearchAsWritten | OneSupportAI/frontend/src/components/DoorsArea.jsx:140 | as written, a successful search leaves the page's list undefined |
| DoorsArea.DoorsPanel.constructor | OneSupportAI/frontend/src/components/DoorsArea.jsx:14-35 | both lists start from the search cached for the URL's query, if any, with loading on and all counts 0 |
| DoorsArea.DoorsPanel.Mount | OneSupportAI/frontend/src/components/DoorsArea.jsx:68-119 | with no cached search, page 1 of all doors through the home-page cache plus the counts; with one, it is shown as search results and nothing is requested |
| DoorsArea.DoorsPanel.LoadDoors | OneSupportAI/frontend/src/components/DoorsArea.jsx:69-107 | the request for that page and type; a success shows the products and the reported pager, a failure empties both lists and shows the error |
| DoorsArea.DoorsPanel.HandleFilterChange | OneSupportAI/frontend/src/components/DoorsArea.jsx:187-223 | page 1 of the chosen type; a failure keeps the lists and shows the error |
| DoorsArea.DoorsPanel.HandlePageChange | OneSupportAI/frontend/src/components/DoorsArea.jsx:225-253 | that page of the active type; a failure keeps the lists and shows the error |
| DoorsArea.DoorsPanel.HandleSearch | OneSupportAI/frontend/src/components/DoorsArea.jsx:121-167 | a blank query reloads the active filter; a found result is shown, cached under the trimmed query and put in the URL; otherwise the error text and the re-read; the page's list is kept (corrected: the re-read uses the URL the handler has just navigated to, see Findings) |
| DoorsArea.DoorsPanel.ReloadForBlankSearch | OneSupportAI/frontend/src/components/DoorsArea.jsx:122-126 | the active filter's page 1 again, with the search-result flag left truthy |
| DoorsArea.DoorsPanel.SearchFor | OneSupportAI/frontend/src/components/DoorsArea.jsx:128-166 | a non-empty result is shown and cached for five minutes; otherwise not found or the error text by message, then the re-read (corrected: the re-read uses the URL the handler has just navigated to, see Findings) |
| DoorsArea.DoorsPanel.ShowReRead | OneSupportAI/frontend/src/components/DoorsArea.jsx:160-166 | the list becomes the live cached results for the URL's query, else what was produced (corrected: the re-read uses the URL the handler has just navigated to, see Findings) |
| DoorsArea.DoorsPanel.HandleSearchInputChange | OneSupportAI/frontend/src/components/DoorsArea.jsx:169-178 | a cleared box shows the page's list again with no error and no search flag; otherwise only the text changes |
| WindowsArea.WindowsPanel.constructor | OneSupportAI/frontend/src/components/WindowsArea.jsx:12-29 | both lists start from the search cached for the URL's query, if any, with loading on |
| WindowsArea.WindowsPanel.Mount | OneSupportAI/frontend/src/components/WindowsArea.jsx:31-79 | page 1 is requested unless a cached search is shown, in which case nothing is requested and it is flagged as search results |
| WindowsArea.WindowsPanel.LoadWindows | OneSupportAI/frontend/src/components/WindowsArea.jsx:32-63 | the page is requested; a success shows the products and the reported pager, a failure empties both lists and shows the error |
| WindowsArea.WindowsPanel.HandlePageChange | OneSupportAI/frontend/src/components/WindowsArea.jsx:150-178 | the page is requested; a failure keeps the lists and shows the error |
| WindowsArea.WindowsPanel.HandleSearch | OneSupportAI/frontend/src/components/WindowsArea.jsx:81-130 | a blank query shows the page's list again; a good response is shown and cached under the query as typed; otherwise the error text and the re-read (corrected: the re-read uses the URL the handler has just navigated to, see Findings) |
| WindowsArea.WindowsPanel.ShowPageList | OneSupportAI/frontend/src/components/WindowsArea.jsx:82-86 | the page's own list, no longer flagged as search results |
| WindowsArea.WindowsPanel.SearchFor | OneSupportAI/frontend/src/components/WindowsArea.jsx:88-130 | a good response, even empty, is shown, put in the URL and cached for five minutes; otherwise not found or the error text, then the re-read (corrected: the re-read uses the URL the handler has just navigated to, see Findings) |
| WindowsArea.WindowsPanel.ShowReRead | OneSupportAI/frontend/src/components/WindowsArea.jsx:123-129 | the list becomes the live cached results for the URL's query, else what was produced (corrected: the re-read uses the URL the handler has just navigated to, see Findings) |
| WindowsArea.WindowsPanel.HandleSearchInputChange | OneSupportAI/frontend/src/components/WindowsArea.jsx:132-141 | a cleared box shows the page's list with no error and no search flag; otherwise only the text changes |
| WindowsArea.WindowsPanel.HandleSearchSubmit | OneSupportAI/frontend/src/components/WindowsArea.jsx:143-148 | a blank box changes nothing; otherwise the search for the box's text runs with the outcomes of `SearchFor`: a good response is shown, put in the URL and cached, anything else gives the error text and the re-read, and the list is flagged as search results |
| ProductArea.Summary | OneSupportAI/frontend/src/components/ProductArea.jsx:88-121 | window specifications first, then the first construction text, then the first sustainability text, then the price-and-type fallback |
| ProductArea.SuggestedCard | OneSupportAI/frontend/src/components/ProductArea.jsx:44-51 | the card keeps the id and the original product, names it by product name, name or Unknown Product, uses the placeholder image when none is set, and carries the product's summary |
| ProductArea.SearchCard | OneSupportAI/frontend/src/components/ProductArea.jsx:136-144 | a search card keeps id, price and original item, names and pictures it as a suggested card does, and carries the summary it is given |
| ProductArea.SearchCardsAsWritten | OneSupportAI/frontend/src/components/ProductArea.jsx:136-144 | as written, one card per item, each summarising the whole response array |
| ProductArea.SearchCards | OneSupportAI/frontend/src/components/ProductArea.jsx:136-144 | one card per item, each summarising its own item |
| ProductArea.SearchCardsIgnoreItems | OneSupportAI/frontend/src/components/ProductArea.jsx:143 | as written, every search card carries the same fallback text |
| ProductArea.SearchSummaryLost | OneSupportAI/frontend/src/components/ProductArea.jsx:143 | as written, a window's specifications are not shown on its search card |
| ProductArea.SearchCardsDescribeEachItem | OneSupportAI/frontend/src/components/ProductArea.jsx:136-144 | corrected, a search card says what the suggested card for the same product says |
| ProductArea.ViewDetails | OneSupportAI/frontend/src/components/ProductArea.jsx:199-207 | the detail route for the card's id, carrying the original product when there is one, else the card |
| ProductArea.LoadErrorText | OneSupportAI/frontend/src/components/ProductArea.jsx:62-70 | the session-expired text exactly when the message mentions TOKEN_EXPIRED, else the fallback text |
| ProductArea.ReReadAsWritten | OneSupportAI/frontend/src/components/ProductArea.jsx:170-176 | the re-read shows the live cached results for the rendered URL's query and turns the searching flag on exactly when there are some |
| ProductArea.StaleHomeSearchLocksButton | OneSupportAI/frontend/src/components/ProductArea.jsx:124-176 | a new search while the URL names an earlier cached search shows the earlier results and leaves the search button disabled |
| ProductArea.ProductAreaState.constructor | OneSupportAI/frontend/src/components/ProductArea.jsx:11-19 | both lists start from the search cached for the URL's query, if any |
| ProductArea.ProductAreaState.LoadSuggestedProducts | OneSupportAI/frontend/src/components/ProductArea.jsx:21-73 | cached cards win; a good response gives one suggested card per product; anything else leaves no suggestions and the error text |
| ProductArea.ProductAreaState.HandleSearch | OneSupportAI/frontend/src/components/ProductArea.jsx:124-177 | a blank query empties the results without a request; a good response shows one card per item, moves the URL to the trimmed query and caches the cards; otherwise the error text and the re-read (corrected: the re-read uses the URL just navigated to, and a hit does not turn the searching flag back on, see Findings); the searching flag ends off |
| ProductArea.ProductAreaState.SearchFor | OneSupportAI/frontend/src/components/ProductArea.jsx:130-176 | the non-blank branch for the trimmed query, as above (corrected: the re-read uses the URL just navigated to, and a hit does not turn the searching flag back on, see Findings); the searching flag ends off |
| ProductArea.ProductAreaState.ShowReRead | OneSupportAI/frontend/src/components/ProductArea.jsx:170-176 | the results become the live cached results for the URL's query, else what was produced (corrected: the re-read uses the URL just navigated to, and a hit does not turn the searching flag back on, see Findings); the searching flag ends off |
| ProductArea.ProductAreaState.HandleSearchInputChange | OneSupportAI/frontend/src/components/ProductArea.jsx:180-189 | a cleared input clears the results and the error; otherwise only the text changes |
| ProductArea.ProductAreaState.HandleSearchSubmit | OneSupportAI/frontend/src/components/ProductArea.jsx:192-197 | a blank box changes nothing; otherwise the search for the box's text runs with the outcomes of `HandleSearch`: a good response is shown, put in the URL and cached, anything else gives the error text and the re-read, and the searching flag ends off |
| FormErrors.Cleared | OneSupportAI/frontend/src/components/UserManagement.jsx:94-99 | a shown message becomes the empty message and the key stays; a missing key or an empty message is left as it is |
| Users.UserErrors.ClearField | OneSupportAI/frontend/src/components/UserManagement.jsx:94-99 | only the typed field's message is cleared; every other message and the server's message are kept |
| Users.UserForm.With | OneSupportAI/frontend/src/components/UserManagement.jsx:89-92 | the named field takes the value and every other field keeps its own |
| Users.ShapedNotBlank | OneSupportAI/frontend/src/components/UserManagement.jsx:111-114 | a string shaped like an address is never blank, so the required check comes first only for blank input |
| Users.EmailShapeExamples | OneSupportAI/frontend/src/components/UserManagement.jsx:113 | the shortest address shape passes; a missing dot or a space beside @ fails |
| Users.NameError | OneSupportAI/frontend/src/components/UserManagement.jsx:105-109 | no message exactly when the name is non-blank and at most 50 characters |
| Users.EmailError | OneSupportAI/frontend/src/components/UserManagement.jsx:111-117 | no message exactly when the address is shaped like one and at most 100 characters; too long is reported only for a well-shaped address |
| Users.PasswordError | OneSupportAI/frontend/src/components/UserManagement.jsx:119-123 | no message exactly when the password is non-blank and, untrimmed, at least 6 characters |
| Users.PositionError | OneSupportAI/frontend/src/components/UserManagement.jsx:125-127 | no message exactly when a position is chosen |
| Users.ValidIffRulesHold | OneSupportAI/frontend/src/components/UserManagement.jsx:102-131 | the form validates exactly when every field's rule holds |
| Users.EmptyFormRejected | OneSupportAI/frontend/src/components/UserManagement.jsx:8-13 | a freshly opened form reports name, e-mail and password as required and nothing else (see also lines 102-131) |
| Users.PageAfterDelete | OneSupportAI/frontend/src/components/UserManagement.jsx:72-81 | the page stays at least 1, lands on or before the last page of the remaining users, and changes only when it lay past that page |
| Users.PageAfterDeleteNotEmpty | OneSupportAI/frontend/src/components/UserManagement.jsx:72-81 | after a delete that leaves users, the page shown still holds some of them |
| Users.UserAdmin.constructor | OneSupportAI/frontend/src/components/UserManagement.jsx:7-18 | the form starts closed and empty with no errors, on page 1 with no search |
| Users.UserAdmin.HandleInputChange | OneSupportAI/frontend/src/components/UserManagement.jsx:87-100 | the field takes the value and only that field's shown message is cleared |
| Users.UserAdmin.ValidateForm | OneSupportAI/frontend/src/components/UserManagement.jsx:102-131 | the errors become the validation record of the form, and the answer is whether it is empty |
| Users.UserAdmin.HandleSubmit | OneSupportAI/frontend/src/components/UserManagement.jsx:54-67 | nothing is sent unless the form validates; a created user resets and closes the form on page 1; a failure shows only the server's message (see also lines 133-138) |
| Users.UserAdmin.Settle | OneSupportAI/frontend/src/components/UserManagement.jsx:56-66 | success resets and closes the form on page 1; failure replaces the errors with the server's message |
| Users.UserAdmin.OpenForm | OneSupportAI/frontend/src/components/UserManagement.jsx:272 | the form opens |
| Users.UserAdmin.CloseForm | OneSupportAI/frontend/src/components/UserManagement.jsx:283-289 | the form closes, emptied, with no errors (see also lines 355-362) |
| Users.UserAdmin.HandleDeleteSucceeded | OneSupportAI/frontend/src/components/UserManagement.jsx:72-81 | the page becomes the corrected page after the delete |
| Users.UserAdmin.HandlePageChange | OneSupportAI/frontend/src/components/UserManagement.jsx:150-152 | the page becomes the chosen one |
| Users.UserAdmin.HandlePreviousPage | OneSupportAI/frontend/src/components/UserManagement.jsx:154-158 | back one page when past page 1, otherwise unchanged |
| Users.UserAdmin.HandleNextPage | OneSupportAI/frontend/src/components/UserManagement.jsx:160-164 | on one page only while below the server's page count, never past it |
| Users.UserAdmin.HandleSearchChange | OneSupportAI/frontend/src/components/UserManagement.jsx:167-170 | the term changes and the page returns to 1 |
| Users.UserAdmin.HandleSearchSubmit | OneSupportAI/frontend/src/components/UserManagement.jsx:172-178 | a non-blank term shows the searching indicator on page 1; a blank one changes nothing |
| Users.UserAdmin.SearchDelayElapsed | OneSupportAI/frontend/src/components/UserManagement.jsx:181-183 | the searching indicator goes off |
| Settings.PasswordForm.With | OneSupportAI/frontend/src/pages/SettingsPage.jsx:117-121 | the named input takes the value and the others keep theirs |
| Settings.PasswordErrors.ClearField | OneSupportAI/frontend/src/pages/SettingsPage.jsx:123-128 | only the typed input's shown message is cleared |
| Settings.OldPasswordError | OneSupportAI/frontend/src/pages/SettingsPage.jsx:54-56 | no message exactly when a current password is given, untrimmed |
| Settings.NewPasswordError | OneSupportAI/frontend/src/pages/SettingsPage.jsx:58-62 | no message exactly when the new password has at least 6 characters; too short exactly when given but shorter |
| Settings.ConfirmError | OneSupportAI/frontend/src/pages/SettingsPage.jsx:64-68 | no message exactly when the confirmation is given and equals the new password; a mismatch exactly when given and different |
| Settings.ValidIffRulesHold | OneSupportAI/frontend/src/pages/SettingsPage.jsx:51-72 | the form validates exactly when the current password is given and the new one is long enough and confirmed |
| Settings.EmptyFormRejected | OneSupportAI/frontend/src/pages/SettingsPage.jsx:51-72 | a freshly opened form reports all three inputs as missing |
| Settings.FailureErrors | OneSupportAI/frontend/src/pages/SettingsPage.jsx:96-99 | an incorrect current password is shown on that input; a too-short new password shows the server's message on the new one; nothing else is shown on an input |
| Settings.FailureAlert | OneSupportAI/frontend/src/pages/SettingsPage.jsx:100-104 | an alert exactly when no input shows the failure: the session text for an expired session, else the failure prefix and the message |
| Settings.SettingsPanel.constructor | OneSupportAI/frontend/src/pages/SettingsPage.jsx:17-27 | no editor open, an empty form, no errors, no request |
| Settings.SettingsPanel.HandleEdit | OneSupportAI/frontend/src/pages/SettingsPage.jsx:39-49 | the field's editor opens; the password editor opens on an empty form with no errors |
| Settings.SettingsPanel.ValidatePasswordForm | OneSupportAI/frontend/src/pages/SettingsPage.jsx:51-72 | the errors become the validation record and the answer is whether it is empty |
| Settings.SettingsPanel.HandleSave | OneSupportAI/frontend/src/pages/SettingsPage.jsx:74-109 | a request exactly for the password field with a valid form; success closes the editor on an empty form with the success alert; failure keeps the form and shows the failure's errors and alert |
| Settings.SettingsPanel.Settle | OneSupportAI/frontend/src/pages/SettingsPage.jsx:79-104 | the two endings of the request after a valid form |
| Settings.SettingsPanel.HandleCancel | OneSupportAI/frontend/src/pages/SettingsPage.jsx:111-115 | the editor closes on an empty form with no errors |
| Settings.SettingsPanel.HandlePasswordChange | OneSupportAI/frontend/src/pages/SettingsPage.jsx:117-129 | the input takes the value and only that input's shown message is cleared |
| Documents.SelectionAlert | OneSupportAI/frontend/src/components/DocumentManagement.jsx:79-89 | no alert exactly for a PDF of at most 10 MB; the type alert exactly when the type is wrong, checked first |
| Documents.FilterFiles | OneSupportAI/frontend/src/components/DocumentManagement.jsx:165-169 | an empty term keeps every file; otherwise a file is kept exactly when its name contains the term ignoring case, in order |
| Documents.FilterFilesAppend | OneSupportAI/frontend/src/components/DocumentManagement.jsx:165-169 | filtering a concatenation filters each part, so the kept files stay in their order |
| Documents.FilterFilesCons | OneSupportAI/frontend/src/components/DocumentManagement.jsx:165-169 | the first file is filtered on its own, and the rest after it |
| Documents.FilterFilesOne | OneSupportAI/frontend/src/components/DocumentManagement.jsx:165-169 | one file is kept exactly when the term is empty or matches its name |
| Documents.FilterKeepsAllMatching | OneSupportAI/frontend/src/components/DocumentManagement.jsx:165-169 | when every name matches, the filter keeps the whole list in order |
| Documents.VisibleFiles | OneSupportAI/frontend/src/components/DocumentManagement.jsx:171-173 | at most 10 files, exactly the filtered files from position (page - 1) * 10 on |
| Documents.FileOnItsPage | OneSupportAI/frontend/src/components/DocumentManagement.jsx:171-174 | every filtered file appears on exactly one page within the page count, at its position modulo 10 |
| Documents.VisibleIffInRange | OneSupportAI/frontend/src/components/DocumentManagement.jsx:171-174 | a page shows files exactly when it is one of the counted pages |
| Documents.ProgressAfter | OneSupportAI/frontend/src/components/DocumentManagement.jsx:102-110 | the progress rises by 10 per timer firing and stops at 90 |
| Documents.DocumentPanel.constructor | OneSupportAI/frontend/src/components/DocumentManagement.jsx:7-13 | the form closed, no file, progress 0, page 1, no search and no files |
| Documents.DocumentPanel.FilesLoaded | OneSupportAI/frontend/src/components/DocumentManagement.jsx:43-47 | the list becomes the server's files (see also line 162) |
| Documents.DocumentPanel.HandleFileSelect | OneSupportAI/frontend/src/components/DocumentManagement.jsx:77-90 | an accepted file becomes the selection; a rejected one raises its alert and changes nothing; no file changes nothing |
| Documents.DocumentPanel.HandleUpload | OneSupportAI/frontend/src/components/DocumentManagement.jsx:50-63 | with no file only an alert; otherwise the file is sent, success closes the form on page 1 at 100, failure resets the progress to 0 (see also lines 92-121) |
| Documents.DocumentPanel.SimulateProgress | OneSupportAI/frontend/src/components/DocumentManagement.jsx:102-110 | the timer loop's progress equals the progress after that many firings |
| Documents.DocumentPanel.HandlePageChange | OneSupportAI/frontend/src/components/DocumentManagement.jsx:177-179 | the page becomes the chosen one |
| Documents.DocumentPanel.HandlePreviousPage | OneSupportAI/frontend/src/components/DocumentManagement.jsx:181-185 | back one page when past page 1, otherwise unchanged |
| Documents.DocumentPanel.HandleNextPage | OneSupportAI/frontend/src/components/DocumentManagement.jsx:187-191 | on one page only while below the filtered list's page count |
| Documents.DocumentPanel.HandleSearchChange | OneSupportAI/frontend/src/components/DocumentManagement.jsx:194-197 | the term changes and the page returns to 1 |
| Documents.DocumentPanel.HandleSearchSubmit | OneSupportAI/frontend/src/components/DocumentManagement.jsx:199-204 | a non-blank term shows the searching indicator on page 1; a blank one changes nothing |
| Documents.DocumentPanel.SearchDelayElapsed | OneSupportAI/frontend/src/components/DocumentManagement.jsx:207-209 | the searching indicator goes off |
| CaseForms.CaseDraft.With | OneSupportAI/frontend/src/pages/NewCasePage.jsx:25-28 | the named input takes the value, every other input keeps its own, and the contact id is kept |
| Wrappers.Or | OneSupportAI/frontend/src/pages/CallPage.jsx:131-140 | a present non-empty text, else the fallback |
| CaseForms.FirstMissingFrom | OneSupportAI/frontend/src/pages/NewCasePage.jsx:33-46 | none exactly when no required input from that position on is missing; otherwise the first missing one |
| CaseForms.FirstMissing | OneSupportAI/frontend/src/pages/NewCasePage.jsx:33-46 | none exactly when no required input is missing; otherwise the first missing one in check order |
| CaseForms.CheckRequired | OneSupportAI/frontend/src/pages/NewCasePage.jsx:33-46 | the loop's message is the first missing input's message, none exactly when nothing required is missing |
| CaseForms.OptionalFieldIgnored | OneSupportAI/frontend/src/pages/NewCasePage.jsx:33-46 | changing an input that is not required never changes what the check reports |
| CaseForms.ActionsTodoPriorityOptional | OneSupportAI/frontend/src/pages/NewCasePage.jsx:33-46 | actions, todo and priority never affect the check |
| CaseForms.EmptyDraftStopsAtName | OneSupportAI/frontend/src/pages/CallPage.jsx:647-667 | a draft with no keys stops at the customer name |
| CaseForms.NewCaseEditor.constructor | OneSupportAI/frontend/src/pages/NewCasePage.jsx:11-23 | the form opens with its defaults and the opening time |
| CaseForms.NewCaseEditor.HandleChange | OneSupportAI/frontend/src/pages/NewCasePage.jsx:25-28 | only the named input changes |
| CaseForms.NewCaseEditor.HandleCancel | OneSupportAI/frontend/src/pages/NewCasePage.jsx:30 | the page goes back to the case list |
| CaseForms.NewCaseEditor.HandleSave | OneSupportAI/frontend/src/pages/NewCasePage.jsx:31-67 | a missing input stops with its toast and sends nothing; otherwise the form and the start time are sent, and any response counts as saved |
| CaseForms.CustomerCard | OneSupportAI/frontend/src/pages/CallPage.jsx:124-146 | the card always has a name, falling back to the placeholder; e-mail and location are empty; phone, case id and case count are the notification's or empty or 0 |
| CaseForms.AICaseIds | OneSupportAI/frontend/src/pages/CallPage.jsx:212-213 | the call id from the URL, else the last call's contact id; the last call's number, else the current phone |
| CaseForms.AIDraft | OneSupportAI/frontend/src/pages/CallPage.jsx:220-224 | the generated case with the contact id and number written over it, every other input kept |
| CaseForms.ManualDraftAsWritten | OneSupportAI/frontend/src/pages/CallPage.jsx:234-250 | as written, the draft carries the parsed country code and the local part separately |
| CaseForms.ManualDraft | OneSupportAI/frontend/src/pages/CallPage.jsx:234-250 | corrected, the draft carries the whole number, pending status, the card's name and e-mail or empty, and the call id |
| CaseForms.InitialCaseForm | OneSupportAI/frontend/src/pages/CallPage.jsx:625-640 | the status defaults to pending, code and number come from splitting the draft's number, the contact id is dropped and every other text defaults to empty |
| CaseForms.ManualCaseLosesCountryCode | OneSupportAI/frontend/src/pages/CallPage.jsx:234-250 | as written, every caller with a known code other than New Zealand's opens a manual case form with the New Zealand code (see also lines 625-640) |
| CaseForms.AustralianManualCase | OneSupportAI/frontend/src/pages/CallPage.jsx:234-250 | as written, +61412345678 opens with +64 (see also lines 625-640) |
| CaseForms.ManualCaseKeepsPhone | OneSupportAI/frontend/src/pages/CallPage.jsx:234-250 | corrected, the manual case form shows exactly the split of the caller's number (see also lines 625-640) |
| CaseForms.CallCaseForm.constructor | OneSupportAI/frontend/src/pages/CallPage.jsx:625-640 | the form opens as the initial form of the draft |
| CaseForms.CallCaseForm.HandleChange | OneSupportAI/frontend/src/pages/CallPage.jsx:642-645 | only the named input changes |
| CaseForms.CallCaseForm.HandleSubmit | OneSupportAI/frontend/src/pages/CallPage.jsx:647-667 | a missing input raises its alert and submits nothing; otherwise exactly the form is submitted |
| CaseForms.CallPanel.constructor | OneSupportAI/frontend/src/pages/CallPage.jsx:28-40 | the call state read from the call context starts with no phone, no card, no draft and the form hidden |
| CaseForms.CallPanel.HandleIncomingCall | OneSupportAI/frontend/src/pages/CallPage.jsx:124-146 | the card is rebuilt from the notification and the phone replaced only when one is given |
| CaseForms.CallPanel.HandleContactFallback | OneSupportAI/frontend/src/pages/CallPage.jsx:173-182 | without a card, the contact's phone, when given, becomes the phone; with one nothing changes |
| CaseForms.CallPanel.HandleAICase | OneSupportAI/frontend/src/pages/CallPage.jsx:206-231 | the draft is the generated case with the chosen ids, and the form shows |
| CaseForms.CallPanel.HandleManualCase | OneSupportAI/frontend/src/pages/CallPage.jsx:234-250 | the draft is the corrected manual draft, and the form shows |
| CaseForms.CallPanel.HandleCaseSubmit | OneSupportAI/frontend/src/pages/CallPage.jsx:253-277 | a missing name stops with an alert; otherwise the case is sent and only a 201 closes the form and goes to the case list |
| CaseForms.CallPanel.SettleCreate | OneSupportAI/frontend/src/pages/CallPage.jsx:262-276 | a 201 closes the form and goes to the case list with the success alert; anything else keeps it with the failure alert |
| CaseForms.CallPanel.HandleCaseCancel | OneSupportAI/frontend/src/pages/CallPage.jsx:280-283 | the form hides and the draft is dropped |
| CasesPages.CursorRequest | OneSupportAI/frontend/src/pages/CasesPage.jsx:25-29 | page, size 3, newest first; the previous page's recorded id is sent exactly when it is a non-empty text |
| CasesPages.CursorFollowsPreviousPage | OneSupportAI/frontend/src/pages/CasesPage.jsx:25-33 | once page p has been fetched, the request for page p + 1 carries the id it returned |
| CasesPages.CursorRecordIsLocal | OneSupportAI/frontend/src/pages/CasesPage.jsx:31-32 | recording page p changes no request other than the one for page p + 1 |
| CasesPages.AlertRequest | OneSupportAI/frontend/src/pages/AlertCasesPage.jsx:29-34 | the previous page's key, when recorded, goes out whole; otherwise neither part is sent |
| CasesPages.AlertCursorFollowsPreviousPage | OneSupportAI/frontend/src/pages/AlertCasesPage.jsx:29-37 | once page p has been fetched, the request for page p + 1 carries both parts of its key |
| CasesPages.PagesOfCount | OneSupportAI/frontend/src/pages/CasesPage.jsx:43 | never below 1; for a positive count, the fewest pages of 3 that hold it |
| CasesPages.AlertPagesOfCount | OneSupportAI/frontend/src/pages/AlertCasesPage.jsx:44-46 | 0 exactly without a positive count; otherwise the fewest pages of 3 that hold it |
| CasesPages.PageCountsAgreeOnPositiveCount | OneSupportAI/frontend/src/pages/AlertCasesPage.jsx:44-46 | both page counts agree whenever a positive count is given |
| CasesPages.NextDisabledVariants | OneSupportAI/frontend/src/pages/CasesByStatusPage.jsx:143 | within range the two Next tests agree; past the last page only the at-or-after test disables Next |
| CasesPages.StatusCounts | OneSupportAI/frontend/src/pages/CasesPage.jsx:44 | the pending, closed and alert counts in badge order, 0 where missing |
| CasesPages.FilterCases | OneSupportAI/frontend/src/pages/CasesPage.jsx:51-58 | a case is kept exactly when its id or name contains the term ignoring case, in order |
| CasesPages.FilterCasesAppend | OneSupportAI/frontend/src/pages/CasesPage.jsx:51-58 | filtering a concatenation filters each part, so the kept cases stay in their order |
| CasesPages.FilterCasesCons | OneSupportAI/frontend/src/pages/CasesPage.jsx:51-58 | the first case is kept exactly when it matches, and the rest are filtered after it |
| CasesPages.FilterCasesOne | OneSupportAI/frontend/src/pages/CasesPage.jsx:51-58 | one case is kept exactly when its id or name contains the term |
| CasesPages.DotColor | OneSupportAI/frontend/src/pages/CasesPage.jsx:138-145 | one of the three status colours; the pending colour without a status |
| CasesPages.TitleLabel | OneSupportAI/frontend/src/pages/CasesByStatusPage.jsx:55 | a label exactly for a known status, and it is one of the three status labels |
| CasesPages.PriorityText | OneSupportAI/frontend/src/pages/CasesByStatusPage.jsx:82 | a dash without a priority; otherwise the priority with its first letter upper-cased |
| CasesPages.DaysAgo | OneSupportAI/frontend/src/pages/AlertCasesPage.jsx:11-16 | 0 exactly for the same instant; otherwise the whole days between the two instants rounded up |
| CasesPages.DaysAgoMonotone | OneSupportAI/frontend/src/pages/AlertCasesPage.jsx:11-16 | the count is symmetric in the two instants and never falls as now moves later |
| CasesPages.CasesBrowser.constructor | OneSupportAI/frontend/src/pages/CasesPage.jsx:14-20 | page 1, no pages, no search, no cases, zero counts, no cursor recorded |
| CasesPages.CasesBrowser.HandlePageChange | OneSupportAI/frontend/src/pages/CasesPage.jsx:38-40 | the page becomes the chosen one |
| CasesPages.CasesBrowser.Fetch | OneSupportAI/frontend/src/pages/CasesPage.jsx:21-36 | the request is the cursor request for the page, and a response records its last id for the page |
| CasesPages.CasesBrowser.DataChanged | OneSupportAI/frontend/src/pages/CasesPage.jsx:41-62 | the counts come from the data; without a term the items are shown, with one the search runs over them |
| CasesPages.CasesBrowser.HandleSearchChange | OneSupportAI/frontend/src/pages/CasesPage.jsx:46-61 | the term changes; an empty term shows the items, any other shows the matching ones, recounts the pages and returns to page 1 |
| CasesPages.CasesBrowser.ApplySearch | OneSupportAI/frontend/src/pages/CasesPage.jsx:46-61 | the search effect over the items of the page shown |
| CasesPages.StatusCasesBrowser.constructor | OneSupportAI/frontend/src/pages/CasesByStatusPage.jsx:12-16 | page 1 of 1 with no cases and no cursor |
| CasesPages.StatusCasesBrowser.HandlePageChange | OneSupportAI/frontend/src/pages/CasesByStatusPage.jsx:35-37 | the page becomes the chosen one |
| CasesPages.StatusCasesBrowser.Fetch | OneSupportAI/frontend/src/pages/CasesByStatusPage.jsx:18-33 | the cursor request for the page, recording the returned id |
| CasesPages.StatusCasesBrowser.DataChanged | OneSupportAI/frontend/src/pages/CasesByStatusPage.jsx:39-42 | at least one page, counted from the count; the items, or none |
| CasesPages.AlertCasesBrowser.constructor | OneSupportAI/frontend/src/pages/AlertCasesPage.jsx:19-22 | page 1 with no pages, no cases and no cursor |
| CasesPages.AlertCasesBrowser.HandlePageChange | OneSupportAI/frontend/src/pages/AlertCasesPage.jsx:53-55 | the page becomes the chosen one |
| CasesPages.AlertCasesBrowser.Fetch | OneSupportAI/frontend/src/pages/AlertCasesPage.jsx:26-41 | the keyed request for the page, recording the returned key |
| CasesPages.AlertCasesBrowser.DataChanged | OneSupportAI/frontend/src/pages/AlertCasesPage.jsx:43-51 | the page count from the count, 0 without one; the items, or none |
| AIHistory.Without | OneSupportAI/frontend/src/components/AIHistoryArea.jsx:206 | the id is gone, every other id is kept, and the list does not grow |
| AIHistory.Toggle | OneSupportAI/frontend/src/components/AIHistoryArea.jsx:205-207 | the id is selected afterwards exactly when it was not before; every other id keeps its state |
| AIHistory.WithoutAbsent | OneSupportAI/frontend/src/components/AIHistoryArea.jsx:206 | removing an id that is not selected changes nothing |
| AIHistory.WithoutKeepsNoDuplicates | OneSupportAI/frontend/src/components/AIHistoryArea.jsx:206 | removing an id keeps a selection free of duplicates |
| AIHistory.ToggleKeepsNoDuplicates | OneSupportAI/frontend/src/components/AIHistoryArea.jsx:205-207 | a selection built by toggles never holds an id twice |
| AIHistory.ToggleTwice | OneSupportAI/frontend/src/components/AIHistoryArea.jsx:205-207 | toggling twice restores the selected set, and the exact list when the id was not selected |
| AIHistory.WithoutAppend | OneSupportAI/frontend/src/components/AIHistoryArea.jsx:205-207 | removing a just-appended id gives the list without it |
| AIHistory.CountOutcome | OneSupportAI/frontend/src/components/AIHistoryArea.jsx:241-242 | no more outcomes counted than deletions settled |
| AIHistory.OutcomesAddUp | OneSupportAI/frontend/src/components/AIHistoryArea.jsx:241-242 | every settled deletion is counted exactly once, as succeeded or failed |
| AIHistory.RenameErrorText | OneSupportAI/frontend/src/components/AIHistoryArea.jsx:89-98 | Unauthorized wins, then not found, then invalid title, else the generic failure text |
| AIHistory.TotalPages | OneSupportAI/frontend/src/components/AIHistoryArea.jsx:178 | a missing or zero page count reads as one page; otherwise the reported count |
| AIHistory.PageButtons | OneSupportAI/frontend/src/components/AIHistoryArea.jsx:510 | one button per page, numbered 1 to the page count in order |
| AIHistory.PageButtonsAreAllPages | OneSupportAI/frontend/src/components/AIHistoryArea.jsx:510 | a page has a button exactly when it lies between 1 and the page count |
| AIHistory.HistoryPanel.constructor | OneSupportAI/frontend/src/components/AIHistoryArea.jsx:19-24 | not managing, nothing selected, page 1, nothing loading or being renamed |
| AIHistory.HistoryPanel.HandleStartRename | OneSupportAI/frontend/src/components/AIHistoryArea.jsx:49-56 | ignored in manage mode; otherwise the item is edited under its title or the empty title |
| AIHistory.HistoryPanel.HandleCancelRename | OneSupportAI/frontend/src/components/AIHistoryArea.jsx:58-61 | nothing is being renamed |
| AIHistory.HistoryPanel.HandleRename | OneSupportAI/frontend/src/components/AIHistoryArea.jsx:63-100 | a blank title only raises a toast; otherwise the trimmed title is sent, success ends the edit, failure keeps it with the error text |
| AIHistory.HistoryPanel.HandleManageClick | OneSupportAI/frontend/src/components/AIHistoryArea.jsx:197 | manage mode is on |
| AIHistory.HistoryPanel.HandleCancelManage | OneSupportAI/frontend/src/components/AIHistoryArea.jsx:198-201 | manage mode is off and nothing is selected |
| AIHistory.HistoryPanel.HandleSelect | OneSupportAI/frontend/src/components/AIHistoryArea.jsx:203-225 | in manage mode the id is toggled; otherwise, unless a load is running, a listed conversation is handed over |
| AIHistory.HistoryPanel.HandleRowClick | OneSupportAI/frontend/src/components/AIHistoryArea.jsx:388-396 | outside manage mode, a row not being edited or loaded starts loading; otherwise nothing happens |
| AIHistory.HistoryPanel.RowHistorySettled | OneSupportAI/frontend/src/components/AIHistoryArea.jsx:397-423 | a loaded history is handed over as a history view of the clicked conversation; a failure raises the alert and hands nothing over; nothing is loading afterwards |
| AIHistory.ShowMessage | OneSupportAI/frontend/src/components/AIHistoryArea.jsx:400-407 | a stored id, sender, text and timestamp are kept when non-empty; otherwise the fresh id, the role's sender, the text or empty, and now; the message belongs to the clicked conversation |
| AIHistory.HistoryViewOf | OneSupportAI/frontend/src/components/AIHistoryArea.jsx:409-416 | the view carries the conversation's id, title and update time and one shown message per stored message, in order, all in that conversation |
| AIHistory.HistoryPanel.LoadFinished | OneSupportAI/frontend/src/components/AIHistoryArea.jsx:221-223 | nothing is loading any more |
| AIHistory.HistoryPanel.HandleDelete | OneSupportAI/frontend/src/components/AIHistoryArea.jsx:227-287 | with nothing selected nothing happens; otherwise one request per selected id, the counts of successes and failures, and the selection and manage mode are cleared |
| AIHistory.HistoryPanel.HandlePageChange | OneSupportAI/frontend/src/components/AIHistoryArea.jsx:289-291 | the page becomes the chosen one |
| AISidebar.ClampWidth | OneSupportAI/frontend/src/components/AISidebar.jsx:7-8 | the width always lies within the bounds, follows the mouse inside them and sticks to the bound it passes (see also line 50) |
| AISidebar.NonBlank | OneSupportAI/frontend/src/components/AISidebar.jsx:208 | only lines that are not blank, taken from the input, never more than it has |
| AISidebar.FormatLine | OneSupportAI/frontend/src/components/AISidebar.jsx:210-236 | a bullet line becomes a bullet of the rest trimmed; any other line keeps its trimmed text and is a product line exactly when it holds both parentheses |
| AISidebar.FormatLines | OneSupportAI/frontend/src/components/AISidebar.jsx:210-236 | one laid-out line per input line, each the format of the trimmed line |
| AISidebar.FormatAnswerWith | OneSupportAI/frontend/src/components/AISidebar.jsx:204-238 | nothing for a missing or empty answer; otherwise one laid-out line per non-blank line |
| AISidebar.FormatAIAnswerAsWritten | OneSupportAI/frontend/src/components/AISidebar.jsx:204-238 | the layout with the three-character bullet marker as written; nothing for a missing or empty answer |
| AISidebar.FormatAIAnswer | OneSupportAI/frontend/src/components/AISidebar.jsx:204-238 | the layout with the single bullet character; nothing for a missing or empty answer |
| AISidebar.FormatKeepsText | OneSupportAI/frontend/src/components/AISidebar.jsx:208-236 | every laid-out line comes from a non-blank line of the answer and keeps its trimmed text |
| AISidebar.BulletMarkerDropped | OneSupportAI/frontend/src/components/AISidebar.jsx:214-219 | corrected, a bullet line shows exactly the text after the marker |
| AISidebar.MojibakeBulletKeepsStrayChars | OneSupportAI/frontend/src/components/AISidebar.jsx:214-219 | as written, a mis-decoded bullet keeps two stray characters, and a real bullet line is not a bullet at all |
| AISidebar.TrimLeadingSpace | OneSupportAI/frontend/src/components/AISidebar.jsx:218 | trimming a space before trimmed text gives that text back |
| AISidebar.ErrorText | OneSupportAI/frontend/src/components/AISidebar.jsx:314-327 | 401 wins, then 403, then 500, then a network or fetch error; only an error mentioning none of them gets the generic text |
| AISidebar.ReplyMessages | OneSupportAI/frontend/src/components/AISidebar.jsx:302-312 | a successful reply appends the AI message in its conversation; an unsuccessful one appends nothing; an error appends one system message (see also lines 329-336) |
| AISidebar.FirstNonEmpty | OneSupportAI/frontend/src/components/AISidebar.jsx:307 | the first id when present and non-empty, else the second: the reply's conversation id over the one sent, and (lines 269-279) the current conversation over a fresh id |
| AISidebar.SendMessages | OneSupportAI/frontend/src/components/AISidebar.jsx:281-336 | the user's message first, then exactly one more message unless the reply was unsuccessful, from the AI or the system |
| AISidebar.ChatPanel.constructor | OneSupportAI/frontend/src/components/AISidebar.jsx:11-12 | the narrowest width, not dragging, no conversation, no history, no draft, nothing loading |
| AISidebar.ChatPanel.OnMouseMove | OneSupportAI/frontend/src/components/AISidebar.jsx:41-57 | while dragging the width becomes the clamped mouse position; otherwise it stays |
| AISidebar.ChatPanel.SendStarted | OneSupportAI/frontend/src/components/AISidebar.jsx:264-297 | the handler up to its `await`: a request goes out exactly when the draft is not blank and nothing is loading; then the conversation keeps or gets its id, the history gains the trimmed question under it, the draft clears and loading starts; otherwise nothing changes |
| AISidebar.ChatPanel.ReplySettled | OneSupportAI/frontend/src/components/AISidebar.jsx:299-338 | after the `await`: what the reply adds is appended to whatever history is current, under the id the request was sent with, and loading ends |
| AISidebar.ChatPanel.HandleSendMessage | OneSupportAI/frontend/src/components/AISidebar.jsx:264-340 | with nothing else running during the `await`: a blank draft or a running request changes nothing; otherwise the history gains exactly the send's messages in the chosen conversation, the draft clears and nothing is loading |
| AISidebar.ChatPanel.HandleNewChat | OneSupportAI/frontend/src/components/AISidebar.jsx:242-256 | nothing loading, no conversation, no draft, no history and no saved scroll position |
| AISidebar.NewChatDuringReply | OneSupportAI/frontend/src/components/AISidebar.jsx:242-256 | New Chat while a reply is awaited does not stop it: afterwards no conversation is current and nothing is loading, yet the history holds the late reply, and a failed request's system message carries the conversation just left (see also lines 299-338, 363, 388) |
| Dashboard.InitialAgent | OneSupportAI/frontend/src/pages/AllCasesDashboardPage.jsx:142-145 | a manager starts on every agent, anyone else on their own id; the agent is empty, so the dashboard query (line 151) is not enabled, exactly when a non-manager has no id |
| Dashboard.DashboardFilter.constructor | OneSupportAI/frontend/src/pages/AllCasesDashboardPage.jsx:142-145 | the filter starts on the role's agent and the week range |
| Dashboard.DashboardFilter.UserLoaded | OneSupportAI/frontend/src/pages/AllCasesDashboardPage.jsx:185-194 | once the user is known the agent is set from their role and the range is kept |
| Dashboard.DashboardFilter.HandleConfirmFilter | OneSupportAI/frontend/src/pages/AllCasesDashboardPage.jsx:413-418 | confirming the filter form replaces both the agent and the range |
| Dashboard.MonthOf | OneSupportAI/frontend/src/pages/AllCasesDashboardPage.jsx:204-206 | the month key is the first seven characters: a prefix of the date, and the whole of a shorter string |
| Dashboard.DateKey | OneSupportAI/frontend/src/pages/AllCasesDashboardPage.jsx:196-207 | year and quarter ranges key by month (a prefix of the date, or of today for the ALL entry), other ranges by the date itself, or today for ALL |
| Dashboard.DateKeyIdempotent | OneSupportAI/frontend/src/pages/AllCasesDashboardPage.jsx:199-207 | keying a key again gives the same key |
| Dashboard.SameMonthSameBucket | OneSupportAI/frontend/src/pages/AllCasesDashboardPage.jsx:196-207 | under a month range two dates of one month fall in the same bucket |
| Dashboard.DaysKeptApart | OneSupportAI/frontend/src/pages/AllCasesDashboardPage.jsx:196-207 | under a day range two different dates never share a bucket |
| Dashboard.InitialBuckets | OneSupportAI/frontend/src/pages/AllCasesDashboardPage.jsx:236-275 | there is one bucket per generated key and every bucket starts at zero |
| Dashboard.Rate | OneSupportAI/frontend/src/pages/AllCasesDashboardPage.jsx:295-298 | the rate is never negative, is 0 when there are no cases, at most 1 when the closed count does not exceed the total, and otherwise closed divided by all |
| Dashboard.HoursAdded | OneSupportAI/frontend/src/pages/AllCasesDashboardPage.jsx:279-284 | the ALL entry is skipped; any other entry fails exactly when its key has no bucket |
| Dashboard.CountsAdded | OneSupportAI/frontend/src/pages/AllCasesDashboardPage.jsx:288-293 | a daily entry fails exactly when its key has no bucket |
| Dashboard.RateSet | OneSupportAI/frontend/src/pages/AllCasesDashboardPage.jsx:295-298 | a total entry fails exactly when its key has no bucket |
| Dashboard.WorkTimesAreSums | OneSupportAI/frontend/src/pages/AllCasesDashboardPage.jsx:279-284 | the hours pass succeeds iff every dated entry has a bucket; each bucket then gains exactly the hours of its own entries and no bucket is added |
| Dashboard.DailyBucketsAreSums | OneSupportAI/frontend/src/pages/AllCasesDashboardPage.jsx:288-293 | the counts pass succeeds iff every entry has a bucket; each bucket then gains the sums of its entries' closed, pending and all counts |
| Dashboard.LastTotalWins | OneSupportAI/frontend/src/pages/AllCasesDashboardPage.jsx:295-298 | the totals pass succeeds iff every entry has a bucket; each bucket's rate is then that of its last entry, and untouched buckets keep theirs |
| Dashboard.AllTimeEntrySkipped | OneSupportAI/frontend/src/pages/AllCasesDashboardPage.jsx:280 | appending an ALL working-time entry changes nothing |
| Dashboard.BelowIrreflexive | OneSupportAI/frontend/src/pages/AllCasesDashboardPage.jsx:301 | the string order used by the sort is irreflexive |
| Dashboard.BelowTransitive | OneSupportAI/frontend/src/pages/AllCasesDashboardPage.jsx:301 | the string order used by the sort is transitive |
| Dashboard.BelowTotal | OneSupportAI/frontend/src/pages/AllCasesDashboardPage.jsx:301 | any two different strings are ordered one way or the other |
| Dashboard.InsertKey | OneSupportAI/frontend/src/pages/AllCasesDashboardPage.jsx:301 | inserting a key into a strictly sorted list keeps it strictly sorted and adds exactly that key |
| Dashboard.SortKeys | OneSupportAI/frontend/src/pages/AllCasesDashboardPage.jsx:301 | the sorted labels are strictly ascending and hold exactly the bucket keys |
| Dashboard.SortedListUnique | OneSupportAI/frontend/src/pages/AllCasesDashboardPage.jsx:301 | two strictly sorted lists with the same elements are equal |
| Dashboard.LabelsIgnoreKeyOrder | OneSupportAI/frontend/src/pages/AllCasesDashboardPage.jsx:301 | the labels do not depend on the order in which the buckets were made |
| Dashboard.Charts | OneSupportAI/frontend/src/pages/AllCasesDashboardPage.jsx:316-325 | every series has one figure per label, read from that label's bucket |
| Dashboard.MetricsMeaning | OneSupportAI/frontend/src/pages/AllCasesDashboardPage.jsx:233-327 | the charts exist iff every entry has a bucket; their labels are then the keys ascending and at each label the series hold its hours, its closed and pending sums and the rate of its last total (or 0) |
| Dashboard.AddWorkTimesLoop | OneSupportAI/frontend/src/pages/AllCasesDashboardPage.jsx:279-284 | the forEach over working times computes the hours pass |
| Dashboard.AddDailyCountsLoop | OneSupportAI/frontend/src/pages/AllCasesDashboardPage.jsx:288-293 | the forEach over daily counts computes the counts pass |
| Dashboard.ApplyTotalsLoop | OneSupportAI/frontend/src/pages/AllCasesDashboardPage.jsx:295-298 | the forEach over totals computes the rate pass |
| Dashboard.CalculateMetrics | OneSupportAI/frontend/src/pages/AllCasesDashboardPage.jsx:233-327 | the whole calculation yields the charts described by the specification function, or fails where a pass would throw |

## Left out

- HTTP services (authService, caseService, userService, documentService, conversationService, transcriptService, aiService and the fetches in productService) are not part of this model. Each handler takes the server's reply, or the failure, as a parameter.
- Interleavings at an `await`: the chat's send is split at its `await` (`SendStarted`, `ReplySettled`) so that New Chat can run between the halves. Other awaiting handlers are modelled as one step, or as a start and a `Settle` method, and what other handlers may do while they wait is not modelled.
- The softphone library side of connectService.js is left out because that library is not part of this model. This covers initialising the CCP, pre-warming, scanning and removing iframes, login pop-ups, interval monitors, the readiness and answer promises, connection-quality monitoring, reinitialising and reconnecting, and the console chaining. DOM containers are opaque ids.
- React providers and hooks that only mirror state into localStorage or the DOM are left out: UserContext, ChatContext, ConnectContext, TabStateContext, useTabState, withPageState, useTab and usePageState. So are routing and the render call. The parts of CallContext's state that the call page reads are fields of `CaseForms.CallPanel`.
- Rendering, CSS and chart options are left out. The WebSocket connection set-up, `crypto.randomUUID` and `window.confirm` are left out too. Fresh ids are parameters, and a confirmation is a boolean parameter.
- Alerts and toasts are left out as side effects. A handler returns the text it would show.
- Clocks and timers become parameters. `Date.now()` is an integer number of milliseconds passed in. A `setTimeout`/`setInterval` callback is a method of its own, such as `SearchDelayElapsed` or `AnswerTimeout`. The upload progress timer is a number of firings.
- JSON payloads in localStorage are opaque strings. `JSON.stringify` and `JSON.parse` are taken to be inverses, and malformed stored JSON is not modelled.
- ProductCache.ProductCacheService: localStorage is written only by this service. Writes by other tabs to the same keys are not modelled, because they are concurrent with the page. A read of localStorage that throws is not modelled either.
- DoorsArea.DoorsPanel.HandleSearch, DoorsArea.DoorsPanel.SearchFor and DoorsArea.DoorsPanel.ShowReRead: the final re-read of the search cache uses the URL the handler has just moved to, not the URL captured when the handler was rendered. The as-written re-read is `Catalog.ShownAfterSearchAsWritten` (see Findings).
- WindowsArea.WindowsPanel.HandleSearch, WindowsArea.WindowsPanel.SearchFor and WindowsArea.WindowsPanel.ShowReRead: the same correction of the re-read as on the doors page.
- ProductArea.ProductAreaState.HandleSearch, ProductArea.ProductAreaState.SearchFor and ProductArea.ProductAreaState.ShowReRead: the same correction of the re-read. In addition, a re-read hit does not set the searching flag back to true, so the search button is enabled when the handler ends. The as-written re-read, which sets the flag, is `ProductArea.ReReadAsWritten` (see Findings).
- Layout.GetTitleFromPath: the title map is a plain object, so a last segment such as `constructor` or `toString` finds a function inherited from the prototype. The model treats such a segment as unmapped and spaces and capitalises it.
- Upper and lower case, white space and `\s` cover ASCII only. Unicode case mapping is not modelled.
- The loading and fetching flags of the query library are left out. Only the data each query delivers is modelled.
- Static and trivial UI is not part of this model. This covers faqData.js (the FAQ sections are a parameter), the login page, header, guards, error boundary, icons, tab panel, the case detail page, the logger, the page wrappers and backend/config.js.
- DocumentManagement.jsx: the preview, delete and knowledge-base sync handlers are left out, because they are only service calls and alerts. `formatFileSize` is left out because it uses `Math.log` on floating point.
- UserManagement.jsx: the delete confirmation is a boolean input and is not modelled on its own. The scroll hint is left out as DOM-only.
- AISidebar.jsx: the effect that loads a selected history conversation is left out. So are the effects that save and restore the scroll position, and the drag listeners. Only the width clamp of a drag is modelled.
- CallPage.jsx: the alert shown when AI case generation fails is left out, because it is only a service call and an alert.
- ProductArea.ProductAreaState.LoadSuggestedProducts: the write-back of fetched products into the products cache is not stated. The method takes the cached products as an input.
- Dashboard: `getStartDate` and the Date-stepping loop that creates the buckets are left out because they use wall-clock dates. The bucket keys are a parameter of `Dashboard.MetricsOf` and `Dashboard.CalculateMetrics`, and "today" is a parameter too.
- Dashboard: `parseFloat` is left out; working hours are given as reals. So is the NaN a total with no `all` field would produce.
- Dashboard: the agent option list and the redirect to the login page when there is no user are left out. The page is modelled with a user present.
- IncomingCall.IncomingCallNotifier.OnCallStateChange: the corrected callback assumes the service delivers call-state events to it. connectService.js keeps the callback passed to `setOnCallStateChange` but never calls it, and that missing dispatch is not modelled (see Findings).
- Dashboard.Charts: the source's internal keys are misnamed. `metrics.completionRate` holds the working hours, and `metrics.statusTouches` holds the resolution rate. The headings, dataset labels, descriptions and tooltips the user sees match the data. The model names each series by the figure it holds.
- CasesPages.TitleLabel: a status word with no badge has no label, and the page cannot render it. The model returns `None` for that case instead of modelling the crash.

## Observations

These are behaviours of the source that the model keeps as written.

- The call page's case form does not carry `contactId` from its initial data (`CaseForms.CallCaseForm.constructor`).
- The new-case page treats any successful reply as created. The call page only clears its form on status 201.
- The windows search caches its results, and routes to them, under the untrimmed query. Its fourth (expiry) argument to the cache is ignored, so search results live for the cache's own five minutes.
- The all-cases search filters only the page that is loaded, and sets the page to 1.
- The variant of the page window without a last-page button never shows the last page unless it is next to the current page.
- The incoming-call pop-up builds its notification id and its call path from the same two ids in opposite orders (`IncomingCall.IdsChosenInOppositeOrder`).

## Findings

| source | as written | input that shows it | evidently intended | confidence | as-written member | corrected member |
|---|---|---|---|---|---|---|
| OneSupportAI/frontend/src/services/productCacheService.js:170-178 | with no id, `clearProductDetailCache` calls `delete()` with no key, which removes nothing | a cache holding product `p1`, cleared with no id, still holds `p1` | with no id, every cached detail is cleared | not executed | `ProductCache.ClearedDetailsAsWritten`, `ProductCache.ClearAllKeepsEntries` | `ProductCache.ClearedDetails`, `ProductCache.ProductCacheService.ClearProductDetailCache` |
| OneSupportAI/frontend/src/components/IncomingCallNotification.jsx:93-118 | the call-state callback never navigates, for two reasons: `connectService.setOnCallStateChange` (connectService.js:1284-1286) stores it in a field the service never calls, since the service dispatches only `onContactStateChange` and `onIncomingCall`; and even if it were called, it was registered once, on mount, and reads the mount-time `isVisible` (false) and `incomingCall` (null) | the pop-up is showing a call and the softphone reports `Connected`: no navigation | a connected call shown in the pop-up opens its call page, once | not executed | `IncomingCall.IncomingCallNotifier.OnCallStateChangeAsWritten`, `IncomingCall.MountSnapshotNeverNavigates` | `IncomingCall.IncomingCallNotifier.OnCallStateChange`, `IncomingCall.AutoNavigation` (with the events delivered to the callback and the current values read) |
| OneSupportAI/frontend/src/components/ProductArea.jsx:139-148 | each search card's summary is computed from the whole response array, not from the card's product | a window with Awning/uPVC specifications: its card shows the generic fallback text | each card summarises its own product | not executed | `ProductArea.SearchCardsAsWritten`, `ProductArea.SearchCardsIgnoreItems`, `ProductArea.SearchSummaryLost` | `ProductArea.SearchCards`, `ProductArea.SearchCardsDescribeEachItem` |
| OneSupportAI/frontend/src/pages/CallPage.jsx:234-250 | the manual case stores only the local part of the caller's number, and the case form (lines 626-640) parses that again, so the country code falls back to +64 | caller `+61412345678`: the form opens with `+64` and `412345678` | the form shows the caller's own code and number | not executed | `CaseForms.ManualDraftAsWritten`, `CaseForms.ManualCaseLosesCountryCode`, `CaseForms.AustralianManualCase` | `CaseForms.ManualDraft`, `CaseForms.ManualCaseKeepsPhone` |
| OneSupportAI/frontend/src/components/AISidebar.jsx:214-219 | the bullet marker is the mis-decoded three-character `â€¢`; a line that starts with it keeps two stray characters, and a real `•` line is not a bullet | `â€¢ Fast delivery` becomes the bullet `€¢ Fast delivery`; `• Fast delivery` stays text | lines starting with `•` are bullets without the marker | not executed | `AISidebar.FormatAIAnswerAsWritten`, `AISidebar.MojibakeBulletKeepsStrayChars` | `AISidebar.FormatAIAnswer`, `AISidebar.BulletMarkerDropped` |
| OneSupportAI/frontend/src/components/DoorsArea.jsx:133-166 | after a search, the handler reads the cache again with the query from the URL, which still holds the previous search (WindowsArea.jsx and ProductArea.jsx do the same; ProductArea.jsx:173-175 also sets `isSearching` back to true on a hit, which disables the search button) | search `pine`, then `oak`: the page shows pine's doors | the page shows the results of the search just made, and on the home page the search button is enabled again | not executed | `Catalog.ShownAfterSearchAsWritten`, `Catalog.StaleSearchShown`, `Catalog.StaleSearchExample`, `ProductArea.ReReadAsWritten`, `ProductArea.StaleHomeSearchLocksButton` | `Catalog.ShownAfterSearch`, `DoorsArea.DoorsPanel.HandleSearch`, `WindowsArea.WindowsPanel.HandleSearch`, `ProductArea.ProductAreaState.HandleSearch` (each re-reads under the URL it has just moved to; the home page's also leaves the searching flag off) |
| OneSupportAI/frontend/src/components/DoorsArea.jsx:140 | a search reply's `data` is the product array, but the handler stores `response.data.products`, which is undefined | any successful search: the page's list becomes undefined, and clearing the box then hands undefined to the list | the list keeps the page's products | not executed | `DoorsArea.ProductsAfterSearchAsWritten`, `DoorsArea.ClearAfterSearchAsWritten` | `DoorsArea.DoorsPanel.HandleSearch` |
| OneSupportAI/frontend/src/components/WindowsArea.jsx:303-318 | whenever the lookup by name fails (an error reply or a thrown error), View Details navigates to `/product-detail` with no id, whatever the card's id, and App.jsx routes only `/product-detail/:id` | a window with id `w1` whose lookup by name answers 404: View Details goes to `/product-detail`, a path no route matches | the fallback goes to a routed detail path | not executed | `Catalog.WindowDetailAsWritten`, `Catalog.WindowFallbackUnrouted` | `Catalog.WindowDetail`, `Catalog.WindowDetailRouted` |
