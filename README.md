# Admin back-office core, modelled in Dafny

This project models four pieces of the admin back-office:

- **Admin session guard.** A second factor (a one-time code) unlocks the admin area for ten minutes of activity. A tab-local two-key store keeps the verified user's id and the absolute expiry in epoch milliseconds, written as a decimal string. The guard also holds:
  - whether the area is unlocked;
  - the countdown of remaining seconds;
  - the current route, and the route a lock moved away from.
- **Rules editor.** A three-level content tree of categories, subcategories and rules. The page adds, updates and deletes at each level, numbers new items "parent id + '.' + (count + 1)", expands and collapses entries, counts the rules, and confirms deletes in a dialog.
- **Dashboard statistics.** Counts over the rows returned for applications, form templates and update posts:
  - the status distribution;
  - a thirty-day histogram of new applications;
  - active forms, and published and draft posts;
  - the hook's error and loading state.
- **Status pie chart.** The slices (statuses with a positive count, each with its label and colour), the total, and the empty state.

Modules, one per file:

| file | module | contents |
|---|---|---|
| `wrappers.dfy` | `Wrappers` | `Option` |
| `text.dfy` | `Text` | JavaScript truthiness of strings, decimal printing, the subset of `parseInt(s, 10)` the store needs, and its round trip with printing |
| `admin_session.dfy` | `AdminSession` | the store read as a function; the class `AdminSessionGuard` for the provider's state and handlers |
| `rules.dfy` | `Rules` | the tree and its pure rebuilds, with lemmas |
| `rules_editor.dfy` | `RulesEditor` | the class `RulesEditorPage`, whose handlers overwrite the page state with those rebuilds |
| `admin_stats.dfy` | `AdminStats` | the counting loops as methods proved against counting functions; the class `AdminStatsHook` |
| `category_pie_chart.dfy` | `CategoryPieChart` | the chart projection as pure functions, with lemmas |

Modelling choices:

- Time enters as the parameter `now`, in milliseconds. Calendar days are integer day numbers, and the editor's formatted "today" is an opaque string.
- These are parameters or fields set by the caller:
  - the identity provider's state;
  - the 2FA status row;
  - the access token;
  - the verification endpoint's reply;
  - the three query results.
- JavaScript truthiness is written out. An empty string is falsy wherever the code tests a string: the stored keys, the user id, the token, the parent ids. An expiry of `0` is falsy where the code tests `!!expiry` or `!expiry`.
- Ids in the rules tree are not unique. `addCategory` numbers by length, so a delete followed by an add can repeat an id (`Rules.AddAfterDeleteRepeatsId`). Updates and deletes therefore act on every entry whose id matches. `addSubCategory` and `addRule` take the children of the *first* match and write the extended list to *every* match.

Two behaviours of the session code worth stating exactly:

- **A record whose expiry equals `now` is still valid.** The read purges only when `now > expiry` (`src/contexts/AdminSessionContext.tsx:43`), so that record is returned and kept. The lock at that instant comes from the tick, which computes 0 seconds left (`AdminSession.ReadStored`, `AdminSession.AdminSessionGuard.Tick`).
- **Leaving the admin area does not purge the record.** The countdown effect only hides the countdown (`src/contexts/AdminSessionContext.tsx:211-213`). The record stays until a read finds it expired, a lock, or the auth-settle effect (`AdminSession.AdminSessionGuard.SyncCountdown`).

## Model

| member | source | states |
|---|---|---|
| Text.NatToDecimal | src/pages/admin/RulesEditor.tsx:156 | `String(n)` for a count: a non-empty run of decimal digits whose value is n, with no leading zero unless n is 0, and one digit exactly when n < 10 |
| Text.IntToDecimal | src/contexts/AdminSessionContext.tsx:61 | `expiry.toString()`: starts with '-' exactly when the number is negative |
| Text.ParseInt | src/contexts/AdminSessionContext.tsx:42 | `parseInt(s, 10)` yields no number exactly when no digit follows the leading white space (every Unicode space separator, tab, vertical tab, form feed, byte order mark and line terminator) and at most one sign |
| Text.ParseIntOfDecimal | src/contexts/AdminSessionContext.tsx:42 | parsing a printed integer gives back that integer, for every integer |
| Text.ParseIntSkipsWhiteSpace | src/contexts/AdminSessionContext.tsx:42 | a white-space character before a printed integer, including every Unicode space separator, is skipped and the integer read back |
| AdminSession.Saved | src/contexts/AdminSessionContext.tsx:57-66 | the record `saveSession` writes: the user id and the printed expiry ten minutes after `now`; read back by `AdminSession.SaveThenRead` |
| AdminSession.ReadStored | src/contexts/AdminSessionContext.tsx:33-54 | a missing key or another user reads as none and leaves the store; an unparsable or strictly past expiry reads as none and empties the store; otherwise the parsed expiry (also when it equals now) is returned and the store kept |
| AdminSession.SaveThenRead | src/contexts/AdminSessionContext.tsx:33-66 | after saving for u at t, reading for u at any time up to t + 600000 returns exactly t + 600000 and keeps the record |
| AdminSession.SaveThenReadTooLate | src/contexts/AdminSessionContext.tsx:42-48 | after saving at t, a read strictly after t + 600000 returns none and removes both keys |
| AdminSession.SavedForOtherUser | src/contexts/AdminSessionContext.tsx:38-40 | a record saved for one user reads as none for any other user and is not removed by the read |
| AdminSession.RemainingSeconds | src/contexts/AdminSessionContext.tsx:226 | `max(0, ceil((expiry - now) / 1000))`: never negative, zero exactly when expiry <= now, otherwise the least number of whole seconds covering the time left |
| AdminSession.FreshRecordShowsFullWindow | src/contexts/AdminSessionContext.tsx:216-227 | a record written at now shows 600 seconds |
| AdminSession.IsInAdminArea | src/contexts/AdminSessionContext.tsx:152 | a path is in the admin area when it starts with "/admin" and is not the lock screen; `AdminSession.LockScreenIsOutsideArea` classifies the two fixed paths |
| AdminSession.TickLocks | src/contexts/AdminSessionContext.tsx:220-230 | when a tick locks: the read expiry is missing or the falsy 0, or no whole second is left; `AdminSession.AdminSessionGuard.ShowOrLock` and `Tick` act on it |
| AdminSession.LockScreenIsOutsideArea | src/contexts/AdminSessionContext.tsx:152 | "/admin/locked" is outside the admin area and "/admin" is inside |
| AdminSession.PreCheckError | src/contexts/AdminSessionContext.tsx:241-256 | the endpoint is called exactly when a user and settings exist, the account is not blocked and a token is present; otherwise the fixed message of the first failing check is returned |
| AdminSession.RemoteOutcome | src/contexts/AdminSessionContext.tsx:271-286 | success exactly on a successful reply, with no error; a rejected reply gives its own non-empty error or "Doğrulama başarısız"; a transport failure gives "Doğrulama sırasında hata oluştu" |
| AdminSession.AdminSessionGuard.constructor | src/contexts/AdminSessionContext.tsx:81-85 | a fresh provider is locked, has no countdown or settings, and waits for the identity provider |
| AdminSession.AdminSessionGuard.GetStoredSessionExpiry | src/contexts/AdminSessionContext.tsx:33-54 | the returned expiry and the new store are exactly those of `ReadStored` |
| AdminSession.AdminSessionGuard.SaveSession | src/contexts/AdminSessionContext.tsx:57-66 | writes the user and now + 600000 and returns that expiry |
| AdminSession.AdminSessionGuard.ClearSession | src/contexts/AdminSessionContext.tsx:69-76 | both keys are removed whatever the store held |
| AdminSession.AdminSessionGuard.ClearSessionTwice | src/contexts/AdminSessionContext.tsx:69-76 | a second clear leaves the store exactly as the first one did |
| AdminSession.AdminSessionGuard.CreateOrExtendSession | src/contexts/AdminSessionContext.tsx:154-161 | saves and returns now + 600000 for a truthy user id; returns none and leaves the store otherwise |
| AdminSession.AdminSessionGuard.AuthChanged | src/contexts/AdminSessionContext.tsx:88-107 | while loading nothing changes; with no user the guard is locked, the countdown hidden and the store cleared; with a user the guard is unlocked exactly when a valid (truthy) record exists for that user, and the store is cleared otherwise |
| AdminSession.AdminSessionGuard.Fetch2FASettings | src/contexts/AdminSessionContext.tsx:110-146 | no change while loading; no settings without a user; otherwise the fetched row or none |
| AdminSession.AdminSessionGuard.Navigate | src/contexts/AdminSessionContext.tsx:152 | the route becomes the given path |
| AdminSession.AdminSessionGuard.LockSession | src/contexts/AdminSessionContext.tsx:164-171 | inside the admin area: locked, countdown hidden, store empty, route the lock screen, old route recorded; elsewhere nothing changes |
| AdminSession.AdminSessionGuard.LockSessionTwice | src/contexts/AdminSessionContext.tsx:164-171 | two locks in a row leave the same state as one |
| AdminSession.AdminSessionGuard.OnIdle | src/contexts/AdminSessionContext.tsx:174-181 | locks exactly when unlocked and inside the area; otherwise nothing changes |
| AdminSession.AdminSessionGuard.OnAction | src/contexts/AdminSessionContext.tsx:183-189 | rewrites the record to now + 600000 exactly when a user exists, the guard is unlocked and the route is inside the area; otherwise the store is unchanged |
| AdminSession.AdminSessionGuard.OnActive | src/contexts/AdminSessionContext.tsx:191-197 | the same extension under the same condition as `OnAction` |
| AdminSession.AdminSessionGuard.ShowOrLock | src/contexts/AdminSessionContext.tsx:220-230 | given the read expiry: a missing or falsy one, or no whole second left, locks; otherwise the positive remaining seconds are shown and nothing else changes |
| AdminSession.AdminSessionGuard.Tick | src/contexts/AdminSessionContext.tsx:219-232 | a missing or falsy record, or no whole second left, locks; otherwise the countdown shows the positive remaining seconds and the guard, store and route are unchanged |
| AdminSession.AdminSessionGuard.SyncCountdown | src/contexts/AdminSessionContext.tsx:210-238 | outside tracking the countdown is hidden and nothing else changes; inside, a fresh record is written and the first tick shows 600 without locking |
| AdminSession.AdminSessionGuard.StartCountdown | src/contexts/AdminSessionContext.tsx:215-234 | inside the admin area a fresh ten-minute record is written and the first tick shows 600 seconds, with the guard still tracking and the route kept |
| AdminSession.AdminSessionGuard.Verify2FA | src/contexts/AdminSessionContext.tsx:241-287 | a failed pre-check returns its message and changes nothing; only a successful reply unlocks and writes a fresh record, and it leaves the 2FA settings as they were; a rejected reply refreshes the settings and leaves the guard and store as they were |
| Rules.FirstIndexWithId | src/pages/admin/RulesEditor.tsx:180 | `find`: -1 exactly when no entry has the id; otherwise the index of the first entry that has it |
| Rules.FindById | src/pages/admin/RulesEditor.tsx:180 | `find` by id: none exactly when no entry carries the id, otherwise the first entry that does |
| Rules.WithoutIdMembers | src/pages/admin/RulesEditor.tsx:174 | the `filter` keeps exactly the entries with another id, one fewer per removed entry |
| Rules.WithoutIdConcat | src/pages/admin/RulesEditor.tsx:174 | the `filter` works piecewise, so kept entries stay in order |
| Rules.WithoutAbsentId | src/pages/admin/RulesEditor.tsx:174 | filtering an id no entry carries changes nothing |
| Rules.AddCategory | src/pages/admin/RulesEditor.tsx:155-165 | the appended tree; its contents are the contract of `Rules.AddCategoryAppends` |
| Rules.UpdateCategory | src/pages/admin/RulesEditor.tsx:167-171 | the merged tree; its effect is the contract of `Rules.UpdateCategoryEffect` |
| Rules.DeleteCategory | src/pages/admin/RulesEditor.tsx:173-176 | the filtered tree; its contents are the contract of `Rules.DeleteCategoryKeepsOthers` |
| Rules.AddSubCategory | src/pages/admin/RulesEditor.tsx:179-196 | the tree with a numbered subcategory added; its effect is the contract of `Rules.AddSubCategoryEffect` and `Rules.AddSubCategoryMissing` |
| Rules.UpdateSubCategory | src/pages/admin/RulesEditor.tsx:198-208 | the merged tree; its effect is the contract of `Rules.UpdateSubCategoryEffect` |
| Rules.DeleteSubCategory | src/pages/admin/RulesEditor.tsx:210-219 | the filtered tree; its effect is the contract of `Rules.DeleteSubCategoryEffect` |
| Rules.AddRule | src/pages/admin/RulesEditor.tsx:222-245 | the tree with a numbered rule added; its effect is the contract of `Rules.AddRuleAddsOne` and `Rules.AddRuleMissing` |
| Rules.UpdateRule | src/pages/admin/RulesEditor.tsx:247-269 | the stamped tree; its effect is the contract of `Rules.UpdateRuleStamps` and `Rules.UpdateRuleKeepsCount` |
| Rules.DeleteRule | src/pages/admin/RulesEditor.tsx:271-286 | the filtered tree; its effect is the contract of `Rules.DeleteRuleEffect` |
| Rules.AddCategoryAppends | src/pages/admin/RulesEditor.tsx:155-165 | exactly one category is appended, with id the decimal of the old length + 1, title "Yeni Kategori" and no subcategories; existing categories and the rule count are unchanged |
| Rules.AddAfterDeleteRepeatsId | src/pages/admin/RulesEditor.tsx:156 | deleting "1" from categories "1","2" and then adding one gives two categories with id "2" |
| Rules.UpdateCategoryEffect | src/pages/admin/RulesEditor.tsx:167-171 | length and order kept; categories with another id identical; matching ones take each field the update gives and keep the rest; the rule count is kept without new children; an empty update changes nothing |
| Rules.DeleteCategoryKeepsOthers | src/pages/admin/RulesEditor.tsx:173-176 | exactly the categories with another id remain, in order, and the length drops by the number of matches |
| Rules.AddSubCategoryEffect | src/pages/admin/RulesEditor.tsx:179-196 | the first matching category's subcategories plus one new subcategory numbered "categoryId.(n+1)" are written to every category with that id; all others are untouched |
| Rules.AddSubCategoryMissing | src/pages/admin/RulesEditor.tsx:179-181 | a missing category leaves the tree unchanged |
| Rules.UpdateSubCategoryEffect | src/pages/admin/RulesEditor.tsx:198-208 | only the matching subcategories of matching categories change, taking the update's fields; every category keeps its id and title; the rule count is kept without new rules |
| Rules.DeleteSubCategoryEffect | src/pages/admin/RulesEditor.tsx:210-219 | matching categories keep exactly their subcategories with another id, in their order (the `filter` itself), one fewer per removed entry; other categories are identical; every category keeps its id and title; the rule count never grows |
| Rules.AddRuleAddsOne | src/pages/admin/RulesEditor.tsx:222-245 | with one category and one subcategory carrying the ids, exactly that subcategory gains one rule numbered "subId.(n+1)" stamped today, and the rule count rises by one |
| Rules.AddRuleMissing | src/pages/admin/RulesEditor.tsx:222-225 | a missing category or subcategory leaves the tree unchanged |
| Rules.UpdateRuleStamps | src/pages/admin/RulesEditor.tsx:247-269 | categories with another id are identical; matching categories keep id, title and the number of subcategories; subcategories with another id are identical, matching ones keep id, title, description and length; each rule with the id takes the update's fields and today's stamp, whatever stamp the update carries, and every other rule is unchanged |
| Rules.UpdateRuleKeepsCount | src/pages/admin/RulesEditor.tsx:247-269 | updating a rule never changes the rule count |
| Rules.DeleteRuleEffect | src/pages/admin/RulesEditor.tsx:271-286 | only the rule lists of the addressed subcategories change, losing exactly the rules with that id; the rule count never grows |
| Rules.TotalRules | src/pages/admin/RulesEditor.tsx:319-321 | the nested `reduce` over rule-list lengths; `Rules.TotalRulesCountsAllRules` proves it counts every rule of the tree |
| Rules.TotalRulesCountsAllRules | src/pages/admin/RulesEditor.tsx:319-321 | the nested `reduce` equals the number of rules in the tree |
| Rules.TotalRulesConcat | src/pages/admin/RulesEditor.tsx:319-321 | the count of a concatenation is the sum of the counts |
| Rules.Toggle | src/pages/admin/RulesEditor.tsx:288-296 | the id's membership flips and every other member stays |
| Rules.ToggleTwice | src/pages/admin/RulesEditor.tsx:288-306 | toggling twice restores the set |
| Rules.ConfirmedDelete | src/pages/admin/RulesEditor.tsx:656-665 | no delete exactly for a subcategory without a parent id or a rule without both parent ids; otherwise the delete of the target's kind |
| RulesEditor.RulesEditorPage.constructor | src/pages/admin/RulesEditor.tsx:50-57 | the loaded tree with nothing expanded, edited or awaiting confirmation |
| RulesEditor.RulesEditorPage.AddCategory | src/pages/admin/RulesEditor.tsx:155-165 | the tree gains the new category, its id joins the expanded set and is opened for editing; the rule count is unchanged |
| RulesEditor.RulesEditorPage.UpdateCategory | src/pages/admin/RulesEditor.tsx:167-171 | the tree becomes `Rules.UpdateCategory` of the old tree |
| RulesEditor.RulesEditorPage.DeleteCategory | src/pages/admin/RulesEditor.tsx:173-176 | exactly the categories with another id remain, and the dialog closes |
| RulesEditor.RulesEditorPage.AddSubCategory | src/pages/admin/RulesEditor.tsx:179-196 | a missing category changes nothing; otherwise the tree gains the subcategory, and its id is expanded and opened for editing |
| RulesEditor.RulesEditorPage.UpdateSubCategory | src/pages/admin/RulesEditor.tsx:198-208 | the tree becomes `Rules.UpdateSubCategory` of the old tree |
| RulesEditor.RulesEditorPage.DeleteSubCategory | src/pages/admin/RulesEditor.tsx:210-219 | the tree becomes `Rules.DeleteSubCategory` of the old tree, and the dialog closes |
| RulesEditor.RulesEditorPage.AddRule | src/pages/admin/RulesEditor.tsx:222-245 | a missing category or subcategory changes nothing; otherwise the tree gains the rule, which is opened for editing |
| RulesEditor.RulesEditorPage.UpdateRule | src/pages/admin/RulesEditor.tsx:247-269 | the tree becomes `Rules.UpdateRule` of the old tree, and the rule count is unchanged |
| RulesEditor.RulesEditorPage.DeleteRule | src/pages/admin/RulesEditor.tsx:271-286 | the tree becomes `Rules.DeleteRule` of the old tree, the rule count does not grow, and the dialog closes |
| RulesEditor.RulesEditorPage.ToggleCategory | src/pages/admin/RulesEditor.tsx:288-296 | the expanded categories become `Rules.Toggle` of the old set |
| RulesEditor.RulesEditorPage.ToggleSubCategory | src/pages/admin/RulesEditor.tsx:298-306 | the expanded subcategories become `Rules.Toggle` of the old set |
| RulesEditor.RulesEditorPage.StartEditing | src/pages/admin/RulesEditor.tsx:444 | the item becomes the one being edited |
| RulesEditor.RulesEditorPage.StopEditing | src/pages/admin/RulesEditor.tsx:424 | no item is being edited |
| RulesEditor.RulesEditorPage.AskDelete | src/pages/admin/RulesEditor.tsx:452 | the dialog holds the target |
| RulesEditor.RulesEditorPage.CancelDelete | src/pages/admin/RulesEditor.tsx:637 | the dialog is closed |
| RulesEditor.RulesEditorPage.ConfirmDelete | src/pages/admin/RulesEditor.tsx:656-665 | with no target nothing happens; a target lacking its parent ids changes nothing; otherwise the tree is `Rules.ConfirmedDelete` of the old tree and the dialog closes |
| AdminStats.Distribution | src/hooks/useAdminStats.ts:69-81 | the four per-status counts; `AdminStats.CountStatuses` computes it with the loop and `AdminStats.DistributionBounded` bounds it |
| AdminStats.CountStatuses | src/hooks/useAdminStats.ts:69-81 | each counter equals the number of applications with exactly that status; other statuses are ignored |
| AdminStats.DistributionBounded | src/hooks/useAdminStats.ts:69-81 | the four counters add up to at most the number of applications, and to exactly that number when every status is one of the four |
| AdminStats.DailyHistogram | src/hooks/useAdminStats.ts:87-107 | thirty buckets, for today and the 29 days before, in ascending date order, each counting the applications of its day |
| AdminStats.HistogramTotal | src/hooks/useAdminStats.ts:87-107 | the bucket counts add up to the applications created in the window, never more than all applications |
| AdminStats.OutsideWindowNotCounted | src/hooks/useAdminStats.ts:98-103 | no bucket exists for a day outside the window |
| AdminStats.CountActive | src/hooks/useAdminStats.ts:114 | the active forms counted by the `filter`; bounded by `AdminStats.ActiveFormsBounded` |
| AdminStats.CountPublished | src/hooks/useAdminStats.ts:116 | the published posts counted by the `filter`; `AdminStats.PublishedAndDraftsPartition` relates it to the drafts |
| AdminStats.CountDrafts | src/hooks/useAdminStats.ts:117 | the unpublished posts counted by the `filter`; `AdminStats.PublishedAndDraftsPartition` relates it to the published posts |
| AdminStats.PublishedAndDraftsPartition | src/hooks/useAdminStats.ts:116-117 | published plus draft posts equal all posts |
| AdminStats.ActiveFormsBounded | src/hooks/useAdminStats.ts:114-115 | active forms never exceed all forms |
| AdminStats.SummaryProperties | src/hooks/useAdminStats.ts:109-120 | statistics built from rows: the counters fit within the total, published and drafts partition the posts, active forms fit within the forms, and the histogram is ascending and sums to at most the total |
| AdminStats.AdminStatsHook.constructor | src/hooks/useAdminStats.ts:33-46 | zero statistics, loading, no error |
| AdminStats.AdminStatsHook.FetchStats | src/hooks/useAdminStats.ts:48-127 | any query error sets the fixed message and keeps the previous statistics; otherwise the error is cleared and the statistics summarise the rows (missing rows count as none); loading ends either way |
| CategoryPieChart.PositiveKeysMembers | src/components/admin/CategoryPieChart.tsx:44-46 | the filter keeps a key exactly when its value is positive |
| CategoryPieChart.PositiveKeysOrdered | src/components/admin/CategoryPieChart.tsx:44-46 | the kept keys stay in the order of the distribution object |
| CategoryPieChart.PositiveKeysEmpty | src/components/admin/CategoryPieChart.tsx:44-46 | nothing is kept exactly when no key has a positive value |
| CategoryPieChart.ChartData | src/components/admin/CategoryPieChart.tsx:44-51 | `chartData`: the slices; `CategoryPieChart.ChartDataExactlyPositive`, `ChartDataSlicesMatchKeys` and `ChartDataOrdered` state what they are |
| CategoryPieChart.ChartDataExactlyPositive | src/components/admin/CategoryPieChart.tsx:44-51 | a status has its slice in the chart exactly when its count is positive |
| CategoryPieChart.ChartDataSlicesMatchKeys | src/components/admin/CategoryPieChart.tsx:46-51 | every slice carries its key's name, a positive count, and the label and colour looked up by that key |
| CategoryPieChart.ChartDataOrdered | src/components/admin/CategoryPieChart.tsx:44-46 | slices come in the order pending, approved, rejected, revision_requested |
| CategoryPieChart.Total | src/components/admin/CategoryPieChart.tsx:53 | the sum of the four counts; `CategoryPieChart.NoKnownStatusIffZero` and `DistributionChart` relate it to the applications |
| CategoryPieChart.View | src/components/admin/CategoryPieChart.tsx:55-68 | the empty-state card when the total is 0, otherwise the pie of `chartData`; `CategoryPieChart.EmptyStateIffNoSlices` and `CancellingCountsShowEmptyState` state when each appears |
| CategoryPieChart.EmptyStateIffNoSlices | src/components/admin/CategoryPieChart.tsx:53-68 | for counts that are never negative, the empty state is shown exactly when there are no slices |
| CategoryPieChart.CancellingCountsShowEmptyState | src/components/admin/CategoryPieChart.tsx:53-55 | counts 1 and -1 total 0, so the empty state is shown although one slice exists |
| CategoryPieChart.DistributionChart | src/components/admin/CategoryPieChart.tsx:53-55 | for a distribution the statistics hook computes, the counts are non-negative, the total is at most the applications, and the empty state appears exactly when no application has a known status |
| CategoryPieChart.NoKnownStatusIffZero | src/hooks/useAdminStats.ts:69-81 | the distribution's counts add up to zero exactly when no application has one of the four statuses |

## Left out

- Network and back-end calls are not modelled; their results are inputs. This covers the 2FA status view query, the role check, loading and saving the rules row, the three statistics queries, and the verification endpoint request with its JSON parsing.
- Browser services are left out: the idle timer library (its 500 ms debounce and event listening), `setInterval` scheduling and teardown, toasts, console logging, and navigation beyond recording the new route and the route left behind.
- `Date` is not modelled. The clock is the parameter `now`, `toLocaleDateString` is an opaque "today" string, and `toISOString` day keys are integer day numbers (so time zones are not modelled).
- Async ordering, and races between overlapping requests, are concurrency and outside this sequential model.
- Storage exceptions and `getSession` exceptions are not modelled. The code swallows the former. The latter reaches the same "Doğrulama sırasında hata oluştu" result that `TransportFailure` models.
- The provider's `isLoading` flag and the `admin2FASettings` spread (which blanks the TOTP secret) are not modelled; the settings are the three fields of the 2FA status view, of which the guard reads only `is_blocked`.
- `parseInt`, `Number.isFinite` and `toString` are modelled on unbounded integers. Float rounding of very long digit runs, the `Infinity` case and the exponent form `toString` prints from 1e21 upward are not captured.
- The JavaScript `in` operator also finds inherited properties (such as "toString") at `src/hooks/useAdminStats.ts:78`. The model counts only the four own statuses. For an application whose status is such a name, `statusDistribution[status]++` writes NaN into the distribution, so the chart's total is NaN and the empty state is not shown; CategoryPieChart.DistributionChart and CategoryPieChart.View do not capture that case, and the empty-state iff holds only for statuses that are not inherited property names.
- `Partial<...>` updates are records of optional fields. An update that explicitly holds `undefined` (which would blank a field) is not modelled.
- AdminSession.AdminSessionGuard.SyncCountdown: requires `now >= 0`. The same holds for AdminSession.AdminSessionGuard.StartCountdown, which it calls. At a negative clock reading the fresh expiry could be the falsy 0, which the first tick would treat as missing.
- Rules.AddRuleAddsOne: assumes the category id and the subcategory id are each carried once. With repeated ids, `addRule` appends to every match, and `Rules.AddRuleMissing` plus the update lemmas describe that case instead.
- RulesEditor.RulesEditorPage.ConfirmDelete: models the handler only. The dialog component may also close itself after any confirm click; that library behaviour is not part of this model.
