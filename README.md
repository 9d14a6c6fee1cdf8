# Risk Coach MVP — a Dafny model of its behaviour

Risk Coach MVP is a single-page risk-management app written in React. There is
no back end: every page works on a constant fixture of eight risks, or on a
small constant list of its own. This project models the logic behind those
pages and proves properties of it:

- **Scoring and banding.** A risk's score is probability times impact. A
  score falls into one of four bands: at least 15, 8 to 14, 4 to 7, below 4.
  The heat map (`RiskMatrix`) and the register's score colour
  (`RiskRegister.ScoreColor`) each hard-code these bands, and a lemma proves
  the two copies agree.
- **Collections of records.**
  - The register's filter-then-sort pipeline.
  - The statistics aggregated from the fixture.
  - The 5×5 heat map.
  - The dashboard's active list, tiles and category panel.
  - The team, report and alert lists.
- **Small state machines.** The alert list; the AI coach's transcript; the
  authentication session with its local-storage entry; the login and sign-up
  forms; the sidebar.

Each source file is one module:

| module | source file |
|---|---|
| Types | `src/types/index.ts` |
| SampleData | `src/lib/sampleData.ts` |
| RiskMatrix | `src/components/dashboard/RiskMatrix.tsx` |
| RiskRegister | `src/pages/RiskRegister.tsx` |
| Dashboard | `src/pages/Dashboard.tsx` |
| Alerts | `src/pages/Alerts.tsx` |
| AICoach | `src/pages/AICoach.tsx` |
| Signup | `src/pages/Signup.tsx` |
| Login | `src/pages/Login.tsx` |
| Team | `src/pages/Team.tsx` |
| Reports | `src/pages/Reports.tsx` |
| Sidebar | `src/components/layout/Sidebar.tsx` |
| StatsCard | `src/components/dashboard/StatsCard.tsx` |
| Auth | `src/contexts/AuthContext.tsx` |

Three modules are shared helpers:

- `Wrappers` holds `Option` and `Result`.
- `Seqs` holds:
  - `Filter`, which is `Array.prototype.filter`;
  - subsequences;
  - counting by key.
- `Text` holds the JavaScript string operations the pages use.

Pure code (filters, counts, if-chains) is written as functions with lemmas.
Code that updates React state is written as a class:

- `RiskRegister.RegisterView`;
- `Alerts.AlertsPage`;
- `AICoach.Coach`;
- `Signup.SignupForm`;
- `Login.LoginPage`;
- `Sidebar.SidebarState`;
- `Auth.AuthSession`.

Each class has one field per piece of state and one method per handler. A
method's `ensures` gives the complete new state.

The register sorts the fresh array that `filter` returns.
`RiskRegister.FilteredRisks` copies the filtered sequence into a new array and
sorts it in place with `SortInPlace`. That method is proved to produce a
sorted permutation.

A risk's `level` is a stored field. Nothing in the model ties it to the band
of its score, because the fixture does not: records 1 and 6 score 20 and 16,
yet both are stored as high. `SampleData.StoredLevelIsNotBand` states this.

## Model

| member | source | states |
|---|---|---|
| Types.Enumerations | src/types/index.ts:1-26 | The key lists hold each value of their enumeration exactly once: 4 levels, 8 categories (including human capital) and 5 statuses. So every count record has a count for every key. |
| Types.ScoreRange | src/components/dashboard/RiskMatrix.tsx:6-7 | When probability and impact are on the 1..5 scale, the score lies in 1..25. The scale is a predicate, not a type bound. |
| SampleData.LevelCountsSum | src/lib/sampleData.ts:125-131 | For any list of risks, the four `byLevel` counts add up to `total`. |
| SampleData.CategoryCountsSum | src/lib/sampleData.ts:132-144 | For any list of risks, the eight `byCategory` counts add up to `total`. |
| SampleData.StatusCountsSum | src/lib/sampleData.ts:145-151 | For any list of risks, the five `byStatus` counts add up to `total`. |
| SampleData.MatrixData | src/lib/sampleData.ts:154-159 | The heat map's projection has the same length and order as the risks. It copies id, title, probability and impact unchanged. |
| SampleData.FixtureLevels | src/lib/sampleData.ts:3-122 | The fixture's stored levels, in record order. |
| SampleData.LevelCountsOfOrder | src/lib/sampleData.ts:126-131 | Any eight risks whose levels read as the fixture's count low 2, medium 3, high 2 and critical 1. |
| SampleData.FixtureLevelCounts | src/lib/sampleData.ts:124-131 | On the fixture: total 8; low 2, medium 3, high 2, critical 1. |
| SampleData.FixtureStatusesAndCategories | src/lib/sampleData.ts:3-122 | The fixture's stored statuses and categories, in record order. |
| SampleData.OpenCountsOfOrder | src/lib/sampleData.ts:145-148 | Risks whose statuses read as the fixture's count identified 2, assessing 2 and mitigating 3. |
| SampleData.ClosedCountsOfOrder | src/lib/sampleData.ts:149-150 | Risks whose statuses read as the fixture's count resolved 0 and accepted 1. |
| SampleData.FixtureStatusCounts | src/lib/sampleData.ts:145-151 | On the fixture: identified 2, assessing 2, mitigating 3, resolved 0, accepted 1. |
| SampleData.OnePerCategory | src/lib/sampleData.ts:132-144 | When the risks' categories are all eight, none repeated, every `byCategory` count is 1. |
| SampleData.FixtureCategoryCounts | src/lib/sampleData.ts:132-144 | On the fixture, every category, technology included, counts exactly one risk. |
| SampleData.StoredLevelIsNotBand | src/lib/sampleData.ts:10-12 | Records 1 and 6 are stored, and so counted, as high, although their scores fall in the critical band. |
| RiskMatrix.BandThresholds | src/components/dashboard/RiskMatrix.tsx:15-21 | Each band is exactly its score range, in both directions: critical iff at least 15, high iff 8 to 14, medium iff 4 to 7, low iff below 4. |
| RiskMatrix.BandMonotone | src/components/dashboard/RiskMatrix.tsx:17-20 | A larger score never falls into a lower band. |
| RiskMatrix.CellColorSymmetric | src/components/dashboard/RiskMatrix.tsx:16 | Cells (p, i) and (i, p) get the same colour. |
| RiskMatrix.LegendColorInjective | src/components/dashboard/RiskMatrix.tsx:103-119 | The legend gives the four bands four different colours. |
| RiskMatrix.RisksInCellExact | src/components/dashboard/RiskMatrix.tsx:23-25 | A cell holds a risk iff the risk is in the input with exactly the cell's probability and impact. The cell keeps input order. |
| RiskMatrix.GridEnumeration | src/components/dashboard/RiskMatrix.tsx:44-45 | The grid has 25 entries: probability 5 down to 1, and within each row impact 1 to 5. Each pair on the 1..5 scale sits at exactly one index. |
| RiskMatrix.GridMembership | src/components/dashboard/RiskMatrix.tsx:44-45 | A pair is in the grid iff both coordinates are on the 1..5 scale. |
| RiskMatrix.ExactlyOneCell | src/components/dashboard/RiskMatrix.tsx:44-46 | A risk lies in grid cell k iff it is on the scale and k is its own cell. So an on-scale risk is in exactly one cell, and an off-scale risk is in none. |
| RiskMatrix.GridPartition | src/components/dashboard/RiskMatrix.tsx:44-46 | The 25 cell counts add up to the number of risks on the 1..5 scale. |
| RiskMatrix.TooltipNamesRisks | src/components/dashboard/RiskMatrix.tsx:55-66 | A cell with risks shows a count, and its tooltip contains every risk's title. An empty cell's tooltip starts with `P{p}`. |
| RiskRegister.FilterRisksExact | src/pages/RiskRegister.tsx:55-63 | A risk is kept iff all three hold: the title or description contains the query (both lowercased), the category matches or is `all`, and the level matches or is `all`. Survivors keep their order. |
| RiskRegister.ClearedKeepsAll | src/pages/RiskRegister.tsx:56-62 | An empty query with both drop-downs on `all` keeps every risk. |
| RiskRegister.FilterRisksStaged | src/pages/RiskRegister.tsx:56-62 | The three-way filter equals the search filter followed by the drop-down filter. |
| RiskRegister.PrecTotal | src/pages/RiskRegister.tsx:64-68 | For each of the three sort keys, any two risks are comparable. |
| RiskRegister.PrecTransitive | src/pages/RiskRegister.tsx:64-68 | For each of the three sort keys, the order is transitive. |
| RiskRegister.SortInPlace | src/pages/RiskRegister.tsx:64-68 | After the in-place sort, the array is sorted by the key and is a permutation of its old contents. Score and update date descend; title ascends. |
| RiskRegister.FilteredRisks | src/pages/RiskRegister.tsx:55-68 | The output is a sorted permutation of the filter's result. It holds exactly the kept risks, and it is no longer than the input. |
| RiskRegister.ScoreColorMatchesMatrix | src/pages/RiskRegister.tsx:206-209 | The register's score colour is the heat map's colour for that risk's cell. |
| RiskRegister.SortCycle | src/pages/RiskRegister.tsx:141 | The sort button cycles score, date, title: three presses return to the start, and one or two do not. |
| RiskRegister.RegisterView.constructor | src/pages/RiskRegister.tsx:50-53 | Starts with an empty query, both drop-downs on `all`, and sort by score. |
| RiskRegister.RegisterView.SetSearchQuery | src/pages/RiskRegister.tsx:81 | Sets the query and nothing else. |
| RiskRegister.RegisterView.SetCategory | src/pages/RiskRegister.tsx:92 | Sets the category selection and nothing else. |
| RiskRegister.RegisterView.SetLevel | src/pages/RiskRegister.tsx:104 | Sets the level selection and nothing else. |
| RiskRegister.RegisterView.CycleSort | src/pages/RiskRegister.tsx:141 | Advances the sort key to the next in the cycle and changes nothing else. |
| RiskRegister.RegisterView.ClearFilters | src/pages/RiskRegister.tsx:253-255 | Resets the query and both drop-downs and keeps the sort key. The filter then keeps every risk. |
| RiskRegister.RegisterView.Rows | src/pages/RiskRegister.tsx:55-68 | The rows for the current state are a sorted permutation of the risks the current filters keep. |
| Dashboard.ActiveRisksExact | src/pages/Dashboard.tsx:17-19 | A risk is in the active list iff its status is neither resolved nor accepted. The list keeps input order. |
| Dashboard.ActiveCount | src/pages/Dashboard.tsx:17-19 | Active risks plus resolved plus accepted add up to all risks. |
| Dashboard.TopActive | src/pages/Dashboard.tsx:71 | The list shows the first five active risks, or all of them when there are fewer, in order. |
| Dashboard.HighPriorityCount | src/pages/Dashboard.tsx:38 | The High Priority tile, high plus critical, equals the number of risks stored as high or critical. |
| Dashboard.Entries | src/pages/Dashboard.tsx:88 | `Object.entries` gives one pair per category, in the record's key order, each with that category's count. |
| Dashboard.Insert | src/pages/Dashboard.tsx:90 | Inserting into a list sorted by descending count keeps it sorted and adds exactly that entry. |
| Dashboard.SortByCount | src/pages/Dashboard.tsx:90 | The result is in non-increasing count order and is a permutation of the input. The sort is stable: for every count, the entries with that count are in input order. |
| Dashboard.InsertStable | src/pages/Dashboard.tsx:90 | Among the entries with the new entry's count, `Insert` places the new entry first. Entries with other counts keep their order. |
| Dashboard.PositiveEntries | src/pages/Dashboard.tsx:89 | A (category, count) pair survives the filter iff the count is that category's count and is positive. |
| Dashboard.CategoryPanelSpec | src/pages/Dashboard.tsx:88-90 | The panel is in non-increasing count order. A category appears in it, with its count, iff that count is positive. |
| Dashboard.CategoryPanelStable | src/pages/Dashboard.tsx:88-90 | For every positive count, the panel lists the categories with that count in the record's key order. |
| Dashboard.CategoryPanelOnce | src/pages/Dashboard.tsx:88-90 | No pair is listed twice in the panel. |
| Dashboard.EntriesOnce | src/pages/Dashboard.tsx:88 | No pair occurs twice among the entries. |
| Dashboard.SortByCountTies | src/pages/Dashboard.tsx:90 | When all counts are equal, the sort returns its input unchanged: ties keep their order. |
| Dashboard.FixtureTiles | src/pages/Dashboard.tsx:36-46 | On the fixture, High Priority is 3 and Being Mitigated is 3. |
| Dashboard.FixtureActive | src/pages/Dashboard.tsx:17-19 | On the fixture, 7 risks are active. |
| Dashboard.UniformPanel | src/pages/Dashboard.tsx:88-90 | When every category counts one risk, the panel is all eight entries in key order. |
| Dashboard.FixturePanel | src/pages/Dashboard.tsx:88-90 | On the fixture, the panel lists all eight categories, each with count 1, in key order. |
| Alerts.FilteredAlertsSpec | src/pages/Alerts.tsx:98-102 | Under `all` the view is the whole list. Under `unread` it is exactly the unread alerts, in order, and its length is `unreadCount`. |
| Alerts.MarkedRead | src/pages/Alerts.tsx:104-106 | An alert becomes read iff it was read or has the id. Every other field, the length and the order are kept. |
| Alerts.MarkedReadIdempotent | src/pages/Alerts.tsx:104-106 | Marking the same id twice gives the same list as marking it once. |
| Alerts.MarkedReadUnread | src/pages/Alerts.tsx:102-106 | After marking, the unread alerts are those that were unread and have another id. So the counter never goes up. |
| Alerts.AllMarkedRead | src/pages/Alerts.tsx:108-110 | Every alert becomes read, and every other field is kept. |
| Alerts.AllMarkedReadClears | src/pages/Alerts.tsx:108-110 | After "mark all as read", `unreadCount` is 0 and the button is hidden. |
| Alerts.DismissedSpec | src/pages/Alerts.tsx:112-114 | An alert remains iff its id differs. The remaining alerts keep their order. The kept and removed counts add up to the old length. |
| Alerts.TilesSum | src/pages/Alerts.tsx:167-200 | The four tiles plus the tile-less `status_change` count make up the list. So the tiles sum to at most the total. |
| Alerts.FixtureFlags | src/pages/Alerts.tsx:27-84 | The sample alerts' read flags and types, in order. |
| Alerts.FixtureUnread | src/pages/Alerts.tsx:27-84 | The sample has five alerts, three of them unread. |
| Alerts.FixtureTypes | src/pages/Alerts.tsx:27-84 | Each alert type occurs once in the sample. |
| Alerts.AlertsPage.constructor | src/pages/Alerts.tsx:95-96 | Starts with the given alerts and the `all` view. |
| Alerts.AlertsPage.SetFilter | src/pages/Alerts.tsx:123-133 | Sets the view filter and keeps the alerts. |
| Alerts.AlertsPage.MarkAsRead | src/pages/Alerts.tsx:104-106 | Replaces the list by the marked list. The unread count does not grow. |
| Alerts.AlertsPage.MarkAllAsRead | src/pages/Alerts.tsx:108-110 | Replaces the list by the all-read list. The unread count becomes 0. |
| Alerts.AlertsPage.DismissAlert | src/pages/Alerts.tsx:112-114 | Replaces the list by the dismissed list. No alert with the id remains. |
| Auth.AuthSession.constructor | src/contexts/AuthContext.tsx:20-21 | The first render has no user, `isLoading` set, and storage as the browser holds it. |
| Auth.AuthSession.Mount | src/contexts/AuthContext.tsx:23-34 | A missing or empty entry changes nothing. An entry that parses becomes the user. An entry that throws is removed. Loading ends in every case. |
| Auth.AuthSession.Login | src/contexts/AuthContext.tsx:36-39 | Sets the user, so the session is authenticated, and stores the encoded user under `lumina_r_user`. |
| Auth.AuthSession.Logout | src/contexts/AuthContext.tsx:41-44 | Clears the user, so the session is not authenticated, and removes the stored entry. |
| Auth.LoginThenLogout | src/contexts/AuthContext.tsx:36-44 | From any state, login then logout leaves no user and no stored entry. |
| Auth.ReloadAfterLogin | src/contexts/AuthContext.tsx:23-39 | After `login(u)`, a new provider mounted over the same storage restores `u`, as long as the encoding round-trips. |
| Auth.UseAuth | src/contexts/AuthContext.tsx:61-67 | Outside a provider it fails with the provider error. Inside one it returns the context. |
| Login.NameFromEmailSpec | src/pages/Login.tsx:34 | The name is the email's text before the first '@', or the whole email when it has none. |
| Login.LoginOutcome | src/pages/Login.tsx:33-38 | A user is signed in iff email and password are both non-empty. Otherwise the result is the missing-fields error. |
| Login.LoginPage.constructor | src/pages/Login.tsx:15-19 | Starts with empty fields, no error and not loading. |
| Login.LoginPage.HandleSubmit | src/pages/Login.tsx:23-44 | Clears the error. Then either signs in and goes to `/`, or sets the error and leaves the session alone. Loading ends false. |
| Signup.FirstLine | src/pages/Signup.tsx:74 | The prefix that `.*` can scan: it is a prefix of the input and has no line terminator, and it stops at the first one. |
| Signup.PasswordStrength | src/pages/Signup.tsx:69-78 | Strength is in 0..3 and the caption matches it. Strength is 0 iff the password is empty, and 1 iff its length is 1 to 5. It is 3 iff the length is at least 10 and a lowercase letter, an uppercase letter and a digit occur on the first line. |
| Signup.StrengthMonotone | src/pages/Signup.tsx:69-78 | Extending a single-line password that already has all three classes never lowers its strength. |
| Signup.LitSegments | src/pages/Signup.tsx:230-234 | The meter lights exactly as many of its three segments as the strength. |
| Signup.SignupOutcome | src/pages/Signup.tsx:45-61 | Without the terms the result is the terms error. With them, a user is signed in iff name, email and password are non-empty; otherwise the result is the required-fields error. |
| Signup.SignupForm.constructor | src/pages/Signup.tsx:24-33 | Starts with empty fields, terms not agreed, not loading, and no error. |
| Signup.SignupForm.HandleSubmit | src/pages/Signup.tsx:41-67 | The error is cleared first. Without the terms, the terms error is set and loading is untouched. Otherwise the user signs in and goes to `/`, or the required-fields error is set; loading ends false. |
| AICoach.ChooseReply | src/pages/AICoach.tsx:128-134 | On the lowercased prompt, in both directions: the risks reply iff it asks about top, priority or focus. Otherwise the mitigation reply iff it mentions mitigation or supply chain. Otherwise the default reply. |
| AICoach.ChooseReplyIgnoresCase | src/pages/AICoach.tsx:128 | Lowercasing or uppercasing the prompt does not change the reply. |
| AICoach.FirstPromptGetsRisks | src/pages/AICoach.tsx:25 | The first suggested question gets the risks reply. |
| AICoach.FindClose | src/pages/AICoach.tsx:202 | The lazy `(.*?)` stops at the first closing `**` on the same line. When there is none, every later `**` lies past a line break. |
| AICoach.BoldPlain | src/pages/AICoach.tsx:202 | Text without `**` is unchanged by the bold rewrite. |
| AICoach.BreaksPlain | src/pages/AICoach.tsx:203 | Text without a newline is unchanged by the line-break rewrite. |
| AICoach.RenderPlain | src/pages/AICoach.tsx:201-203 | Text with neither `**` nor a newline is displayed unchanged. |
| AICoach.BreaksRemovesNewlines | src/pages/AICoach.tsx:203 | The rewritten text contains no newline. |
| AICoach.BreaksIsSplitJoin | src/pages/AICoach.tsx:203 | Replacing every newline equals splitting on newlines and joining with `<br />`. |
| AICoach.BoldSpan | src/pages/AICoach.tsx:202 | `**x**`, where x has no star and no line break, becomes `<strong>x</strong>`. |
| AICoach.Coach.constructor | src/pages/AICoach.tsx:50-52 | Starts with the greeting transcript, an empty input and no typing indicator. |
| AICoach.Coach.SetInput | src/pages/AICoach.tsx:251 | Sets the input and nothing else. |
| AICoach.Coach.UsePrompt | src/pages/AICoach.tsx:291 | Copies the chosen suggested question into the input and changes nothing else. |
| AICoach.Coach.Send | src/pages/AICoach.tsx:63-76 | A blank input changes nothing. Blank means only characters that `trim` removes: whitespace, every Unicode space separator and the line terminators. Otherwise one user message with the input is appended, the input is cleared, and the typing indicator shows. |
| AICoach.BlankInputs | src/pages/AICoach.tsx:64 | Empty input, ASCII whitespace and Unicode spaces such as U+3000 are blank, so nothing is sent. Input with a visible character, or with the zero-width space that `trim` keeps, is not blank. |
| AICoach.Coach.DeliverReply | src/pages/AICoach.tsx:136-144 | Appends one assistant message with the reply chosen for the captured prompt and hides the typing indicator. |
| AICoach.Coach.HandleSend | src/pages/AICoach.tsx:63-146 | A blank input changes nothing. Otherwise the transcript grows by exactly two messages, the user's and the chosen reply; the input ends empty and typing ends. |
| AICoach.Coach.NewConversation | src/pages/AICoach.tsx:323 | Resets the transcript to the greeting. |
| Team.FilteredMembersSpec | src/pages/Team.tsx:91-95 | A member is kept iff the name or email contains the query (both lowercased). Order is kept. An empty query keeps everyone. |
| Team.TilesAddUp | src/pages/Team.tsx:123-141 | The Active and Pending tiles add up to the total. Admins are at most the total. |
| Team.FixtureKeys | src/pages/Team.tsx:25-71 | The roster's statuses and roles, in order. |
| Team.FixtureTiles | src/pages/Team.tsx:123-141 | On the roster: 5 members, 4 active, 1 pending, 1 admin. |
| Team.InitialsSpec | src/pages/Team.tsx:231 | The initials are the name's word-initial characters, in order. None is a space, and there are no more of them than the name has characters. |
| Team.InitialsExample | src/pages/Team.tsx:231 | "John Doe" gives "JD". |
| Reports.FilteredReportsSpec | src/pages/Reports.tsx:115-117 | A report is kept iff its title contains the query (both lowercased). Order is kept. An empty query keeps every report. |
| Reports.StatusLabelInjective | src/pages/Reports.tsx:230-231 | Two statuses share a label iff they are equal. |
| Reports.Actions | src/pages/Reports.tsx:236-251 | Delete is always offered, and offered last. View, download and share are each offered iff the report is ready. |
| Reports.EmptyStateSpec | src/pages/Reports.tsx:258 | "No reports found" shows iff no report's title matches. It never shows for a non-empty list and an empty query. |
| Reports.CountsOfOrder | src/pages/Reports.tsx:31-82 | Reports whose statuses read as the sample's count 4 ready, 1 scheduled and 0 generating. |
| Reports.FixtureStatuses | src/pages/Reports.tsx:31-82 | The sample has 4 ready reports and 1 scheduled one, and the scheduled one offers only delete. |
| Sidebar.NavHighlightsOne | src/components/layout/Sidebar.tsx:29-53 | On the page of each of the nine menu entries, that entry is highlighted and no other. |
| Sidebar.ActiveOnExtensions | src/components/layout/Sidebar.tsx:52 | A non-root entry is highlighted on every pathname that extends its path, whether or not the extension starts with `/`. |
| Sidebar.ActiveOnExtensionsExample | src/components/layout/Sidebar.tsx:50-53 | `/risks` is highlighted on `/risks/4` and on `/risksX`. The root entry is not highlighted on `/risks`. |
| Sidebar.GetInitialsSpec | src/components/layout/Sidebar.tsx:61-68 | At most two characters: the uppercased first word starts of the name, in order. Empty parts contribute nothing. |
| Sidebar.AvatarText | src/components/layout/Sidebar.tsx:161 | Without a user the avatar shows `U`. With one it shows the user's initials. |
| Sidebar.DisplayName | src/components/layout/Sidebar.tsx:166 | The footer name is never empty. It is the user's name when that is non-empty, and `User` otherwise. |
| Sidebar.SidebarState.constructor | src/components/layout/Sidebar.tsx:45 | Starts expanded, with no navigation requested. |
| Sidebar.SidebarState.ToggleCollapsed | src/components/layout/Sidebar.tsx:84 | Flips `collapsed` and changes nothing else. |
| Sidebar.SidebarState.HandleLogout | src/components/layout/Sidebar.tsx:55-58 | Ends the session (no user, no stored entry), then targets `/landing`. |
| StatsCard.TrendBySign | src/components/dashboard/StatsCard.tsx:29-44 | The sign of the change decides both icon and colour, and they always agree. Absent or zero gives neutral and slate; positive gives up and red; negative gives down and emerald. |
| StatsCard.MagnitudeTextSpec | src/components/dashboard/StatsCard.tsx:61 | The text is digits followed by `%`. It reads `0%` iff the change is absent or zero. A change and its negation read alike. |
| StatsCard.ZeroChangeShown | src/components/dashboard/StatsCard.tsx:55-61 | A zero change still draws the trend row, with the neutral icon and `0%`. With neither a change nor a caption, no row is drawn. |

## Left out

- Timers are not modelled.
  - The simulated delays (`src/pages/Login.tsx:30`, `src/pages/Signup.tsx:54`) are collapsed: each submit is one atomic step.
  - The coach's reply timer (`src/pages/AICoach.tsx:78`) is modelled as a separate `DeliverReply` step. `HandleSend` joins the two steps.
- AICoach.Coach.NewConversation does not cancel a reply that is still pending. The model has no timer, so a late reply landing after a reset is not represented.
- Message ids are `Date.now()` and timestamps are `new Date()`. Both depend on the clock, so they are dropped from `Message`.
- `scrollIntoView` is a browser effect with no state to model.
- `localStorage` is the map field `AuthSession.storage`. `JSON.stringify` and `JSON.parse` are the opaque functions `encode` and `decode`, fixed when the session is created.
- Auth.ReloadAfterLogin requires that the encoding round-trips, since `encode` and `decode` are opaque.
- `navigate` is recorded as the target path in a `navigatedTo` field. Routing itself is not modelled.
- The `catch` branches of both submits (`src/pages/Signup.tsx:62-63`, `src/pages/Login.tsx:39-40`) are left out.
  - In the source, `login()` calls `localStorage.setItem` (`src/contexts/AuthContext.tsx:38`). It can throw, for example a quota or security error.
  - When it throws, the user is already set and `navigate('/')` is skipped. The page then shows the catch branch's message.
  - In the model, storage is a map whose update never fails, so these branches cannot be reached.
- RiskRegister.FilteredRisks states a sorted permutation but not stability.
  - The source's `Array.prototype.sort` is stable, so risks with equal keys keep their filter order.
  - The model's contract does not promise that order.
- RiskRegister.SortInPlace has the same gap: it states a sorted permutation but not stability.
  - It only swaps neighbours that are strictly out of order, so it is stable.
  - That is not proved: the extra invariant is too costly for the in-place array proof.
- `localeCompare` is replaced by lexicographic order on character codes. Locale collation is outside the model.
- `new Date(updatedAt).getTime()` is replaced by `updatedAt` as an integer `YYYYMMDD`, whose numeric order is calendar order.
- `toLowerCase` and `toUpperCase` map ASCII letters only. Unicode case mapping is outside the model.
- String lengths and indexing count characters, where JavaScript counts UTF-16 code units. The two differ only outside the Basic Multilingual Plane.
- The HTML-injection aspect of `dangerouslySetInnerHTML` (`src/pages/AICoach.tsx:200`) is outside the model. Only the string rewrite is modelled.
- AICoach.ShouldSend (Enter without Shift, `src/pages/AICoach.tsx:148-153`) is stated as a predicate with no lemma, because its body is the whole property.
- `probability` and `impact` are `int` in the model's `Risk`, but `number` in the source (`src/types/index.ts:9-10`).
  - A fractional value falls in no heat-map cell in the source; the model has no such values.
  - The fixture holds only whole numbers.
- The login and sign-up submits are modelled from the handler onwards, after the browser's form validation.
  - That validation is the `required`, `minLength={6}` and `type="email"` attributes (`src/pages/Login.tsx:78-107`, `src/pages/Signup.tsx:164-216`).
  - It keeps the browser from firing the handler on empty, short or malformed fields.
  - So the missing-fields paths of `Login.LoginOutcome`, `Signup.SignupOutcome` and both `HandleSubmit` methods exist in the model but are not reached in a browser.
  - The model also does not require a sign-up password of at least six characters.
- The StatsCard `change` is modelled as an integer. The source's number could be fractional or `NaN`; neither occurs at the call sites, which pass whole numbers.
- Class-name lookups are not modelled. These are the badge colours, the format icons and the level colours in lists.
- The report templates and the `showNewReport` and `showInvite` toggles are not modelled. They only show or hide markup.
- `src/pages/Analytics.tsx` is not part of this model. Its average score and chart percentages are floating-point arithmetic.
- The presentation-only files are not part of this model:
  - `src/pages/Settings.tsx`, `src/pages/LandingPage.tsx`;
  - `src/components/layout/Header.tsx`, `src/components/layout/Layout.tsx`;
  - `src/App.tsx`;
  - `src/components/ui/*`;
  - `src/components/dashboard/AICoachWidget.tsx`, `src/components/dashboard/RiskList.tsx`.
