# Browser shell core, modelled in Dafny

This project models the bookkeeping core of a desktop web browser shell:

- the per-tab back/forward history;
- the tab registry with its active tab, id counter and settings;
- the navigation metrics collector (counts, error rate, load-time window and percentiles, MTTR, health verdict);
- the health report built on top of that collector;
- the navigation service, which titles a page, records the outcome and remembers the url;
- the typed browser errors and their post-incident ("COE") report;
- the renderer's configuration and frame types.

Each source file is one module:

- `History`, `State`, `Metrics`, `Health`, `Navigation` and `Errors` model `apps/desktop/src`.
- `RendererTypes` models `packages/renderer/src/types.rs`.
- `Text` supplies Rust's `str::split` on a `char` separator, `join` with a string separator, and decimal formatting of ids together with its read-back.
- `Sorting` is an ascending sort used for the percentiles.
- `Wrappers` holds `Option` and `Result`.

Objects whose methods update fields in place are classes: `TabHistory`, `StateManager`, `Metrics` and `NavigationService`. Their methods state the whole new state and keep a `Valid()` invariant. For `NavigationService`, that invariant ties the current url to a specification-only log of the urls visited. Values are datatypes: tab states, history entries, snapshots, errors, reports and frames.

Conventions:

- Time is a natural number of milliseconds, passed in as `now`. Durations are natural numbers of milliseconds.
- Error rates and averages are exact reals.
- The database probe behind the health check and the outcome of the history save are inputs.

## Model

| member | source | states |
|---|---|---|
| History.TabHistory.constructor | apps/desktop/src/history.rs:76-81 | a new history is empty, has no current entry and can go neither back nor forward |
| History.TabHistory.Push | apps/desktop/src/history.rs:89-107 | every entry after the cursor is discarded, the new entry is appended and becomes current (its url and title read back as the current ones), earlier entries are untouched, and there is nothing to go forward to |
| History.TabHistory.CanGoBack | apps/desktop/src/history.rs:110-112 | true exactly when the cursor is past the first entry; then the history holds at least two entries and has a current one |
| History.TabHistory.CanGoForward | apps/desktop/src/history.rs:115-118 | true exactly when there is an entry after the cursor (the saturating `len - 1` never lets an empty history go forward) |
| History.SaturatingPred | apps/desktop/src/history.rs:117 | `saturating_sub(1)`: one less than a positive length, zero for zero |
| History.TabHistory.GoBack | apps/desktop/src/history.rs:123-131 | when going back is possible, the cursor moves one back and the entry there is returned; otherwise nothing changes and `None` is returned |
| History.TabHistory.GoForward | apps/desktop/src/history.rs:136-144 | when going forward is possible, the cursor moves one forward and the entry there is returned; otherwise nothing changes and `None` is returned |
| History.TabHistory.Current | apps/desktop/src/history.rs:148-151 | the entry at the cursor; under the invariant it is absent exactly when the history is empty |
| History.TabHistory.CurrentUrl | apps/desktop/src/history.rs:155-157 | under the invariant, a current url exists exactly when the history is non-empty, and it is the current entry's url |
| History.TabHistory.CurrentTitle | apps/desktop/src/history.rs:161-164 | the title of the current entry; `Push` proves the current title reads back the pushed one (and `PushFirstEntry` shows it on a new history) |
| History.PushFirstEntry | apps/desktop/src/history.rs:212-221 | after the first push into a new history, `current_title` reads the pushed title (present or absent) and `current_url` the pushed url; there is one entry at index 0 and neither back nor forward is possible |
| History.TabHistory.Len | apps/desktop/src/history.rs:168-170 | under the invariant, the length is zero exactly when there is no cursor |
| History.TabHistory.IsEmpty | apps/desktop/src/history.rs:174-176 | under the invariant, the history is empty exactly when there is no current entry |
| History.TabHistory.CurrentIndex | apps/desktop/src/history.rs:186-188 | absent exactly when the history is empty, otherwise within bounds |
| History.BackThenForward | apps/desktop/src/history.rs:322-350 | from any position that can go back, going back then forward returns to the same entry and leaves the entries unchanged |
| History.TruncationScenario | apps/desktop/src/history.rs:295-319 | pushing a, b, c, going back once and pushing d leaves exactly a, b, d with d current and nothing ahead; going back twice then reaches b and a, and no further |
| State.TabState.SetUrl | apps/desktop/src/state.rs:64-67 | the url is replaced and the title is recomputed from it; nothing else changes |
| State.TabState.SetTitle | apps/desktop/src/state.rs:70-72 | the title is replaced; nothing else changes |
| State.NewTab | apps/desktop/src/state.rs:47-56 | a new tab carries its id and url, a title derived from the url, and no back, forward or loading flag |
| State.ExtractTitleDefault | apps/desktop/src/state.rs:59-61 | a url with fewer than two '/' gets the title "New Tab" |
| State.ExtractTitleIsPiece | apps/desktop/src/state.rs:59-61 | for a url with at least two '/', the title is the third '/'-separated piece, has no '/' in it, and the pieces joined by '/' give back the url |
| State.ExtractTitleThirdPiece | apps/desktop/src/state.rs:59-61 | joining at least three '/'-free pieces by '/' yields a url whose title is the third piece |
| State.ExtractTitleOfHost | apps/desktop/src/state.rs:59-61 | a url of the form `scheme://host` or `scheme://host/path` is titled by its host |
| State.ExtractTitleGithub | apps/desktop/src/state.rs:332-341 | "https://github.com" is titled "github.com" |
| State.ExtractTitleWithPath | apps/desktop/src/navigation.rs:232-244 | "https://www.github.com/user/repo" is titled "www.github.com" |
| State.ExtractTitleWithPort | apps/desktop/src/navigation.rs:232-244 | "http://localhost:3000" is titled "localhost:3000" |
| State.StateManager.constructor | apps/desktop/src/state.rs:95-102 | no tabs, no active tab, first id 0, no settings |
| State.StateManager.CreateTab | apps/desktop/src/state.rs:111-124 | the tab is stored under the next id, which is returned and then incremented; the new tab becomes active only when none was active |
| State.StateManager.CloseTab | apps/desktop/src/state.rs:136-147 | an unknown id is refused with "Tab {id} not found" and nothing changes; otherwise the tab is removed, and if it was active some remaining tab becomes active, or none when none remains |
| State.StateManager.SwitchTab | apps/desktop/src/state.rs:156-163 | an unknown id is refused with "Tab {id} not found" and nothing changes; otherwise that tab becomes active |
| State.StateManager.GetActiveTab | apps/desktop/src/state.rs:166-168 | the tab under the active id; under the invariant it is present exactly when some tab is open |
| State.StateManager.GetTab | apps/desktop/src/state.rs:176-178 | under the invariant, a tab found under an id carries that id, and the id was handed out before |
| State.StateManager.TabCount | apps/desktop/src/state.rs:191-193 | under the invariant, no tab is open exactly when there is no active tab |
| State.StateManager.ActiveTabId | apps/desktop/src/state.rs:196-198 | under the invariant, an active id always names an open tab |
| State.StateManager.UpdateTabTitle | apps/desktop/src/state.rs:201-205 | an open tab is retitled; an unknown id changes nothing |
| State.StateManager.UpdateTabUrl | apps/desktop/src/state.rs:208-212 | an open tab gets the new url and the title derived from it; an unknown id changes nothing |
| State.StateManager.SetTabLoading | apps/desktop/src/state.rs:215-219 | an open tab's loading flag is set; an unknown id changes nothing |
| State.StateManager.SetTabNavState | apps/desktop/src/state.rs:222-227 | an open tab's back and forward flags are set; an unknown id changes nothing |
| State.StateManager.GetSetting | apps/desktop/src/state.rs:230-232 | the stored value of a key; `SetSetting` proves the last value written reads back and every other key reads as before |
| State.SettingsRoundTrip | apps/desktop/src/state.rs:373-381 | `get_setting` reads back the last value written to a key, after each of two writes, and a key never written reads as absent |
| State.StateManager.SetSetting | apps/desktop/src/state.rs:235-237 | reading the key back yields the value written; every other key reads as before |
| State.CreateThreeTabs | apps/desktop/src/state.rs:261-272 | three tabs get ids 0, 1, 2 and the first stays active |
| State.CloseActiveOfTwo | apps/desktop/src/state.rs:306-318 | with two tabs open, closing the active one leaves one tab, and the other one is active |
| State.UpdateUrlRetitles | apps/desktop/src/state.rs:332-341 | moving a tab to "https://github.com" retitles it "github.com" and leaves its flags down |
| Text.SplitShape | apps/desktop/src/state.rs:60 | `split` yields one more piece than there are separators, and no piece contains the separator |
| Text.JoinSplit | apps/desktop/src/state.rs:60 | joining the pieces of a split by the separator restores the string |
| Text.SplitJoin | apps/desktop/src/state.rs:60 | splitting a join of separator-free pieces restores the pieces |
| Text.DecimalOfNatToString | apps/desktop/src/state.rs:138 | the decimal digits of a tab id read back as that id |
| State.NotFoundNamesId | apps/desktop/src/state.rs:136-163 | the "Tab {id} not found" message of close_tab and switch_tab carries the id's digits between its fixed parts, so different ids give different messages |
| Metrics.KeepLast | apps/desktop/src/metrics.rs:75-79 | the load-time window keeps at most 1000 samples, and keeps everything while below that |
| Metrics.KeepLastIsSuffix | apps/desktop/src/metrics.rs:75-79 | what is kept is the newest part of the samples in order, so the oldest are dropped first |
| Metrics.Metrics.constructor | apps/desktop/src/metrics.rs:52-60 | zero counts, no samples, no error, no recovery |
| Metrics.Metrics.RecordNavigation | apps/desktop/src/metrics.rs:67-86 | counts one navigation; a success appends its duration to the window (capped at the newest 1000) and marks a recovery at `now`; a failure counts one error instead |
| Metrics.Metrics.RecordError | apps/desktop/src/metrics.rs:89-93 | the message is remembered with `now` and counted as one more error, without counting a navigation |
| Metrics.Metrics.ErrorRate | apps/desktop/src/metrics.rs:98-107 | zero with no navigations; otherwise the rate times the navigation count equals the error count |
| Metrics.RateExceedsIffCross | apps/desktop/src/metrics.rs:137-139 | the rate exceeds 5% exactly when there are navigations and 20 times the errors exceeds them |
| Metrics.Metrics.Mttr | apps/desktop/src/metrics.rs:112-126 | positive exactly when there are an error and a later recovery, and then it is the time from the error to the recovery |
| Metrics.Metrics.IsHealthy | apps/desktop/src/metrics.rs:133-149 | healthy exactly when the error rate is acceptable and no error was recorded in the last 300 000 ms; the error rate is zero with no navigations, otherwise acceptable means 20 × errors ≤ navigations |
| Metrics.PercentileIndex | apps/desktop/src/metrics.rs:167-168 | the rank is the floor of `n * percent / 100`, and it lies inside a non-empty sample |
| Metrics.Average | apps/desktop/src/metrics.rs:162 | the mean times the sample count equals the sum of the samples |
| Metrics.PercentileIsRankedSample | apps/desktop/src/metrics.rs:164-171 | a percentile of a non-empty sample set is one of the samples, namely the element at its rank in any ascending arrangement of them |
| Metrics.LoadStatsShape | apps/desktop/src/metrics.rs:156-174 | no samples give zero average and percentiles; otherwise p95 never exceeds p99 |
| Metrics.PercentilesOfRamp | apps/desktop/src/metrics.rs:302-313 | the samples 0 to 99 ms give p95 = 95 and p99 = 99 |
| Metrics.Metrics.GetStats | apps/desktop/src/metrics.rs:152-195 | the snapshot carries the counts, the error rate, the window's load statistics, the last error's message and the MTTR in seconds |
| Metrics.FreshMetrics | apps/desktop/src/metrics.rs:230-238 | a fresh collector reports zero counts and a zero rate, and is healthy |
| Metrics.OneFailureInFive | apps/desktop/src/metrics.rs:270-282 | four successes and one failure give an error rate of exactly 0.2 |
| Metrics.FailuresMakeUnhealthy | apps/desktop/src/metrics.rs:285-299 | a hundred successes are healthy; ten more failures make the collector unhealthy |
| Metrics.RampPercentiles | apps/desktop/src/metrics.rs:302-313 | recording the durations 0 to 99 ms yields p95 = 95 and p99 = 99 in the snapshot |
| Metrics.ErrorIsReported | apps/desktop/src/metrics.rs:316-324 | a recorded error is counted and is the snapshot's last error |
| Sorting.Sort | apps/desktop/src/metrics.rs:164-165 | the result is sorted, has the same samples, and has the same length |
| Sorting.Insert | apps/desktop/src/metrics.rs:164-165 | inserting into a sorted sequence keeps it sorted and adds exactly that sample |
| Sorting.SortedUnique | apps/desktop/src/metrics.rs:164-165 | two ascending arrangements of the same samples are equal, so the percentile does not depend on how the sort orders ties |
| Health.HealthStatus.IsOperational | apps/desktop/src/health.rs:39-41 | operational exactly when not unhealthy |
| Health.HealthCheck.IsReady | apps/desktop/src/health.rs:61-63 | ready exactly when healthy, and a ready service is always alive and operational |
| Health.HealthCheck.IsAlive | apps/desktop/src/health.rs:66-68 | alive exactly when operational, that is, not unhealthy |
| Health.OverallStatus | apps/desktop/src/health.rs:96-102 | healthy when both parts are healthy, degraded when exactly one is, unhealthy when neither is |
| Health.CheckHealth | apps/desktop/src/health.rs:91-128 | the status as above, both inputs copied, the webview reported up, and the message for each of the four cases |
| Health.CheckLiveness | apps/desktop/src/health.rs:133-135 | always alive |
| Health.CheckReadiness | apps/desktop/src/health.rs:140-143 | ready exactly when both the database and the metrics are healthy |
| Health.GetStatusCode | apps/desktop/src/health.rs:162-169 | the code is 200 or 503, and it is 200 exactly when both parts are healthy |
| Navigation.NavigationService.constructor | apps/desktop/src/navigation.rs:64-70 | a new service has visited nothing, has no current url and uses the given collector |
| Navigation.NavigationService.CurrentUrl | apps/desktop/src/navigation.rs:175-177 | under the invariant, the current url is the last url navigated to, and it is absent exactly when there was no navigation |
| Navigation.FirstNavigation | apps/desktop/src/navigation.rs:208-229 | a new service has no current url; navigating to "https://example.com" yields title "example.com", asks for a history entry, and makes the url current |
| Navigation.NavigationService.Navigate | apps/desktop/src/navigation.rs:82-112 | the result carries the url, its derived title and "add to history"; a successful save counts a successful navigation with its duration, a failed save records "History save failed: Database error: …" as an error; either way the url is appended to the visited urls and becomes current |
| Navigation.TwoSavedNavigations | apps/desktop/src/navigation.rs:266-278 | two saved navigations count two successes and no failure, keep both durations, and make the second url current |
| Errors.BrowserError.ToString | apps/desktop/src/error.rs:16-44 | each variant's display text, which is never empty |
| Errors.BrowserError.ErrorType | apps/desktop/src/error.rs:48-58 | each variant's non-empty type tag |
| Errors.ErrorTypeDistinct | apps/desktop/src/error.rs:48-58 | two errors share a type tag exactly when they are the same variant |
| Errors.BrowserError.UserMessage | apps/desktop/src/error.rs:61-82 | each variant's non-empty user-facing message |
| Errors.NavigationFailedMessage | apps/desktop/src/error.rs:66-71 | a failed navigation's user message names the url that failed |
| Errors.BrowserError.SuggestedFix | apps/desktop/src/error.rs:85-97 | each variant's non-empty suggested fix |
| Errors.BrowserError.GetContext | apps/desktop/src/error.rs:114-121 | the context is never empty; for a failed navigation it opens with "URL: " followed by the url and ends with the reason, otherwise it is the display text |
| Errors.BrowserError.ToCoeReport | apps/desktop/src/error.rs:102-111 | the report carries the tag, display text, user message, suggested fix and context of the error, and the given timestamp |
| Errors.LogEntryShape | apps/desktop/src/error.rs:139-147 | the log line starts with the tag and timestamp, then holds the message in quotes, then ends with the fix in quotes |
| Errors.FromAnyhow | apps/desktop/src/error.rs:193-197 | any generic error becomes `Unexpected` with its text, tagged "unexpected" |
| RendererTypes.DefaultConfig | packages/renderer/src/types.rs:18-28 | 1024 x 768 with WebGL and JavaScript enabled |
| RendererTypes.RenderedFrame.IsEmpty | packages/renderer/src/types.rs:59-61 | a frame whose buffer has the size the constructor checks is empty exactly when its width or height is zero |
| RendererTypes.NewFrame | packages/renderer/src/types.rs:45-56 | a frame is built exactly when there are four bytes per pixel, then holds the given fields; otherwise the size-mismatch error |
| RendererTypes.NewFrameAsWritten | packages/renderer/src/types.rs:45-56 | the size check as written compares against `width * height * 4` modulo 2^32 |
| RendererTypes.WrappedSizeAcceptsEmptyFrame | packages/renderer/src/types.rs:46-50 | a 32768 x 32768 frame with no pixels passes the check as written, but the intended check refuses it |
| RendererTypes.FrameExamples | packages/renderer/src/types.rs:76-89 | a 1024 x 768 buffer of the right size makes a non-empty frame, and 100 bytes are refused |
| RendererTypes.FrameEmptyIffZeroArea | packages/renderer/src/types.rs:45-61 | an accepted frame is empty exactly when its width or height is zero |

## Left out

- Concurrency: the collector's atomics and mutexes, and the shared `Arc` handles, are modelled as one object updated in sequence.
- Clocks: `Instant::now` and `elapsed` are replaced by an explicit `now` in milliseconds. Elapsed time saturates at zero.
- Metrics.PercentileIndex: the rank is the exact floor of `n * percent / 100`. The source's `f64` product `n * 0.95` may round differently for some `n`.
- Metrics.Metrics.ErrorRate: the rate is an exact real. The `f64` rounding of the division and of the 0.05 threshold is not modelled.
- Metrics.Average: the mean is computed over whole-millisecond durations. Sub-millisecond parts of `Duration` are not modelled.
- Overflow of the `u64` and `usize` counters is not modelled. Counters are unbounded naturals.
- The metrics summary log (`log_summary`) and every `info!`/`warn!`/`error!` call are left out: they are logging only.
- State.StateManager.CloseTab: the source picks the new active tab as the first key of a `HashMap`, whose order is unspecified. The model chooses some remaining key and states only that a remaining tab becomes active. A deterministic "lowest id" rule is not what the code does.
- `get_all_tabs`, `get_active_tab_mut` and `get_tab_mut` hand out references or unordered listings. Their effect is covered by `GetTab`, `GetActiveTab` and the `Update…` methods.
- `HistoryEntry::new` and `TabHistory::entries` are not separate members. Push builds the entry with the clock reading, and the entries are the class's field.
- Navigation: the SQLite history store is reduced to the outcome of the save (`SaveOutcome`), which is an input.
- Navigation: `go_back`, `go_forward`, `reload` and `stop` only run a script in a WebView, so they are left out.
- Health: the database probe (`check_database`) opens a SQLite file, so its answer is an input. The constructor's path and collector are not modelled.
- Errors: the timestamp of a report (`chrono::Utc::now().to_rfc3339()`) is an input string.
- Errors: `ErrorReport`'s `Display`, and `log_error_with_coe`, only write to the log, so they are left out.
- Metrics.Metrics.IsHealthy: the doc comment's "last 100 navigations" is not what the code does. The code uses all navigations ever counted, and the model follows the code.
- RendererTypes: `RendererConfig`'s `f32` device pixel ratio is not modelled.
- RendererTypes.NewFrame: the source panics on a size mismatch; the model returns an error value instead. In a debug build, the `u32` multiplication would also panic on overflow; that is not modelled.
- The Servo/wry renderers, the UI, the network and storage crates, and `main` are not part of this model.

## Findings

| source | as written | input that shows it | evidently intended | confidence | as-written member | corrected member |
|---|---|---|---|---|---|---|
| packages/renderer/src/types.rs:45-50 | the expected buffer size `width * height * 4` is computed in `u32`, so in a release build it wraps modulo 2^32 | width 32768, height 32768 and an empty pixel buffer pass the size check, because 32768 * 32768 * 4 = 2^32 wraps to 0 | accept a buffer only when it holds exactly four bytes for every pixel | not executed | RendererTypes.NewFrameAsWritten, RendererTypes.WrappedSizeAcceptsEmptyFrame | RendererTypes.NewFrame |
