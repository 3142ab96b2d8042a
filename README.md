# GeoFlow dashboard core, modelled in Dafny

GeoFlow is a React dashboard for ArcGIS automation. Its tools are GDB extraction, SDE-to-SDE
migration, feature-class comparison, Portal content extraction, job history and settings. Every
run is simulated in the browser. This project models the core of that front end:

- **Simulated run** (`mock_execution.dfy`): `simulateScriptRun` emits a fixed sequence of log
  lines and progress values. The sequence depends on the dry-run flag, the source-geodatabase
  check, verbose logging and a random failure draw. The `Sink` class receives the `onLog` and
  `onProgress` callbacks. The imperative method is proved equal to the pure trace `ScriptRun`,
  and the progress/result agreement is proved about that trace.
- **Configuration** (`config.dfy`, `types.dfy`): `AppConfig`, its defaults, and the shallow merge
  `{ ...config, ...updates }` that every `onChange` goes through. A `ConfigUpdate` is a
  `Partial<AppConfig>`: one `Option` per key.
- **File browser** (`file_browser.dfy`): the mock file tree, the case-insensitive search filter,
  folder navigation (enter and back, via `split`/`pop`/`join` on `\`), and the confirm target and
  footer for the three modes. The `Browser` class holds the dialog's state.
- **Configuration panel** (`configuration_panel.dfy`):
  - the geodatabase check that unlocks the feature-class preview;
  - the routing of a browser pick into one configuration key;
  - the Excel output field, which displays `outputFolder\portal_items.xls` and stores the text
    before the last `\`;
  - URL validation and the execute button.
- **Settings page** (`settings_view.dfy`): the delayed interpreter test, the path, theme and
  discard edits.
- **Script card** (`script_card.dfy`): the status caption, the badge, the file name taken from the
  script path, the progress bar, the error box, and the click that calls `onToggle` unless the card
  is disabled.
- **Application shell** (`app.dfy`):
  - the configuration load at mount and the save/theme effect;
  - the view switch, which is locked while a run executes;
  - the console;
  - `handleExecute`, which frames one simulated run between an opening and a closing line.
- **String built-ins** (`text.dfy`): the JavaScript string operations these rely on.
  `toLowerCase`, `includes`, `endsWith`, `lastIndexOf`, `substring`, `split` and `join` are
  written out over `seq<char>`.

How the environment appears in the model:

- **Clock:** every log line carries one timestamp parameter `ts`.
- **Random draw:** `Math.random() < 0.05` is the parameter `fatal`.
- **URL parsing:** `new URL(url)` succeeding is the parameter `parses`.
- **Saved configuration:** `JSON.parse` of the saved text is the parameter
  `parsed: Option<ConfigUpdate>`; `None` means parsing threw.
- **Storage and page:** `localStorage` and the document element's class list are fields of
  `AppState`.
- **Edits:** a component's `onChange(updates)` is a method or function that returns the
  `ConfigUpdate`. `AppState.UpdateConfig` merges it.

## Model

| member | source | states |
|---|---|---|
| Text.Lower | components/FileBrowserModal.tsx:60-62 | `toLowerCase` keeps the length and maps each character on its own, A-Z to a-z |
| Text.LowerAppend | components/ConfigurationPanel.tsx:109 | lower-casing distributes over concatenation, so a suffix check on a lower-cased path can look at the lower-cased suffix |
| Text.LowerIdempotent | components/ConfigurationPanel.tsx:109 | lower-casing twice is lower-casing once |
| Text.LowerOfLowerCase | components/SettingsView.tsx:32 | a string without capitals is its own lower case |
| Text.ContainsMiddle | services/mockExecution.ts:23 | a string contains every piece it was built from |
| Text.ContainsLower | components/ConfigurationPanel.tsx:85 | an occurrence survives lower-casing both strings |
| Text.ContainsEmpty | components/FileBrowserModal.tsx:60-62 | every string includes the empty string |
| Text.LastIndexOf | components/ConfigurationPanel.tsx:60 | `lastIndexOf` is -1 exactly when the character is absent; otherwise it is an occurrence with none after it |
| Text.LastIndexOfJoined | components/ConfigurationPanel.tsx:301 | in `a + c + b` with `c` absent from `b`, the last `c` is the one between them |
| Text.PrefixBeforeLast | components/ConfigurationPanel.tsx:60 | `substring(0, lastIndexOf(c))` is "" without `c`; otherwise it is the prefix ending just before the last `c` |
| Text.PrefixBeforeLastJoined | components/ConfigurationPanel.tsx:301 | the text before the last separator of `a + c + b` is `a` when `b` has no separator |
| Text.JoinSnoc | components/FileBrowserModal.tsx:77 | joining one more piece appends the separator and the piece |
| Text.SplitStep | components/FileBrowserModal.tsx:74 | cutting at the last separator extends a split of the prefix by the remainder |
| Text.Split | components/FileBrowserModal.tsx:74 | `split(c)` gives at least one piece, no piece holds `c`, the pieces join back to the input, and the last piece is what follows the last `c` |
| Text.SplitHasManyParts | components/FileBrowserModal.tsx:75 | `parts.length > 1` exactly when the separator occurs |
| Text.SplitUnique | components/FileBrowserModal.tsx:74-77 | `split` inverts `join` on separator-free pieces |
| Text.SplitJoined | components/FileBrowserModal.tsx:74-77 | appending a separator and a separator-free piece adds exactly that piece to the split |
| Text.SplitPopJoin | components/FileBrowserModal.tsx:74-77 | split, pop and join yield the text before the last separator |
| Config.Only | components/ConfigurationPanel.tsx:62 | a one-key update names that key with the value and names nothing else, no flag included |
| Config.Merge | App.tsx:115 | spreading the merged configuration equals spreading the old one and then the update: every key the update names wins, every other key stays |
| Config.MergeFields | App.tsx:115 | after `{ ...c, ...u }` each string key holds `u`'s value when `u` names it, else `c`'s |
| Config.ConfigDeterminedByFields | types.ts:28-48 | two configurations that agree on every key are equal |
| Config.MergeNoChange | App.tsx:115 | merging an update that names nothing leaves the configuration unchanged |
| Config.MergeWhole | App.tsx:115 | merging a whole configuration replaces every key |
| Config.MergeWholeAll | App.tsx:115 | a whole configuration passed as the update replaces any configuration by it |
| Config.ResetUpdate | components/ConfigurationPanel.tsx:347 | the update the reset and discard buttons send turns any configuration into the defaults |
| Config.MergeOnly | App.tsx:115 | a one-key update changes that key and nothing else |
| Config.MergeOnlySame | App.tsx:115 | writing a key's current value back changes nothing |
| Config.MergeTwice | App.tsx:115 | two merges in a row equal one merge of the combined update, the later one winning |
| Config.MergeIdempotent | App.tsx:115 | merging the same update twice is merging it once |
| MockExecution.DryRunTrace | services/mockExecution.ts:14-26 | a dry run logs three lines, the first two the opening lines, and its result, log and progress agree |
| MockExecution.RejectedTrace | services/mockExecution.ts:29-37 | a run stopped at the source check logs four lines, the first two the opening lines, and its result, log and progress agree |
| MockExecution.ProcessedTrace | services/mockExecution.ts:39-65 | a run that passes the source check logs at least six lines, the first two the opening lines, and its result, log and progress agree |
| MockExecution.ScriptRun | services/mockExecution.ts:6-66 | every run opens with "Preparing" and "Starting" (falling back to "Internal Module"); it succeeds exactly when no ERROR line is logged; progress starts at 10 and stays in 0..100; success climbs strictly to 100; failure ends on an ERROR line with progress 0 |
| MockExecution.DryRunWarns | services/mockExecution.ts:20-26 | a dry run succeeds after three lines whose warning contains the interpreter path, with progress 10, 50, 100 |
| MockExecution.MissingSourceFails | services/mockExecution.ts:33-37 | an empty source geodatabase (any tool but sde-to-gdb) fails with the empty-path error and progress 10, 25, 0 |
| MockExecution.DrawDecidesCompletion | services/mockExecution.ts:53-65 | past validation, the run succeeds exactly when the random draw is not fatal, with the matching last line and progress |
| MockExecution.VerboseAddsTwoDetails | services/mockExecution.ts:48-51 | verbose logging inserts exactly the two detail lines after "Applying transformations..." and changes neither progress nor result |
| MockExecution.Sink.constructor | services/mockExecution.ts:9-10 | the callbacks' receiver starts with the given log, progress 0 and no reports |
| MockExecution.Sink.OnLog | services/mockExecution.ts:9 | `onLog` appends the entry |
| MockExecution.Sink.OnProgress | services/mockExecution.ts:10 | `onProgress` records the value |
| MockExecution.Announce | services/mockExecution.ts:14-17 | appends the two opening lines and reports 10 |
| MockExecution.WarnDryRun | services/mockExecution.ts:21-24 | reports 50, appends the command-line warning, reports 100 |
| MockExecution.Validate | services/mockExecution.ts:29-31 | reports 25 and appends the accessibility line |
| MockExecution.Fail | services/mockExecution.ts:34-35 | appends an ERROR line and reports 0 |
| MockExecution.Process | services/mockExecution.ts:40-54 | reports 45, 70 and 90 with their lines, plus the detail lines when verbose |
| MockExecution.SimulateScriptRun | services/mockExecution.ts:6-66 | returns the trace's result, appends exactly the trace's lines, reports exactly its progress values and leaves the last of them shown |
| FileBrowser.TreePathsAreChildPaths | components/FileBrowserModal.tsx:28-51 | every listed item's path is its folder's path, a `\`, and its own `\`-free name |
| FileBrowser.Filter | components/FileBrowserModal.tsx:60-62 | the search keeps exactly the items whose lower-cased name includes the lower-cased query, and never adds any |
| FileBrowser.FilterAppend | components/FileBrowserModal.tsx:60-62 | filtering distributes over concatenation, keeping order |
| FileBrowser.FilterEmptyQuery | components/FileBrowserModal.tsx:60-62 | an empty query lists every item, in order |
| FileBrowser.Listing | components/FileBrowserModal.tsx:60-62 | the dialog lists exactly the current folder's entries whose names match the search, and the whole folder for an empty search |
| FileBrowser.ListingUnknownFolder | components/FileBrowserModal.tsx:60 | a folder missing from the tree lists nothing |
| FileBrowser.BackPath | components/FileBrowserModal.tsx:73-82 | split, pop and join on `\` go to the text before the last `\`, or to `C:` when there is none |
| FileBrowser.BackFromChild | components/FileBrowserModal.tsx:73-82 | back from a child path returns to its parent |
| FileBrowser.EnterThenBack | components/FileBrowserModal.tsx:64-82 | entering any folder of the tree and going back returns to the folder it was listed in |
| FileBrowser.BackAtRootStays | components/FileBrowserModal.tsx:79-81 | back at `C:` stays at `C:` |
| FileBrowser.BackDisabled | components/FileBrowserModal.tsx:114 | the back button is disabled exactly where going back would leave the folder unchanged, which is `C:` alone |
| FileBrowser.KnownParentListed | components/FileBrowserModal.tsx:28-51 | from every folder the dialog can reach except `C:`, back leads to a folder that has entries |
| FileBrowser.ConfirmDisabled | components/FileBrowserModal.tsx:185 | the confirm button is disabled exactly when pressing it would pass nothing to `onSelect`, in any folder |
| FileBrowser.ConfirmTarget | components/FileBrowserModal.tsx:84-91 | confirm yields a path exactly when its button is enabled: the current folder in folder mode, the selected item otherwise |
| FileBrowser.FooterText | components/FileBrowserModal.tsx:173 | the footer reads "No selection" while confirm is disabled and otherwise shows what confirm picks, except in folder mode with an item selected, where it shows the item while confirm picks the folder |
| FileBrowser.KeysAreKnown | components/FileBrowserModal.tsx:28-51 | every folder of the tree is reachable: the root or a listed folder |
| FileBrowser.EnterKeepsKnown | components/FileBrowserModal.tsx:64-67 | entering a listed folder stays among known folders |
| FileBrowser.BackKeepsKnown | components/FileBrowserModal.tsx:73-82 | going back from a known folder stays among known folders |
| FileBrowser.Browser.constructor | components/FileBrowserModal.tsx:54-56 | the dialog starts at `C:` with no query and no selection |
| FileBrowser.Browser.SetSearchQuery | components/FileBrowserModal.tsx:125 | the search box sets the query |
| FileBrowser.Browser.HandleItemClick | components/FileBrowserModal.tsx:64-71 | a folder is entered and clears the selection; anything else becomes the selection; clicking a listed item keeps the dialog in a known folder |
| FileBrowser.Browser.HandleBack | components/FileBrowserModal.tsx:73-82 | the folder becomes its back path; the selection clears only when the path had a `\`; known folders stay known |
| FileBrowser.Browser.HandleConfirm | components/FileBrowserModal.tsx:84-91 | confirm returns the confirm target |
| ConfigurationPanel.IsGdbSelected | components/ConfigurationPanel.tsx:109 | a geodatabase is selected exactly when the lower-cased path ends in ".gdb" or ".gdb\"; the emptiness test is implied, and a selected path has at least four characters |
| ConfigurationPanel.GdbSelectedIgnoresCase | components/ConfigurationPanel.tsx:109 | the geodatabase check ignores case |
| ConfigurationPanel.GdbSuffixSelected | components/ConfigurationPanel.tsx:109 | any path ending in ".gdb", in any case, passes the check |
| ConfigurationPanel.FeatureClassesShown | components/ConfigurationPanel.tsx:109-150 | the preview lists the mock feature classes exactly when a geodatabase is selected |
| ConfigurationPanel.DefaultSourceIsGdb | constants.tsx:7 | the default source geodatabase passes the check |
| ConfigurationPanel.BrowserSelectionAsWritten | components/ConfigurationPanel.tsx:58-64 | a pick for a field writes the path into that key; a pick for the Excel field writes the text before the path's last `\` into the output folder; nothing else is named |
| ConfigurationPanel.PickedFolderStoresParent | components/ConfigurationPanel.tsx:58-64 | as written, picking folder `parent\name` for the Excel field stores `parent`, and picking `C:` stores "" |
| ConfigurationPanel.BrowserSelection | components/ConfigurationPanel.tsx:58-64 | corrected: a pick writes the path verbatim into its target's key and names nothing else |
| ConfigurationPanel.SelectionsAgreeOnFields | components/ConfigurationPanel.tsx:61-63 | the corrected and the as-written selections agree on every target but the Excel field |
| ConfigurationPanel.SelectionEffect | components/ConfigurationPanel.tsx:58-64 | a pick changes only its key; after an Excel pick, the field shows the spreadsheet inside the folder picked |
| ConfigurationPanel.ExcelFieldUpdate | components/ConfigurationPanel.tsx:301 | editing the Excel field stores the text before its last `\` as the output folder |
| ConfigurationPanel.ExcelFieldRoundTrip | components/ConfigurationPanel.tsx:297-301 | editing only the file name after the folder leaves the configuration unchanged |
| ConfigurationPanel.ExcelFieldShownValueKeepsFolder | components/ConfigurationPanel.tsx:297-301 | submitting the displayed `folder\portal_items.xls` unchanged leaves the configuration unchanged |
| ConfigurationPanel.UrlErrorFor | components/ConfigurationPanel.tsx:41-52 | there is no error exactly when the URL is empty or parses; otherwise the fixed message is shown |
| ConfigurationPanel.IsUrlField | components/ConfigurationPanel.tsx:85 | a field whose label contains "url" or "URL" is validated as a URL |
| ConfigurationPanel.UrlMentionLowered | components/ConfigurationPanel.tsx:85 | "url" or "URL" in a label is "url" in its lower-cased form |
| ConfigurationPanel.PortalUrlFieldValidated | components/ConfigurationPanel.tsx:264 | the "Portal URL" field's edits are validated |
| ConfigurationPanel.ExecuteLabel | components/ConfigurationPanel.tsx:311-319 | the four tool views have their own execute caption; every other view shows "Execute" |
| ConfigurationPanel.PanelTitle | components/ConfigurationPanel.tsx:324 | the migration and comparison views have their own panel heading; every other view shows "Tool Configuration" |
| ConfigurationPanel.PanelTitleGeneric | components/ConfigurationPanel.tsx:324 | the generic "Tool Configuration" heading shows exactly on the views other than migration and comparison |
| ConfigurationPanel.ExecuteEnabled | components/ConfigurationPanel.tsx:332 | execute is never enabled during a run or while the URL error is shown, and without an error it is enabled exactly when nothing runs |
| ConfigurationPanel.UrlErrorBlocksExecute | components/ConfigurationPanel.tsx:332 | execute is enabled exactly when nothing runs and the URL is empty or parses |
| ConfigurationPanel.Panel.constructor | components/ConfigurationPanel.tsx:33-39 | no URL error, a closed browser in folder mode aimed at the source geodatabase, a fresh browser |
| ConfigurationPanel.Panel.ValidateUrl | components/ConfigurationPanel.tsx:41-52 | the URL error becomes the validation result |
| ConfigurationPanel.Panel.InputChanged | components/ConfigurationPanel.tsx:83-86 | an edit revalidates the URL error only for a field whose label mentions "url", in any case |
| ConfigurationPanel.Panel.OpenBrowser | components/ConfigurationPanel.tsx:54-56 | the browser opens with the given target, mode and title |
| ConfigurationPanel.Panel.CloseBrowser | components/ConfigurationPanel.tsx:359 | the browser closes |
| ConfigurationPanel.Panel.ConfirmBrowser | components/ConfigurationPanel.tsx:58-64 | as written: the dialog's confirm target, if any, goes through `handleBrowserSelect` as written into the update for the panel's target; the dialog closes |
| ConfigurationPanel.Panel.ConfirmBrowserCorrected | components/ConfigurationPanel.tsx:58-64 | corrected: the dialog's confirm target, if any, becomes the verbatim selection update for the panel's target; the dialog closes |
| ConfigurationPanel.Panel.Reset | components/ConfigurationPanel.tsx:347 | reset sends the reset update, which turns any configuration into the defaults |
| SettingsView.TestResult | components/SettingsView.tsx:30-37 | the test succeeds exactly when the lower-cased path includes "python" |
| SettingsView.TestDisabled | components/SettingsView.tsx:74 | the test button is disabled exactly while a test runs or while the path is empty |
| SettingsView.TestButtonLabel | components/SettingsView.tsx:91-93 | each status has its caption |
| SettingsView.TestButtonLabelsDistinct | components/SettingsView.tsx:91-93 | no two statuses share a caption |
| SettingsView.CheckedCompletion | components/SettingsView.tsx:30-37 | corrected: the result replaces the status only while that test is still running for the path in the field |
| SettingsView.StaleCompletionShowsValid | components/SettingsView.tsx:28-37 | as written, a test of "python.exe" completing after the field was cleared shows "Valid" for the empty path |
| SettingsView.CheckedCompletionKeepsConsistent | components/SettingsView.tsx:28-37 | with the check, starting a test, editing the path and completing all keep the shown status true of the field's path |
| SettingsView.Settings.constructor | components/SettingsView.tsx:26 | the test starts idle |
| SettingsView.Settings.HandleTestInterpreter | components/SettingsView.tsx:28-30 | called only through the enabled button, the status becomes "testing" and the timer keeps the path of that moment, which is never empty; the button is then disabled |
| SettingsView.Settings.TestTimerFires | components/SettingsView.tsx:30-37 | as written: the status becomes the result for the captured path, whatever it was |
| SettingsView.Settings.TestTimerFiresChecked | components/SettingsView.tsx:30-37 | corrected: the status becomes the checked completion |
| SettingsView.Settings.EditInterpreterPath | components/SettingsView.tsx:65-68 | an edit sends the new path alone and resets the status to idle |
| SettingsView.Settings.ChooseTheme | components/SettingsView.tsx:111-126 | the theme buttons change the theme and nothing else |
| SettingsView.Settings.Discard | components/SettingsView.tsx:164 | discard sends the same reset update as the panel, which turns any configuration into the defaults |
| ScriptCard.StatusLabel | components/ScriptCard.tsx:17-26 | only an idle tool has no caption; each other status has its own |
| ScriptCard.StatusLabelsDistinct | components/ScriptCard.tsx:17-26 | no two statuses share a caption |
| ScriptCard.Badge | components/ScriptCard.tsx:52 | the alert shows exactly on failure, the tick exactly when selected and not failed, nothing otherwise |
| ScriptCard.LastPart | components/ScriptCard.tsx:62 | `split(sep).pop()` is the separator-free text after the last separator |
| ScriptCard.FileName | components/ScriptCard.tsx:62 | the shown name is a suffix of the path, empty only for an empty path; it is taken after `\` unless the path ends in `\`, and after `/` then |
| ScriptCard.FileLabel | components/ScriptCard.tsx:60-63 | the "File:" line shows exactly for a non-empty path, with its file name |
| ScriptCard.FileNameOfChild | components/ScriptCard.tsx:62 | a script inside a folder is labelled with its own name |
| ScriptCard.ClickToggles | components/ScriptCard.tsx:30 | the click guard `!disabled`, which decides whether `HandleClick` calls `onToggle` |
| ScriptCard.ToggleSink.constructor | components/ScriptCard.tsx:8 | the `onToggle` receiver starts with no calls |
| ScriptCard.ToggleSink.OnToggle | components/ScriptCard.tsx:8 | each `onToggle()` is recorded as one more call |
| ScriptCard.HandleClick | components/ScriptCard.tsx:30 | a click calls `onToggle` once when the card is enabled and not at all when it is disabled |
| ScriptCard.ProgressShown | components/ScriptCard.tsx:77-90 | progress shows only while running, a missing value as 0 |
| ScriptCard.CardBody | components/ScriptCard.tsx:66-75 | the error box replaces the description exactly for a failed tool with a non-empty error |
| ScriptCard.FailedCardShowsError | components/ScriptCard.tsx:17-75 | a failed tool with an error shows the alert, "Error Found", its error and no progress, selected or not |
| App.GetToolInfo | App.tsx:77-87 | every view but the dashboard has a header, and unknown views have none |
| App.OfferedViewHasHeader | App.tsx:77-87 | of the views the sidebar offers, the dashboard alone has no header |
| App.Rehydrated | App.tsx:30-39 | with saved text that parses, each key comes from the saved object or else from the defaults; otherwise the configuration stays |
| App.SavedConfigRestored | App.tsx:30-42 | a configuration saved in full is restored exactly |
| App.ThemeClasses | App.tsx:44-51 | afterwards exactly one of "dark" and "light" is on the page, the theme's, and no other class changed |
| App.ThemeLastWins | App.tsx:41-52 | applying one theme after another equals applying the second |
| App.ExecutionLog | App.tsx:60-75 | the console holds the opening line, the run's lines, then a closing line that says SUCCESS exactly when the run logged no error |
| App.SdeToGdbIsNoPanelView | App.tsx:66 | no view id is the id the source check exempts |
| App.EmptySourceAlwaysFails | App.tsx:60-75 | from any tool view, a real run with an empty source geodatabase fails at the source check |
| App.AppState.Header | App.tsx:135-143 | in a valid state the header, drawn for every view but the dashboard, always has a title to show |
| App.AppState.constructor | App.tsx:24-28 | the app starts on the dashboard with the defaults, an empty console and no run or dialog |
| App.AppState.Rehydrate | App.tsx:30-39 | the load effect sets the rehydrated configuration |
| App.AppState.ApplyConfigEffect | App.tsx:41-52 | the configuration is saved and the theme classes applied |
| App.AppState.UpdateConfig | App.tsx:104-115 | an edit merges its update |
| App.AppState.AddLog | App.tsx:54 | a line is appended |
| App.AppState.ClearConsole | App.tsx:123 | the console empties |
| App.AppState.ConfirmExecute | App.tsx:56-58 | execute opens the confirmation dialog |
| App.AppState.CancelConfirm | App.tsx:181 | the dialog closes |
| App.AppState.ChangeView | App.tsx:132 | a sidebar click switches view unless a run is executing; sidebar views keep the state valid |
| App.AppState.BeginExecute | App.tsx:61-64 | the dialog closes, the run starts, and the console restarts with the opening line |
| App.AppState.FinishExecute | App.tsx:69-74 | the closing line is appended and the run ends |
| App.AppState.HandleExecute | App.tsx:60-75 | the console becomes the execution log, and neither run nor dialog is left open |

## Left out

- `ExecutionLog`, `HandleExecute`: the run's awaited delays are dropped, and with them what a user can do while a run is in progress. An `onChange` or a console clear can interleave with the run; the model runs it to completion in one step.
- Timestamps: `toLocaleTimeString()` is one opaque `ts` parameter, the same for every line of a run.
- `Text.Lower`: maps only the ASCII letters A-Z; JavaScript's full Unicode `toLowerCase` is not modelled.
- `App.Rehydrated`: a parsed value is taken to be an object with the right key types. Saved text that parses to a non-object, or with wrong types, is not modelled.
- `ConfigurationPanel.UrlErrorFor`: whether `new URL(url)` accepts a string is the parameter `parses`; WHATWG URL parsing is not modelled.
- The `onProgress` callback App passes is a no-op, so the progress a `Sink` records never reaches the app state.
- Icons, styling, JSX layout and the console, sidebar and dashboard components are presentation only. The dashboard's quick actions switch view without the sidebar's executing guard; they are not modelled.
- The Python runner, logger and tool scripts belong to the back end, which the front end never calls.
- The settings page's "Save Configuration" and "Reset Everything" buttons have no handler, so there is nothing to model.
- `SettingsView.Settings.Discard` and `ConfigurationPanel.Panel.Reset` leave the test status and the URL error as they are, as the source does.

## Findings

| source | as written | input that shows it | evidently intended | confidence | as-written member | corrected member |
|---|---|---|---|---|---|---|
| components/ConfigurationPanel.tsx:58-64 | the Excel output browser opens in folder mode (line 299), but a pick for it keeps only the text before the last `\` | pick folder `C:\Output\Shapefiles`: the output folder becomes `C:\Output`; pick `C:`: it becomes "" | store the picked folder as the output folder | medium; not executed | ConfigurationPanel.BrowserSelectionAsWritten, ConfigurationPanel.PickedFolderStoresParent, ConfigurationPanel.Panel.ConfirmBrowser | ConfigurationPanel.BrowserSelection, ConfigurationPanel.SelectionEffect, ConfigurationPanel.Panel.ConfirmBrowserCorrected |
| components/SettingsView.tsx:28-37 | the test's timer sets its result unconditionally, although editing the path resets the status to idle (lines 65-68) | test "python.exe", clear the field before 1.5 s pass: the button shows "Valid" for an empty path | ignore a result whose test is no longer running for the path in the field | medium; not executed | SettingsView.Settings.TestTimerFires, SettingsView.StaleCompletionShowsValid | SettingsView.Settings.TestTimerFiresChecked, SettingsView.CheckedCompletionKeepsConsistent |
