# CodeIDE Cloud: the state logic of three components, in Dafny

CodeIDE Cloud is a browser IDE front end written in React. Most of it is
layout. This project models the three places where it keeps state or derives
values:

- **The self-reflection test harness** (`src/components/SelfReflection.tsx`).
  - There is a fixed table of eight named smoke checks.
  - Results are kept in a list keyed by check name. `updateTestResult` upserts into it.
  - `log` appends formatted lines to a log buffer.
  - `runAllTests` runs the checks in order. It marks each one running, classifies what its probe returned or threw into passed or failed, and advances the progress to `(i+1)/n*100`.
  - `resetTests` clears everything.
  - The probes themselves poke at the live DOM, so they are replaced by their observable effect. A `ProbeRun` holds what the probe returned or threw, the lines it logged, and the clock readings before and after it.
- **The notebook cell list** (`src/components/NotebookInterface.tsx`).
  - The state is the selected language and the list of cells.
  - `addCell` appends a fresh cell numbered `length + 1` in the selected language.
  - A cell's `onUpdate` replaces exactly one slot.
  - The add button's label is "Add " + the capitalised language + " Cell".
- **The environment-template catalog** (`src/components/EnvironmentTemplates.tsx`).
  - The six templates are reproduced literally, sample code included. Their ids are distinct.
  - `downloadEnvironment` builds a configuration object and a file name.
  - Each card shows a two-feature preview with a "+k more" badge.
  - The quick-start dialog shows a ten-line preview of the sample code.
  - The `copiedCode` state drives the "Copied!" indicator.

The files:

- `common.dfy`: `Option` and the decimal rendering of integers that template strings use.
- `self_reflection.dfy`:
  - the result-list functions (`Find`, `ReplaceNamed`, `Upsert`) and their lemmas;
  - the per-check specification (`Classify`, `StepLog`), and `FinalResults` / `StepsLog` for a whole run;
  - the class `Harness`, whose methods change its fields as the component's handlers do. Its run loop is proved against those specification functions.
- `notebook.dfy`: the cell functions, the label function and their lemmas, and the class `NotebookState`.
- `environment_templates.dfy`:
  - the catalog;
  - the download, preview and quick-start functions, with a `Split`/`Join` round trip;
  - the class `CopyIndicator`.

React state setters are modelled as field assignments that take effect at
once. `runAllTests` hands `setTestResults` an updater function each time, and
such updaters run in call order. So the list after the run is the list that
the model computes. The one place where React timing shows is the summary
line at the end of a run. It reads `testResults` from the handler's closure,
which is the list as rendered when the button was pressed. The model states
exactly that (`old(testResults)`), so the summary does not report this run's
results.

## Model

| member | source | states |
|---|---|---|
| SelfReflection.TablesAgree | src/components/SelfReflection.tsx:30-39 | the display table has eight checks, in the same order and with the same names as the run loop's table, and its keys are distinct |
| SelfReflection.TestNamesDistinct | src/components/SelfReflection.tsx:365-374 | every check name in the run loop's table occurs once |
| SelfReflection.Find | src/components/SelfReflection.tsx:50 | `find` by name returns nothing exactly when no entry has the name; otherwise it returns the first entry with that name |
| SelfReflection.ReplaceNamed | src/components/SelfReflection.tsx:60 | the `map` keeps the length, puts the update at every position holding the name, and leaves every other entry alone |
| SelfReflection.UpsertExisting | src/components/SelfReflection.tsx:48-64 | on a name already present, the upsert replaces that entry where it stands, keeps the length, and changes no entry with another name |
| SelfReflection.UpsertNew | src/components/SelfReflection.tsx:59-63 | on a new name, the upsert appends the entry at the end |
| SelfReflection.Upsert | src/components/SelfReflection.tsx:49-64 | the updater handed to `setTestResults`: if `find` sees the name, `map` replaces those entries, otherwise the entry is appended |
| SelfReflection.UpsertKeepsUnique | src/components/SelfReflection.tsx:48-64 | upserting keeps names unique; afterwards the new entry is found under its name, and lookups of every other name are unchanged |
| SelfReflection.FindUnique | src/components/SelfReflection.tsx:541 | with unique names, the display's `find` returns the entry at that name's position |
| SelfReflection.MarkThenRecord | src/components/SelfReflection.tsx:378-399 | a check not yet in the list is appended as running; its terminal result then replaces it in that same last slot; earlier entries are untouched |
| SelfReflection.StatusColorsDistinct | src/components/SelfReflection.tsx:435-442 | the four statuses get four different colours |
| SelfReflection.StatusColor | src/components/SelfReflection.tsx:435-442 | `getStatusColor`: green for passed, red for failed, yellow for running, grey otherwise |
| SelfReflection.DisplayedStatus | src/components/SelfReflection.tsx:562 | the status shown for a check: the found result's status, and 'pending' when there is none |
| SelfReflection.Tag | src/components/SelfReflection.tsx:43 | `type.toUpperCase()` of the four levels |
| SelfReflection.LogLine | src/components/SelfReflection.tsx:41-43 | the formatted line "[" + local time + "] " + LEVEL + ": " + message |
| SelfReflection.Classify | src/components/SelfReflection.tsx:383-399 | the recorded result is terminal; it is passed iff the probe returned true; its message is the success text, the failure text, or "Test error: " + the error; its duration is finish minus start |
| SelfReflection.ResultLine | src/components/SelfReflection.tsx:388-398 | the line logged after a probe: PASSED, FAILED or ERROR with the error text, each with the duration in ms and its level |
| SelfReflection.StepLog | src/components/SelfReflection.tsx:384-398 | the lines one check adds: "Running test: " + name, the probe's own lines, then its result line |
| SelfReflection.FinalResults | src/components/SelfReflection.tsx:376-403 | the result list the loop's checks leave, one classified result per check in order (its properties are `FinalResultsAt` and `FinalResultsShape`) |
| SelfReflection.StepsLog | src/components/SelfReflection.tsx:376-399 | the lines the loop's checks add to the buffer: each check's `StepLog`, in order |
| SelfReflection.RunLog | src/components/SelfReflection.tsx:357-399 | the buffer during a run: the "Starting comprehensive self-reflection test suite..." line, then each finished check's lines |
| SelfReflection.FinalResultsAt | src/components/SelfReflection.tsx:376-403 | the list the checks leave has one entry per check, and entry k is check k's own classified result |
| SelfReflection.FinalResultsShape | src/components/SelfReflection.tsx:376-403 | after a run there is exactly one result per check, in registration order and with unique names; each is terminal and shown with its own status; it is passed iff that check's own probe returned true, whatever the other probes did |
| SelfReflection.MixedOutcomes | src/components/SelfReflection.tsx:383-399 | probes that return true, return false and throw "boom" give passed, failed, and failed with "Test error: boom" |
| SelfReflection.CountPassed | src/components/SelfReflection.tsx:408 | `filter(...).length` on passed entries: the count never exceeds the number of results |
| SelfReflection.CountPassedCounts | src/components/SelfReflection.tsx:408 | the count equals the number of positions holding a passed result, i.e. exactly what the filter keeps |
| SelfReflection.SummaryMessage | src/components/SelfReflection.tsx:408-411 | the summary text: "Test suite completed: ", the passed count, "/", the list length, " tests passed" |
| SelfReflection.SummaryLine | src/components/SelfReflection.tsx:411 | the `log` call of the summary: the summary text formatted as an info line at the given time |
| SelfReflection.SummaryOfNoResults | src/components/SelfReflection.tsx:408-411 | the summary of an empty list reads "Test suite completed: 0/0 tests passed", so does every run started from a list with no results |
| SelfReflection.ProgressStrictlyIncreasing | src/components/SelfReflection.tsx:401 | progress after check i is strictly above 0, strictly below that after any later check, and at most 100 |
| SelfReflection.ProgressEndsAtHundred | src/components/SelfReflection.tsx:401 | for any number n > 0 of checks, progress after the last one is exactly 100 |
| SelfReflection.ProgressAfter | src/components/SelfReflection.tsx:401 | the value passed to `setProgress` after check i of n: (i+1)/n*100 |
| SelfReflection.Harness.constructor | src/components/SelfReflection.tsx:23-27 | the harness starts idle, at progress 0, with no results, no current check and an empty log |
| SelfReflection.Harness.Log | src/components/SelfReflection.tsx:41-46 | `log` appends exactly the line "[time] LEVEL: message" and changes nothing else |
| SelfReflection.Harness.UpdateTestResult | src/components/SelfReflection.tsx:48-65 | the result list becomes the upsert of the old list with the new entry; nothing else changes |
| SelfReflection.Harness.RunCheck | src/components/SelfReflection.tsx:377-399 | one loop iteration leaves exactly one more result, the classified terminal one, at the end of the list; the log grows by the check's start line, the probe's own lines and its result line |
| SelfReflection.Harness.RecordOutcome | src/components/SelfReflection.tsx:383-399 | the try/catch upserts the classified terminal result under the check's name and logs exactly one line reporting it |
| SelfReflection.Harness.FinishRun | src/components/SelfReflection.tsx:405-411 | the end of a run clears the current check, stops running, and appends one summary line counting the list it is given |
| SelfReflection.Harness.RunAllTests | src/components/SelfReflection.tsx:357-416 | after a run: not running; current check ""; progress exactly 100; results are one terminal entry per registered check in order; the log is the start line, then each check's lines in order, then a summary counting the results held when the run began |
| SelfReflection.Harness.ResetTests | src/components/SelfReflection.tsx:418-424 | reset leaves no results, progress 0, no current check and a log of exactly the single "Test results reset" line; every check then shows as pending |
| Common.ParseNatToString | src/components/SelfReflection.tsx:411 | the decimal rendering of counts and durations reads back as the same number |
| Common.NatToString | src/components/SelfReflection.tsx:411 | `${n}` of a count: at least one character, all decimal digits, starting with '0' only for zero (no leading zeros) |
| Common.ParseNatPositive | src/components/SelfReflection.tsx:411 | a numeral whose first digit is not '0' denotes a positive number |
| Common.NatToStringCanonical | src/components/SelfReflection.tsx:411 | the rendering is the canonical numeral: every digit string without a leading zero that denotes n is exactly the rendering of n |
| Common.IntToString | src/components/SelfReflection.tsx:390 | `${duration}`: at least one character, starting with "-" exactly when the number is negative |
| Common.IntToStringValue | src/components/SelfReflection.tsx:390 | after the optional "-", `${duration}` is all digits with no leading zero, and they read back as the magnitude of the number |
| Notebook.NotebookState.constructor | src/components/NotebookInterface.tsx:12-15 | the notebook starts with Python selected and a single cell with id 1 in Python |
| Notebook.NotebookState.SetLanguage | src/components/NotebookInterface.tsx:50 | the selector sets the language and leaves the cells alone |
| Notebook.NotebookState.AddCell | src/components/NotebookInterface.tsx:17-26 | the cells become the old cells followed by one new empty code cell with id length+1 in the selected language; 1..n numbering is kept |
| Notebook.NewCell | src/components/NotebookInterface.tsx:18-24 | the new cell: the given id, type "code", empty content and output, the given language |
| Notebook.WithAddedCell | src/components/NotebookInterface.tsx:17-25 | `[...cells, newCell]` with the new cell numbered length+1 |
| Notebook.AddKeepsNumbering | src/components/NotebookInterface.tsx:17-26 | adding keeps 1..n numbering, leaves the earlier cells as they were, and gives the new last cell the selected language |
| Notebook.AddsOnly | src/components/NotebookInterface.tsx:13-25 | from the initial state, using only the add button: the first cell is the welcome cell, ids are exactly 1..n in order, and each added cell is empty and carries the language selected when it was added, so later changes of language leave it alone |
| Notebook.NotebookState.UpdateCell | src/components/NotebookInterface.tsx:84-88 | `onUpdate` at an index replaces only that slot; the length and every other cell are unchanged |
| Notebook.ReplaceKeepsNumbering | src/components/NotebookInterface.tsx:84-88 | a replacement that keeps the cell's id keeps 1..n numbering |
| Notebook.Capitalize | src/components/NotebookInterface.tsx:101 | capitalising keeps the length, upper-cases the first character and keeps the rest |
| Notebook.LabelRoundTrip | src/components/NotebookInterface.tsx:101 | the label is the language plus nine characters; for a language not starting with a capital, the language can be read back from the label |
| Notebook.SelectorValues | src/components/NotebookInterface.tsx:28-35 | the selector offers six values in the order python, cpp, java, javascript, rust, go; the first is the initial language |
| Notebook.SelectorLabelsFirstHalf | src/components/NotebookInterface.tsx:101 | "python", "cpp" and "java" give "Add Python Cell", "Add Cpp Cell" and "Add Java Cell": the label follows the value, not the display name |
| Notebook.SelectorLabelsSecondHalf | src/components/NotebookInterface.tsx:101 | "javascript", "rust" and "go" give "Add Javascript Cell", "Add Rust Cell" and "Add Go Cell" |
| Notebook.SelectorLabelsReadBack | src/components/NotebookInterface.tsx:101 | every selector value can be read back from its button label |
| Notebook.AddButtonLabel | src/components/NotebookInterface.tsx:101 | the button text "Add " + capitalised language + " Cell" |
| EnvironmentTemplates.CatalogIdsDistinct | src/components/EnvironmentTemplates.tsx:22-258 | the catalog has six templates with pairwise distinct ids |
| EnvironmentTemplates.ShowsCopied | src/components/EnvironmentTemplates.tsx:408 | `copiedCode === template.id`: the card reads "Copied!" when the copied code is that template's id |
| EnvironmentTemplates.OnlyCopiedTemplateShows | src/components/EnvironmentTemplates.tsx:408 | once a catalog template's id is the copied code, exactly that template's card reads "Copied!" |
| EnvironmentTemplates.ConfigCopiesTemplate | src/components/EnvironmentTemplates.tsx:275-283 | the config carries name, language, packages, sample code and features unchanged, with version "1.0.0" and the given timestamp; two templates give equal configs iff those five fields agree |
| EnvironmentTemplates.ConfigFor | src/components/EnvironmentTemplates.tsx:275-283 | the config object built from a template and a creation timestamp |
| EnvironmentTemplates.FileNameRoundTrip | src/components/EnvironmentTemplates.tsx:291 | the file name is the id followed by "-environment.json", so the id can be read back from it and equal file names mean equal ids |
| EnvironmentTemplates.DownloadFileName | src/components/EnvironmentTemplates.tsx:291 | `${template.id}-environment.json` |
| EnvironmentTemplates.CatalogFileNamesDistinct | src/components/EnvironmentTemplates.tsx:291 | no two catalog templates download to the same file name |
| EnvironmentTemplates.PreviewFeatures | src/components/EnvironmentTemplates.tsx:451-460 | the preview shows the first min(2, n) features; the "+k more" badge appears iff n > 2; shown plus k equals n |
| EnvironmentTemplates.MoreBadge | src/components/EnvironmentTemplates.tsx:456-459 | the badge text "+" + k + " more" |
| EnvironmentTemplates.CatalogPreviews | src/components/EnvironmentTemplates.tsx:451-460 | every catalog card shows its first two features and a "+2 more" badge |
| EnvironmentTemplates.Split | src/components/EnvironmentTemplates.tsx:490 | `split('\n')` yields at least one piece, and no piece holds a newline |
| EnvironmentTemplates.Take | src/components/EnvironmentTemplates.tsx:490 | `slice(0, k)` yields the first min(k, n) pieces |
| EnvironmentTemplates.Join | src/components/EnvironmentTemplates.tsx:490 | `join('\n')`: the pieces with one newline between neighbours |
| EnvironmentTemplates.QuickStartPreview | src/components/EnvironmentTemplates.tsx:490 | the dialog text: the first ten lines of the sample, rejoined, followed by "..." |
| EnvironmentTemplates.JoinSplit | src/components/EnvironmentTemplates.tsx:490 | joining the split pieces with newlines gives the string back |
| EnvironmentTemplates.SplitJoin | src/components/EnvironmentTemplates.tsx:490 | splitting the join of newline-free pieces gives the pieces back |
| EnvironmentTemplates.JoinPrefix | src/components/EnvironmentTemplates.tsx:490 | the join of the first k pieces is a prefix of the join of them all |
| EnvironmentTemplates.QuickStartPreviewShape | src/components/EnvironmentTemplates.tsx:490 | the quick-start preview is a prefix of the sample, holding exactly its first min(10, lines) lines, followed by "..."; a sample of at most ten lines is shown whole, plus "..." |
| EnvironmentTemplates.CopyIndicator.constructor | src/components/EnvironmentTemplates.tsx:261 | nothing is marked copied at first |
| EnvironmentTemplates.CopyIndicator.CopyToClipboard | src/components/EnvironmentTemplates.tsx:263-271 | a successful write marks that template id as copied; a failed write changes nothing |
| EnvironmentTemplates.CopyIndicator.ClearCopied | src/components/EnvironmentTemplates.tsx:267 | the timer's callback clears the indicator |

## Left out

- The DOM probes (`testButtonFunctionality` … `testAPIMockSystem`, `findElement`, `simulateClick`) depend on the live page. Each probe's execution is an input `ProbeRun`: its outcome, the lines it logged, and its start and end clock readings.
- The `window.innerWidth` and `window.fetch` overrides made by the probes, and the `window.toggleSelfReflection` global with the `isVisible` flag it toggles. These are host-environment side effects, not harness state.
- Clocks are opaque inputs (`Clock`: milliseconds plus the `toLocaleTimeString` text). `sleep` and `await` are not modelled: the run is sequential and nothing else runs during it.
- `console.log` and `console.error` output is not modelled.
- The result timestamp is a `Date` in the source; here it is the clock's milliseconds.
- SelfReflection.Harness.RunCheck: the running entry's timestamp is the probe's start reading and the terminal entry's timestamp is its end reading; the source takes fresh `new Date()` readings a moment apart from those.
- `onTestComplete` is not modelled: it is an outside caller's callback, and it receives the same stale list as the summary line.
- Progress is an exact `real`, not an IEEE double; the `Math.round` of the progress bar label is not modelled.
- SelfReflection.Harness.ResetTests and SelfReflection.Harness.RunAllTests require that no run is in progress. The source enforces this only by disabling both buttons while running.
- Notebook.Capitalize: `toUpperCase` is modelled for the ASCII letters a-z only; other characters are left as they are.
- Notebook.NotebookState.UpdateCell: what `CodeCell` passes to `onUpdate` is not part of this model. Numbering is therefore proved to survive only updates that keep the id (Notebook.ReplaceKeepsNumbering).
- `CodeCell`, `AiAssistant`, `Header` and `src/pages/Index.tsx` are not part of this model. Neither is any JSX rendering, styling, icon or dialog.
- The clipboard write is an input flag telling whether it succeeded. Blob creation, object URLs, the anchor click and `JSON.stringify` formatting of the download are browser I/O and are not modelled.
- EnvironmentTemplates.CopyIndicator.ClearCopied: the two-second timer is not modelled. Its callback is a separate method, so a timer from an earlier copy firing after a newer copy is not ruled out or in.
