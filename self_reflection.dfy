/** The in-browser self-test harness: a fixed table of named checks, a result
    list keyed by check name, a log buffer and a progress indicator, driven by
    one sequential run loop.  The DOM probes themselves are abstracted: each
    check's execution is given as a `ProbeRun` (what it returned or threw, the
    lines it logged, and the clock readings around it). */
module SelfReflection {
  import opened Common

  // ---------------------------------------------------------------------------
  // Data model
  // ---------------------------------------------------------------------------

  datatype Status = Pending | Running | Passed | Failed

  predicate IsTerminal(s: Status) {
    s == Passed || s == Failed
  }

  /** Severity accepted by `log`. */
  datatype Level = Info | Success | Error | Warn

  /** `type.toUpperCase()` of the severity. */
  function Tag(level: Level): string {
    match level
    case Info => "INFO"
    case Success => "SUCCESS"
    case Error => "ERROR"
    case Warn => "WARN"
  }

  /** An opaque clock reading: `Date.now()` (or `new Date()`) in milliseconds
      and the `toLocaleTimeString()` text of the same moment. */
  datatype Clock = Clock(millis: int, display: string)

  /** The formatted line `log` pushes onto the buffer. */
  function LogLine(at: Clock, message: string, level: Level): string {
    "[" + at.display + "] " + Tag(level) + ": " + message
  }

  datatype TestResult = TestResult(
    name: string,
    status: Status,
    message: string,
    timestamp: int,
    duration: Option<int>)

  /** One row of the display table `tests`. */
  datatype TestDefinition = TestDefinition(name: string, id: string)

  /** The display table, in registration order. */
  const Tests: seq<TestDefinition> := [
    TestDefinition("Button Functionality", "buttons"),
    TestDefinition("Navigation & Tabs", "navigation"),
    TestDefinition("Modal/Dialog System", "modals"),
    TestDefinition("Environment Templates", "environments"),
    TestDefinition("Code Cell Operations", "codecells"),
    TestDefinition("UI State Management", "state"),
    TestDefinition("Responsive Design", "responsive"),
    TestDefinition("API Mock System", "api")
  ]

  /** The names of the run loop's `testFunctions` table, in the order run. */
  const TestFunctionNames: seq<string> := [
    "Button Functionality",
    "Navigation & Tabs",
    "Modal/Dialog System",
    "Environment Templates",
    "Code Cell Operations",
    "UI State Management",
    "Responsive Design",
    "API Mock System"
  ]

  predicate Distinct(names: seq<string>) {
    forall i, j :: 0 <= i < j < |names| ==> names[i] != names[j]
  }

  /** The run loop and the display table list the same checks in the same
      order, and every display key occurs once. */
  lemma TablesAgree()
    ensures |Tests| == |TestFunctionNames| == 8
    ensures forall k :: 0 <= k < |Tests| ==> Tests[k].name == TestFunctionNames[k]
    ensures forall i, j :: 0 <= i < j < |Tests| ==> Tests[i].id != Tests[j].id
  {
  }

  /** Every check name occurs once in the run loop's table. */
  lemma TestNamesDistinct()
    ensures Distinct(TestFunctionNames)
  {
  }

  // ---------------------------------------------------------------------------
  // The result list: `find` by name and the upsert of `updateTestResult`
  // ---------------------------------------------------------------------------

  predicate UniqueNames(results: seq<TestResult>) {
    forall i, j :: 0 <= i < j < |results| ==> results[i].name != results[j].name
  }

  /** `results.find(r => r.name === name)`: the first entry with that name. */
  function Find(results: seq<TestResult>, name: string): (r: Option<TestResult>)
    ensures r.None? <==> forall i :: 0 <= i < |results| ==> results[i].name != name
    ensures r.Some? ==> exists i :: 0 <= i < |results| && results[i] == r.value
                          && r.value.name == name
                          && forall j :: 0 <= j < i ==> results[j].name != name
    decreases |results|
  {
    if results == [] then None
    else if results[0].name == name then Some(results[0])
    else
      var r := Find(results[1..], name);
      if r.Some? then
        ghost var i :| 0 <= i < |results[1..]| && results[1..][i] == r.value
                       && r.value.name == name
                       && forall j :: 0 <= j < i ==> results[1..][j].name != name;
        assert results[i + 1] == r.value;
        r
      else
        r
  }

  /** `results.map(t => t.name === name ? updated : t)`. */
  function ReplaceNamed(results: seq<TestResult>, name: string, updated: TestResult): (r: seq<TestResult>)
    ensures |r| == |results|
    ensures forall i :: 0 <= i < |results| ==>
              r[i] == if results[i].name == name then updated else results[i]
    decreases |results|
  {
    if results == [] then []
    else [if results[0].name == name then updated else results[0]]
         + ReplaceNamed(results[1..], name, updated)
  }

  /** The updater passed to `setTestResults` by `updateTestResult`: an entry
      with the same name is replaced where it stands, otherwise the new entry
      goes at the end. */
  function Upsert(prev: seq<TestResult>, updated: TestResult): seq<TestResult> {
    if Find(prev, updated.name).Some? then ReplaceNamed(prev, updated.name, updated)
    else prev + [updated]
  }

  /** On a name already present, the upsert replaces the entries with that
      name where they stand, keeps the length and every other entry. */
  lemma UpsertExisting(prev: seq<TestResult>, updated: TestResult, i: nat)
    requires i < |prev| && prev[i].name == updated.name
    ensures |Upsert(prev, updated)| == |prev|
    ensures Upsert(prev, updated)[i] == updated
    ensures forall k :: 0 <= k < |prev| ==>
              Upsert(prev, updated)[k] == if prev[k].name == updated.name then updated else prev[k]
  {
  }

  /** On a new name, the upsert appends the entry at the end. */
  lemma UpsertNew(prev: seq<TestResult>, updated: TestResult)
    requires forall k :: 0 <= k < |prev| ==> prev[k].name != updated.name
    ensures Upsert(prev, updated) == prev + [updated]
  {
  }

  /** With unique names, `find` returns the entry at the position of its name. */
  lemma FindUnique(results: seq<TestResult>, k: nat)
    requires UniqueNames(results)
    requires k < |results|
    ensures Find(results, results[k].name) == Some(results[k])
  {
    var r := Find(results, results[k].name);
    var i :| 0 <= i < |results| && results[i] == r.value && r.value.name == results[k].name
             && forall j :: 0 <= j < i ==> results[j].name != results[k].name;
    assert i == k;
  }

  /** `find` gives the same answer for `name` on two lists that hold the
      same entries named `name` at the same positions. */
  lemma FindAgrees(a: seq<TestResult>, b: seq<TestResult>, name: string)
    requires forall i :: 0 <= i < |a| && a[i].name == name ==> i < |b| && b[i] == a[i]
    requires forall i :: 0 <= i < |b| && b[i].name == name ==> i < |a| && a[i] == b[i]
    ensures Find(a, name) == Find(b, name)
  {
    var ra, rb := Find(a, name), Find(b, name);
    if ra.Some? {
      var i :| 0 <= i < |a| && a[i] == ra.value && ra.value.name == name
               && forall j :: 0 <= j < i ==> a[j].name != name;
      assert b[i].name == name;
      var k :| 0 <= k < |b| && b[k] == rb.value && rb.value.name == name
               && forall j :: 0 <= j < k ==> b[j].name != name;
      assert i == k;
    }
  }

  /** Upserting keeps names unique, makes the new entry the one found under
      its name, and changes what is found under no other name. */
  lemma UpsertKeepsUnique(prev: seq<TestResult>, updated: TestResult)
    requires UniqueNames(prev)
    ensures UniqueNames(Upsert(prev, updated))
    ensures Find(Upsert(prev, updated), updated.name) == Some(updated)
    ensures forall other :: other != updated.name ==>
              Find(Upsert(prev, updated), other) == Find(prev, other)
  {
    var r := Upsert(prev, updated);
    if exists i :: 0 <= i < |prev| && prev[i].name == updated.name {
      var i :| 0 <= i < |prev| && prev[i].name == updated.name;
      UpsertExisting(prev, updated, i);
      assert forall k :: 0 <= k < |r| ==> r[k].name == prev[k].name;
      FindUnique(r, i);
    } else {
      UpsertNew(prev, updated);
      FindUnique(r, |prev|);
    }
    forall other | other != updated.name
      ensures Find(r, other) == Find(prev, other)
    {
      FindAgrees(r, prev, other);
    }
  }

  /** The per-check state machine on the list: a check not yet in the list is
      appended as `running`, and its terminal result then takes that same
      last position, leaving the earlier entries alone. */
  lemma MarkThenRecord(prefix: seq<TestResult>, running: TestResult, final: TestResult)
    requires forall k :: 0 <= k < |prefix| ==> prefix[k].name != running.name
    requires final.name == running.name
    ensures Upsert(prefix, running) == prefix + [running]
    ensures Upsert(prefix + [running], final) == prefix + [final]
  {
    var s := prefix + [running];
    assert s[|prefix|].name == final.name;
    var r := Upsert(s, final);
    assert |r| == |s|;
    forall k | 0 <= k < |s|
      ensures r[k] == (prefix + [final])[k]
    {
      if k < |prefix| {
        assert s[k] == prefix[k];
      }
    }
  }

  // ---------------------------------------------------------------------------
  // Display helpers
  // ---------------------------------------------------------------------------

  /** `result?.status || 'pending'`: a check without a result shows as pending. */
  function DisplayedStatus(results: seq<TestResult>, name: string): Status {
    match Find(results, name)
    case Some(r) => r.status
    case None => Pending
  }

  /** `getStatusColor`; anything that is not running or terminal is grey. */
  function StatusColor(status: Status): string {
    match status
    case Passed => "text-green-500"
    case Failed => "text-red-500"
    case Running => "text-yellow-500"
    case Pending => "text-gray-400"
  }

  /** Each status gets its own colour. */
  lemma StatusColorsDistinct(a: Status, b: Status)
    requires a != b
    ensures StatusColor(a) != StatusColor(b)
  {
  }

  // ---------------------------------------------------------------------------
  // One check of the run loop, as a specification
  // ---------------------------------------------------------------------------

  /** What a probe did: returned true, returned false, or threw (the error's
      `${error}` text). */
  datatype ProbeOutcome = ReturnedTrue | ReturnedFalse | Threw(error: string)

  /** One probe's execution as seen by the loop: its outcome, the lines it
      logged itself, and the clock when it started and when it finished. */
  datatype ProbeRun = ProbeRun(outcome: ProbeOutcome, logged: seq<string>, started: Clock, finished: Clock)

  const StartMessage := "Starting comprehensive self-reflection test suite..."
  const ProgressMessage := "Test in progress..."
  const SuccessMessage := "Test completed successfully"
  const FailureMessage := "Test failed - check console for details"
  const ResetMessage := "Test results reset"

  /** The result message of a check whose probe threw. */
  function ErrorMessage(error: string): string {
    "Test error: " + error
  }

  /** The log messages of a finished check, `ms` being its rendered duration. */
  function PassedLogMessage(name: string, ms: string): string {
    "✅ " + name + " PASSED (" + ms + "ms)"
  }

  function FailedLogMessage(name: string, ms: string): string {
    "❌ " + name + " FAILED (" + ms + "ms)"
  }

  function ErrorLogMessage(name: string, error: string, ms: string): string {
    "❌ " + name + " ERROR: " + error + " (" + ms + "ms)"
  }

  function Duration(run: ProbeRun): int {
    run.finished.millis - run.started.millis
  }

  /** The terminal result the loop records for a check. */
  function Classify(name: string, run: ProbeRun): (r: TestResult)
    ensures r.name == name && IsTerminal(r.status)
    ensures r.status == Passed <==> run.outcome == ReturnedTrue
    ensures run.outcome == ReturnedTrue ==> r.message == SuccessMessage
    ensures run.outcome == ReturnedFalse ==> r.message == FailureMessage
    ensures run.outcome.Threw? ==> r.message == ErrorMessage(run.outcome.error)
    ensures r.duration == Some(Duration(run)) && r.timestamp == run.finished.millis
  {
    match run.outcome
    case ReturnedTrue => TestResult(name, Passed, SuccessMessage, run.finished.millis, Some(Duration(run)))
    case ReturnedFalse => TestResult(name, Failed, FailureMessage, run.finished.millis, Some(Duration(run)))
    case Threw(e) => TestResult(name, Failed, ErrorMessage(e), run.finished.millis, Some(Duration(run)))
  }

  /** The line logged after a check finishes. */
  function ResultLine(name: string, run: ProbeRun): string {
    var ms := IntToString(Duration(run));
    match run.outcome
    case ReturnedTrue => LogLine(run.finished, PassedLogMessage(name, ms), Success)
    case ReturnedFalse => LogLine(run.finished, FailedLogMessage(name, ms), Error)
    case Threw(e) => LogLine(run.finished, ErrorLogMessage(name, e, ms), Error)
  }

  /** The lines one check adds to the buffer: its start line, what the probe
      logged, and its result line. */
  function StepLog(name: string, run: ProbeRun): seq<string> {
    [LogLine(run.started, "Running test: " + name, Info)] + run.logged + [ResultLine(name, run)]
  }

  /** Appending a check's lines one piece at a time gives its step log. */
  lemma StepLogAppended(before: seq<string>, name: string, run: ProbeRun)
    ensures before + [LogLine(run.started, "Running test: " + name, Info)] + run.logged + [ResultLine(name, run)]
            == before + StepLog(name, run)
  {
    var a, b, c := [LogLine(run.started, "Running test: " + name, Info)], run.logged, [ResultLine(name, run)];
    assert before + a + b + c == before + (a + b + c);
  }

  /** The lines a sequence of checks adds, in order. */
  function StepsLog(names: seq<string>, runs: seq<ProbeRun>): seq<string>
    requires |names| == |runs|
    decreases |runs|
  {
    if runs == [] then []
    else StepsLog(names[..|names| - 1], runs[..|runs| - 1]) + StepLog(names[|names| - 1], runs[|runs| - 1])
  }

  /** The result list the checks leave, in the order they ran. */
  function FinalResults(names: seq<string>, runs: seq<ProbeRun>): seq<TestResult>
    requires |names| == |runs|
    decreases |runs|
  {
    if runs == [] then []
    else FinalResults(names[..|names| - 1], runs[..|runs| - 1]) + [Classify(names[|names| - 1], runs[|runs| - 1])]
  }

  /** Position k of the list holds check k's own classified result. */
  lemma {:induction false} FinalResultsAt(names: seq<string>, runs: seq<ProbeRun>)
    requires |names| == |runs|
    ensures |FinalResults(names, runs)| == |runs|
    ensures forall k :: 0 <= k < |runs| ==> FinalResults(names, runs)[k] == Classify(names[k], runs[k])
    decreases |runs|
  {
    if runs != [] {
      var m := |runs| - 1;
      FinalResultsAt(names[..m], runs[..m]);
    }
  }

  /** After a run there is exactly one result per check, in the checks'
      order, each terminal, each classified from its own probe: a failing or
      throwing probe does not affect any other check's result. */
  lemma FinalResultsShape(names: seq<string>, runs: seq<ProbeRun>)
    requires |names| == |runs|
    requires Distinct(names)
    ensures |FinalResults(names, runs)| == |names|
    ensures UniqueNames(FinalResults(names, runs))
    ensures forall k :: 0 <= k < |names| ==>
              FinalResults(names, runs)[k].name == names[k]
              && IsTerminal(FinalResults(names, runs)[k].status)
              && DisplayedStatus(FinalResults(names, runs), names[k]) == FinalResults(names, runs)[k].status
              && (DisplayedStatus(FinalResults(names, runs), names[k]) == Passed <==> runs[k].outcome == ReturnedTrue)
  {
    var r := FinalResults(names, runs);
    FinalResultsAt(names, runs);
    forall k | 0 <= k < |names|
      ensures DisplayedStatus(r, names[k]) == r[k].status
    {
      FindUnique(r, k);
    }
  }

  /** One more check extends the result list by that check's result. */
  lemma ResultsPrefixGrows(names: seq<string>, runs: seq<ProbeRun>, i: nat)
    requires |names| == |runs|
    requires i < |runs|
    ensures FinalResults(names[..i + 1], runs[..i + 1])
            == FinalResults(names[..i], runs[..i]) + [Classify(names[i], runs[i])]
  {
    assert names[..i + 1][..i] == names[..i];
    assert runs[..i + 1][..i] == runs[..i];
  }

  /** One more check extends the checks' lines by that check's lines. */
  lemma StepsPrefixGrows(names: seq<string>, runs: seq<ProbeRun>, i: nat)
    requires |names| == |runs|
    requires i < |runs|
    ensures StepsLog(names[..i + 1], runs[..i + 1])
            == StepsLog(names[..i], runs[..i]) + StepLog(names[i], runs[i])
  {
    assert names[..i + 1][..i] == names[..i];
    assert runs[..i + 1][..i] == runs[..i];
  }

  lemma ConcatAssoc<T>(a: seq<T>, b: seq<T>, c: seq<T>)
    ensures a + (b + c) == (a + b) + c
  {
  }

  /** Before check `i` runs, no result carries its name. */
  lemma NotYetRecorded(names: seq<string>, runs: seq<ProbeRun>, i: nat)
    requires |names| == |runs| && Distinct(names)
    requires i < |runs|
    ensures forall k :: 0 <= k < |FinalResults(names[..i], runs[..i])| ==>
              FinalResults(names[..i], runs[..i])[k].name != names[i]
  {
    FinalResultsAt(names[..i], runs[..i]);
  }

  /** The buffer during a run: the start line, then each finished check's lines. */
  function RunLog(start: Clock, names: seq<string>, runs: seq<ProbeRun>): seq<string>
    requires |names| == |runs|
  {
    [LogLine(start, StartMessage, Info)] + StepsLog(names, runs)
  }

  /** One more check extends the run's log by that check's lines. */
  lemma RunLogGrows(start: Clock, names: seq<string>, runs: seq<ProbeRun>, i: nat)
    requires |names| == |runs|
    requires i < |runs|
    ensures RunLog(start, names[..i + 1], runs[..i + 1])
            == RunLog(start, names[..i], runs[..i]) + StepLog(names[i], runs[i])
  {
    StepsPrefixGrows(names, runs, i);
    ConcatAssoc([LogLine(start, StartMessage, Info)], StepsLog(names[..i], runs[..i]), StepLog(names[i], runs[i]));
  }

  /** `testResults.filter(t => t.status === 'passed').length`. */
  function CountPassed(results: seq<TestResult>): (n: nat)
    ensures n <= |results|
    decreases |results|
  {
    if results == [] then 0
    else CountPassed(results[..|results| - 1]) + (if results[|results| - 1].status == Passed then 1 else 0)
  }

  /** The positions of a list that hold a passed result. */
  function PassedPositions(results: seq<TestResult>): set<nat> {
    set k: nat | k < |results| && results[k].status == Passed
  }

  /** `CountPassed` is the number of passed entries: what `filter` keeps and
      `length` counts. */
  lemma {:induction false} CountPassedCounts(results: seq<TestResult>)
    ensures CountPassed(results) == |PassedPositions(results)|
    decreases |results|
  {
    if results != [] {
      var m := |results| - 1;
      var front := results[..m];
      CountPassedCounts(front);
      if results[m].status == Passed {
        assert PassedPositions(results) == PassedPositions(front) + {m};
        assert m !in PassedPositions(front);
      } else {
        assert PassedPositions(results) == PassedPositions(front);
      }
    }
  }

  /** The closing message of a run, counting over the results it is given. */
  function SummaryMessage(results: seq<TestResult>): string {
    "Test suite completed: " + NatToString(CountPassed(results)) + "/"
    + NatToString(|results|) + " tests passed"
  }

  function SummaryLine(at: Clock, results: seq<TestResult>): string {
    LogLine(at, SummaryMessage(results), Info)
  }

  /** Three checks whose probes return true, return false and throw "boom":
      one passes, the other two fail, the third with the error's text. */
  lemma MixedOutcomes(a: Clock, b: Clock)
    ensures var runs := [ProbeRun(ReturnedTrue, [], a, b), ProbeRun(ReturnedFalse, [], a, b),
                         ProbeRun(Threw("boom"), [], a, b)];
            var r := FinalResults(["A", "B", "C"], runs);
            && |r| == 3
            && r[0].name == "A" && r[0].status == Passed && r[0].message == SuccessMessage
            && r[1].name == "B" && r[1].status == Failed && r[1].message == FailureMessage
            && r[2].name == "C" && r[2].status == Failed && r[2].message == "Test error: boom"
  {
    var runs := [ProbeRun(ReturnedTrue, [], a, b), ProbeRun(ReturnedFalse, [], a, b),
                 ProbeRun(Threw("boom"), [], a, b)];
    FinalResultsAt(["A", "B", "C"], runs);
  }

  /** The summary counts the list it is handed; a run started with no earlier
      results therefore closes with "0/0 tests passed". */
  lemma SummaryOfNoResults(at: Clock)
    ensures SummaryLine(at, []) == LogLine(at, "Test suite completed: 0/0 tests passed", Info)
  {
  }

  /** Progress shown once check `i` (from 0) of `n` has finished. */
  function ProgressAfter(i: nat, n: nat): real
    requires n > 0
  {
    ((i + 1) as real / n as real) * 100.0
  }

  /** Progress is exactly 100 after the last check, however many there are. */
  lemma ProgressEndsAtHundred(n: nat)
    requires n > 0
    ensures ProgressAfter(n - 1, n) == 100.0
  {
    assert n as real / n as real == 1.0;
  }

  /** Progress rises strictly from check to check and stays within (0, 100]. */
  lemma ProgressStrictlyIncreasing(i: nat, j: nat, n: nat)
    requires i < j < n
    ensures 0.0 < ProgressAfter(i, n) < ProgressAfter(j, n) <= 100.0
  {
    var m := n as real;
    assert (i + 1) as real < (j + 1) as real <= m;
    assert (i + 1) as real / m < (j + 1) as real / m;
    assert (j + 1) as real / m <= 1.0;
  }

  // ---------------------------------------------------------------------------
  // The component's state and its handlers
  // ---------------------------------------------------------------------------

  class Harness {
    var isRunning: bool
    var progress: real
    var testResults: seq<TestResult>
    var currentTest: string
    var logBuffer: seq<string>

    /** The state on first render. */
    constructor ()
      ensures !isRunning && progress == 0.0 && testResults == []
      ensures currentTest == "" && logBuffer == []
    {
      isRunning := false;
      progress := 0.0;
      testResults := [];
      currentTest := "";
      logBuffer := [];
    }

    /** `log`: append one formatted line; nothing else changes. */
    method Log(at: Clock, message: string, level: Level)
      modifies this`logBuffer
      ensures logBuffer == old(logBuffer) + [LogLine(at, message, level)]
    {
      logBuffer := logBuffer + [LogLine(at, message, level)];
    }

    /** `updateTestResult`: upsert by name. */
    method UpdateTestResult(name: string, status: Status, message: string, at: Clock, duration: Option<int>)
      modifies this`testResults
      ensures testResults == Upsert(old(testResults), TestResult(name, status, message, at.millis, duration))
    {
      testResults := Upsert(testResults, TestResult(name, status, message, at.millis, duration));
    }

    /** `runAllTests`, with `runs[i]` standing for the i-th probe's execution.
        The summary line counts `testResults` as the handler's closure holds
        it, which is the list as it was when the run began. */
    method RunAllTests(runs: seq<ProbeRun>, start: Clock, end: Clock)
      requires !isRunning
      requires |runs| == |TestFunctionNames|
      modifies this
      ensures !isRunning && currentTest == "" && progress == 100.0
      ensures testResults == FinalResults(TestFunctionNames, runs)
      ensures logBuffer == RunLog(start, TestFunctionNames, runs) + [SummaryLine(end, old(testResults))]
    {
      var captured := testResults;
      isRunning := true;
      progress := 0.0;
      testResults := [];
      logBuffer := [];
      Log(start, StartMessage, Info);
      TestNamesDistinct();

      var n := |TestFunctionNames|;
      for i := 0 to n
        invariant isRunning
        invariant testResults == FinalResults(TestFunctionNames[..i], runs[..i])
        invariant logBuffer == RunLog(start, TestFunctionNames[..i], runs[..i])
        invariant progress == if i == 0 then 0.0 else ProgressAfter(i - 1, n)
      {
        NotYetRecorded(TestFunctionNames, runs, i);
        RunCheck(TestFunctionNames[i], runs[i]);
        progress := ProgressAfter(i, n);
        ResultsPrefixGrows(TestFunctionNames, runs, i);
        RunLogGrows(start, TestFunctionNames, runs, i);
      }
      assert TestFunctionNames[..n] == TestFunctionNames && runs[..n] == runs;
      ProgressEndsAtHundred(n);
      FinishRun(end, captured);
    }

    /** The end of `runAllTests`: clear the current check, stop running and
        log the summary over `counted`, the list the handler's closure holds. */
    method FinishRun(end: Clock, counted: seq<TestResult>)
      modifies this`currentTest, this`isRunning, this`logBuffer
      ensures !isRunning && currentTest == ""
      ensures logBuffer == old(logBuffer) + [SummaryLine(end, counted)]
    {
      currentTest := "";
      isRunning := false;
      Log(end, SummaryMessage(counted), Info);
    }

    /** The body of the run loop for one check: mark it running, log, let
        the probe run, then record and log its outcome. The check's name is
        not yet in the list, since each name runs once. */
    method RunCheck(name: string, run: ProbeRun)
      requires forall k :: 0 <= k < |testResults| ==> testResults[k].name != name
      modifies this`currentTest, this`testResults, this`logBuffer
      ensures currentTest == name
      ensures testResults == old(testResults) + [Classify(name, run)]
      ensures logBuffer == old(logBuffer) + StepLog(name, run)
    {
      ghost var before, logBefore := testResults, logBuffer;
      ghost var running := TestResult(name, Running, ProgressMessage, run.started.millis, None);
      MarkThenRecord(before, running, Classify(name, run));
      currentTest := name;
      UpdateTestResult(name, Running, ProgressMessage, run.started, None);

      Log(run.started, "Running test: " + name, Info);
      logBuffer := logBuffer + run.logged;
      RecordOutcome(name, run);
      StepLogAppended(logBefore, name, run);
    }

    /** The `try`/`catch` around a probe once it has run: the terminal result
        goes into the list under the check's name, and one line reports it. */
    method RecordOutcome(name: string, run: ProbeRun)
      modifies this`testResults, this`logBuffer
      ensures testResults == Upsert(old(testResults), Classify(name, run))
      ensures logBuffer == old(logBuffer) + [ResultLine(name, run)]
    {
      var duration := run.finished.millis - run.started.millis;
      var ms := IntToString(duration);
      match run.outcome {
        case ReturnedTrue =>
          UpdateTestResult(name, Passed, SuccessMessage, run.finished, Some(duration));
          Log(run.finished, PassedLogMessage(name, ms), Success);
        case ReturnedFalse =>
          UpdateTestResult(name, Failed, FailureMessage, run.finished, Some(duration));
          Log(run.finished, FailedLogMessage(name, ms), Error);
        case Threw(e) =>
          UpdateTestResult(name, Failed, ErrorMessage(e), run.finished, Some(duration));
          Log(run.finished, ErrorLogMessage(name, e, ms), Error);
      }
    }

    /** `resetTests`; the Reset button is disabled while a run is in progress. */
    method ResetTests(at: Clock)
      requires !isRunning
      modifies this`testResults, this`progress, this`currentTest, this`logBuffer
      ensures testResults == [] && progress == 0.0 && currentTest == ""
      ensures logBuffer == [LogLine(at, ResetMessage, Info)]
      ensures forall k :: 0 <= k < |Tests| ==> DisplayedStatus(testResults, Tests[k].name) == Pending
    {
      testResults := [];
      progress := 0.0;
      currentTest := "";
      logBuffer := [];
      Log(at, ResetMessage, Info);
    }
  }
}
