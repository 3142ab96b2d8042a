/**
 * The settings page: the interpreter-path test (idle, testing, then success or failure after a
 * delay), the edits of the interpreter path and of the theme, and the discard button. Edits
 * leave the page as `ConfigUpdate`s that the application merges into its configuration.
 */
module SettingsView {
  import opened Types
  import opened Config
  import opened Text

  datatype TestStatus = Idle | Testing | Success | Failed

  /** The mock check: the lower-cased path mentions "python". */
  predicate LooksLikePython(path: string)
  {
    Contains(Lower(path), "python")
  }

  /** The status a test of `path` ends in. */
  function TestResult(path: string): (status: TestStatus)
    ensures status == Success <==> LooksLikePython(path)
    ensures status == Failed <==> !LooksLikePython(path)
  {
    if Contains(Lower(path), "python") then Success else Failed
  }

  /**
   * The test button is disabled while a test runs or while the path is empty, so no second
   * timer starts while one is pending and the empty path is never the one tested.
   */
  predicate TestDisabled(status: TestStatus, interpreterPath: string): (disabled: bool)
    ensures disabled <==> status == Testing || interpreterPath == ""
  {
    status == Testing || interpreterPath == ""
  }

  /** The test button's caption. */
  function TestButtonLabel(status: TestStatus): (text: string)
    ensures status == Testing ==> text == "Validating..."
    ensures status == Success ==> text == "Valid"
    ensures status == Failed ==> text == "Invalid Path"
    ensures status == Idle ==> text == "Test Connection"
  {
    match status
    case Testing => "Validating..."
    case Success => "Valid"
    case Failed => "Invalid Path"
    case Idle => "Test Connection"
  }

  /** Each status has its own caption. */
  lemma TestButtonLabelsDistinct(a: TestStatus, b: TestStatus)
    ensures TestButtonLabel(a) == TestButtonLabel(b) ==> a == b
  {
  }

  /** The status shown agrees with the path currently in the field: "Valid" only for a python path. */
  predicate Consistent(status: TestStatus, interpreterPath: string)
  {
    (status == Success ==> LooksLikePython(interpreterPath))
    && (status == Failed ==> !LooksLikePython(interpreterPath))
  }

  /**
   * The delayed completion as written: the result for the path captured when the test started
   * replaces whatever the status is by then.
   */
  function Completion(status: TestStatus, captured: string): TestStatus
  {
    TestResult(captured)
  }

  /**
   * The completion as evidently intended: the result is shown only while that test is still the
   * one running, that is while the status is "testing" and the field still holds the tested path.
   */
  function CheckedCompletion(status: TestStatus, captured: string, interpreterPath: string): (r: TestStatus)
    ensures r != status ==> status == Testing && captured == interpreterPath && r == TestResult(interpreterPath)
    ensures status == Testing && captured == interpreterPath ==> r == Completion(status, captured)
  {
    if status == Testing && captured == interpreterPath then TestResult(captured) else status
  }

  /**
   * As written, a test of "python.exe" whose field is cleared before the delay ends reports
   * "Valid" for the empty path: the edit reset the status to idle, and the completion then
   * overwrote it.
   */
  lemma StaleCompletionShowsValid()
    ensures var started := "python.exe";
      var status := Completion(Idle, started);
      status == Success && !Consistent(status, "")
  {
    LowerOfLowerCase("python.exe");
    assert OccursAt("python.exe", "python", 0);
  }

  /** With the check, starting a test, editing the path and the completion all keep the status consistent. */
  lemma CheckedCompletionKeepsConsistent(status: TestStatus, captured: string, interpreterPath: string, edited: string)
    requires Consistent(status, interpreterPath)
    ensures Consistent(Testing, interpreterPath)
    ensures Consistent(Idle, edited)
    ensures Consistent(CheckedCompletion(status, captured, interpreterPath), interpreterPath)
  {
  }

  /** The page's own state. */
  class Settings {
    var testStatus: TestStatus

    constructor ()
      ensures testStatus == Idle
    {
      testStatus := Idle;
    }

    /**
     * `handleTestInterpreter()`, reachable only through the enabled test button: the status
     * becomes "testing"; the timer keeps the path of this moment, which is never empty.
     */
    method HandleTestInterpreter(config: AppConfig) returns (captured: string)
      requires !TestDisabled(testStatus, config.interpreterPath)
      modifies this
      ensures testStatus == Testing && captured == config.interpreterPath
      ensures captured != "" && TestDisabled(testStatus, captured)
    {
      testStatus := Testing;
      captured := config.interpreterPath;
    }

    /** The test's timer firing, as written. */
    method TestTimerFires(captured: string)
      modifies this
      ensures testStatus == Completion(old(testStatus), captured)
    {
      if Contains(Lower(captured), "python") {
        testStatus := Success;
      } else {
        testStatus := Failed;
      }
    }

    /** The test's timer firing, ignoring a result that no longer belongs to the field's path. */
    method TestTimerFiresChecked(captured: string, interpreterPath: string)
      modifies this
      ensures testStatus == CheckedCompletion(old(testStatus), captured, interpreterPath)
    {
      if testStatus == Testing && captured == interpreterPath {
        TestTimerFires(captured);
      }
    }

    /** Typing in the interpreter-path field: the new path is sent and the status goes back to idle. */
    method EditInterpreterPath(v: string) returns (u: ConfigUpdate)
      modifies this
      ensures u == Only(InterpreterPath, v) && testStatus == Idle
    {
      u := Only(InterpreterPath, v);
      testStatus := Idle;
    }

    /** The light and dark buttons: an update naming the theme and nothing else. */
    method ChooseTheme(theme: Theme) returns (u: ConfigUpdate)
      ensures forall c :: Merge(c, u) == c.(theme := theme)
    {
      u := NO_CHANGE.(theme := Some(theme));
    }

    /** "Discard Changes": the whole default configuration is sent; the test status is left as it is. */
    method Discard() returns (u: ConfigUpdate)
      ensures u == ResetUpdate()
    {
      u := ResetUpdate();
    }
  }
}
