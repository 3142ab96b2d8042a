/**
 * The card that shows one tool: its status caption, the badge in its corner, the file name
 * of its script, the progress bar, and the error box that replaces the description.
 */
module ScriptCard {
  import opened Types
  import opened Text

  /** `getStatusDisplay()`: the caption under the card; an idle tool shows none. */
  function StatusLabel(status: ExecutionStatus): (caption: Option<string>)
    ensures caption.None? <==> status == IDLE
    ensures status == RUNNING ==> caption == Some("Working...")
    ensures status == ExecutionStatus.SUCCESS ==> caption == Some("Finished")
    ensures status == FAILED ==> caption == Some("Error Found")
    ensures status == SKIPPED ==> caption == Some("Cancelled")
    ensures status == PENDING ==> caption == Some("In Queue")
  {
    match status
    case RUNNING => Some("Working...")
    case SUCCESS => Some("Finished")
    case FAILED => Some("Error Found")
    case SKIPPED => Some("Cancelled")
    case PENDING => Some("In Queue")
    case IDLE => None
  }

  /** Different statuses never share a caption. */
  lemma StatusLabelsDistinct(a: ExecutionStatus, b: ExecutionStatus)
    ensures StatusLabel(a) == StatusLabel(b) ==> a == b
  {
  }

  const ALERT := "!"
  const TICK := "✓"

  /** The badge in the card's corner: an alert on failure, otherwise a tick when selected. */
  function Badge(status: ExecutionStatus, isSelected: bool): (b: Option<string>)
    ensures b == Some(ALERT) <==> status == FAILED
    ensures b == Some(TICK) <==> isSelected && status != FAILED
    ensures b.None? <==> !isSelected && status != FAILED
  {
    if isSelected || status == FAILED then Some(if status == FAILED then ALERT else TICK) else None
  }

  /** `split(sep).pop()`: the text after the last `sep`, the whole text when there is none. */
  function LastPart(s: string, sep: char): (r: string)
    ensures sep !in r
    ensures r == s[LastIndexOf(s, sep) + 1..]
  {
    var parts := Split(s, sep);
    parts[|parts| - 1]
  }

  /** `scriptPath.split('\\').pop() || scriptPath.split('/').pop()` */
  function FileName(scriptPath: string): (name: string)
    ensures EndsWith(scriptPath, name)
    ensures name == "" <==> scriptPath == ""
    ensures scriptPath != "" && scriptPath[|scriptPath| - 1] != '\\' ==> name == LastPart(scriptPath, '\\')
    ensures scriptPath != "" && scriptPath[|scriptPath| - 1] == '\\' ==> name == LastPart(scriptPath, '/')
  {
    var back := LastPart(scriptPath, '\\');
    if back != "" then back else LastPart(scriptPath, '/')
  }

  /** The "File:" line, shown only for a non-empty script path. */
  function FileLabel(scriptPath: Option<string>): (line: Option<string>)
    ensures line.Some? <==> Truthy(scriptPath)
    ensures line.Some? ==> line.value == FileName(scriptPath.value)
  {
    if Truthy(scriptPath) then Some(FileName(scriptPath.value)) else None
  }

  /** A script inside a folder is labelled with its own name. */
  lemma FileNameOfChild(folder: string, name: string)
    requires name != "" && '\\' !in name
    ensures FileName(folder + ['\\'] + name) == name
  {
    var p := folder + ['\\'] + name;
    LastIndexOfJoined(folder, '\\', name);
    assert p[|folder| + 1..] == name;
  }

  /** A click on the card calls `onToggle` exactly when the card is enabled. */
  predicate ClickToggles(disabled: bool): (toggles: bool)
    ensures toggles <==> !disabled
  {
    !disabled
  }

  /** The receiver of the card's `onToggle` callback: how many times it has been called. */
  class ToggleSink {
    var calls: nat

    constructor ()
      ensures calls == 0
    {
      calls := 0;
    }

    /** `onToggle()` */
    method OnToggle()
      modifies this
      ensures calls == old(calls) + 1
    {
      calls := calls + 1;
    }
  }

  /** The card's `onClick`: `!disabled && onToggle()`. */
  method HandleClick(disabled: bool, onToggle: ToggleSink)
    modifies onToggle
    ensures onToggle.calls == old(onToggle.calls) + (if ClickToggles(disabled) then 1 else 0)
  {
    if !disabled {
      onToggle.OnToggle();
    }
  }

  /** The progress value shown, only while running; a missing value shows as 0. */
  function ProgressShown(script: GISScript): (shown: Option<int>)
    ensures shown.Some? <==> script.status == RUNNING
    ensures shown.Some? && script.progress.Some? ==> shown.value == script.progress.value
    ensures shown.Some? && script.progress.None? ==> shown.value == 0
  {
    if script.status == RUNNING then Some(script.progress.GetOr(0)) else None
  }

  /** What the card's body shows: the error box, or the description. */
  datatype Body = ErrorBox(error: string) | Description(text: string)

  /** The error box replaces the description exactly when a failed tool carries a non-empty error. */
  function CardBody(script: GISScript): (body: Body)
    ensures body.ErrorBox? <==> script.status == FAILED && Truthy(script.error)
    ensures body.ErrorBox? ==> body.error == script.error.value
    ensures body.Description? ==> body.text == script.description
  {
    if script.status == FAILED && Truthy(script.error) then ErrorBox(script.error.value)
    else Description(script.description)
  }

  /** A failed tool with an error shows the alert, the "Error Found" caption and its error, selected or not. */
  lemma FailedCardShowsError(script: GISScript, isSelected: bool)
    requires script.status == FAILED && Truthy(script.error)
    ensures Badge(script.status, isSelected) == Some(ALERT)
    ensures StatusLabel(script.status) == Some("Error Found")
    ensures CardBody(script) == ErrorBox(script.error.value)
    ensures ProgressShown(script).None?
  {
  }
}
