/**
 * The application shell: the active view, the configuration (loaded from storage over the
 * defaults, updated by shallow merges, saved back and reflected in the theme classes of the
 * page), the console log, and the confirm-then-execute sequence that frames one mock run.
 */
module App {
  import opened Types
  import opened Config
  import opened MockExecution

  /** The views the sidebar offers. */
  const VIEWS: set<string> :=
    {"dashboard", "gdb-extract", "sde-to-sde", "fc-comparison", "portal-extract", "job-history", "settings"}

  /** The views with a header: every view but the dashboard. */
  const TOOL_VIEWS: set<string> :=
    {"gdb-extract", "sde-to-sde", "fc-comparison", "portal-extract", "job-history", "settings"}

  /** The views that show the configuration panel, and with it the execute button. */
  const PANEL_VIEWS: set<string> := {"gdb-extract", "sde-to-sde", "fc-comparison", "portal-extract", "job-history"}

  const PIPELINE_DONE := "Pipeline process finished successfully."
  const PIPELINE_FAILED := "Execution failed. Review console logs for data lock errors."

  /** The header of a view. */
  datatype ToolInfo = ToolInfo(title: string, sub: string)

  /** `getToolInfo()`; the dashboard and unknown views have none. */
  function GetToolInfo(activeView: string): (info: Option<ToolInfo>)
    ensures info.Some? <==> activeView in TOOL_VIEWS
  {
    if activeView == "gdb-extract" then
      Some(ToolInfo("GDB Extraction", "Extract feature classes from a File Geodatabase to individual shapefiles"))
    else if activeView == "sde-to-sde" then
      Some(ToolInfo("SDE to SDE Conversion", "Migrate feature classes between Enterprise Geodatabases"))
    else if activeView == "fc-comparison" then
      Some(ToolInfo("Feature Class Comparison", "Compare schema, attributes, or spatial properties between datasets"))
    else if activeView == "portal-extract" then
      Some(ToolInfo("Portal Content Extraction", "Connect to Portal/AGOL and export a catalog of items to Excel"))
    else if activeView == "job-history" then
      Some(ToolInfo("Job History", "Historical records of all automation workflows"))
    else if activeView == "settings" then
      Some(ToolInfo("Settings", "Global application parameters and environment config"))
    else None
  }

  /** Of the views the sidebar offers, only the dashboard has no header. */
  lemma OfferedViewHasHeader(v: string)
    requires v in VIEWS
    ensures GetToolInfo(v).Some? <==> v != "dashboard"
  {
    assert "dashboard" !in TOOL_VIEWS by {
      assert "dashboard"[0] != "gdb-extract"[0] && "dashboard"[0] != "sde-to-sde"[0];
      assert "dashboard"[0] != "fc-comparison"[0] && "dashboard"[0] != "portal-extract"[0];
      assert "dashboard"[0] != "job-history"[0] && "dashboard"[0] != "settings"[0];
    }
  }

  /**
   * The configuration after the load effect: the parsed saved object over the defaults when
   * something was saved and it parsed, the current configuration otherwise. `saved` is what
   * storage returned, `parsed` the outcome of parsing it (`None` when parsing threw).
   */
  function Rehydrated(current: AppConfig, saved: Option<string>, parsed: Option<ConfigUpdate>): (c: AppConfig)
    ensures !Truthy(saved) || parsed.None? ==> c == current
    ensures Truthy(saved) && parsed.Some? ==>
      forall f :: Get(c, f) == Named(parsed.value, f).GetOr(Get(DEFAULT_CONFIG, f))
    ensures Truthy(saved) && parsed.Some? ==> Whole(c) == Overlay(Whole(DEFAULT_CONFIG), parsed.value)
  {
    if Truthy(saved) && parsed.Some? then
      MergeFields(DEFAULT_CONFIG, parsed.value);
      Merge(DEFAULT_CONFIG, parsed.value)
    else current
  }

  /** A configuration saved in full is restored exactly, whatever was current. */
  lemma SavedConfigRestored(current: AppConfig, c: AppConfig, text: string)
    requires text != ""
    ensures Rehydrated(current, Some(text), Some(Whole(c))) == c
  {
    MergeWhole(DEFAULT_CONFIG, c);
  }

  /** The page's class list after the theme effect. */
  function ThemeClasses(classes: set<string>, theme: Theme): (r: set<string>)
    ensures "dark" in r <==> theme == Dark
    ensures "light" in r <==> theme == Light
    ensures forall x :: x != "dark" && x != "light" ==> (x in r <==> x in classes)
  {
    match theme
    case Dark => classes + {"dark"} - {"light"}
    case Light => classes + {"light"} - {"dark"}
  }

  /** Only the latest theme matters: applying one theme after another is applying the second. */
  lemma ThemeLastWins(classes: set<string>, first: Theme, second: Theme)
    ensures ThemeClasses(ThemeClasses(classes, first), second) == ThemeClasses(classes, second)
  {
    var a, b := ThemeClasses(ThemeClasses(classes, first), second), ThemeClasses(classes, second);
    assert forall x :: x in a <==> x in b;
  }

  /** The line a run starts with. */
  function InitEntry(activeView: string, ts: string): LogEntry
  {
    LogEntry(ts, SYSTEM, "Initializing " + activeView + " task sequence...")
  }

  /** The line a run ends with. */
  function FinalEntry(ok: bool, ts: string): LogEntry
  {
    if ok then LogEntry(ts, LogLevel.SUCCESS, PIPELINE_DONE) else LogEntry(ts, ERROR, PIPELINE_FAILED)
  }

  /** The script handed to the simulator: the active view's id as id and name, idle, no script path. */
  function DummyScript(activeView: string): GISScript
  {
    GISScript(activeView, activeView, "", "", IDLE, None, None, None)
  }

  /**
   * The console after `handleExecute`: the opening line, the simulator's lines, and one closing
   * line that says SUCCESS exactly when the simulator logged no error.
   */
  function ExecutionLog(activeView: string, config: AppConfig, fatal: bool, ts: string): (logs: seq<LogEntry>)
    ensures var run := ScriptRun(DummyScript(activeView), config, fatal, ts);
      && |logs| == |run.logs| + 2
      && logs[0] == InitEntry(activeView, ts)
      && logs[1..|logs| - 1] == run.logs
      && logs[|logs| - 1] == FinalEntry(run.ok, ts)
      && (logs[|logs| - 1].level == LogLevel.SUCCESS <==> NoErrors(run.logs))
  {
    var run := ScriptRun(DummyScript(activeView), config, fatal, ts);
    var logs := [InitEntry(activeView, ts)] + run.logs + [FinalEntry(run.ok, ts)];
    assert logs[1..|logs| - 1] == run.logs;
    logs
  }

  /** The one script id the source check exempts is not the id of any panel view. */
  lemma SdeToGdbIsNoPanelView()
    ensures SDE_TO_GDB !in PANEL_VIEWS
  {
    assert SDE_TO_GDB[0] != "gdb-extract"[0] && SDE_TO_GDB[0] != "fc-comparison"[0];
    assert SDE_TO_GDB[0] != "portal-extract"[0] && SDE_TO_GDB[0] != "job-history"[0];
    assert SDE_TO_GDB[7] != "sde-to-sde"[7];
  }

  /**
   * From the application, a real run with an empty source geodatabase always fails at the
   * source check: the script id is the view id, and no view is "sde-to-gdb".
   */
  lemma EmptySourceAlwaysFails(activeView: string, config: AppConfig, fatal: bool, ts: string)
    requires activeView in PANEL_VIEWS
    requires !config.dryRun && config.sourceGdb == ""
    ensures var logs := ExecutionLog(activeView, config, fatal, ts);
      && |logs| == 6
      && logs[4] == LogEntry(ts, ERROR, EMPTY_SOURCE_ERROR)
      && logs[5] == FinalEntry(false, ts)
  {
    SdeToGdbIsNoPanelView();
    MissingSourceFails(DummyScript(activeView), config, fatal, ts);
  }

  /** The application's state, and the page state its effects write. */
  class AppState {
    var activeView: string
    var config: AppConfig
    var logs: seq<LogEntry>
    var isExecuting: bool
    var showConfirm: bool
    /** The class list of the document element. */
    var classList: set<string>
    /** The configuration last written to storage. */
    var stored: Option<AppConfig>

    /** The active view is one the sidebar offers. */
    predicate Valid()
      reads this
    {
      activeView in VIEWS
    }

    /**
     * The header's title and subtitle. The header is drawn for every view but the dashboard;
     * for a view the sidebar offers, it is drawn exactly when there is a title to put in it.
     */
    function Header(): (info: Option<ToolInfo>)
      reads this
      requires Valid()
      ensures info == GetToolInfo(activeView)
      ensures info.Some? <==> activeView != "dashboard"
    {
      OfferedViewHasHeader(activeView);
      GetToolInfo(activeView)
    }

    constructor (classList: set<string>, stored: Option<AppConfig>)
      ensures activeView == "dashboard" && config == DEFAULT_CONFIG && logs == []
      ensures !isExecuting && !showConfirm
      ensures this.classList == classList && this.stored == stored
      ensures Valid()
    {
      activeView := "dashboard";
      config := DEFAULT_CONFIG;
      logs := [];
      isExecuting := false;
      showConfirm := false;
      this.classList := classList;
      this.stored := stored;
    }

    /** The load effect at mount. */
    method Rehydrate(saved: Option<string>, parsed: Option<ConfigUpdate>)
      modifies this`config
      ensures config == Rehydrated(old(config), saved, parsed)
    {
      if saved.Some? && saved.value != "" {
        if parsed.Some? {
          config := Merge(DEFAULT_CONFIG, parsed.value);
        }
      }
    }

    /** The effect run after every configuration change: save it, then apply its theme. */
    method ApplyConfigEffect()
      modifies this`stored, this`classList
      ensures stored == Some(config)
      ensures classList == ThemeClasses(old(classList), config.theme)
    {
      stored := Some(config);
      if config.theme == Dark {
        classList := classList + {"dark"};
        classList := classList - {"light"};
      } else {
        classList := classList + {"light"};
        classList := classList - {"dark"};
      }
    }

    /** The `onChange` of the panel and the settings page: `setConfig(p => ({ ...p, ...u }))`. */
    method UpdateConfig(u: ConfigUpdate)
      modifies this`config
      ensures config == Merge(old(config), u)
    {
      config := Merge(config, u);
    }

    /** `addLog(log)` */
    method AddLog(entry: LogEntry)
      modifies this`logs
      ensures logs == old(logs) + [entry]
    {
      logs := logs + [entry];
    }

    /** The console's clear button. */
    method ClearConsole()
      modifies this`logs
      ensures logs == []
    {
      logs := [];
    }

    /** The execute button: ask for confirmation first. */
    method ConfirmExecute()
      modifies this`showConfirm
      ensures showConfirm
    {
      showConfirm := true;
    }

    /** The dialog's cancel button. */
    method CancelConfirm()
      modifies this`showConfirm
      ensures !showConfirm
    {
      showConfirm := false;
    }

    /** A sidebar click: ignored while a run is in progress. */
    method ChangeView(v: string)
      modifies this`activeView
      ensures activeView == if old(isExecuting) then old(activeView) else v
      ensures old(Valid()) && v in VIEWS ==> Valid()
    {
      if !isExecuting {
        activeView := v;
      }
    }

    /** The start of `handleExecute`: close the dialog, mark the run, and restart the console. */
    method BeginExecute(ts: string)
      modifies this`showConfirm, this`isExecuting, this`logs
      ensures !showConfirm && isExecuting && logs == [InitEntry(activeView, ts)]
    {
      showConfirm := false;
      isExecuting := true;
      ClearConsole();
      AddLog(InitEntry(activeView, ts));
    }

    /** The end of `handleExecute`: the closing line, then the run is over. */
    method FinishExecute(ok: bool, ts: string)
      modifies this`logs, this`isExecuting
      ensures logs == old(logs) + [FinalEntry(ok, ts)] && !isExecuting
    {
      if ok {
        AddLog(LogEntry(ts, LogLevel.SUCCESS, PIPELINE_DONE));
      } else {
        AddLog(LogEntry(ts, ERROR, PIPELINE_FAILED));
      }
      isExecuting := false;
    }

    /**
     * `handleExecute()` with the simulator's lines passed through `addLog`; `fatal` is the
     * simulator's random draw and every line is stamped `ts`.
     */
    method HandleExecute(fatal: bool, ts: string)
      modifies this`showConfirm, this`isExecuting, this`logs
      ensures logs == ExecutionLog(activeView, config, fatal, ts)
      ensures !isExecuting && !showConfirm
    {
      BeginExecute(ts);
      var sink := new Sink(logs);
      var ok := SimulateScriptRun(DummyScript(activeView), config, fatal, ts, sink);
      logs := sink.logs;
      FinishExecute(ok, ts);
    }
  }
}
