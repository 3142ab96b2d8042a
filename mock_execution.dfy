/**
 * The simulated run of a tool. A run emits a fixed sequence of log lines and progress values
 * that depends only on the dry-run flag, the source-geodatabase check, the verbosity flag and
 * the outcome of the random failure draw, then reports success or failure.
 */
module MockExecution {
  import opened Types
  import opened Config
  import opened Text

  /** Everything one run emits: its log lines and its progress reports, in order, and its result. */
  datatype Trace = Trace(logs: seq<LogEntry>, reports: seq<int>, ok: bool)

  const CHECKING_FILES := "Checking file accessibility..."
  const EMPTY_SOURCE_ERROR := "Error: Source Geodatabase path is empty."
  const READING_DATA := "Reading spatial data..."
  const APPLYING_TRANSFORMATIONS := "Applying transformations..."
  const DETAIL_LAYER := "[Detail] Processing layer: \"Main_Infrastructure\""
  const DETAIL_MEMORY := "[Detail] Memory Usage: 320 MB"
  const FATAL_ERROR := "Fatal: Unexpected error during file write operation."

  /** The script id for which an empty source geodatabase is accepted. */
  const SDE_TO_GDB := "sde-to-gdb"

  function Last(s: seq<int>): int
    requires |s| > 0
  {
    s[|s| - 1]
  }

  predicate StrictlyIncreasing(s: seq<int>)
  {
    forall i, j :: 0 <= i < j < |s| ==> s[i] < s[j]
  }

  predicate NoErrors(logs: seq<LogEntry>)
  {
    forall i :: 0 <= i < |logs| ==> logs[i].level != ERROR
  }

  /** The text of the dry-run warning: the command line that would have been run. */
  function DryRunCommand(script: GISScript, config: AppConfig): string
  {
    "TEST RUN: Command would be: \"" + config.interpreterPath + DryRunTarget(script)
  }

  /** The tail of the dry-run warning, after the interpreter path. */
  function DryRunTarget(script: GISScript): string
  {
    "\" \"" + OrElse(script.scriptPath, script.id) + ".py\""
  }

  /** The source check rejects the run: an empty source geodatabase for any tool but sde-to-gdb. */
  predicate SourceMissing(script: GISScript, config: AppConfig)
  {
    config.sourceGdb == "" && script.id != SDE_TO_GDB
  }

  /** The run gets past validation into processing. */
  predicate ReachesProcessing(script: GISScript, config: AppConfig)
  {
    !config.dryRun && !SourceMissing(script, config)
  }

  /** The two lines every run opens with. */
  function Opening(script: GISScript, ts: string): seq<LogEntry>
  {
    [ LogEntry(ts, SYSTEM, "Preparing: " + script.name),
      LogEntry(ts, INFO, "Starting: " + OrElse(script.scriptPath, "Internal Module")) ]
  }

  /** The lines up to the source check. */
  function Validated(script: GISScript, ts: string): seq<LogEntry>
  {
    Opening(script, ts) + [LogEntry(ts, INFO, CHECKING_FILES)]
  }

  /** The lines up to the file-write step; verbose logging adds the two detail lines. */
  function Processed(script: GISScript, config: AppConfig, ts: string): seq<LogEntry>
  {
    Validated(script, ts)
      + [LogEntry(ts, INFO, READING_DATA), LogEntry(ts, INFO, APPLYING_TRANSFORMATIONS)]
      + (if config.verboseLogging
         then [LogEntry(ts, INFO, DETAIL_LAYER), LogEntry(ts, INFO, DETAIL_MEMORY)]
         else [])
  }

  /** The closing line of a run that got past validation. */
  function Completion(script: GISScript, fatal: bool, ts: string): LogEntry
  {
    if fatal then LogEntry(ts, ERROR, FATAL_ERROR)
    else LogEntry(ts, LogLevel.SUCCESS, "Done: " + script.name + " completed successfully.")
  }

  /**
   * The result, the log and the progress of a trace agree: the run succeeds exactly when no
   * error was logged; progress starts at 10 and stays within 0..100; a success climbs strictly
   * to 100, a failure ends on an error line with progress back at 0.
   */
  predicate Coherent(t: Trace)
  {
    && |t.reports| >= 3 && t.reports[0] == 10
    && (t.ok <==> NoErrors(t.logs))
    && (forall i :: 0 <= i < |t.reports| ==> 0 <= t.reports[i] <= 100)
    && (t.ok ==> Last(t.reports) == 100 && StrictlyIncreasing(t.reports))
    && (!t.ok ==> Last(t.reports) == 0 && |t.logs| > 0 && t.logs[|t.logs| - 1].level == ERROR)
  }

  /** The trace of a dry run. */
  function DryRunTrace(script: GISScript, config: AppConfig, ts: string): (t: Trace)
    ensures Coherent(t) && |t.logs| == 3 && t.logs[..2] == Opening(script, ts)
  {
    Trace(Opening(script, ts) + [LogEntry(ts, WARNING, DryRunCommand(script, config))], [10, 50, 100], true)
  }

  /** The trace of a run the source check rejects. */
  function RejectedTrace(script: GISScript, ts: string): (t: Trace)
    ensures Coherent(t) && |t.logs| == 4 && t.logs[..2] == Opening(script, ts)
  {
    var logs := Validated(script, ts) + [LogEntry(ts, ERROR, EMPTY_SOURCE_ERROR)];
    assert logs[3].level == ERROR;
    Trace(logs, [10, 25, 0], false)
  }

  /** The trace of a run that gets past the source check. */
  function ProcessedTrace(script: GISScript, config: AppConfig, fatal: bool, ts: string): (t: Trace)
    ensures Coherent(t) && |t.logs| >= 6 && t.logs[..2] == Opening(script, ts)
  {
    var logs := Processed(script, config, ts) + [Completion(script, fatal, ts)];
    assert logs[|logs| - 1] == Completion(script, fatal, ts);
    assert logs[..2] == Opening(script, ts);
    Trace(logs, [10, 25, 45, 70, 90, if fatal then 0 else 100], !fatal)
  }

  /**
   * What `simulateScriptRun` emits when every line is stamped `ts` and the random draw
   * `Math.random() < 0.05` came out as `fatal`.
   */
  function ScriptRun(script: GISScript, config: AppConfig, fatal: bool, ts: string): (t: Trace)
    // every run opens the same way
    ensures |t.logs| >= 3
    ensures t.logs[0] == LogEntry(ts, SYSTEM, "Preparing: " + script.name)
    ensures t.logs[1] == LogEntry(ts, INFO, "Starting: " + OrElse(script.scriptPath, "Internal Module"))
    // the result, the log and the progress agree
    ensures Coherent(t)
  {
    var t :=
      if config.dryRun then DryRunTrace(script, config, ts)
      else if SourceMissing(script, config) then RejectedTrace(script, ts)
      else ProcessedTrace(script, config, fatal, ts);
    assert t.logs[0] == t.logs[..2][0] && t.logs[1] == t.logs[..2][1];
    t
  }

  /** A dry run warns with the interpreter path and returns before the validation step, so 25 is never reported. */
  lemma DryRunWarns(script: GISScript, config: AppConfig, fatal: bool, ts: string)
    requires config.dryRun
    ensures var t := ScriptRun(script, config, fatal, ts);
      && t.ok && |t.logs| == 3
      && t.logs[2].level == WARNING && Contains(t.logs[2].message, config.interpreterPath)
      && t.reports == [10, 50, 100]
  {
    ContainsMiddle("TEST RUN: Command would be: \"", config.interpreterPath, DryRunTarget(script));
  }

  /** A missing source geodatabase stops the run at validation with the empty-path error. */
  lemma MissingSourceFails(script: GISScript, config: AppConfig, fatal: bool, ts: string)
    requires !config.dryRun && SourceMissing(script, config)
    ensures var t := ScriptRun(script, config, fatal, ts);
      && !t.ok && t.logs[|t.logs| - 1] == LogEntry(ts, ERROR, EMPTY_SOURCE_ERROR)
      && t.reports == [10, 25, 0]
  {
  }

  /** Past validation, the random draw alone decides between the fatal error and success. */
  lemma DrawDecidesCompletion(script: GISScript, config: AppConfig, fatal: bool, ts: string)
    requires ReachesProcessing(script, config)
    ensures var t := ScriptRun(script, config, fatal, ts);
      && (t.ok <==> !fatal)
      && t.logs[|t.logs| - 1] == (if fatal then LogEntry(ts, ERROR, FATAL_ERROR)
                                  else LogEntry(ts, LogLevel.SUCCESS, "Done: " + script.name + " completed successfully."))
      && t.reports == [10, 25, 45, 70, 90, if fatal then 0 else 100]
  {
  }

  /**
   * Verbose logging inserts exactly the two detail lines right after "Applying
   * transformations..." and changes nothing else about the run.
   */
  lemma VerboseAddsTwoDetails(script: GISScript, config: AppConfig, fatal: bool, ts: string)
    ensures var quiet := ScriptRun(script, config.(verboseLogging := false), fatal, ts);
      var loud := ScriptRun(script, config.(verboseLogging := true), fatal, ts);
      && loud.reports == quiet.reports && loud.ok == quiet.ok
      && (ReachesProcessing(script, config) ==>
            && |quiet.logs| == 6
            && quiet.logs[4] == LogEntry(ts, INFO, APPLYING_TRANSFORMATIONS)
            && loud.logs == quiet.logs[..5]
                 + [LogEntry(ts, INFO, DETAIL_LAYER), LogEntry(ts, INFO, DETAIL_MEMORY)]
                 + quiet.logs[5..])
      && (!ReachesProcessing(script, config) ==> loud.logs == quiet.logs)
  {
    var q, l := config.(verboseLogging := false), config.(verboseLogging := true);
    if ReachesProcessing(script, config) {
      var head := Validated(script, ts) + [LogEntry(ts, INFO, READING_DATA), LogEntry(ts, INFO, APPLYING_TRANSFORMATIONS)];
      var details := [LogEntry(ts, INFO, DETAIL_LAYER), LogEntry(ts, INFO, DETAIL_MEMORY)];
      var last := [Completion(script, fatal, ts)];
      assert ScriptRun(script, q, fatal, ts).logs == head + last;
      assert ScriptRun(script, l, fatal, ts).logs == head + details + last;
      assert (head + last)[..5] == head && (head + last)[5..] == last;
    }
  }

  /** The receiver of a run's `onLog` and `onProgress` callbacks. */
  class Sink {
    var logs: seq<LogEntry>
    var progress: int
    /** Every value passed to `onProgress`, in order. */
    ghost var reports: seq<int>

    constructor (logs: seq<LogEntry>)
      ensures this.logs == logs && progress == 0 && reports == []
    {
      this.logs := logs;
      progress := 0;
      reports := [];
    }

    /** `onLog(entry)` */
    method OnLog(entry: LogEntry)
      modifies this`logs
      ensures logs == old(logs) + [entry]
    {
      logs := logs + [entry];
    }

    /** `onProgress(value)` */
    method OnProgress(value: int)
      modifies this`progress, this`reports
      ensures progress == value && reports == old(reports) + [value]
    {
      progress := value;
      reports := reports + [value];
    }
  }

  /** Lines 14-17 of the run: the two opening lines, then progress 10. */
  method Announce(script: GISScript, ts: string, sink: Sink)
    modifies sink
    ensures sink.logs == old(sink.logs) + Opening(script, ts)
    ensures sink.reports == old(sink.reports) + [10] && sink.progress == 10
  {
    sink.OnLog(LogEntry(ts, SYSTEM, "Preparing: " + script.name));
    sink.OnLog(LogEntry(ts, INFO, "Starting: " + OrElse(script.scriptPath, "Internal Module")));
    sink.OnProgress(10);
  }

  /** The dry-run branch: progress 50, the warning with the command line, progress 100. */
  method WarnDryRun(script: GISScript, config: AppConfig, ts: string, sink: Sink)
    modifies sink
    ensures sink.logs == old(sink.logs) + [LogEntry(ts, WARNING, DryRunCommand(script, config))]
    ensures sink.reports == old(sink.reports) + [50, 100] && sink.progress == 100
  {
    sink.OnProgress(50);
    sink.OnLog(LogEntry(ts, WARNING, DryRunCommand(script, config)));
    sink.OnProgress(100);
  }

  /** Progress 25, then the accessibility check line. */
  method Validate(ts: string, sink: Sink)
    modifies sink
    ensures sink.logs == old(sink.logs) + [LogEntry(ts, INFO, CHECKING_FILES)]
    ensures sink.reports == old(sink.reports) + [25] && sink.progress == 25
  {
    sink.OnProgress(25);
    sink.OnLog(LogEntry(ts, INFO, CHECKING_FILES));
  }

  /** An error line, then progress back to 0. */
  method Fail(message: string, ts: string, sink: Sink)
    modifies sink
    ensures sink.logs == old(sink.logs) + [LogEntry(ts, ERROR, message)]
    ensures sink.reports == old(sink.reports) + [0] && sink.progress == 0
  {
    sink.OnLog(LogEntry(ts, ERROR, message));
    sink.OnProgress(0);
  }

  /** Progress 45 and 70 with their lines, the detail lines when verbose, then progress 90. */
  method Process(config: AppConfig, ts: string, sink: Sink)
    modifies sink
    ensures sink.logs == old(sink.logs)
      + [LogEntry(ts, INFO, READING_DATA), LogEntry(ts, INFO, APPLYING_TRANSFORMATIONS)]
      + (if config.verboseLogging
         then [LogEntry(ts, INFO, DETAIL_LAYER), LogEntry(ts, INFO, DETAIL_MEMORY)]
         else [])
    ensures sink.reports == old(sink.reports) + [45, 70, 90] && sink.progress == 90
  {
    sink.OnProgress(45);
    sink.OnLog(LogEntry(ts, INFO, READING_DATA));
    sink.OnProgress(70);
    sink.OnLog(LogEntry(ts, INFO, APPLYING_TRANSFORMATIONS));
    if config.verboseLogging {
      sink.OnLog(LogEntry(ts, INFO, DETAIL_LAYER));
      sink.OnLog(LogEntry(ts, INFO, DETAIL_MEMORY));
    }
    sink.OnProgress(90);
  }

  /**
   * `simulateScriptRun(script, config, onLog, onProgress)` with the delays dropped: appends the
   * run's lines to `sink.logs`, reports each progress value, and returns the run's result.
   */
  method SimulateScriptRun(script: GISScript, config: AppConfig, fatal: bool, ts: string, sink: Sink)
    returns (ok: bool)
    modifies sink
    ensures var t := ScriptRun(script, config, fatal, ts);
      && ok == t.ok
      && sink.logs == old(sink.logs) + t.logs
      && sink.reports == old(sink.reports) + t.reports
      && sink.progress == Last(t.reports)
  {
    ghost var logs0, reports0 := sink.logs, sink.reports;
    Announce(script, ts, sink);

    if config.dryRun {
      WarnDryRun(script, config, ts, sink);
      return true;
    }

    Validate(ts, sink);
    assert sink.logs == logs0 + Validated(script, ts);

    if config.sourceGdb == "" && script.id != SDE_TO_GDB {
      Fail(EMPTY_SOURCE_ERROR, ts, sink);
      return false;
    }

    Process(config, ts, sink);
    assert sink.logs == logs0 + Processed(script, config, ts);
    assert sink.reports == reports0 + [10, 25, 45, 70, 90];

    if fatal {
      Fail(FATAL_ERROR, ts, sink);
      return false;
    }

    sink.OnLog(LogEntry(ts, LogLevel.SUCCESS, "Done: " + script.name + " completed successfully."));
    sink.OnProgress(100);
    return true;
  }
}
