/**
 * The tool configuration panel: the geodatabase check behind the feature-class preview, the
 * routing of a file-browser pick into one configuration key, the Excel output field that is
 * shown with a file name appended and stored without it, URL validation, and the execute button.
 * Edits leave the panel as `ConfigUpdate`s that the application merges into its configuration.
 */
module ConfigurationPanel {
  import opened Types
  import opened Config
  import opened Text
  import opened FileBrowser

  const URL_ERROR := "Please enter a valid URL (e.g. https://www.arcgis.com)"

  /** The file name shown after the output folder in the Excel output field. */
  const EXCEL_FILE_NAME := "portal_items.xls"

  /** Where a browser pick goes: the Excel output field, or one string key of the configuration. */
  datatype Target = PortalExcel | FieldTarget(field: StringField)

  /**
   * Whether a geodatabase is selected: the source path, lower-cased, ends in ".gdb" or ".gdb\\".
   * The path's own truthiness test adds nothing, since an empty path ends in neither.
   */
  predicate IsGdbSelected(sourceGdb: string): (selected: bool)
    ensures selected <==> EndsWith(Lower(sourceGdb), ".gdb") || EndsWith(Lower(sourceGdb), ".gdb\\")
    ensures selected ==> |sourceGdb| >= 4
  {
    sourceGdb != "" && (EndsWith(Lower(sourceGdb), ".gdb") || EndsWith(Lower(sourceGdb), ".gdb\\"))
  }

  /** The check ignores case. */
  lemma GdbSelectedIgnoresCase(sourceGdb: string)
    ensures IsGdbSelected(Lower(sourceGdb)) <==> IsGdbSelected(sourceGdb)
  {
    LowerIdempotent(sourceGdb);
  }

  /** A path ending in ".gdb", in any mix of cases, counts as a geodatabase. */
  lemma GdbSuffixSelected(base: string, suffix: string)
    requires Lower(suffix) == ".gdb"
    ensures IsGdbSelected(base + suffix)
  {
    LowerAppend(base, suffix);
    var lp := Lower(base) + Lower(suffix);
    assert lp[|lp| - 4..] == ".gdb";
  }

  /** The rows of the feature-class preview: the mock listing once a geodatabase is selected. */
  function FeatureClassesShown(config: AppConfig): (rows: seq<FeatureClass>)
    ensures IsGdbSelected(config.sourceGdb) ==> rows == FEATURE_CLASSES_MOCK
    ensures !IsGdbSelected(config.sourceGdb) ==> rows == []
  {
    if IsGdbSelected(config.sourceGdb) then FEATURE_CLASSES_MOCK else []
  }

  /** The preview is shown for the default source geodatabase. */
  lemma DefaultSourceIsGdb()
    ensures IsGdbSelected(DEFAULT_CONFIG.sourceGdb)
  {
    assert Lower(".gdb") == ".gdb";
    GdbSuffixSelected("C:\\Data\\MyDatabase", ".gdb");
    assert DEFAULT_CONFIG.sourceGdb == "C:\\Data\\MyDatabase" + ".gdb";
  }

  /** The configuration key a pick for `target` is stored in. */
  function TargetKey(target: Target): StringField
  {
    if target == PortalExcel then OutputFolder else target.field
  }

  /**
   * The update `handleBrowserSelect(path)` sends, as written: a pick for the Excel field keeps
   * only the text before the last `\` of the picked path.
   */
  function BrowserSelectionAsWritten(target: Target, path: string): (u: ConfigUpdate)
    ensures NoFlagKeys(u)
    ensures target.FieldTarget? ==> Named(u, target.field) == Some(path)
    ensures target == PortalExcel ==> Named(u, OutputFolder) == Some(PrefixBeforeLast(path, SEP))
    ensures forall g :: Named(u, g).Some? <==> g == TargetKey(target)
  {
    match target
    case PortalExcel => Only(OutputFolder, Substring(path, 0, LastIndexOf(path, SEP)))
    case FieldTarget(f) => Only(f, path)
  }

  /**
   * As written, the Excel field's browser, which is opened to pick a folder, stores the parent
   * of the folder picked, and nothing at all when the drive itself is picked.
   */
  lemma PickedFolderStoresParent(c: AppConfig, parent: string, name: string)
    requires SEP !in name
    ensures var picked := ChildPath(parent, name);
      && Merge(c, BrowserSelectionAsWritten(PortalExcel, picked)).outputFolder == parent
      && parent != picked
    ensures Merge(c, BrowserSelectionAsWritten(PortalExcel, ROOT)).outputFolder == ""
  {
    PrefixBeforeLastJoined(parent, SEP, name);
    assert |ChildPath(parent, name)| > |parent|;
    assert SEP !in ROOT;
  }

  /**
   * The update `handleBrowserSelect(path)` evidently means to send: the picked path, verbatim,
   * into the key of the target. For the Excel field that key is the output folder, so the
   * spreadsheet is written into the folder picked.
   */
  function BrowserSelection(target: Target, path: string): (u: ConfigUpdate)
    ensures NoFlagKeys(u)
    ensures Named(u, TargetKey(target)) == Some(path)
    ensures forall g :: Named(u, g).Some? <==> g == TargetKey(target)
  {
    Only(TargetKey(target), path)
  }

  /** The two agree on every target but the Excel field. */
  lemma SelectionsAgreeOnFields(field: StringField, path: string)
    ensures BrowserSelection(FieldTarget(field), path) == BrowserSelectionAsWritten(FieldTarget(field), path)
  {
  }

  /**
   * A pick writes the path verbatim into its target's key and changes nothing else; after a pick
   * for the Excel field, that field shows the spreadsheet inside the folder picked.
   */
  lemma SelectionEffect(c: AppConfig, target: Target, path: string)
    ensures var r := Merge(c, BrowserSelection(target, path));
      && Get(r, TargetKey(target)) == path
      && (forall g :: g != TargetKey(target) ==> Get(r, g) == Get(c, g))
      && (target == PortalExcel ==> ExcelFieldValue(r.outputFolder) == path + [SEP] + EXCEL_FILE_NAME)
      && r.backendVerified == c.backendVerified && r.comparisonType == c.comparisonType
      && r.verboseLogging == c.verboseLogging && r.dryRun == c.dryRun && r.theme == c.theme
  {
    MergeOnly(c, TargetKey(target), path);
  }

  /** The text shown in the Excel output field. */
  function ExcelFieldValue(outputFolder: string): string
  {
    outputFolder + [SEP] + EXCEL_FILE_NAME
  }

  /** The update sent when the Excel output field is edited: the text before its last `\`. */
  function ExcelFieldUpdate(v: string): (u: ConfigUpdate)
    ensures u == Only(OutputFolder, PrefixBeforeLast(v, SEP))
  {
    Only(OutputFolder, Substring(v, 0, LastIndexOf(v, SEP)))
  }

  /** Editing only the file name of the Excel field leaves the output folder as it was. */
  lemma ExcelFieldRoundTrip(c: AppConfig, fileName: string)
    requires SEP !in fileName
    ensures Merge(c, ExcelFieldUpdate(c.outputFolder + [SEP] + fileName)) == c
  {
    PrefixBeforeLastJoined(c.outputFolder, SEP, fileName);
    assert Get(c, OutputFolder) == c.outputFolder;
    MergeOnlySame(c, OutputFolder);
  }

  /** Submitting the Excel field's displayed value unchanged changes nothing. */
  lemma ExcelFieldShownValueKeepsFolder(c: AppConfig)
    ensures Merge(c, ExcelFieldUpdate(ExcelFieldValue(c.outputFolder))) == c
  {
    assert SEP !in EXCEL_FILE_NAME;
    ExcelFieldRoundTrip(c, EXCEL_FILE_NAME);
  }

  /** The URL error after validating `url`; `parses` is whether `new URL(url)` succeeds. */
  function UrlErrorFor(url: string, parses: bool): (e: Option<string>)
    ensures e.None? <==> url == "" || parses
    ensures e.Some? ==> e.value == URL_ERROR
  {
    if url == "" then None else if parses then None else Some(URL_ERROR)
  }

  /** A field's edits are validated as a URL when its label mentions "url" in any case. */
  predicate IsUrlField(caption: string): (validated: bool)
    ensures Contains(caption, "url") || Contains(caption, "URL") ==> validated
  {
    UrlMentionLowered(caption);
    Contains(Lower(caption), "url")
  }

  /** "url" or "URL" in a label is "url" in the lower-cased label. */
  lemma UrlMentionLowered(caption: string)
    ensures Contains(caption, "url") || Contains(caption, "URL") ==> Contains(Lower(caption), "url")
  {
    assert Lower("url") == "url" && Lower("URL") == "url";
    if Contains(caption, "url") {
      ContainsLower(caption, "url");
    } else if Contains(caption, "URL") {
      ContainsLower(caption, "URL");
    }
  }

  /** The portal's address field is the one field of the panel whose edits are validated as a URL. */
  lemma PortalUrlFieldValidated()
    ensures IsUrlField("Portal URL")
  {
    assert "Portal URL"[7..10] == "URL";
    assert OccursAt("Portal URL", "URL", 7);
  }

  /** `getExecuteLabel()` */
  function ExecuteLabel(activeView: string): (text: string)
    ensures activeView == "gdb-extract" ==> text == "Execute Extraction"
    ensures activeView == "sde-to-sde" ==> text == "Execute Migration"
    ensures activeView == "fc-comparison" ==> text == "Run Comparison"
    ensures activeView == "portal-extract" ==> text == "Extract Portal Items"
    ensures activeView !in {"gdb-extract", "sde-to-sde", "fc-comparison", "portal-extract"} ==> text == "Execute"
  {
    if activeView == "gdb-extract" then "Execute Extraction"
    else if activeView == "sde-to-sde" then "Execute Migration"
    else if activeView == "fc-comparison" then "Run Comparison"
    else if activeView == "portal-extract" then "Extract Portal Items"
    else "Execute"
  }

  /** The panel heading: its own title for the migration and the comparison views, a generic one elsewhere. */
  function PanelTitle(activeView: string): (text: string)
    ensures activeView == "sde-to-sde" ==> text == "Database Migration"
    ensures activeView == "fc-comparison" ==> text == "Quality Comparison"
    ensures activeView != "sde-to-sde" && activeView != "fc-comparison" ==> text == "Tool Configuration"
  {
    if activeView == "sde-to-sde" then "Database Migration"
    else if activeView == "fc-comparison" then "Quality Comparison"
    else "Tool Configuration"
  }

  /** The generic heading is shown exactly off the migration and comparison views. */
  lemma PanelTitleGeneric(activeView: string)
    ensures PanelTitle(activeView) == "Tool Configuration" <==> activeView != "sde-to-sde" && activeView != "fc-comparison"
  {
    assert "Database Migration"[0] != "Tool Configuration"[0];
    assert "Quality Comparison"[0] != "Tool Configuration"[0];
  }

  /** The execute button is enabled while nothing runs and no URL error is shown. */
  predicate ExecuteEnabled(isExecuting: bool, urlError: Option<string>): (enabled: bool)
    ensures enabled ==> !isExecuting
    ensures urlError == Some(URL_ERROR) ==> !enabled
    ensures urlError.None? ==> (enabled <==> !isExecuting)
  {
    !(isExecuting || Truthy(urlError))
  }

  /** A URL error blocks execution until an edit of a URL field clears it. */
  lemma UrlErrorBlocksExecute(isExecuting: bool, url: string, parses: bool)
    ensures ExecuteEnabled(isExecuting, UrlErrorFor(url, parses)) <==> !isExecuting && (url == "" || parses)
  {
  }

  /** The panel's own state; the file-browser dialog it hosts keeps its state in `browser`. */
  class Panel {
    var urlError: Option<string>
    var browserOpen: bool
    var browserMode: Mode
    var target: Target
    var title: string
    const browser: Browser

    constructor ()
      ensures urlError == None && !browserOpen && browserMode == FolderMode
      ensures target == FieldTarget(SourceGdb) && title == "Select Geodatabase"
      ensures fresh(browser) && browser.currentPath == ROOT && browser.searchQuery == ""
      ensures browser.selectedItem == None
    {
      urlError := None;
      browserOpen := false;
      browserMode := FolderMode;
      target := FieldTarget(SourceGdb);
      title := "Select Geodatabase";
      browser := new Browser();
    }

    /** `validateUrl(url)`: an empty URL clears the error, otherwise it is set iff the URL does not parse. */
    method ValidateUrl(url: string, parses: bool)
      modifies this`urlError
      ensures urlError == UrlErrorFor(url, parses)
    {
      if url == "" {
        urlError := None;
        return;
      }
      if parses {
        urlError := None;
      } else {
        urlError := Some(URL_ERROR);
      }
    }

    /**
     * The validation half of an input's `onChange`: the edited value is checked as a URL only
     * when the field's label mentions "url". The update half is the field's own `ConfigUpdate`.
     */
    method InputChanged(caption: string, value: string, parses: bool)
      modifies this`urlError
      ensures IsUrlField(caption) ==> urlError == UrlErrorFor(value, parses)
      ensures !IsUrlField(caption) ==> urlError == old(urlError)
    {
      if Contains(Lower(caption), "url") {
        ValidateUrl(value, parses);
      }
    }

    /** `openBrowser(target, mode, title)` */
    method OpenBrowser(target: Target, mode: Mode, title: string)
      modifies this`browserOpen, this`target, this`browserMode, this`title
      ensures browserOpen && this.target == target && browserMode == mode && this.title == title
    {
      browserOpen := true;
      this.target := target;
      browserMode := mode;
      this.title := title;
    }

    /** The dialog's `onClose`. */
    method CloseBrowser()
      modifies this`browserOpen
      ensures !browserOpen
    {
      browserOpen := false;
    }

    /**
     * The dialog's confirm button, as written: the dialog's pick, if any, routed through
     * `handleBrowserSelect` into the update for the target the dialog was opened for; the
     * dialog then closes.
     */
    method ConfirmBrowser() returns (u: Option<ConfigUpdate>)
      modifies this`browserOpen
      ensures var picked := ConfirmTarget(browserMode, browser.currentPath, browser.selectedItem);
        u == if picked.Some? then Some(BrowserSelectionAsWritten(target, picked.value)) else None
      ensures !browserOpen
    {
      var picked := browser.HandleConfirm(browserMode);
      if picked.Some? {
        u := Some(BrowserSelectionAsWritten(target, picked.value));
      } else {
        u := None;
      }
      CloseBrowser();
    }

    /** The confirm button with the corrected `handleBrowserSelect`: the pick goes in verbatim. */
    method ConfirmBrowserCorrected() returns (u: Option<ConfigUpdate>)
      modifies this`browserOpen
      ensures var picked := ConfirmTarget(browserMode, browser.currentPath, browser.selectedItem);
        u == if picked.Some? then Some(BrowserSelection(target, picked.value)) else None
      ensures !browserOpen
    {
      var picked := browser.HandleConfirm(browserMode);
      if picked.Some? {
        u := Some(BrowserSelection(target, picked.value));
      } else {
        u := None;
      }
      CloseBrowser();
    }

    /** The reset button: `onChange(DEFAULT_CONFIG)`; the URL error is left as it is. */
    method Reset() returns (u: ConfigUpdate)
      ensures u == ResetUpdate()
    {
      u := ResetUpdate();
    }
  }
}
