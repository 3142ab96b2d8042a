/** The persisted configuration record, its defaults, and the shallow merge `{ ...c, ...u }`. */
module Config {
  import opened Types

  datatype ComparisonType = Schema | Attribute | Spatial

  datatype Theme = Light | Dark

  datatype AppConfig = AppConfig(
    interpreterPath: string,
    backendVerified: bool,
    sourceGdb: string,
    sdeConnection: string,
    targetSdeConnection: string,
    sourceDataset: string,
    targetDataset: string,
    outputFolder: string,
    portalUrl: string,
    portalUser: string,
    portalPass: string,
    comparisonType: ComparisonType,
    verboseLogging: bool,
    dryRun: bool,
    theme: Theme,
    sdeToGdbSource: string,
    sdeToGdbTargetFolder: string,
    sdeToGdbName: string)

  /** `Partial<AppConfig>`: every key is either present with a value or absent. */
  datatype ConfigUpdate = ConfigUpdate(
    interpreterPath: Option<string>,
    backendVerified: Option<bool>,
    sourceGdb: Option<string>,
    sdeConnection: Option<string>,
    targetSdeConnection: Option<string>,
    sourceDataset: Option<string>,
    targetDataset: Option<string>,
    outputFolder: Option<string>,
    portalUrl: Option<string>,
    portalUser: Option<string>,
    portalPass: Option<string>,
    comparisonType: Option<ComparisonType>,
    verboseLogging: Option<bool>,
    dryRun: Option<bool>,
    theme: Option<Theme>,
    sdeToGdbSource: Option<string>,
    sdeToGdbTargetFolder: Option<string>,
    sdeToGdbName: Option<string>)

  const DEFAULT_CONFIG: AppConfig := AppConfig(
    interpreterPath := "",
    backendVerified := false,
    sourceGdb := "C:\\Data\\MyDatabase.gdb",
    sdeConnection := "C:\\Users\\User\\AppData\\Roaming\\Esri\\ArcGISPro\\DBConnections\\Connection.sde",
    targetSdeConnection := "server:5151/database@user",
    sourceDataset := "C:\\Data\\Source.gdb\\FeatureClass",
    targetDataset := "C:\\Data\\Target.gdb\\FeatureClass",
    outputFolder := "C:\\output\\Shapefiles",
    portalUrl := "https://www.arcgis.com",
    portalUser := "",
    portalPass := "",
    comparisonType := Schema,
    verboseLogging := true,
    dryRun := false,
    theme := Light,
    sdeToGdbSource := "C:\\GIS\\Data\\source.sde",
    sdeToGdbTargetFolder := "C:\\GIS\\Output",
    sdeToGdbName := "OutputData.gdb")

  /** The empty update `{}`. */
  const NO_CHANGE: ConfigUpdate := ConfigUpdate(
    None, None, None, None, None, None, None, None, None,
    None, None, None, None, None, None, None, None, None)

  /** The keys of `AppConfig` whose values are strings. */
  datatype StringField =
    | InterpreterPath | SourceGdb | SdeConnection | TargetSdeConnection
    | SourceDataset | TargetDataset | OutputFolder | PortalUrl | PortalUser
    | PortalPass | SdeToGdbSource | SdeToGdbTargetFolder | SdeToGdbName

  /** `c[f]` */
  function Get(c: AppConfig, f: StringField): string
  {
    match f
    case InterpreterPath => c.interpreterPath
    case SourceGdb => c.sourceGdb
    case SdeConnection => c.sdeConnection
    case TargetSdeConnection => c.targetSdeConnection
    case SourceDataset => c.sourceDataset
    case TargetDataset => c.targetDataset
    case OutputFolder => c.outputFolder
    case PortalUrl => c.portalUrl
    case PortalUser => c.portalUser
    case PortalPass => c.portalPass
    case SdeToGdbSource => c.sdeToGdbSource
    case SdeToGdbTargetFolder => c.sdeToGdbTargetFolder
    case SdeToGdbName => c.sdeToGdbName
  }

  /** `u[f]`, absent when the update does not name the key. */
  function Named(u: ConfigUpdate, f: StringField): Option<string>
  {
    match f
    case InterpreterPath => u.interpreterPath
    case SourceGdb => u.sourceGdb
    case SdeConnection => u.sdeConnection
    case TargetSdeConnection => u.targetSdeConnection
    case SourceDataset => u.sourceDataset
    case TargetDataset => u.targetDataset
    case OutputFolder => u.outputFolder
    case PortalUrl => u.portalUrl
    case PortalUser => u.portalUser
    case PortalPass => u.portalPass
    case SdeToGdbSource => u.sdeToGdbSource
    case SdeToGdbTargetFolder => u.sdeToGdbTargetFolder
    case SdeToGdbName => u.sdeToGdbName
  }

  /** The update names no key outside the string-valued ones. */
  predicate NoFlagKeys(u: ConfigUpdate)
  {
    u.backendVerified.None? && u.comparisonType.None? && u.verboseLogging.None?
    && u.dryRun.None? && u.theme.None?
  }

  /** `{ [f]: v }`: an update that names exactly one string key. */
  function Only(f: StringField, v: string): (u: ConfigUpdate)
    ensures Named(u, f) == Some(v)
    ensures forall g :: g != f ==> Named(u, g) == None
    ensures NoFlagKeys(u)
  {
    match f
    case InterpreterPath => NO_CHANGE.(interpreterPath := Some(v))
    case SourceGdb => NO_CHANGE.(sourceGdb := Some(v))
    case SdeConnection => NO_CHANGE.(sdeConnection := Some(v))
    case TargetSdeConnection => NO_CHANGE.(targetSdeConnection := Some(v))
    case SourceDataset => NO_CHANGE.(sourceDataset := Some(v))
    case TargetDataset => NO_CHANGE.(targetDataset := Some(v))
    case OutputFolder => NO_CHANGE.(outputFolder := Some(v))
    case PortalUrl => NO_CHANGE.(portalUrl := Some(v))
    case PortalUser => NO_CHANGE.(portalUser := Some(v))
    case PortalPass => NO_CHANGE.(portalPass := Some(v))
    case SdeToGdbSource => NO_CHANGE.(sdeToGdbSource := Some(v))
    case SdeToGdbTargetFolder => NO_CHANGE.(sdeToGdbTargetFolder := Some(v))
    case SdeToGdbName => NO_CHANGE.(sdeToGdbName := Some(v))
  }

  /** A whole configuration passed where a partial one is expected: every key present. */
  function Whole(d: AppConfig): ConfigUpdate
  {
    ConfigUpdate(
      Some(d.interpreterPath), Some(d.backendVerified), Some(d.sourceGdb),
      Some(d.sdeConnection), Some(d.targetSdeConnection), Some(d.sourceDataset),
      Some(d.targetDataset), Some(d.outputFolder), Some(d.portalUrl),
      Some(d.portalUser), Some(d.portalPass), Some(d.comparisonType),
      Some(d.verboseLogging), Some(d.dryRun), Some(d.theme),
      Some(d.sdeToGdbSource), Some(d.sdeToGdbTargetFolder), Some(d.sdeToGdbName))
  }

  /**
   * `{ ...c, ...u }`: every key `u` names takes `u`'s value, every other key keeps `c`'s; that
   * is, spreading the result is spreading `c` and then `u`.
   */
  function Merge(c: AppConfig, u: ConfigUpdate): (r: AppConfig)
    ensures Whole(r) == Overlay(Whole(c), u)
  {
    AppConfig(
      u.interpreterPath.GetOr(c.interpreterPath),
      u.backendVerified.GetOr(c.backendVerified),
      u.sourceGdb.GetOr(c.sourceGdb),
      u.sdeConnection.GetOr(c.sdeConnection),
      u.targetSdeConnection.GetOr(c.targetSdeConnection),
      u.sourceDataset.GetOr(c.sourceDataset),
      u.targetDataset.GetOr(c.targetDataset),
      u.outputFolder.GetOr(c.outputFolder),
      u.portalUrl.GetOr(c.portalUrl),
      u.portalUser.GetOr(c.portalUser),
      u.portalPass.GetOr(c.portalPass),
      u.comparisonType.GetOr(c.comparisonType),
      u.verboseLogging.GetOr(c.verboseLogging),
      u.dryRun.GetOr(c.dryRun),
      u.theme.GetOr(c.theme),
      u.sdeToGdbSource.GetOr(c.sdeToGdbSource),
      u.sdeToGdbTargetFolder.GetOr(c.sdeToGdbTargetFolder),
      u.sdeToGdbName.GetOr(c.sdeToGdbName))
  }

  /** Every key named by the update takes its value; every other key keeps the old one. */
  lemma MergeFields(c: AppConfig, u: ConfigUpdate)
    ensures forall f :: Get(Merge(c, u), f) == Named(u, f).GetOr(Get(c, f))
    ensures var r := Merge(c, u);
      && r.backendVerified == u.backendVerified.GetOr(c.backendVerified)
      && r.comparisonType == u.comparisonType.GetOr(c.comparisonType)
      && r.verboseLogging == u.verboseLogging.GetOr(c.verboseLogging)
      && r.dryRun == u.dryRun.GetOr(c.dryRun)
      && r.theme == u.theme.GetOr(c.theme)
  {
    forall f ensures Get(Merge(c, u), f) == Named(u, f).GetOr(Get(c, f)) {
      match f
      case InterpreterPath =>
      case SourceGdb =>
      case SdeConnection =>
      case TargetSdeConnection =>
      case SourceDataset =>
      case TargetDataset =>
      case OutputFolder =>
      case PortalUrl =>
      case PortalUser =>
      case PortalPass =>
      case SdeToGdbSource =>
      case SdeToGdbTargetFolder =>
      case SdeToGdbName =>
    }
  }

  /** Two configurations that agree on every key are the same configuration. */
  lemma ConfigDeterminedByFields(a: AppConfig, b: AppConfig)
    requires forall f :: Get(a, f) == Get(b, f)
    requires a.backendVerified == b.backendVerified && a.comparisonType == b.comparisonType
    requires a.verboseLogging == b.verboseLogging && a.dryRun == b.dryRun && a.theme == b.theme
    ensures a == b
  {
    assert Get(a, InterpreterPath) == Get(b, InterpreterPath);
    assert Get(a, SourceGdb) == Get(b, SourceGdb);
    assert Get(a, SdeConnection) == Get(b, SdeConnection);
    assert Get(a, TargetSdeConnection) == Get(b, TargetSdeConnection);
    assert Get(a, SourceDataset) == Get(b, SourceDataset);
    assert Get(a, TargetDataset) == Get(b, TargetDataset);
    assert Get(a, OutputFolder) == Get(b, OutputFolder);
    assert Get(a, PortalUrl) == Get(b, PortalUrl);
    assert Get(a, PortalUser) == Get(b, PortalUser);
    assert Get(a, PortalPass) == Get(b, PortalPass);
    assert Get(a, SdeToGdbSource) == Get(b, SdeToGdbSource);
    assert Get(a, SdeToGdbTargetFolder) == Get(b, SdeToGdbTargetFolder);
    assert Get(a, SdeToGdbName) == Get(b, SdeToGdbName);
  }

  /** Merging the empty update changes nothing. */
  lemma MergeNoChange(c: AppConfig)
    ensures Merge(c, NO_CHANGE) == c
  {
  }

  /** Passing a whole configuration as the update replaces every field. */
  lemma MergeWhole(c: AppConfig, d: AppConfig)
    ensures Merge(c, Whole(d)) == d
  {
  }

  /** A one-key update changes that key and nothing else. */
  lemma MergeOnly(c: AppConfig, f: StringField, v: string)
    ensures Get(Merge(c, Only(f, v)), f) == v
    ensures forall g :: g != f ==> Get(Merge(c, Only(f, v)), g) == Get(c, g)
    ensures var r := Merge(c, Only(f, v));
      r.backendVerified == c.backendVerified && r.comparisonType == c.comparisonType
      && r.verboseLogging == c.verboseLogging && r.dryRun == c.dryRun && r.theme == c.theme
  {
    MergeFields(c, Only(f, v));
  }

  /** Writing a key's current value back changes nothing. */
  lemma MergeOnlySame(c: AppConfig, f: StringField)
    ensures Merge(c, Only(f, Get(c, f))) == c
  {
    MergeOnly(c, f, Get(c, f));
    ConfigDeterminedByFields(Merge(c, Only(f, Get(c, f))), c);
  }

  /** The update the reset and discard buttons send: the whole default configuration. */
  function ResetUpdate(): (u: ConfigUpdate)
    ensures forall c :: Merge(c, u) == DEFAULT_CONFIG
  {
    MergeWholeAll(DEFAULT_CONFIG);
    Whole(DEFAULT_CONFIG)
  }

  /** Passing a whole configuration replaces any configuration by it. */
  lemma MergeWholeAll(d: AppConfig)
    ensures forall c :: Merge(c, Whole(d)) == d
  {
    forall c ensures Merge(c, Whole(d)) == d {
      MergeWhole(c, d);
    }
  }

  /** `{ ...u, ...v }`: two partial updates combined, `v` winning where both name a key. */
  function Overlay(u: ConfigUpdate, v: ConfigUpdate): ConfigUpdate
  {
    ConfigUpdate(
      if v.interpreterPath.Some? then v.interpreterPath else u.interpreterPath,
      if v.backendVerified.Some? then v.backendVerified else u.backendVerified,
      if v.sourceGdb.Some? then v.sourceGdb else u.sourceGdb,
      if v.sdeConnection.Some? then v.sdeConnection else u.sdeConnection,
      if v.targetSdeConnection.Some? then v.targetSdeConnection else u.targetSdeConnection,
      if v.sourceDataset.Some? then v.sourceDataset else u.sourceDataset,
      if v.targetDataset.Some? then v.targetDataset else u.targetDataset,
      if v.outputFolder.Some? then v.outputFolder else u.outputFolder,
      if v.portalUrl.Some? then v.portalUrl else u.portalUrl,
      if v.portalUser.Some? then v.portalUser else u.portalUser,
      if v.portalPass.Some? then v.portalPass else u.portalPass,
      if v.comparisonType.Some? then v.comparisonType else u.comparisonType,
      if v.verboseLogging.Some? then v.verboseLogging else u.verboseLogging,
      if v.dryRun.Some? then v.dryRun else u.dryRun,
      if v.theme.Some? then v.theme else u.theme,
      if v.sdeToGdbSource.Some? then v.sdeToGdbSource else u.sdeToGdbSource,
      if v.sdeToGdbTargetFolder.Some? then v.sdeToGdbTargetFolder else u.sdeToGdbTargetFolder,
      if v.sdeToGdbName.Some? then v.sdeToGdbName else u.sdeToGdbName)
  }

  /** Two successive merges are one merge of the overlaid updates. */
  lemma MergeTwice(c: AppConfig, u: ConfigUpdate, v: ConfigUpdate)
    ensures Merge(Merge(c, u), v) == Merge(c, Overlay(u, v))
  {
  }

  /** Repeating an update has no further effect. */
  lemma MergeIdempotent(c: AppConfig, u: ConfigUpdate)
    ensures Merge(Merge(c, u), u) == Merge(c, u)
  {
  }
}
