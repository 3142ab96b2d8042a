/** The value records shared by the dashboard's components: log lines and script descriptors. */
module Types {

  datatype Option<T> = None | Some(value: T) {
    /** `o ?? default` */
    function GetOr(default: T): T
    {
      match this
      case Some(v) => v
      case None => default
    }
  }

  /** JavaScript truthiness of an optional string: present and not "". */
  predicate Truthy(o: Option<string>)
  {
    o.Some? && o.value != ""
  }

  /** `o || fallback` on an optional string. */
  function OrElse(o: Option<string>, fallback: string): string
  {
    if Truthy(o) then o.value else fallback
  }

  datatype LogLevel = INFO | ERROR | SUCCESS | WARNING | SYSTEM

  /** A console line; the timestamp is the opaque text of `toLocaleTimeString()`. */
  datatype LogEntry = LogEntry(timestamp: string, level: LogLevel, message: string)

  datatype ExecutionStatus = IDLE | RUNNING | SUCCESS | FAILED | PENDING | SKIPPED

  /** A runnable tool as the dashboard describes it; `?` fields of the record are `Option`s. */
  datatype GISScript = GISScript(
    id: string,
    name: string,
    description: string,
    icon: string,
    status: ExecutionStatus,
    progress: Option<int>,
    scriptPath: Option<string>,
    error: Option<string>)

  /** One row of the mock feature-class listing of a geodatabase. */
  datatype FeatureClass = FeatureClass(name: string, rows: string, geometry: string)

  const FEATURE_CLASSES_MOCK: seq<FeatureClass> := [
    FeatureClass("Parcels", "12,456", "Polygon"),
    FeatureClass("Roads", "8,234", "Polyline"),
    FeatureClass("Buildings", "15,678", "Polygon"),
    FeatureClass("Utilities", "4,521", "Point"),
    FeatureClass("Zoning", "2,345", "Polygon"),
    FeatureClass("Hydrology", "3,456", "Polyline")
  ]
}
