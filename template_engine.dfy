/**
 * The values handed to the SQL template renderer: the scanner-log entry
 * that goes with a rendered statement, and the render options.
 */
module TemplateEngine {
  import opened Wrappers
  import opened Js

  /** The kinds of scanner-log entries. */
  datatype LogType = AllCountries | AllLeagues | League | Season | LiveEntry | Standings

  function LogTypeName(t: LogType): string {
    match t
    case AllCountries => "ALL_COUNTRIES"
    case AllLeagues => "ALL_LEAGUES"
    case League => "LEAGUE"
    case Season => "SEASON"
    case LiveEntry => "LIVE"
    case Standings => "STANDINGS"
  }

  /** A row of the scanner log, as the templates write it. Optional members are None when absent. */
  datatype ScannerLogEntry = ScannerLogEntry(
    logType: LogType,
    hash: string,
    id: Option<string>,
    log: Option<string>,
    json: Option<string>,
    isSameAsPrevious: Option<bool>)

  /** The options of one render call. */
  datatype TemplateOptions = TemplateOptions(
    templateFilename: string,
    outputFilename: string,
    data: Option<Json>,
    meta: Option<ScannerLogEntry>)

  /** The renderer produces nothing for an empty list of data. */
  predicate RendersNothing(options: TemplateOptions) {
    IsArray(options.data) && |options.data.value.items| == 0
  }
}
