/**
 * The crawl settings read from the environment: which data source is used,
 * which seasons are crawled, whether the crawl repeats and how often, and
 * where the results go. The file-system check for mocked seasons is the
 * abstract predicate `pathExists`.
 */
module CrawlConfiguration {
  import opened Wrappers
  import opened Text
  import opened Js

  datatype SeasonMode = Auto | Manual

  datatype CrawlMode = Once | UntilStopped

  const DEFAULT_MOCK_DB_PATH := "./mock-db"
  const DEFAULT_REFRESH_TIMEOUT := 60000

  const PRODUCTION_ERROR := "Not possible to use mock API in production environments"
  const MISSING_API_ERROR := "You have to provide a token and a base URL for the sport data provider (SDP)"
  const NO_SEASONS_ERROR := "No valid season IDs provided for \"manual\" mode. Aborting"

  /** `parseBoolean(value)`: only "true" and "1" are true; an unset value stays undefined. */
  function ParseBoolean(value: Option<string>): (r: Option<bool>)
    ensures r.None? <==> value.None?
    ensures r == Some(true) <==> value == Some("true") || value == Some("1")
  {
    match value
    case None => None
    case Some(s) => Some(s == "true" || s == "1")
  }

  /** `parseSeasonMode(mode)`: anything but "auto" is manual. */
  function ParseSeasonMode(mode: Option<string>): (r: SeasonMode)
    ensures r == Auto <==> mode == Some("auto")
  {
    if mode == Some("auto") then Auto else Manual
  }

  /** `parseCrawlMode(mode)`: anything but "once" runs until stopped. */
  function ParseCrawlMode(mode: Option<string>): (r: CrawlMode)
    ensures r == Once <==> mode == Some("once")
  {
    if mode == Some("once") then Once else UntilStopped
  }

  /** The tokens that are numbers other than zero, as numbers, in order. */
  function KeepIds(tokens: seq<string>): (r: seq<int>)
    ensures |r| <= |tokens|
    ensures forall i :: 0 <= i < |r| ==> r[i] != 0
  {
    if tokens == [] then []
    else
      var n := StringToNumber(tokens[0]);
      (if n.Some? && n.value != 0 then [n.value] else []) + KeepIds(tokens[1..])
  }

  /** `parseSeasonIds(seasons)`: the non-zero numbers of the comma-separated list, or null when there are none. */
  function ParseSeasonIds(seasons: Option<string>): (r: Option<seq<int>>)
    ensures r.Some? ==> |r.value| > 0 && forall i :: 0 <= i < |r.value| ==> r.value[i] != 0
    ensures seasons.None? ==> r.None?
  {
    if seasons.None? then None
    else
      var ids := KeepIds(Split(seasons.value, ','));
      if ids == [] then None else Some(ids)
  }

  /** The decimal renderings of a list of ids. */
  function IdTokens(ids: seq<int>): (r: seq<string>)
    ensures |r| == |ids|
    ensures forall i :: 0 <= i < |ids| ==> r[i] == IntToString(ids[i])
  {
    if ids == [] then [] else [IntToString(ids[0])] + IdTokens(ids[1..])
  }

  /** The comma-separated decimal rendering of a list of ids. */
  function IdList(ids: seq<int>): string
    requires |ids| > 0
  {
    Join(IdTokens(ids), ',')
  }

  lemma {:induction false} KeepIdsOfRendered(ids: seq<int>)
    requires forall i :: 0 <= i < |ids| ==> ids[i] != 0
    ensures KeepIds(IdTokens(ids)) == ids
    decreases |ids|
  {
    if ids != [] {
      var tokens := IdTokens(ids);
      var rest := ids[1..];
      assert tokens[1..] == IdTokens(rest);
      assert StringToNumber(tokens[0]) == Some(ids[0]) by {
        StringToNumberOfIntToString(ids[0]);
      }
      assert KeepIds(tokens) == [ids[0]] + KeepIds(tokens[1..]);
      assert forall i :: 0 <= i < |rest| ==> rest[i] != 0 by {
        forall i | 0 <= i < |rest| ensures rest[i] != 0 {
          assert rest[i] == ids[i + 1];
        }
      }
      KeepIdsOfRendered(rest);
      assert [ids[0]] + rest == ids;
    }
  }

  /** Non-zero ids written with commas are read back in order, repetitions included. */
  lemma ParseSeasonIdsRoundTrip(ids: seq<int>)
    requires |ids| > 0
    requires forall i :: 0 <= i < |ids| ==> ids[i] != 0
    ensures ParseSeasonIds(Some(IdList(ids))) == Some(ids)
  {
    var tokens := IdTokens(ids);
    forall i | 0 <= i < |tokens| ensures ',' !in tokens[i] {
      IntToStringChars(ids[i], ',');
    }
    SplitJoin(tokens, ',');
    KeepIdsOfRendered(ids);
  }

  /** Zero, empty tokens and non-numbers are dropped, so a list of only those gives null. */
  lemma OnlyZerosGiveNull(n: nat)
    ensures ParseSeasonIds(Some(Join(seq(n + 1, _ => "0"), ','))) == None
  {
    var tokens := seq(n + 1, _ => "0");
    forall i | 0 <= i < |tokens| ensures ',' !in tokens[i] {
      assert tokens[i] == "0";
    }
    SplitJoin(tokens, ',');
    KeepIdsOfZeros(tokens);
  }

  lemma {:induction false} KeepIdsOfZeros(tokens: seq<string>)
    requires forall i :: 0 <= i < |tokens| ==> tokens[i] == "0"
    ensures KeepIds(tokens) == []
    decreases |tokens|
  {
    if tokens != [] {
      StringToNumberOfIntToString(0);
      assert IntToString(0) == "0";
      assert StringToNumber(tokens[0]) == Some(0);
      assert KeepIds(tokens) == KeepIds(tokens[1..]);
      KeepIdsOfZeros(tokens[1..]);
    }
  }

  /**
   * `parseMockApi(MOCK_API)`: unset or empty selects the mock; otherwise it
   * is `parseBoolean`. Choosing the real API fails in production and when
   * the provider's token or base URL is missing or empty.
   */
  function ParseMockApi(env: Env): (r: Result<bool, string>)
    ensures EnvValue(env, "MOCK_API") == None || EnvValue(env, "MOCK_API") == Some("") ==> r == Ok(true)
    ensures r.Ok? && !r.value ==>
      EnvValue(env, "NODE_ENV") != Some("production")
      && "API_TOKEN" in env && env["API_TOKEN"] != "" && "API_BASE_URL" in env && env["API_BASE_URL"] != ""
    ensures r == Ok(true) <==> (!("MOCK_API" in env) || env["MOCK_API"] in {"", "true", "1"})
  {
    var value := EnvValue(env, "MOCK_API");
    var useMock := if value.None? || value.value == "" then true else ParseBoolean(value).value;
    if useMock then Ok(true)
    else if EnvValue(env, "NODE_ENV") == Some("production") then Err(PRODUCTION_ERROR)
    else
      var token := EnvValue(env, "API_TOKEN");
      var url := EnvValue(env, "API_BASE_URL");
      if token.None? || token.value == "" || url.None? || url.value == "" then Err(MISSING_API_ERROR)
      else Ok(false)
  }

  /** The mocked file of a season: `<mockDbPath>/<id>/<id>.json`. */
  function MockSeasonFile(mockDbPath: string, id: int): string {
    mockDbPath + "/" + IntToString(id) + "/" + IntToString(id) + ".json"
  }

  /** The ids whose mocked file exists. */
  function ExistingIds(ids: seq<int>, mockDbPath: string, pathExists: string -> bool): (r: seq<int>)
    ensures |r| <= |ids|
    ensures forall i :: 0 <= i < |r| ==> r[i] in ids && pathExists(MockSeasonFile(mockDbPath, r[i]))
    ensures forall i :: 0 <= i < |ids| && pathExists(MockSeasonFile(mockDbPath, ids[i])) ==> ids[i] in r
  {
    if ids == [] then []
    else
      (if pathExists(MockSeasonFile(mockDbPath, ids[0])) then [ids[0]] else [])
      + ExistingIds(ids[1..], mockDbPath, pathExists)
  }

  /** The settings `extractBasics` reads. */
  datatype Basics = Basics(
    mockApi: bool,
    seasonMode: SeasonMode,
    seasons: Option<seq<int>>,
    standings: bool,
    mockDbPath: string)

  /** `PATH_TO_MOCK_FILES || './mock-db'`. */
  function MockDbPath(env: Env): (r: string)
    ensures r != ""
  {
    var v := EnvValue(env, "PATH_TO_MOCK_FILES");
    if v.None? || v.value == "" then DEFAULT_MOCK_DB_PATH else v.value
  }

  /** The season ids of manual mode: parsed, then, for the mock, only those with a file. */
  function ManualSeasons(env: Env, mockApi: bool, pathExists: string -> bool): Option<seq<int>> {
    match ParseSeasonIds(EnvValue(env, "SEASONS"))
    case None => None
    case Some(ids) => Some(if mockApi then ExistingIds(ids, MockDbPath(env), pathExists) else ids)
  }

  /**
   * `extractBasics()`. Auto mode has no season list. Manual mode needs at
   * least one id, and with the mock each id needs its file. Only "true"
   * switches the standings on.
   */
  function ExtractBasics(env: Env, pathExists: string -> bool): (r: Result<Basics, string>)
    ensures ParseMockApi(env).Err? ==> r == Err(ParseMockApi(env).error)
    ensures r.Ok? ==> r.value.mockApi == ParseMockApi(env).value
    ensures r.Ok? ==> (r.value.seasonMode == Auto <==> r.value.seasons.None?)
    ensures r.Ok? && r.value.seasons.Some? ==>
      |r.value.seasons.value| > 0
      && forall i :: 0 <= i < |r.value.seasons.value| ==> r.value.seasons.value[i] != 0
    ensures r.Ok? && r.value.mockApi && r.value.seasons.Some? ==>
      forall i :: 0 <= i < |r.value.seasons.value| ==> pathExists(MockSeasonFile(r.value.mockDbPath, r.value.seasons.value[i]))
    ensures r.Ok? ==> (r.value.standings <==> EnvValue(env, "STANDINGS") == Some("true"))
  {
    match ParseMockApi(env)
    case Err(e) => Err(e)
    case Ok(mockApi) =>
      var seasonMode := ParseSeasonMode(EnvValue(env, "SEASON_MODE"));
      var mockDbPath := MockDbPath(env);
      var seasons := if seasonMode == Auto then None else ManualSeasons(env, mockApi, pathExists);
      if seasonMode == Manual && (seasons.None? || |seasons.value| == 0) then Err(NO_SEASONS_ERROR)
      else Ok(Basics(mockApi, seasonMode, seasons, EnvValue(env, "STANDINGS") == Some("true"), mockDbPath))
  }

  /** Manual mode fails exactly when no id survives parsing and, for the mock, the file check. */
  lemma ManualModeNeedsSeasons(env: Env, pathExists: string -> bool)
    requires ParseMockApi(env).Ok? && ParseSeasonMode(EnvValue(env, "SEASON_MODE")) == Manual
    ensures ExtractBasics(env, pathExists).Err? <==>
      var s := ManualSeasons(env, ParseMockApi(env).value, pathExists);
      s.None? || s.value == []
  {
  }

  /** `parseInt(TIMEOUT, 10) || 60000`. */
  function RefreshTimeout(value: Option<string>): (r: int)
    ensures r != 0
    ensures value.None? ==> r == DEFAULT_REFRESH_TIMEOUT
  {
    var n := if value.Some? then ParseInt10(value.value) else None;
    if n.Some? && n.value != 0 then n.value else DEFAULT_REFRESH_TIMEOUT
  }

  /** A timeout written as a non-zero integer is read back. */
  lemma RefreshTimeoutRoundTrip(n: int)
    requires n != 0
    ensures RefreshTimeout(Some(IntToString(n))) == n
  {
    ParseInt10OfIntToString(n);
  }

  datatype CrawlConfig = CrawlConfig(
    basics: Basics,
    crawlMode: CrawlMode,
    refreshTimeout: int,
    autorun: bool,
    persistAsJson: bool,
    persistToDb: bool,
    persistSql: bool,
    apiToken: Option<string>,
    apiEndpoint: Option<string>)

  /** `parseBoolean(value) ?? default`. */
  function BooleanOr(value: Option<string>, default: bool): (r: bool)
    ensures value.None? ==> r == default
    ensures value.Some? ==> (r <==> value.value == "true" || value.value == "1")
  {
    match ParseBoolean(value)
    case None => default
    case Some(b) => b
  }

  /** The `crawl` namespace: the basics, then the run settings with their defaults. */
  function CrawlConfigOf(env: Env, pathExists: string -> bool): (r: Result<CrawlConfig, string>)
    ensures r.Err? <==> ExtractBasics(env, pathExists).Err?
    ensures r.Ok? ==> r.value.basics == ExtractBasics(env, pathExists).value
    ensures r.Ok? ==> r.value.refreshTimeout != 0
    ensures r.Ok? ==> (r.value.crawlMode == Once <==> EnvValue(env, "CRAWL_MODE") == Some("once"))
    ensures r.Ok? ==> r.value.apiToken == EnvValue(env, "API_TOKEN") && r.value.apiEndpoint == EnvValue(env, "API_BASE_URL")
  {
    match ExtractBasics(env, pathExists)
    case Err(e) => Err(e)
    case Ok(basics) =>
      Ok(CrawlConfig(
        basics,
        ParseCrawlMode(EnvValue(env, "CRAWL_MODE")),
        RefreshTimeout(EnvValue(env, "TIMEOUT")),
        BooleanOr(EnvValue(env, "AUTORUN"), true),
        BooleanOr(EnvValue(env, "PERSIST_AS_JSON"), false),
        BooleanOr(EnvValue(env, "PERSIST_TO_DB"), true),
        BooleanOr(EnvValue(env, "PERSIST_SQL"), false),
        EnvValue(env, "API_TOKEN"),
        EnvValue(env, "API_BASE_URL")))
  }

  /** With none of the run variables set, the crawl runs until stopped every minute, starts at once, and writes to the database only. */
  lemma CrawlDefaults(env: Env, pathExists: string -> bool)
    requires ExtractBasics(env, pathExists).Ok?
    requires forall k :: k in {"CRAWL_MODE", "TIMEOUT", "AUTORUN", "PERSIST_AS_JSON", "PERSIST_TO_DB", "PERSIST_SQL"} ==> k !in env
    ensures var c := CrawlConfigOf(env, pathExists).value;
      c.crawlMode == UntilStopped && c.refreshTimeout == DEFAULT_REFRESH_TIMEOUT && c.autorun
      && !c.persistAsJson && c.persistToDb && !c.persistSql
  {
    assert "CRAWL_MODE" !in env && "TIMEOUT" !in env && "AUTORUN" !in env;
    assert "PERSIST_AS_JSON" !in env && "PERSIST_TO_DB" !in env && "PERSIST_SQL" !in env;
  }
}
