# Crawl orchestration core of the sports-data scanner, in Dafny

This project models the decision logic of a crawler that polls a sports-data
provider (SportMonks) and keeps a Postgres database up to date:

- the **adaptive poll scheduler** (`Scheduler`): relevant fixtures, their
  kick-off window, the eleven action modes and the timeout table;
- the **status normaliser** and the other template transformers (`Transformers`);
- the **back-off** formula and the retry delay of the repeater (`BackOff`);
- the **change-detection cache** of the scanner log (`Scanner`);
- the **season cleaner** (`SeasonCleaning`);
- the **persistence gateway** with its retrying `save`, the hash-checked
  updates, the standings flattening and the live statement (`Bettles`);
- the three **crawl orchestrators**: the current-seasons crawler
  (`CurrentSeasonsCrawling`), the standings crawler (`StandingCrawling`) and
  the live scanner (`ScannerLive`);
- the **mocked data source** with its season set-back (`MockApi`), the
  developer service over it (`DbMock`) and the JSON snapshot writer
  (`FileWriting`);
- the **configuration parsers** (`CrawlConfiguration`, `CommonConfiguration`)
  and the SQL template filters (`NunjucksEnv`).

Supporting modules:

- `Js` holds JSON values and the JavaScript coercions the source relies on:
  truthiness, `Number`, `parseInt`, `String`, optional chaining and `Array.prototype.map` with a throwing callback.
- `Text` holds string helpers.
- `Wrappers` holds `Option` and `Result`.
- `Effects` is the record of outside effects. It logs connections taken and given back, statements run, renders, provider requests, files written and timers armed or cleared.

How the model is built:

- A service that keeps state in fields is a class with those fields. Its methods record their effects in a shared `Effects.Runtime`.
- Each method is proved against a function that gives its result and its record. The properties are proved as lemmas about those functions.
- Anything thrown is an `Err` of a `Result`.
- Instants are integer epoch milliseconds.
- `JSON.stringify`, SHA-256, the template renderer, the date parser and date printing are function-valued parameters. Nothing is assumed about them.
- The answers of the provider, the pool and the database are inputs: `Effects.Provider` and `Effects.DbEnv`.

Four behaviours of the code are easy to misread, and the model keeps each as written:

- `MAX_ATTEMPTS` is 10, but a failing statement runs `MAX_ATTEMPTS + 1` = 11 times (`src/sport/bettles.api.ts:358`).
- The retry after attempt k waits `exponentialBackOff(k + 2)`, not `k + 1`. Both `save` and `Repeater.retry` increment the counter (`src/core/network/repeater.class.ts:6`).
- The live scanner's `save` does not look at `persistToDb` (`src/sport/competition/api-scanner-live.ts:107-128`).
- The standings crawler ends its cycle at the first failing season instead of skipping it (`src/sport/competition/api-standing-crawler.ts:56-68`).

## Model

| member | source | states |
|---|---|---|
| BackOff.ExponentialBackOff | src/core/network/exponential-back-off.func.ts:1-3 | the delay is never negative and never above the 60000 ms cap |
| BackOff.RetryDelay | src/core/network/repeater.class.ts:8-9 | the retry helper increments the attempt count before computing the delay, and the delay stays within [0, 60000] |
| BackOff.BackOffMonotone | src/core/network/exponential-back-off.func.ts:2 | no delay before the first attempt, and more attempts never wait less |
| BackOff.BackOffExact | src/core/network/exponential-back-off.func.ts:2 | the delay is exactly 100·a² up to 24 attempts and the 60000 ms cap from 25 attempts on |
| NunjucksEnv.Esc | src/template-engine/nunjucks-environment.provider.ts:27-29 | `esc` throws exactly when its argument is not a string; a string without a quote comes back unchanged, one with a quote grows by exactly one character |
| NunjucksEnv.EscDoublesOnlyFirstQuote | src/template-engine/nunjucks-environment.provider.ts:28 | `replace` with a string pattern doubles only the first single quote, later quotes are kept as they are |
| NunjucksEnv.IfNil | src/template-engine/nunjucks-environment.provider.ts:35-37 | null and undefined give the default (itself 'NULL' when not passed); any other item is returned unchanged |
| NunjucksEnv.IfNilKeepsFalsy | src/template-engine/nunjucks-environment.provider.ts:36 | 0, '' and false, though falsy, are returned unchanged |
| NunjucksEnv.FilterNamed | src/template-engine/nunjucks-environment.provider.ts:27-37 | a name resolves only to the filter registered under that name |
| NunjucksEnv.FilterNamesDistinct | src/template-engine/nunjucks-environment.provider.ts:27-37 | every filter is found under its own name and no two filters share a name |
| NunjucksEnv.ApplyToString | src/template-engine/nunjucks-environment.provider.ts:30-34 | `status`, `stageType`, `leagueType`, `home` and `away` apply `transformStatus`, `transformStageType`, `transformLeagueType`, `extractHome` and `extractAway`; `esc` doubles the first quote and `ifNil` keeps a string |
| CommonConfiguration.KeepLevels | src/core/config/common-config.ts:32-35 | the filtered tokens are never more than the tokens, and every one is among log/error/warn/debug/verbose |
| CommonConfiguration.ExtractLogLevel | src/core/config/common-config.ts:31-42 | the result is never empty and never holds anything but the five levels; undefined, or a list naming no level, gives all five in the order log, error, warn, debug, verbose; otherwise the accepted tokens in order |
| CommonConfiguration.KeepLevelsOfLevels | src/core/config/common-config.ts:35 | tokens that already are level names are all kept, in order and with their repetitions |
| CommonConfiguration.ExtractLogLevelRoundTrip | src/core/config/common-config.ts:32-35 | reading back a non-empty comma-joined list of levels gives exactly that list: order and duplicates kept, nothing added |
| CommonConfiguration.Port | src/core/config/common-config.ts:16 | the port is never 0, and an unset PORT gives 3000 |
| CommonConfiguration.PortRoundTrip | src/core/config/common-config.ts:16 | a non-zero integer PORT is read back as itself; "0" falls back to 3000 |
| CommonConfiguration.CommonConfigOf | src/core/config/common-config.ts:15-20 | the `common` namespace has a non-zero port and a non-empty list of log levels |
| CrawlConfiguration.ParseBoolean | src/core/config/crawl-config.ts:171-176 | undefined exactly for an unset value; true exactly for 'true' and '1', so 'TRUE' is false |
| CrawlConfiguration.ParseSeasonMode | src/core/config/crawl-config.ts:134-141 | auto exactly for 'auto'; anything else, including unset, is manual |
| CrawlConfiguration.ParseCrawlMode | src/core/config/crawl-config.ts:160-167 | once exactly for 'once'; anything else, including unset, runs until stopped |
| CrawlConfiguration.KeepIds | src/core/config/crawl-config.ts:146-151 | the kept ids are never more than the tokens and none is zero |
| CrawlConfiguration.ParseSeasonIds | src/core/config/crawl-config.ts:143-158 | a list, when returned, is non-empty and holds no zero; an unset value gives null |
| CrawlConfiguration.KeepIdsOfRendered | src/core/config/crawl-config.ts:146-151 | non-zero ids written in decimal are all kept, in order |
| CrawlConfiguration.ParseSeasonIdsRoundTrip | src/core/config/crawl-config.ts:143-158 | non-zero ids joined with commas are read back in order, duplicates included |
| CrawlConfiguration.OnlyZerosGiveNull | src/core/config/crawl-config.ts:151-155 | zero values are dropped by the truthiness filter, so a list of zeros gives null |
| CrawlConfiguration.ParseMockApi | src/core/config/crawl-config.ts:108-132 | unset or empty MOCK_API selects the mock; the mock is chosen exactly for unset, '', 'true' or '1'; choosing the real API succeeds only outside production with a non-empty token and base URL |
| CrawlConfiguration.ExistingIds | src/core/config/crawl-config.ts:74-86 | in mock mode exactly the ids whose `<mockDbPath>/<id>/<id>.json` exists are kept |
| CrawlConfiguration.MockDbPath | src/core/config/crawl-config.ts:65 | the mock path is never empty: `PATH_TO_MOCK_FILES` or './mock-db' |
| CrawlConfiguration.ExtractBasics | src/core/config/crawl-config.ts:62-106 | an error of `parseMockApi` propagates; auto mode has no season list and manual mode a non-empty list of non-zero ids, each with its file under the mock; `standings` holds exactly when STANDINGS is 'true' |
| CrawlConfiguration.ManualModeNeedsSeasons | src/core/config/crawl-config.ts:87-89 | manual mode throws exactly when no id survives parsing and the file filter |
| CrawlConfiguration.RefreshTimeout | src/core/config/crawl-config.ts:43 | the refresh timeout is never 0, and an unset TIMEOUT gives 60000 |
| CrawlConfiguration.RefreshTimeoutRoundTrip | src/core/config/crawl-config.ts:43 | a non-zero integer TIMEOUT is read back as itself |
| CrawlConfiguration.BooleanOr | src/core/config/crawl-config.ts:44-47 | `parseBoolean(v) ?? default`: the default for an unset value, 'true' or '1' otherwise |
| CrawlConfiguration.CrawlConfigOf | src/core/config/crawl-config.ts:40-51 | the namespace fails exactly when `extractBasics` does; it carries the basics, a non-zero timeout, once exactly for 'once', and the token and endpoint as set |
| CrawlConfiguration.CrawlDefaults | src/core/config/crawl-config.ts:42-47 | with no run variable set: until stopped, every 60000 ms, autorun on, database on, JSON and SQL files off |
| SeasonCleaning.OwnKeys | src/sport/season-cleaner.ts:48-62 | the keys lodash copies: an object's members, the decimal indices of a list or a string with their elements or characters, and none for null, numbers and booleans |
| SeasonCleaning.Omit | src/sport/season-cleaner.ts:48-62 | the copy holds exactly the copied keys of the fixture other than the thirteen dropped ones, each with its value |
| SeasonCleaning.OmitKeepsIndices | src/sport/season-cleaner.ts:48-62 | every index of a list or a string survives the omission, with its element or character |
| SeasonCleaning.OmitIdempotent | src/sport/season-cleaner.ts:48-62 | dropping the keys a second time changes nothing |
| SeasonCleaning.ForOfItems | src/sport/season-cleaner.ts:46 | `for…of` visits the elements of a list and the characters of a string; any other value is not iterable |
| SeasonCleaning.CleanUpFixture | src/sport/season-cleaner.ts:44-66 | one cleaned value per value `for…of` visits, in order; a value that is neither a list nor a string throws a TypeError |
| SeasonCleaning.CleanStringData | src/sport/season-cleaner.ts:44-66 | a string `data` is cleaned character by character, each character c becoming `{ "0": c }` |
| SeasonCleaning.CleanFixturesOfSeason | src/sport/season-cleaner.ts:31-39 | a falsy season or one without fixtures is returned as it is; otherwise the copy's `fixtures` is exactly `{ data: <cleaned list> }`, and a `data` that is neither a list nor a string throws |
| SeasonCleaning.CleanKeepsOtherFields | src/sport/season-cleaner.ts:36 | `Object.assign` keeps every other member of the season with its value |
| SeasonCleaning.CleanIdempotent | src/sport/season-cleaner.ts:31-39 | cleaning a cleaned season gives the same season |
| Transformers.TransformStatus | src/template-engine/sport-monks-transformers.ts:1-93 | an unknown code throws with the message 'Status key not found: ' followed by the code |
| Transformers.TransformStatusOnto | src/template-engine/sport-monks-transformers.ts:1-93 | every canonical state is reached from its code, and FT and FT_FIN are the only two codes mapped to the same state |
| Transformers.TransformStatusCaseSensitive | src/template-engine/sport-monks-transformers.ts:82-89 | codes are matched exactly: 'Deleted' is accepted, 'DELETED', 'deleted', 'ns' and '' throw |
| Transformers.TransformStatusDetail | src/template-engine/sport-monks-transformers.ts:95-138 | undefined only for a name that is not a canonical state |
| Transformers.CollapseClasses | src/template-engine/sport-monks-transformers.ts:95-138 | every canonical state collapses, and exactly these collapse to NOT_FIN, IN_PLAY, FIN, UNKNOWN and DELETED |
| Transformers.TransformStatusComplete | src/template-engine/sport-monks-transformers.ts:140-143 | throws exactly when `transformStatus` does, with its message; otherwise the collapse of the canonical state |
| Transformers.TransformStageType | src/template-engine/sport-monks-transformers.ts:145-162 | GROUP exactly for 'Group Stage', QUALIFYING exactly for 'Qualifying', KNOCK_OUT for everything else |
| Transformers.TransformLeagueType | src/template-engine/sport-monks-transformers.ts:164-176 | 'cup_international' becomes INTERNATIONAL_CUP, every other type is upper-cased, so no ASCII lower-case letter remains |
| Transformers.ScoreParts | src/template-engine/sport-monks-transformers.ts:178-192 | a match of `^(\d+)-(\d+)$` splits the string into two non-empty digit runs around one dash |
| Transformers.ScoreRoundTrip | src/template-engine/sport-monks-transformers.ts:178-192 | a score written as "h-a" reads back as home h and away a |
| Transformers.ScoreRejectsMalformed | src/template-engine/sport-monks-transformers.ts:178-192 | a string without a dash, or starting or ending with one, gives null for both halves |
| Scheduler.FirstStatusError | src/schedule/scheduler.service.ts:30-33 | no error exactly when every fixture's status can be read and collapsed |
| Scheduler.Relevant | src/schedule/scheduler.service.ts:30-33 | keeps exactly the fixtures that are not finished or in play, each as often as it occurs, and nothing else |
| Scheduler.InsertByKey | src/schedule/scheduler.service.ts:36 | inserting adds exactly the one element to the multiset of the list |
| Scheduler.InsertByKeySorted | src/schedule/scheduler.service.ts:36 | inserting into a list sorted by kick-off keeps it sorted |
| Scheduler.SortByKey | src/schedule/scheduler.service.ts:36 | the result is sorted by kick-off and is a permutation of the input |
| Scheduler.ScheduleOfSorted | src/schedule/scheduler.service.ts:37-54 | the schedule holds the sorted list, its first and last fixture, isSame only for one fixture, isSingleSlot iff first and last share their date_time, and a window from the first kick-off to the last plus 90 minutes; it is a TypeError exactly when the first or last fixture has no starting_at |
| Scheduler.BuildSchedule | src/schedule/scheduler.service.ts:26-57 | an unreadable status is the first such error, no relevant fixture gives no schedule, and otherwise the result is a TypeError exactly when some relevant fixture, wherever it sits in the list, has no starting_at, and a schedule when none lacks it |
| Scheduler.RelevantKeepsAll | src/schedule/scheduler.service.ts:30-33 | filtering a list whose fixtures are all relevant keeps the list unchanged |
| Scheduler.MiddleKickOffMissingThrows | src/schedule/scheduler.service.ts:35-45 | three fixtures not started yet, the middle one without starting_at: the first and last kick-offs can be read, but the sort's comparator reads the middle one too, so the call throws a TypeError |
| Scheduler.BuildScheduleShape | src/schedule/scheduler.service.ts:35-54 | a built schedule is non-empty, sorted, holds exactly the relevant fixtures, is in play iff some fixture is, and every kick-off lies inside its window |
| Scheduler.BeforeTier | src/schedule/scheduler.service.ts:80-101 | each of the eight before-tiers is chosen exactly for its range of minutes, upper bounds inclusive |
| Scheduler.Classify | src/schedule/scheduler.service.ts:59-130 | no schedule is LONG_AFTER, in play is LIVE, before the window a before-tier, inside it LIVE, up to 30 minutes after AFTER_30_MIN and later LONG_AFTER; an inverted window returns nothing |
| Scheduler.ClassifyMonotone | src/schedule/scheduler.service.ts:80-129 | as time passes the mode of a window not in play only moves forward, from long before to long after |
| Scheduler.ClassifyBoundaries | src/schedule/scheduler.service.ts:85-124 | the exact boundary instants of the tiers, of the half-open window and of the 30 minutes after it |
| Scheduler.Timeout | src/schedule/scheduler.service.ts:132-157 | every mode reads its own table entry, and AFTER_30_MIN falls back to the default timeout |
| Scheduler.Extract | src/schedule/scheduler.service.ts:26-57 | a falsy argument returns undefined, a non-array throws, an error (including a relevant fixture without starting_at anywhere in the list) keeps the stored schedule, no relevant fixture returns the stored one, and a new schedule replaces it |
| Scheduler.SchedulerService.constructor | src/schedule/scheduler.service.ts:17-19 | starts with no schedule and the default table |
| Scheduler.SchedulerService.ExtractSchedule | src/schedule/scheduler.service.ts:26-57 | the result and the stored schedule are those of Extract, so a relevant fixture without starting_at throws and keeps the stored schedule; the table is unchanged, and the stored schedule stays well formed |
| Scheduler.SchedulerService.ProcessSchedule | src/schedule/scheduler.service.ts:59-130 | the given schedule, or else the stored one, is classified, and the timeout is the table entry of that mode |
| Scheduler.SchedulerService.ProcessStoredScheduleTotal | src/schedule/scheduler.service.ts:59-130 | processing the stored schedule always returns an action |
| Scheduler.SchedulerService.GetTimeout | src/schedule/scheduler.service.ts:132-157 | the timeout of a mode in the current table |
| Scheduler.SchedulerService.SetTimeoutTable | src/schedule/scheduler.service.ts:21-24 | replaces the table, keeps the stored schedule, and returns the re-evaluated action, which always exists |
| Scanner.CacheOfKeys | src/sport/scanner.api.ts:45-52 | after a reload the cache has an entry for exactly the identifiers found in the rows |
| Scanner.CacheOfLastRow | src/sport/scanner.api.ts:45-52 | each cache entry is the type, id and hash of the last row carrying its identifier |
| Scanner.ReloadEvents | src/sport/scanner.api.ts:34-61 | every connection taken during a reload is given back |
| Scanner.QuotedJson | src/sport/scanner.api.ts:71 | serialising undefined throws a TypeError; otherwise un-doubling the quotes gives back the serialisation |
| Scanner.CachedHash | src/sport/scanner.api.ts:20-22 | a hash exactly when the key is present, and then the cached entry's hash |
| Scanner.MakeLogEntry | src/sport/scanner.api.ts:70-85 | type and id are passed through, the json is the quoted serialisation, the hash is that of the json, the log text names version 0.3.0, and isSameAsPrevious holds iff the cached hash of id equals the new hash |
| Scanner.ScannerApi.constructor | src/sport/scanner.api.ts:12-14 | starts with an empty cache |
| Scanner.ScannerApi.GetFromCache | src/sport/scanner.api.ts:16-18 | the cached entry exactly when the key is present |
| Scanner.ScannerApi.GetHashFromCache | src/sport/scanner.api.ts:20-22 | the cached hash of the key, undefined when absent |
| Scanner.ScannerApi.Reset | src/sport/scanner.api.ts:27-29 | the cache is empty |
| Scanner.ScannerApi.FetchCurrentHashesFromDatabase | src/sport/scanner.api.ts:34-61 | without a connection the call rejects and changes nothing; otherwise it resolves, the cache is the reloaded one (empty when the query fails), and the connection is released |
| Scanner.ScannerApi.CreateLogEntry | src/sport/scanner.api.ts:70-85 | the entry is MakeLogEntry on the current cache |
| Scanner.ScannerApi.AbsentIsNew | src/sport/scanner.api.ts:76 | an identifier absent from the cache never counts as unchanged |
| NunjuckRender.Rendered | src/template-engine/nunjuck-service/nunjuck.service.ts:14-29 | nothing exactly when the data is an empty list, otherwise the rendered template |
| NunjuckRender.RenderEvents | src/template-engine/nunjuck-service/nunjuck.service.ts:14-29 | one render (with its file save) per non-empty call, none for an empty list, and no connection is taken |
| NunjuckRender.NunjuckService.constructor | src/template-engine/nunjuck-service/nunjuck.service.ts:12 | keeps the environment's renderer |
| NunjuckRender.NunjuckService.Render | src/template-engine/nunjuck-service/nunjuck.service.ts:14-29 | returns Rendered and records exactly RenderEvents |
| FileWriting.SeasonDir | src/db-mock/file-writer.ts:29 | the directory starts with the mock database path, then a separator, and ends with '/' |
| FileWriting.SeasonJsonWrites | src/db-mock/file-writer.ts:25-34 | no write without a season or its league; otherwise the season as `<id>.json` and then the teams as `teams.json`, both in the season's directory |
| FileWriting.SeasonFilesInReturnedDir | src/db-mock/file-writer.ts:25-65 | both snapshot files lie inside the returned directory, and they are two different files unless the id reads "teams" |
| FileWriting.FileWriter.constructor | src/db-mock/file-writer.ts:14-17 | keeps the configured mock database path |
| FileWriting.FileWriter.WriteJsonFile | src/db-mock/file-writer.ts:78-89 | true exactly when the write succeeds, never rejects, and records one write of the data to the filename |
| FileWriting.FileWriter.CreateSeasonJsons | src/db-mock/file-writer.ts:25-34 | undefined exactly without a season or its league, otherwise the season's directory; records exactly SeasonJsonWrites |
| FileWriting.FileWriter.CreateStandingsJson | src/db-mock/file-writer.ts:41-44 | records one write of the standings to `<mockDbPath>/<seasonId>/standing.json` |
| Bettles.SaveResult | src/sport/bettles.api.ts:340-366 | save rejects exactly when there is a statement, persisting is on and no connection can be taken |
| Bettles.StatementRules | src/sport/bettles.api.ts:352-365 | a statement runs once, its connection is always released, and a retry with the next attempt number and the back-off of attempts + 2 is armed exactly when it failed with attempts left |
| Bettles.SaveGatewayOnly | src/sport/bettles.api.ts:340-366 | save neither fetches from the data provider nor writes a file |
| Bettles.SaveRules | src/sport/bettles.api.ts:340-366 | save releases every connection it takes and runs the statement only when there is one, persisting is on and a connection is available |
| Bettles.FailingChainBalanced | src/sport/bettles.api.ts:356-362 | a statement that keeps failing releases every connection of its retries |
| Bettles.FailingChainQueries | src/sport/bettles.api.ts:356-362 | a statement that keeps failing from attempt n on runs MAX_ATTEMPTS + 1 - n more times |
| Bettles.FailingChainTimers | src/sport/bettles.api.ts:356-362 | a statement that keeps failing arms one retry per attempt left, each with its back-off |
| Bettles.AlwaysFailingSaveRunsElevenTimes | src/sport/bettles.api.ts:14 | with MAX_ATTEMPTS = 10 a statement that always fails runs eleven times and releases every connection |
| Bettles.AlwaysFailingSaveBacksOff | src/sport/bettles.api.ts:356-362 | the ten retries of an always failing statement wait the back-off of 2, 3, ..., 11 |
| Bettles.FirstSuccessRunsOnce | src/sport/bettles.api.ts:352-355 | a statement that succeeds at once runs once and arms no retry |
| Bettles.IdText | src/sport/bettles.api.ts:226 | `season.id?.toString(10)` is undefined exactly for a nullish id, else the id's text |
| Bettles.NumberText | src/sport/bettles.api.ts:260 | a number's decimal text, and "NaN" for NaN |
| Bettles.ForEachItems | src/sport/bettles.api.ts:268-282 | only an array can be iterated; anything else is a TypeError |
| Bettles.TeamEntries | src/sport/bettles.api.ts:272-281 | a position without standings contributes itself, one with standings contributes exactly their data entries, and a failure is a TypeError |
| Bettles.TeamsEntries | src/sport/bettles.api.ts:272-281 | the positions' entries in order, or a TypeError |
| Bettles.StageEntries | src/sport/bettles.api.ts:268-282 | a stage's flattened entries, or a TypeError |
| Bettles.FlattenStandings | src/sport/bettles.api.ts:267-282 | the flattened entries of all stages, or a TypeError |
| Bettles.TeamsEntriesErrStays | src/sport/bettles.api.ts:272-281 | once a prefix of the positions fails, the whole list fails |
| Bettles.FlattenErrStays | src/sport/bettles.api.ts:268-282 | once a prefix of the stages fails, the whole flattening fails |
| Bettles.FlattenAppend | src/sport/bettles.api.ts:267-282 | flattening distributes over concatenation of stage lists, the first error winning |
| Bettles.PlainTeamsEntries | src/sport/bettles.api.ts:278-280 | positions without standings of their own are pushed unchanged |
| Bettles.TeamsEntriesLoop | src/sport/bettles.api.ts:272-281 | the inner forEach pushes yield exactly TeamsEntries |
| Bettles.FlattenStandingsLoop | src/sport/bettles.api.ts:267-282 | the nested forEach pushes yield exactly FlattenStandings |
| Bettles.FixtureId | src/sport/bettles.api.ts:322 | `fixture.id.toString(10)` throws exactly on a nullish fixture or id, else gives the id's text |
| Bettles.BettlesApi.constructor | src/sport/bettles.api.ts:21-28 | keeps the pool's runtime, renderer, scanner and persist flag, with renderer and scanner recording into the same runtime |
| Bettles.BettlesApi.Save | src/sport/bettles.api.ts:340-366 | returns SaveResult and records exactly SaveEvents |
| Bettles.BettlesApi.RenderSaveResult | src/sport/bettles.api.ts:40-41 | render and save reject exactly when a non-empty rendered statement needs a connection it cannot get |
| Bettles.BettlesApi.RenderSaveBalanced | src/sport/bettles.api.ts:40-41 | rendering and saving releases every connection |
| Bettles.BettlesApi.EmptyListGuardAgreesWithRender | src/sport/bettles.api.ts:31-34 | the empty-list guard of the list updates changes nothing: an empty list already renders and saves nothing |
| Bettles.BettlesApi.RenderAndSave | src/sport/bettles.api.ts:40-41 | returns RenderSaveResult and records exactly RenderSaveEvents |
| Bettles.BettlesApi.ListUpdate | src/sport/bettles.api.ts:30-42 | an empty list is skipped, anything else rendered and saved |
| Bettles.BettlesApi.UpdateContinents | src/sport/bettles.api.ts:30-42 | renders continents.njk with the list and saves it as "placeholder continents" |
| Bettles.BettlesApi.UpdateTeams | src/sport/bettles.api.ts:198-210 | renders team.njk with the teams and saves it as "placeholder teams" |
| Bettles.BettlesApi.SeasonListResult | src/sport/bettles.api.ts:123-196 | a null season throws a TypeError |
| Bettles.BettlesApi.UpdateSeasonList | src/sport/bettles.api.ts:123-196 | the shared shape of the five season-list updates: `season.<member>?.data` rendered with its template and saved |
| Bettles.BettlesApi.UpdateTeamsOfSeason | src/sport/bettles.api.ts:123-136 | the season-list update of the teams with team.njk |
| Bettles.BettlesApi.UpdateStagesOfSeason | src/sport/bettles.api.ts:138-151 | the season-list update of the stages with stage.njk |
| Bettles.BettlesApi.UpdateRoundsOfSeason | src/sport/bettles.api.ts:153-166 | the season-list update of the rounds with round.njk |
| Bettles.BettlesApi.UpdateGroupsOfSeason | src/sport/bettles.api.ts:168-181 | the season-list update of the groups with group.njk |
| Bettles.BettlesApi.UpdateFixturesOfSeason | src/sport/bettles.api.ts:183-196 | the season-list update of the fixtures with fixture.njk, saved under the label "fixtures (season: id)" |
| Bettles.BettlesApi.UpdateLeagueOfSeason | src/sport/bettles.api.ts:112-121 | a null season throws while naming the file; otherwise the whole season is rendered with upsert-league.njk and saved |
| Bettles.BettlesApi.CheckedResult | src/sport/bettles.api.ts:50-76 | a checked update rejects when the hashes cannot be reloaded, and throws when the payload cannot be serialised |
| Bettles.BettlesApi.CheckedGatewayOnly | src/sport/bettles.api.ts:50-76 | a checked update neither fetches from the data provider nor writes a file |
| Bettles.BettlesApi.CheckedBalanced | src/sport/bettles.api.ts:50-76 | a checked update releases every connection it takes |
| Bettles.BettlesApi.UnchangedPayloadWritesNothing | src/sport/bettles.api.ts:57-61 | a payload whose hash equals the reloaded one only reloads, renders nothing and succeeds |
| Bettles.BettlesApi.NewIdentifierIsRendered | src/sport/bettles.api.ts:57-61 | a payload under an identifier the log has never seen is always rendered |
| Bettles.BettlesApi.CheckedUpdate | src/sport/bettles.api.ts:50-76 | returns CheckedResult, records exactly CheckedEvents, and leaves the reloaded cache in the scanner |
| Bettles.BettlesApi.UpdateCountries | src/sport/bettles.api.ts:50-76 | the checked update of the countries under 'all-countries', skipped when unchanged |
| Bettles.BettlesApi.UpdateLeagues | src/sport/bettles.api.ts:84-110 | the checked update of the leagues under 'all-leagues', with the unchanged check switched off |
| Bettles.BettlesApi.LeaguesAlwaysRendered | src/sport/bettles.api.ts:91-95 | the leagues are rendered whenever the reload succeeds, even when unchanged |
| Bettles.BettlesApi.UpdateSeason | src/sport/bettles.api.ts:219-245 | a null season throws before anything happens; otherwise the checked update of the season and its fixtures under the season id |
| Bettles.BettlesApi.SeasonWithoutFixturesThrows | src/sport/bettles.api.ts:236 | a season without fixtures can only succeed when it is unchanged |
| Bettles.BettlesApi.UpdateLeagueStandings | src/sport/bettles.api.ts:251-301 | anything but a non-empty list does nothing; a null first stage throws; otherwise the standings are checked under the season id and, when changed, flattened and saved |
| Bettles.BettlesApi.FixtureSql | src/sport/bettles.api.ts:320-338 | throws exactly when the id cannot be read, gives nothing for an unchanged fixture, and otherwise the fixture rendered with its log entry |
| Bettles.BettlesApi.FixtureToSql | src/sport/bettles.api.ts:320-338 | returns FixtureSql on the current cache and records its render |
| Bettles.BettlesApi.LiveSql | src/sport/bettles.api.ts:309-314 | the statement starts with the ' -- Auto generated' header, and a failure is a TypeError |
| Bettles.BettlesApi.LiveRenderEvents | src/sport/bettles.api.ts:309-314 | building the live statement takes no connection |
| Bettles.BettlesApi.LiveSqlOkIffIdsReadable | src/sport/bettles.api.ts:309-314 | the live statement can be built exactly when every fixture's id can be read |
| Bettles.BettlesApi.LiveSqlSnoc | src/sport/bettles.api.ts:311 | a changed fixture appends its rendered statement, an unchanged one the text "undefined", each followed by a line break |
| Bettles.BettlesApi.LiveSqlPrefixErr | src/sport/bettles.api.ts:310-314 | once a fixture's id cannot be read the statement fails and no later fixture is rendered |
| Bettles.BettlesApi.BuildLiveSql | src/sport/bettles.api.ts:309-314 | the loop returns LiveSql on the current cache and records LiveRenderEvents |
| Bettles.BettlesApi.UpdateLiveFixtures | src/sport/bettles.api.ts:303-318 | without a connection it rejects; otherwise the hashes are reloaded, each fixture rendered, and the joined statement saved as "live fixtures", or a TypeError for an unreadable id |
| CurrentSeasonsCrawling.LeagueSeasonIds | src/sport/competition/api-current-seasons.crawler.ts:87 | the ids exist exactly when every league's season id can be read, one per league, in order |
| CurrentSeasonsCrawling.CurrentSeasonIds | src/sport/competition/api-current-seasons.crawler.ts:83-94 | undefined when the request fails, the payload is falsy or not a list, or a league throws; otherwise the leagues' season ids |
| CurrentSeasonsCrawling.LeagueOfReadsBack | src/sport/competition/api-current-seasons.crawler.ts:87 | the season id a league is built around is the one read back from it |
| CurrentSeasonsCrawling.LeagueSeasonIdsOfLeagues | src/sport/competition/api-current-seasons.crawler.ts:87 | the ids are read back from leagues built around them, in order |
| CurrentSeasonsCrawling.ConfiguredIds | src/sport/competition/api-current-seasons.crawler.ts:47-49 | the configured ids, one number per configured season, undefined when none are configured |
| CurrentSeasonsCrawling.SetTeamsData | src/sport/competition/api-current-seasons.crawler.ts:111 | succeeds exactly when the value has a teams object that is not a list, sets its data to the teams and changes nothing else; otherwise a TypeError |
| CurrentSeasonsCrawling.CleanedSeasonSharesTeams | src/sport/competition/api-current-seasons.crawler.ts:110-111 | when the teams can be set on the cleaned season they can be set on the fetched one, which shares its teams object |
| CurrentSeasonsCrawling.SeasonRequestsConcat | src/sport/competition/api-current-seasons.crawler.ts:103-128 | the seasons requested by two records one after the other are those of the first followed by those of the second |
| CurrentSeasonsCrawling.Prepare | src/sport/competition/api-current-seasons.crawler.ts:106-111 | the season is requested first, at most one more request follows and no other season is requested; a failed season request ends it with that error; on success the cleaned season is the fetched one cleaned with the teams set |
| CurrentSeasonsCrawling.OneSeasonRequested | src/sport/competition/api-current-seasons.crawler.ts:104-127 | a season's record requests exactly that season |
| CurrentSeasonsCrawling.CycleConcat | src/sport/competition/api-current-seasons.crawler.ts:103-128 | the record of a cycle over a + b is the record over a followed by the record over b, whatever happened in a |
| CurrentSeasonsCrawling.CycleRequestsFollowIds | src/sport/competition/api-current-seasons.crawler.ts:103-128 | when each season requests only itself, a cycle requests every id once, in order |
| CurrentSeasonsCrawling.CycleBalanced | src/sport/competition/api-current-seasons.crawler.ts:103-128 | when each season releases its connections, so does a cycle |
| CurrentSeasonsCrawling.CurrentSeasonsCrawler.constructor | src/sport/competition/api-current-seasons.crawler.ts:23-37 | keeps its collaborators, the update order is teams, season, stages, rounds, groups, league, fixtures, and no ids or timer are set |
| CurrentSeasonsCrawling.CurrentSeasonsCrawler.ChainResolved | src/sport/competition/api-current-seasons.crawler.ts:113-119 | when the updates resolve, each ran once, in order |
| CurrentSeasonsCrawling.CurrentSeasonsCrawler.ChainStopsAtFailure | src/sport/competition/api-current-seasons.crawler.ts:113-119 | when update k rejects after the earlier ones resolved, the season rejects with that error and no later update runs |
| CurrentSeasonsCrawling.CurrentSeasonsCrawler.ChainAllResolved | src/sport/competition/api-current-seasons.crawler.ts:113-119 | when every update resolves, the season resolves with their records one after the other |
| CurrentSeasonsCrawling.CurrentSeasonsCrawler.ChainBalanced | src/sport/competition/api-current-seasons.crawler.ts:113-119 | the updates of a season release every connection they take, wherever they stop |
| CurrentSeasonsCrawling.CurrentSeasonsCrawler.ChainFetchesNothing | src/sport/competition/api-current-seasons.crawler.ts:113-119 | the updates request no season |
| CurrentSeasonsCrawling.CurrentSeasonsCrawler.SeasonRunRequests | src/sport/competition/api-current-seasons.crawler.ts:104-127 | a season's record starts with the request for that season and requests no other |
| CurrentSeasonsCrawling.CurrentSeasonsCrawler.SeasonRunBalanced | src/sport/competition/api-current-seasons.crawler.ts:104-127 | a season's record releases every connection it takes, wherever it stops |
| CurrentSeasonsCrawling.CurrentSeasonsCrawler.FailingSeasonIsIsolated | src/sport/competition/api-current-seasons.crawler.ts:103-128 | a season that fails in the middle of a cycle leaves the seasons before and after it to run as they would alone |
| CurrentSeasonsCrawling.CurrentSeasonsCrawler.CycleRequestsEachSeasonOnce | src/sport/competition/api-current-seasons.crawler.ts:101-130 | a cycle requests each season id once, in the order given |
| CurrentSeasonsCrawling.CurrentSeasonsCrawler.CycleGivesBackConnections | src/sport/competition/api-current-seasons.crawler.ts:101-130 | a cycle releases every connection it takes |
| CurrentSeasonsCrawling.CurrentSeasonsCrawler.FetchCurrentSeasonIdsFromAvailableLeagues | src/sport/competition/api-current-seasons.crawler.ts:83-94 | one request for the leagues, and the ids of CurrentSeasonIds |
| CurrentSeasonsCrawling.CurrentSeasonsCrawler.UpdatePart | src/sport/competition/api-current-seasons.crawler.ts:113-119 | one update by the gateway method that performs it |
| CurrentSeasonsCrawling.CurrentSeasonsCrawler.RunUpdates | src/sport/competition/api-current-seasons.crawler.ts:113-119 | the updates each awaited in turn, the first rejection ending them |
| CurrentSeasonsCrawling.CurrentSeasonsCrawler.PrepareSeason | src/sport/competition/api-current-seasons.crawler.ts:106-111 | the result and record of Prepare |
| CurrentSeasonsCrawling.CurrentSeasonsCrawler.CrawlSeason | src/sport/competition/api-current-seasons.crawler.ts:104-124 | the result and record of one season's try block |
| CurrentSeasonsCrawling.CurrentSeasonsCrawler.FetchSeasons | src/sport/competition/api-current-seasons.crawler.ts:101-130 | nothing for null, undefined or an empty list; otherwise every season in turn, each failure caught |
| CurrentSeasonsCrawling.CurrentSeasonsCrawler.Run | src/sport/competition/api-current-seasons.crawler.ts:64-68 | one cycle over the valid ids, then a timer for the next cycle after refreshTimeout, whose handle is kept |
| CurrentSeasonsCrawling.CurrentSeasonsCrawler.RunOnce | src/sport/competition/api-current-seasons.crawler.ts:70-73 | one cycle over the valid ids and no timer |
| CurrentSeasonsCrawling.CurrentSeasonsCrawler.ResolveSeasonIds | src/sport/competition/api-current-seasons.crawler.ts:46-52 | the configured ids in manual mode, the running leagues' ids in auto mode, with one request only in auto mode |
| CurrentSeasonsCrawling.CurrentSeasonsCrawler.Setup | src/sport/competition/api-current-seasons.crawler.ts:45-62 | the ids are resolved, one cycle runs, and a timer follows unless the crawl mode is once |
| CurrentSeasonsCrawling.CurrentSeasonsCrawler.Stop | src/sport/competition/api-current-seasons.crawler.ts:75-77 | clears the pending cycle timer |
| CurrentSeasonsCrawling.CurrentSeasonsCrawler.HandleSetDateEvent | src/sport/competition/api-current-seasons.crawler.ts:39-43 | the one season of the event is crawled again |
| StandingCrawling.StandingsCycleConcat | src/sport/competition/api-standing-crawler.ts:56-69 | a cycle over a + b is the cycle over a and then, if it resolved, the cycle over b |
| StandingCrawling.StandingsCycleResolvedIff | src/sport/competition/api-standing-crawler.ts:56-69 | a cycle resolves exactly when the loop body resolves for every id |
| StandingCrawling.FirstFailureAbortsCycle | src/sport/competition/api-standing-crawler.ts:56-69 | when the body for an id rejects after the earlier ids resolved, the cycle rejects with that error and the later ids are not visited |
| StandingCrawling.ResolvedCycleRequests | src/sport/competition/api-standing-crawler.ts:57-58 | when every id resolves and each body requests only its own standings, the cycle requests the standings of every id once, in order |
| StandingCrawling.StandingCrawler.constructor | src/sport/competition/api-standing-crawler.ts:15-25 | keeps its collaborators, with no ids and no timer |
| StandingCrawling.StandingCrawler.CrawlPrefixErr | src/sport/competition/api-standing-crawler.ts:56-69 | once a prefix of the ids rejects, the cycle is that prefix's |
| StandingCrawling.StandingCrawler.CrawlIsCycle | src/sport/competition/api-standing-crawler.ts:56-69 | this crawler's cycle is the cycle of its loop body |
| StandingCrawling.StandingCrawler.StandingsUpdateGatewayOnly | src/sport/competition/api-standing-crawler.ts:60 | the gateway's standings update neither fetches from the data provider nor writes a file |
| StandingCrawling.StandingCrawler.StandingsUpdateBalanced | src/sport/competition/api-standing-crawler.ts:60 | the gateway's standings update releases every connection it takes |
| StandingCrawling.StandingCrawler.StoreRunNoFetches | src/sport/competition/api-standing-crawler.ts:59-64 | storing the standings requests nothing more from the data provider |
| StandingCrawling.StandingCrawler.StandingRunRequests | src/sport/competition/api-standing-crawler.ts:58-64 | the loop body for an id requests the standings of that id and nothing else |
| StandingCrawling.StandingCrawler.StoreRunBalanced | src/sport/competition/api-standing-crawler.ts:59-64 | storing the standings releases every connection it takes |
| StandingCrawling.StandingCrawler.StandingRunBalanced | src/sport/competition/api-standing-crawler.ts:58-64 | the loop body releases every connection it takes, wherever it stops |
| StandingCrawling.StandingCrawler.WithoutDbNothingIsStored | src/sport/competition/api-standing-crawler.ts:59-64 | without persistToDb the gateway is not called: the body only requests and, with persistAsJson, writes the snapshot, and takes no connection |
| StandingCrawling.StandingCrawler.StoreRunWrites | src/sport/competition/api-standing-crawler.ts:59-64 | after the request, the snapshot is written exactly when persisting as JSON and the store resolved, as the last event |
| StandingCrawling.StandingCrawler.SnapshotOnlyAsJson | src/sport/competition/api-standing-crawler.ts:58-64 | the snapshot is written only when persisting as JSON and the body resolves, and then it is the body's last event |
| StandingCrawling.StandingCrawler.StandingRecordsRequests | src/sport/competition/api-standing-crawler.ts:58 | each loop body requests only its own standings |
| StandingCrawling.StandingCrawler.ResolvedCycleRequestsEveryId | src/sport/competition/api-standing-crawler.ts:57-65 | a cycle in which every id resolves requests the standings of every id once, in order |
| StandingCrawling.StandingCrawler.FailingIdEndsRequests | src/sport/competition/api-standing-crawler.ts:56-69 | when an id is the first to reject, the cycle requests the standings of the ids up to it and of none after it |
| StandingCrawling.StandingCrawler.CycleGivesBackConnections | src/sport/competition/api-standing-crawler.ts:56-69 | a cycle releases every connection it takes |
| StandingCrawling.StandingCrawler.FetchCurrentSeasonIdsFromAvailableLeagues | src/sport/competition/api-standing-crawler.ts:80-91 | one request for the leagues, and the ids of CurrentSeasonIds |
| StandingCrawling.StandingCrawler.StandingRunCases | src/sport/competition/api-standing-crawler.ts:58-64 | a failed request ends the body with its error after that one request; otherwise the body is the request followed by the store |
| StandingCrawling.StandingCrawler.UpdateStandings | src/sport/competition/api-standing-crawler.ts:60 | the result and record of the gateway's standings update |
| StandingCrawling.StandingCrawler.CrawlStandings | src/sport/competition/api-standing-crawler.ts:58-64 | the result and record of the loop body for one id |
| StandingCrawling.StandingCrawler.StoreStandings | src/sport/competition/api-standing-crawler.ts:59-64 | the result and record of storing the standings that arrived |
| StandingCrawling.StandingCrawler.CrawlAt | src/sport/competition/api-standing-crawler.ts:57-65 | the loop body for the i-th id extends the cycle over the ids before it |
| StandingCrawling.StandingCrawler.RunOnce | src/sport/competition/api-standing-crawler.ts:55-69 | nothing for undefined ids; otherwise the ids in order until the first failure, which is caught |
| StandingCrawling.StandingCrawler.Run | src/sport/competition/api-standing-crawler.ts:50-53 | one cycle, then a timer for the next one after refreshTimeout, whose handle is kept |
| StandingCrawling.StandingCrawler.Setup | src/sport/competition/api-standing-crawler.ts:27-48 | nothing without standings; otherwise the ids are resolved by season mode, one cycle runs, and a timer follows unless the crawl mode is once |
| StandingCrawling.StandingCrawler.Stop | src/sport/competition/api-standing-crawler.ts:71-73 | clears the pending cycle timer |
| ScannerLive.LiveSaveResult | src/sport/competition/api-scanner-live.ts:107-128 | the live save rejects exactly when it has a statement and cannot get a connection |
| ScannerLive.LiveStatementRules | src/sport/competition/api-scanner-live.ts:114-127 | a statement runs once, its connection is always released, nothing is requested or rendered, and a retry with the next attempt number and the back-off of attempts + 2 is armed exactly when it failed with attempts left |
| ScannerLive.LiveSaveRules | src/sport/competition/api-scanner-live.ts:107-128 | the live save releases every connection, requests and renders nothing, runs the statement exactly when there is one and a connection (whatever the persist switch says), and arms only retries of itself |
| ScannerLive.FailedPollRules | src/sport/competition/api-scanner-live.ts:44-54 | a failed poll requests once, renders and runs nothing, and arms a retry with the back-off of attempts + 2 below attempt 30 |
| ScannerLive.FailedPollRetries | src/sport/competition/api-scanner-live.ts:44-54 | a failed request resolves, leaves the schedule and the timeout alone, and retries below attempt 30 |
| ScannerLive.FailingPollsRequests | src/sport/competition/api-scanner-live.ts:44-54 | a source that always fails from attempt n on is asked 31 - n more times |
| ScannerLive.FailingPollsTimers | src/sport/competition/api-scanner-live.ts:44-54 | a source that always fails gets one retry per attempt left, each with its back-off |
| ScannerLive.AlwaysFailingSourceIsAsked31Times | src/sport/competition/api-scanner-live.ts:47-52 | a source that always fails is asked 31 times and retried 30 times, the last retry being attempt 30 after the longest delay |
| ScannerLive.UpdateEventsRules | src/sport/competition/api-scanner-live.ts:69-105 | update renders a non-empty list once with the live options and does nothing else |
| ScannerLive.NextPollRules | src/sport/competition/api-scanner-live.ts:64-66 | re-arming holds exactly one timer, for a fresh poll after the action's timeout |
| ScannerLive.ScheduledRequestsRenders | src/sport/competition/api-scanner-live.ts:56-66 | after the schedule is extracted a poll requests nothing more and renders a non-empty list once |
| ScannerLive.ScheduledQueriesTimers | src/sport/competition/api-scanner-live.ts:56-66 | after the schedule is extracted a poll runs only the statement of its save, and arms the next poll before any retry of that save |
| ScannerLive.ScheduledBalanced | src/sport/competition/api-scanner-live.ts:56-66 | after the schedule is extracted a poll releases every connection it takes |
| ScannerLive.LiveOptionsRules | src/sport/competition/api-scanner-live.ts:70-82 | the live render holds the list, the update-fixtures.njk template, and a LIVE log entry of hash 'empty' holding the serialised list |
| ScannerLive.PollRequestsBalanced | src/sport/competition/api-scanner-live.ts:41-67 | every poll asks the provider once and releases every connection it takes |
| ScannerLive.PollRenders | src/sport/competition/api-scanner-live.ts:56-63 | only a non-empty list whose schedule could be extracted is rendered, once, with the live options |
| ScannerLive.PollSavesOnlyRendered | src/sport/competition/api-scanner-live.ts:61-63 | nothing is run without a render and a connection |
| ScannerLive.ExtractKeepsWellFormed | src/sport/competition/api-scanner-live.ts:56-60 | extraction keeps the stored schedule well formed, and the schedule handed to processSchedule resolves to the stored one |
| ScannerLive.ActionOfWellFormed | src/sport/competition/api-scanner-live.ts:60-64 | a well-formed schedule, or none, always has an action, whose timeout is that of its mode |
| ScannerLive.ExtractedPollRearms | src/sport/competition/api-scanner-live.ts:56-66 | a poll whose schedule was extracted resolves and re-arms itself at attempt 0 after the timeout of the mode of the stored schedule, which becomes the scanner's timeout; every other timer is a retry of its save |
| ScannerLive.ScheduledTimersRearm | src/sport/competition/api-scanner-live.ts:64-66 | with an action, the first timer is the next poll and the others are retries of the save |
| ScannerLive.ApiScannerLive.constructor | src/sport/competition/api-scanner-live.ts:16-27 | the timeout starts at 60000 ms |
| ScannerLive.ApiScannerLive.Run | src/sport/competition/api-scanner-live.ts:29-35 | the first poll, at attempt 0 |
| ScannerLive.ApiScannerLive.Stop | src/sport/competition/api-scanner-live.ts:37-39 | changes nothing |
| ScannerLive.ApiScannerLive.Fetch | src/sport/competition/api-scanner-live.ts:41-67 | the result, record, stored schedule and timeout are those of PollOf |
| ScannerLive.ApiScannerLive.Answer | src/sport/competition/api-scanner-live.ts:56-66 | the part of a poll after the provider answered, as AnsweredPoll |
| ScannerLive.ApiScannerLive.Proceed | src/sport/competition/api-scanner-live.ts:61-66 | update, re-arm after the action's timeout, which becomes the scanner's timeout, then the save |
| ScannerLive.ApiScannerLive.Update | src/sport/competition/api-scanner-live.ts:69-85 | a non-empty list is rendered with the live options and its statement is returned for the save |
| ScannerLive.ApiScannerLive.Save | src/sport/competition/api-scanner-live.ts:107-128 | returns LiveSaveResult and records exactly LiveSaveEvents |
| MockApi.TimeClip | src/sport/mock-sportmonks.api.ts:135 | a time value is kept exactly when it lies within the representable range, otherwise NaN |
| MockApi.DateString | src/sport/mock-sportmonks.api.ts:35 | an invalid date prints "Invalid Date", a valid one the engine's rendering |
| MockApi.SetBackMessage | src/sport/mock-sportmonks.api.ts:31-36 | the message starts with the success prefix, continues with the season id and ends with a period |
| MockApi.KickOffReadable | src/sport/mock-sportmonks.api.ts:135 | a fixture whose kick-off can be read is an object with a time object |
| MockApi.ResetFixtureRules | src/sport/mock-sportmonks.api.ts:140-153 | a reset fixture has no winner, odds not calculated, scores 0:0 with every other score null, status NS and minute null; every other field of it and of its time is kept |
| MockApi.ResetKeepsKickOff | src/sport/mock-sportmonks.api.ts:140-153 | resetting keeps the kick-off, and resetting twice is resetting once |
| MockApi.SetBackFixtureRules | src/sport/mock-sportmonks.api.ts:134-156 | the callback throws exactly when the kick-off cannot be read, resets a fixture exactly when it kicks off strictly after the instant, and returns any other unchanged |
| MockApi.SetBackFixtureIdempotent | src/sport/mock-sportmonks.api.ts:134-156 | setting back a fixture already set back to the same instant changes nothing |
| MockApi.SetBackFixturesShape | src/sport/mock-sportmonks.api.ts:134 | the list succeeds exactly when every fixture does, with the same length and order fixture by fixture; a failure is a TypeError |
| MockApi.SetBackFixturesIdempotent | src/sport/mock-sportmonks.api.ts:134-156 | mapping the set-back over a list it was already mapped over changes nothing |
| MockApi.FixturesReadable | src/sport/mock-sportmonks.api.ts:132-134 | a season whose fixture list can be read holds a fixtures object |
| MockApi.WithFixturesRules | src/sport/mock-sportmonks.api.ts:134 | the reassigned season keeps its id, holds exactly the new list, and reassigning it again changes nothing |
| MockApi.OtherSeasonUnchanged | src/sport/mock-sportmonks.api.ts:128-161 | another season, or no stored instant, returns the season as it is; a null season throws |
| MockApi.MatchingSeasonSetBack | src/sport/mock-sportmonks.api.ts:129-157 | the matching season keeps its id and its fixture list keeps its length and order, every fixture kicking off strictly after the instant reset and every other untouched |
| MockApi.ManipulateIdempotent | src/sport/mock-sportmonks.api.ts:128-161 | manipulating a manipulated season again gives the same season |
| MockApi.MockSportMonksApi.constructor | src/sport/mock-sportmonks.api.ts:15-24 | keeps the snapshot directory, with no season id and no instant set back |
| MockApi.MockSportMonksApi.SetBackSeasonToDate | src/sport/mock-sportmonks.api.ts:31-36 | stores the season and the instant and answers SetBackMessage |
| MockApi.MockSportMonksApi.ManipulateSeasonJson | src/sport/mock-sportmonks.api.ts:128-161 | the result of ManipulatedSeason under the stored season and instant |
| MockApi.MockSportMonksApi.SetBackList | src/sport/mock-sportmonks.api.ts:134-156 | the loop over the fixtures returns SetBackFixtures, the first throw aborting |
| MockApi.MockSportMonksApi.FetchAllContinents | src/sport/mock-sportmonks.api.ts:38-41 | always an empty list |
| MockApi.MockSportMonksApi.FetchAllPlaceholders | src/sport/mock-sportmonks.api.ts:43-46 | an empty list whatever the ids |
| MockApi.MockSportMonksApi.FetchAvailableCountries | src/sport/mock-sportmonks.api.ts:48-51 | always an empty list |
| MockApi.MockSportMonksApi.FetchAvailableLeagues | src/sport/mock-sportmonks.api.ts:53-56 | always an empty list |
| MockApi.MockSportMonksApi.FetchLive | src/sport/mock-sportmonks.api.ts:106-108 | always rejects with 'Method not implemented.' |
| DbMock.SetBackInstantRules | src/db-mock/db-mock.service.ts:75-81 | with the game included every fixture kicking off later than one minute before the instant is reset, so the game at the instant itself; without it only those strictly later |
| DbMock.InvalidInstantResetsNothing | src/db-mock/db-mock.service.ts:75-81 | an unparsable date resets no fixture |
| DbMock.IncludedGameIsReset | src/db-mock/db-mock.service.ts:76-80 | the game kicking off at the given instant is reset with the game included and kept without it |
| DbMock.FindTeamFindsFirst | src/db-mock/db-mock.service.ts:100-101 | the team found is the first one whose id matches |
| DbMock.FindTeamNone | src/db-mock/db-mock.service.ts:100-101 | undefined exactly when every team is read and none matches |
| DbMock.FindTeamThrows | src/db-mock/db-mock.service.ts:100-101 | throws exactly when a nullish team, or the nullish fixture, is read before any match |
| DbMock.CleanFixtureRules | src/db-mock/db-mock.service.ts:99-114 | cleaning throws exactly when a team lookup throws, the fixture is not an object, its scores are nullish or its kick-off cannot be read; otherwise it copies the id, kick-off and scores and looks up the team names |
| DbMock.CleanFixturesShape | src/db-mock/db-mock.service.ts:98-114 | the map succeeds exactly when every fixture cleans, with one entry per fixture in order |
| DbMock.InsertByDate | src/db-mock/db-mock.service.ts:115 | inserting adds exactly the one entry to the multiset |
| DbMock.InsertByDateSorted | src/db-mock/db-mock.service.ts:115 | inserting into a list ordered by date_time keeps it ordered |
| DbMock.SortByDate | src/db-mock/db-mock.service.ts:115 | the result is a permutation of the input |
| DbMock.SortByDateSorted | src/db-mock/db-mock.service.ts:115 | the result is ordered non-decreasingly by date_time |
| DbMock.TransformFixtureDataRules | src/db-mock/db-mock.service.ts:97-118 | the view fails exactly when some fixture fails to clean; otherwise it holds exactly the cleaned fixtures, one per fixture, ordered non-decreasingly by date_time |
| DbMock.DbMockService.constructor | src/db-mock/db-mock.service.ts:14-20 | keeps the mode and the data source |
| DbMock.DbMockService.SetBackSeason | src/db-mock/db-mock.service.ts:72-85 | in mock mode the data source stores the season and the parsed instant, one minute earlier with the game included, and its message is answered; otherwise nothing changes and a fixed message is answered |

## Left out

- Logging (`Logger`, `console`) is not modelled: it does not change any result or state.
- Real timers, the connection pool's capacity and the concurrency between crawlers are not modelled. Effects are recorded in order. A timer is an armed `(delay, call)` event whose firing is modelled by calling the operation again.
- The database is one `DbEnv` per call: whether a connection can be taken, the scanner-log rows and the outcome of each statement. A retried statement whose outcome changes between attempts is covered by `Bettles.RetryChain` only.
- The HTTP client, the file-reading fetchers of the mock (`fetchFullSeason`, `fetchTeamsOfSeason`, `fetchSeasonStandings`, `fetchAvailableLeaguesWithCurrentSeasons`), `DbMockService.retrieveBundesliga` and `getAvailableLeagues` are not modelled. They only read the network or the file system; their answers are the `Effects.Provider` input.
- `createNonces` is not modelled: it is random.
- The date helper and luxon parsing are not modelled; invalid dates are therefore not modelled either (see the Scheduler.Classify line). A fixture's kick-off instant is the parameter `startOf` of the scheduler, and `new Date(string)` uses the parameter `parseDate`.
- Template rendering, the debug SQL file the renderer writes and the `persistSql` switch are not modelled. Rendering is one `Render` event and an abstract function of the options.
- Numbers are integers. Fractional JSON numbers and floating-point formatting are not modelled.
- CommonConfiguration.Port: `Number` reads only optionally signed decimal integers. A hexadecimal, binary or octal numeral (`0x1F90`), an exponent (`8e3`), a fraction or `Infinity` falls back to 3000 here, while JavaScript reads it as a number.
- CrawlConfiguration.KeepIds: hexadecimal, exponent, fractional and `Infinity` ids are dropped as NaN. JavaScript keeps them, so "0x10,1e3,1.5" keeps three ids there and none here.
- CrawlConfiguration.ParseSeasonIds: for the same numerals the model returns a shorter list, or null, where the source keeps the ids.
- Bettles.BettlesApi.StandingsSeasonId: `Number` of an array or object is NaN here. JavaScript converts `[]` to 0 and a one-element array through its element.
- Transformers.TransformLeagueType: upper-casing maps only the ASCII letters a-z. JavaScript's `toUpperCase` also maps other letters ("é" to "É", "ß" to "SS"), which the model leaves unchanged.
- JSON objects are values. In-place updates of shared objects are modelled explicitly only where the source relies on them: the cleaned season shares its `teams` object with the fetched season (`CurrentSeasonsCrawling.CleanedSeasonSharesTeams`), and the set-back rewrites fixtures and reassigns `season.fixtures.data` (`MockApi.ManipulatedSeason`).
- `DbMockService.api` is the mocked data source. Outside mock mode it is never called, so the real client is not needed.
- Scheduler.SortByKey: the in-place `Array.prototype.sort` of the relevant fixtures is a stable insertion sort on values. The sort is a library call. Its comparator throws when a fixture has no `starting_at`, and `Scheduler.BuildSchedule` raises that TypeError before sorting, so the sort is only applied where every kick-off can be read. Which comparison throws first is not modelled.
- DbMock.TransformFixtureDataRules: it requires that every readable `date_time` is a string, as the declared fixture type says. The comparator `a.date_time > b.date_time ? 1 : -1` answers -1 for equal keys, so the order among fixtures with the same `date_time` is unspecified. The model uses an insertion sort and promises only a permutation ordered non-decreasingly by `date_time`.
- Scheduler.Classify: for a window whose end is before its start, the source falls through every branch and returns undefined. The model returns `None` there; a stored schedule never has such a window (`Scheduler.SchedulerService.ProcessStoredScheduleTotal`). That holds because kick-offs are integer instants here. In the program, `DateTime.fromSQL` gives an invalid DateTime for a missing or malformed `date_time` or an unknown `timezone`; `processSchedule` then returns undefined, and the live scanner throws at `action.timeout` and stops polling. So `ProcessStoredScheduleTotal` and `ScannerLive.ExtractedPollRearms` are facts about the model, not about such inputs.
- CurrentSeasonsCrawling.SetTeamsData: a season whose `teams` is a list is a TypeError here. JavaScript sets `data` on the list and goes on, but lists have no named members in this model. `CurrentSeasonsCrawling.Prepare` and `CurrentSeasonsCrawler.CrawlSeason` inherit this and drop such a season.
- The SQL templates themselves (`*.njk`) are not part of this model. Only the filters `esc` and `ifNil` and the filter bindings are.
