/**
 * The season crawler: it resolves the season ids to crawl (from the
 * configuration, or from the leagues the provider reports as running),
 * fetches each season and its teams, cleans the fixtures, and runs the seven
 * season updates in a fixed order. A failure for one season is caught and
 * the crawler goes on with the next one. In "until-stopped" mode every cycle
 * ends by arming a timer for the next one.
 */
module CurrentSeasonsCrawling {
  import opened Wrappers
  import opened Js
  import opened Effects
  import opened SeasonCleaning
  import opened FileWriting
  import opened CrawlConfiguration
  import opened Scanner
  import opened Bettles
  import opened TemplateEngine
  import opened NunjuckRender

  // ---------------------------------------------------------------------------
  // season ids of the running leagues

  /** `league.season.data.id`, which throws at the first nullish link. */
  function LeagueSeasonId(league: Json): Result<Option<Json>, string> {
    Path(Some(league), ["season", "data", "id"])
  }

  /** `leagues.map(league => league.season.data.id)`: undefined as soon as one league throws. */
  function LeagueSeasonIds(leagues: seq<Json>): (r: Option<seq<Option<Json>>>)
    ensures r.Some? <==> forall i :: 0 <= i < |leagues| ==> LeagueSeasonId(leagues[i]).Ok?
    ensures r.Some? ==> |r.value| == |leagues|
    ensures r.Some? ==> forall i :: 0 <= i < |leagues| ==> r.value[i] == LeagueSeasonId(leagues[i]).value
    decreases |leagues|
  {
    if leagues == [] then Some([])
    else
      var last := leagues[|leagues| - 1];
      match LeagueSeasonIds(leagues[..|leagues| - 1])
      case None => None
      case Some(ids) =>
        match LeagueSeasonId(last)
        case Err(_) => None
        case Ok(id) => Some(ids + [id])
  }

  /**
   * `fetchCurrentSeasonIdsFromAvailableLeagues()`: the season ids of the
   * leagues in the order returned, or undefined when the request fails, the
   * payload is falsy, it has no `map` (it is not a list), or a league throws.
   */
  function CurrentSeasonIds(answer: Result<Option<Json>, string>): (r: Option<seq<Option<Json>>>)
    ensures answer.Err? || !Truthy(answer.value) || !IsArray(answer.value) ==> r.None?
    ensures answer.Ok? && IsArray(answer.value) ==> r == LeagueSeasonIds(answer.value.value.items)
  {
    if answer.Err? || !Truthy(answer.value) || !IsArray(answer.value) then None
    else LeagueSeasonIds(answer.value.value.items)
  }

  /** The provider's shape of a league running season `id`: `{ season: { data: { id } } }`. */
  function LeagueOf(id: Json): Json {
    JObj(map["season" := JObj(map["data" := JObj(map["id" := id])])])
  }

  /** The id a league is built around is the one read back from it. */
  lemma LeagueOfReadsBack(id: Json)
    ensures LeagueSeasonId(LeagueOf(id)) == Ok(Some(id))
  {
    var league := LeagueOf(id);
    assert Prop(Some(league), "season") == Ok(Some(JObj(map["data" := JObj(map["id" := id])])));
    assert Path(Some(league), ["season", "data", "id"])
        == Path(Some(JObj(map["data" := JObj(map["id" := id])])), ["data", "id"]);
    assert Path(Some(JObj(map["data" := JObj(map["id" := id])])), ["data", "id"])
        == Path(Some(JObj(map["id" := id])), ["id"]);
    assert Path(Some(JObj(map["id" := id])), ["id"]) == Path(Some(id), []);
  }

  /** The ids are read back from leagues built around them, in order. */
  lemma LeagueSeasonIdsOfLeagues(ids: seq<Json>)
    ensures LeagueSeasonIds(seq(|ids|, i requires 0 <= i < |ids| => LeagueOf(ids[i])))
         == Some(seq(|ids|, i requires 0 <= i < |ids| => Some(ids[i])))
  {
    var leagues := seq(|ids|, i requires 0 <= i < |ids| => LeagueOf(ids[i]));
    forall i | 0 <= i < |leagues| ensures LeagueSeasonId(leagues[i]) == Ok(Some(ids[i])) {
      LeagueOfReadsBack(ids[i]);
    }
    var r := LeagueSeasonIds(leagues);
    assert r.Some?;
    assert r.value == seq(|ids|, i requires 0 <= i < |ids| => Some(ids[i]));
  }

  /** The configured ids as the crawler holds them. */
  function ConfiguredIds(seasons: Option<seq<int>>): (r: Option<seq<Option<Json>>>)
    ensures r.Some? <==> seasons.Some?
    ensures r.Some? ==> |r.value| == |seasons.value|
    ensures r.Some? ==> forall i :: 0 <= i < |r.value| ==> r.value[i] == Some(JNum(seasons.value[i]))
  {
    if seasons.None? then None
    else Some(seq(|seasons.value|, i requires 0 <= i < |seasons.value| => Some(JNum(seasons.value[i]))))
  }

  // ---------------------------------------------------------------------------
  // one season

  /**
   * `cleanedSeason.teams.data = teams`: reading `teams` of a value without
   * that member throws, and so does writing `data` on a value that is not an
   * object (the module code runs in strict mode). A list is an object in
   * JavaScript and takes the member, but lists have no named members here,
   * so a list of teams is a TypeError in this model.
   */
  function SetTeamsData(v: Option<Json>, teams: Option<Json>): (r: Result<Json, string>)
    ensures r.Ok? <==> Get(v, "teams").Some? && Get(v, "teams").value.JObj?
    ensures r.Err? ==> r.error == TYPE_ERROR
    ensures r.Ok? ==> r.value.JObj? && Get(Get(Some(r.value), "teams"), "data") == teams
    ensures r.Ok? ==> forall k :: k != "data" ==> Get(Get(Some(r.value), "teams"), k) == Get(Get(v, "teams"), k)
    ensures r.Ok? ==> forall k :: k != "teams" ==> Get(Some(r.value), k) == Get(v, k)
  {
    var t := Get(v, "teams");
    if t.None? || !t.value.JObj? then Err(TYPE_ERROR)
    else
      var fields := t.value.fields;
      var newTeams := if teams.Some? then fields["data" := teams.value] else fields - {"data"};
      Ok(JObj(v.value.fields["teams" := JObj(newTeams)]))
  }

  /** The cleaned season shares the fetched season's teams object, so setting its teams also sets the fetched season's. */
  lemma CleanedSeasonSharesTeams(season: Option<Json>, teams: Option<Json>)
    requires CleanFixturesOfSeason(season).Ok?
    requires SetTeamsData(CleanFixturesOfSeason(season).value, teams).Ok?
    ensures SetTeamsData(season, teams).Ok?
  {
    CleanKeepsOtherFields(season, "teams");
  }

  /** A record that requests no season. */
  predicate NoSeasonFetches(t: seq<Event>) {
    forall i :: 0 <= i < |t| ==> !(t[i].Fetch? && t[i].request.FullSeason?)
  }

  lemma NoSeasonFetchesConcat(a: seq<Event>, b: seq<Event>)
    requires NoSeasonFetches(a) && NoSeasonFetches(b)
    ensures NoSeasonFetches(a + b)
  {
    forall i | 0 <= i < |a + b| ensures !((a + b)[i].Fetch? && (a + b)[i].request.FullSeason?) {
      if i >= |a| {
        assert (a + b)[i] == b[i - |a|];
      }
    }
  }

  /** The season ids requested in `t`, in order. */
  function SeasonRequests(t: seq<Event>): seq<Option<Json>>
  {
    if t == [] then []
    else
      var e := t[|t| - 1];
      SeasonRequests(t[..|t| - 1]) + (if e.Fetch? && e.request.FullSeason? then [e.request.seasonId] else [])
  }

  lemma {:induction false} SeasonRequestsConcat(a: seq<Event>, b: seq<Event>)
    ensures SeasonRequests(a + b) == SeasonRequests(a) + SeasonRequests(b)
    decreases |b|
  {
    if b == [] {
      assert a + b == a;
    } else {
      assert (a + b)[..|a + b| - 1] == a + b[..|b| - 1];
      SeasonRequestsConcat(a, b[..|b| - 1]);
    }
  }

  lemma {:induction false} NoSeasonFetchesNoRequests(t: seq<Event>)
    requires NoSeasonFetches(t)
    ensures SeasonRequests(t) == []
    decreases |t|
  {
    if t != [] {
      NoSeasonFetchesNoRequests(t[..|t| - 1]);
    }
  }

  /** A season ready for its updates: the fetched season, its teams, and the cleaned season holding them. */
  datatype Prepared = Prepared(season: Option<Json>, teams: Option<Json>, cleaned: Json)

  /** The first half of the per-season `try`, with its requests. */
  datatype Preparation = Preparation(events: seq<Event>, result: Result<Prepared, string>)

  /**
   * Fetch the season, read its id, fetch its teams, clean its fixtures and
   * put the teams into the cleaned season; the first failure ends it.
   */
  function Prepare(p: Provider, id: Option<Json>): (r: Preparation)
    ensures 1 <= |r.events| <= 2 && r.events[0] == Fetch(FullSeason(id))
    ensures NoConnections(r.events) && NoSeasonFetches(r.events[1..])
    ensures r.result.Ok? ==> p.fullSeason(id) == Ok(r.result.value.season)
    ensures r.result.Ok? ==>
      CleanFixturesOfSeason(r.result.value.season).Ok?
      && SetTeamsData(CleanFixturesOfSeason(r.result.value.season).value, r.result.value.teams) == Ok(r.result.value.cleaned)
    ensures r.result.Ok? ==> SetTeamsData(r.result.value.season, r.result.value.teams).Ok?
    ensures p.fullSeason(id).Err? ==> r == Preparation([Fetch(FullSeason(id))], Err(p.fullSeason(id).error))
  {
    var fetchSeason := [Fetch(FullSeason(id))];
    match p.fullSeason(id)
    case Err(e) => Preparation(fetchSeason, Err(e))
    case Ok(season) =>
      match Prop(season, "id")
      case Err(e) => Preparation(fetchSeason, Err(e))
      case Ok(seasonId) =>
        var fetched := fetchSeason + [Fetch(TeamsOfSeason(seasonId))];
        match p.teamsOfSeason(seasonId)
        case Err(e) => Preparation(fetched, Err(e))
        case Ok(teams) =>
          match CleanFixturesOfSeason(season)
          case Err(e) => Preparation(fetched, Err(e))
          case Ok(cleaned) =>
            match SetTeamsData(cleaned, teams)
            case Err(e) => Preparation(fetched, Err(e))
            case Ok(s) =>
              CleanedSeasonSharesTeams(season, teams);
              Preparation(fetched, Ok(Prepared(season, teams, s)))
  }

  /** A season's record: the request for that season first, and no request for another season after it. */
  predicate RequestsOnly(t: seq<Event>, id: Option<Json>) {
    |t| > 0 && t[0] == Fetch(FullSeason(id)) && NoSeasonFetches(t[1..])
  }

  /** A season's record stays one when events that request no season follow it. */
  lemma RequestsOnlyConcat(t: seq<Event>, more: seq<Event>, id: Option<Json>)
    requires RequestsOnly(t, id) && NoSeasonFetches(more)
    ensures RequestsOnly(t + more, id)
  {
    assert (t + more)[1..] == t[1..] + more;
    NoSeasonFetchesConcat(t[1..], more);
  }

  /** A record that starts with the request for season `id` and requests no other season. */
  lemma OneSeasonRequested(t: seq<Event>, id: Option<Json>)
    requires RequestsOnly(t, id)
    ensures SeasonRequests(t) == [id]
  {
    assert t == [t[0]] + t[1..];
    NoSeasonFetchesNoRequests(t[1..]);
    assert SeasonRequests([t[0]]) == [id] by {
      assert [t[0]][..0] == [];
    }
    SeasonRequestsConcat([t[0]], t[1..]);
  }

  // ---------------------------------------------------------------------------
  // a cycle over several seasons

  /**
   * The record of a cycle over `ids` when `run(id)` is the record of the
   * per-season `try` for `id`: each season in turn, whatever the others did.
   */
  function Cycle(run: Option<Json> -> seq<Event>, ids: seq<Option<Json>>): seq<Event>
    decreases |ids|
  {
    if ids == [] then []
    else Cycle(run, ids[..|ids| - 1]) + run(ids[|ids| - 1])
  }

  /**
   * Error isolation: the record of a cycle over `a + b` is the record over
   * `a` followed by the record over `b`, whatever happened to the seasons
   * of `a`.
   */
  lemma {:induction false} CycleConcat(run: Option<Json> -> seq<Event>, a: seq<Option<Json>>, b: seq<Option<Json>>)
    ensures Cycle(run, a + b) == Cycle(run, a) + Cycle(run, b)
    decreases |b|
  {
    if b == [] {
      assert a + b == a;
    } else {
      assert (a + b)[..|a + b| - 1] == a + b[..|b| - 1];
      CycleConcat(run, a, b[..|b| - 1]);
    }
  }

  lemma CycleOfOne(run: Option<Json> -> seq<Event>, id: Option<Json>)
    ensures Cycle(run, [id]) == run(id)
  {
    assert [id][..0] == [];
  }

  /** When each season requests only itself, a cycle requests every id once, in the order given, and nothing else. */
  lemma {:induction false} CycleRequestsFollowIds(run: Option<Json> -> seq<Event>, ids: seq<Option<Json>>)
    requires forall id :: RequestsOnly(run(id), id)
    ensures SeasonRequests(Cycle(run, ids)) == ids
    decreases |ids|
  {
    if ids != [] {
      var init := ids[..|ids| - 1];
      var last := ids[|ids| - 1];
      CycleRequestsFollowIds(run, init);
      OneSeasonRequested(run(last), last);
      SeasonRequestsConcat(Cycle(run, init), run(last));
      assert ids == init + [last];
    }
  }

  /** When each season gives back the connections it takes, so does a cycle. */
  lemma {:induction false} CycleBalanced(run: Option<Json> -> seq<Event>, ids: seq<Option<Json>>)
    requires forall id :: Balanced(run(id))
    ensures Balanced(Cycle(run, ids))
    decreases |ids|
  {
    if ids != [] {
      CycleBalanced(run, ids[..|ids| - 1]);
      BalancedConcat(Cycle(run, ids[..|ids| - 1]), run(ids[|ids| - 1]));
    }
  }

  /** The season updates `fetchSeasons` awaits. */
  datatype Part = TeamsPart | SeasonPart | StagesPart | RoundsPart | GroupsPart | LeaguePart | FixturesPart

  /** The order of the updates: teams, season, stages, rounds, groups, league, fixtures. */
  const UPDATE_ORDER: seq<Part> := [TeamsPart, SeasonPart, StagesPart, RoundsPart, GroupsPart, LeaguePart, FixturesPart]

  class CurrentSeasonsCrawler {
    const rt: Runtime
    const config: CrawlConfig
    const bettles: BettlesApi
    const writer: FileWriter
    /** The updates a crawled season goes through, in the order they are awaited. */
    const updateOrder: seq<Part>
    /** `#validSeasonIds`: undefined until set up. */
    var validSeasonIds: Option<seq<Option<Json>>>
    /** The handle of the pending cycle timer, undefined before the first one. */
    var timeoutHandle: Option<nat>

    /** The gateway and the writer record into the crawler's runtime and follow its configuration. */
    predicate Wired() {
      bettles.Wired() && bettles.rt == rt && writer.rt == rt
      && bettles.persistToDb == config.persistToDb && writer.mockDbPath == config.basics.mockDbPath
    }

    /** The constructor; with `autorun` the setup is started by the caller. */
    constructor(rt: Runtime, config: CrawlConfig, bettles: BettlesApi, writer: FileWriter)
      requires bettles.Wired() && bettles.rt == rt && writer.rt == rt
      requires bettles.persistToDb == config.persistToDb && writer.mockDbPath == config.basics.mockDbPath
      ensures Wired()
      ensures this.rt == rt && this.config == config && this.bettles == bettles && this.writer == writer
      ensures updateOrder == UPDATE_ORDER
      ensures validSeasonIds.None? && timeoutHandle.None?
    {
      this.rt := rt;
      this.config := config;
      this.bettles := bettles;
      this.writer := writer;
      this.updateOrder := UPDATE_ORDER;
      validSeasonIds := None;
      timeoutHandle := None;
    }

    // the seven updates of a season, as outcomes

    function TeamsStep(s: Json, env: DbEnv): Outcome {
      Outcome(bettles.SeasonListEvents(s, "teams", "team.njk", "teams", env),
              bettles.SeasonListResult(s, "teams", "team.njk", env))
    }

    function SeasonStep(s: Json, env: DbEnv): Outcome {
      if s.JNull? then Outcome([], Err(TYPE_ERROR))
      else Outcome(bettles.CheckedEvents(bettles.SeasonUpdate(s), env), bettles.CheckedResult(bettles.SeasonUpdate(s), env))
    }

    function StagesStep(s: Json, env: DbEnv): Outcome {
      Outcome(bettles.SeasonListEvents(s, "stages", "stage.njk", "stages", env),
              bettles.SeasonListResult(s, "stages", "stage.njk", env))
    }

    function RoundsStep(s: Json, env: DbEnv): Outcome {
      Outcome(bettles.SeasonListEvents(s, "rounds", "round.njk", "rounds", env),
              bettles.SeasonListResult(s, "rounds", "round.njk", env))
    }

    function GroupsStep(s: Json, env: DbEnv): Outcome {
      Outcome(bettles.SeasonListEvents(s, "groups", "group.njk", "groups", env),
              bettles.SeasonListResult(s, "groups", "group.njk", env))
    }

    function LeagueStep(s: Json, env: DbEnv): Outcome {
      if s.JNull? then Outcome([], Err(TYPE_ERROR))
      else Outcome(bettles.RenderSaveEvents(bettles.LeagueOfSeasonOptions(s), "league with current season", env),
                   bettles.RenderSaveResult(bettles.LeagueOfSeasonOptions(s), env))
    }

    function FixturesStep(s: Json, env: DbEnv): Outcome {
      Outcome(bettles.SeasonListEvents(s, "fixtures", "fixture.njk", "fixtures", env),
              bettles.SeasonListResult(s, "fixtures", "fixture.njk", env))
    }

    function Step(part: Part, s: Json, env: DbEnv): Outcome {
      match part
      case TeamsPart => TeamsStep(s, env)
      case SeasonPart => SeasonStep(s, env)
      case StagesPart => StagesStep(s, env)
      case RoundsPart => RoundsStep(s, env)
      case GroupsPart => GroupsStep(s, env)
      case LeaguePart => LeagueStep(s, env)
      case FixturesPart => FixturesStep(s, env)
    }

    /** Awaiting the updates `parts` one after the other: each runs only when the one before resolved. */
    function Chain(parts: seq<Part>, s: Json, env: DbEnv): Outcome
      decreases |parts|
    {
      if parts == [] then Outcome([], Ok(()))
      else AndThen(Step(parts[0], s, env), Chain(parts[1..], s, env))
    }

    /** The records of the updates `parts`, one after the other. */
    function StepEvents(parts: seq<Part>, s: Json, env: DbEnv): seq<Event>
      decreases |parts|
    {
      if parts == [] then [] else Step(parts[0], s, env).events + StepEvents(parts[1..], s, env)
    }

    /** The seven updates of a season. */
    function SeasonUpdates(s: Json, env: DbEnv): Outcome {
      Chain(updateOrder, s, env)
    }

    /**
     * With `persistAsJson`, the fetched season (which shares its teams object
     * with the cleaned one, so it holds the teams too) and the teams are written.
     */
    function SeasonWrites(c: Prepared): seq<Event>
      requires SetTeamsData(c.season, c.teams).Ok?
    {
      if config.persistAsJson then SeasonJsonWrites(config.basics.mockDbPath, Some(SetTeamsData(c.season, c.teams).value), c.teams)
      else []
    }

    /** What follows the preparation: the updates, then the writes when they resolve. */
    function Finish(c: Prepared, env: DbEnv): seq<Event>
      requires SetTeamsData(c.season, c.teams).Ok?
    {
      var updates := SeasonUpdates(c.cleaned, env);
      updates.events + (if updates.result.Ok? then SeasonWrites(c) else [])
    }

    /** The body of the per-season `try`: the preparation, then the updates and the writes. */
    function SeasonRun(p: Provider, env: DbEnv, id: Option<Json>): Outcome {
      var pre := Prepare(p, id);
      match pre.result
      case Err(e) => Outcome(pre.events, Err(e))
      case Ok(c) => Outcome(pre.events + Finish(c, env), SeasonUpdates(c.cleaned, env).result)
    }

    /** The record of the per-season `try`, season by season. */
    function SeasonRecords(p: Provider, env: DbEnv): Option<Json> -> seq<Event> {
      id => SeasonRun(p, env, id).events
    }

    /** `fetchSeasons(ids)`: nothing for null, undefined or an empty list. */
    function FetchSeasonsEvents(p: Provider, env: DbEnv, ids: Option<seq<Option<Json>>>): seq<Event> {
      if ids.None? then [] else Cycle(SeasonRecords(p, env), ids.value)
    }

    // ---------------------------------------------------------------------------
    // properties of a cycle

    /** When every update resolves, each ran once, in order. */
    lemma {:induction false} ChainResolved(parts: seq<Part>, s: Json, env: DbEnv)
      requires Chain(parts, s, env).result.Ok?
      ensures Chain(parts, s, env).events == StepEvents(parts, s, env)
      decreases |parts|
    {
      if parts != [] {
        ChainResolved(parts[1..], s, env);
      }
    }

    /**
     * When the updates before `k` resolve and update `k` rejects, the chain
     * rejects with that error and no update after `k` runs.
     */
    lemma {:induction false} ChainStopsAtFailure(parts: seq<Part>, k: nat, s: Json, env: DbEnv)
      requires k < |parts|
      requires forall i :: 0 <= i < k ==> Step(parts[i], s, env).result.Ok?
      requires Step(parts[k], s, env).result.Err?
      ensures Chain(parts, s, env) == Outcome(StepEvents(parts[..k + 1], s, env), Step(parts[k], s, env).result)
      decreases k
    {
      if k == 0 {
        assert StepEvents(parts[..1], s, env) == Step(parts[0], s, env).events + StepEvents([], s, env);
      } else {
        ChainStopsAtFailure(parts[1..], k - 1, s, env);
        assert parts[1..][..k] == parts[..k + 1][1..];
      }
    }

    /** When every update resolves, the chain resolves with their records one after the other. */
    lemma {:induction false} ChainAllResolved(parts: seq<Part>, s: Json, env: DbEnv)
      requires forall i :: 0 <= i < |parts| ==> Step(parts[i], s, env).result.Ok?
      ensures Chain(parts, s, env) == Outcome(StepEvents(parts, s, env), Ok(()))
      decreases |parts|
    {
      if parts != [] {
        ChainAllResolved(parts[1..], s, env);
      }
    }

    lemma StepBalanced(part: Part, s: Json, env: DbEnv)
      ensures Balanced(Step(part, s, env).events)
    {
      if !s.JNull? {
        match part
        case TeamsPart =>
          bettles.RenderSaveBalanced(bettles.SeasonListOptions(s, "teams", "team.njk"), bettles.SeasonListLog(s, "teams"), env);
        case SeasonPart =>
          bettles.CheckedBalanced(bettles.SeasonUpdate(s), env);
        case StagesPart =>
          bettles.RenderSaveBalanced(bettles.SeasonListOptions(s, "stages", "stage.njk"), bettles.SeasonListLog(s, "stages"), env);
        case RoundsPart =>
          bettles.RenderSaveBalanced(bettles.SeasonListOptions(s, "rounds", "round.njk"), bettles.SeasonListLog(s, "rounds"), env);
        case GroupsPart =>
          bettles.RenderSaveBalanced(bettles.SeasonListOptions(s, "groups", "group.njk"), bettles.SeasonListLog(s, "groups"), env);
        case LeaguePart =>
          bettles.RenderSaveBalanced(bettles.LeagueOfSeasonOptions(s), "league with current season", env);
        case FixturesPart =>
          bettles.RenderSaveBalanced(bettles.SeasonListOptions(s, "fixtures", "fixture.njk"), bettles.SeasonListLog(s, "fixtures"), env);
      }
    }

    /** The updates of a season give back every connection they take, wherever they stop. */
    lemma {:induction false} ChainBalanced(parts: seq<Part>, s: Json, env: DbEnv)
      ensures Balanced(Chain(parts, s, env).events)
      decreases |parts|
    {
      if parts != [] {
        StepBalanced(parts[0], s, env);
        ChainBalanced(parts[1..], s, env);
        AndThenBalanced(Step(parts[0], s, env), Chain(parts[1..], s, env));
      }
    }

    /** A season's update, fetch-free record, for the cycle lemmas. */
    lemma RenderSaveFetchesNothing(options: TemplateOptions, log: string, env: DbEnv)
      ensures NoSeasonFetches(bettles.RenderSaveEvents(options, log, env))
    {
      var sql := Rendered(bettles.engine.template, options);
      if HasSql(sql) && bettles.persistToDb && env.connectOk {
        var t := StatementEvents(sql.value, log, 0, env.queryOk(sql.value));
        assert forall i :: 0 <= i < |t| ==> !t[i].Fetch?;
      }
    }

    lemma StepFetchesNothing(part: Part, s: Json, env: DbEnv)
      ensures NoSeasonFetches(Step(part, s, env).events)
    {
      if !s.JNull? {
        match part
        case TeamsPart =>
          RenderSaveFetchesNothing(bettles.SeasonListOptions(s, "teams", "team.njk"), bettles.SeasonListLog(s, "teams"), env);
        case SeasonPart =>
          var u := bettles.SeasonUpdate(s);
          if bettles.CheckedRenders(u, env) {
            RenderSaveFetchesNothing(bettles.CheckedOptions(u, env), u.log, env);
          }
        case StagesPart =>
          RenderSaveFetchesNothing(bettles.SeasonListOptions(s, "stages", "stage.njk"), bettles.SeasonListLog(s, "stages"), env);
        case RoundsPart =>
          RenderSaveFetchesNothing(bettles.SeasonListOptions(s, "rounds", "round.njk"), bettles.SeasonListLog(s, "rounds"), env);
        case GroupsPart =>
          RenderSaveFetchesNothing(bettles.SeasonListOptions(s, "groups", "group.njk"), bettles.SeasonListLog(s, "groups"), env);
        case LeaguePart =>
          RenderSaveFetchesNothing(bettles.LeagueOfSeasonOptions(s), "league with current season", env);
        case FixturesPart =>
          RenderSaveFetchesNothing(bettles.SeasonListOptions(s, "fixtures", "fixture.njk"), bettles.SeasonListLog(s, "fixtures"), env);
      }
    }

    lemma {:induction false} ChainFetchesNothing(parts: seq<Part>, s: Json, env: DbEnv)
      ensures NoSeasonFetches(Chain(parts, s, env).events)
      decreases |parts|
    {
      if parts != [] {
        StepFetchesNothing(parts[0], s, env);
        ChainFetchesNothing(parts[1..], s, env);
      }
    }

    /**
     * A season's record starts with the request for that season, requests
     * no other season, and gives back every connection it takes.
     */
    lemma FinishShape(c: Prepared, env: DbEnv)
      requires SetTeamsData(c.season, c.teams).Ok?
      ensures NoSeasonFetches(Finish(c, env)) && Balanced(Finish(c, env))
    {
      var updates := SeasonUpdates(c.cleaned, env);
      var writes := if updates.result.Ok? then SeasonWrites(c) else [];
      ChainBalanced(updateOrder, c.cleaned, env);
      ChainFetchesNothing(updateOrder, c.cleaned, env);
      assert NoConnections(writes);
      NoConnectionsBalanced(writes);
      BalancedConcat(updates.events, writes);
    }

    /** A season's record starts with the request for that season and requests no other season. */
    lemma SeasonRunRequests(p: Provider, env: DbEnv, id: Option<Json>)
      ensures RequestsOnly(SeasonRun(p, env, id).events, id)
    {
      var pre := Prepare(p, id);
      if pre.result.Ok? {
        FinishShape(pre.result.value, env);
        RequestsOnlyConcat(pre.events, Finish(pre.result.value, env), id);
      }
    }

    /** A season's record gives back every connection it takes, wherever it stops. */
    lemma SeasonRunBalanced(p: Provider, env: DbEnv, id: Option<Json>)
      ensures Balanced(SeasonRun(p, env, id).events)
    {
      var pre := Prepare(p, id);
      NoConnectionsBalanced(pre.events);
      if pre.result.Ok? {
        var c := pre.result.value;
        FinishShape(c, env);
        BalancedConcat(pre.events, Finish(c, env));
      }
    }

    lemma SeasonRecordsShape(p: Provider, env: DbEnv)
      ensures forall id :: RequestsOnly(SeasonRecords(p, env)(id), id) && Balanced(SeasonRecords(p, env)(id))
    {
      forall id
        ensures RequestsOnly(SeasonRecords(p, env)(id), id) && Balanced(SeasonRecords(p, env)(id))
      {
        SeasonRunRequests(p, env, id);
        SeasonRunBalanced(p, env, id);
      }
    }

    /** A season that fails in the middle of a cycle leaves the seasons after it to run as they would alone. */
    lemma FailingSeasonIsIsolated(p: Provider, env: DbEnv, before: seq<Option<Json>>, id: Option<Json>, after: seq<Option<Json>>)
      requires SeasonRun(p, env, id).result.Err?
      ensures Cycle(SeasonRecords(p, env), before + [id] + after)
           == Cycle(SeasonRecords(p, env), before) + SeasonRun(p, env, id).events + Cycle(SeasonRecords(p, env), after)
    {
      var run := SeasonRecords(p, env);
      CycleConcat(run, before + [id], after);
      CycleConcat(run, before, [id]);
      assert Cycle(run, [id]) == Cycle(run, []) + run(id);
    }

    /** A cycle requests each season id once, in the order given, and no other season. */
    lemma CycleRequestsEachSeasonOnce(p: Provider, env: DbEnv, ids: seq<Option<Json>>)
      ensures SeasonRequests(Cycle(SeasonRecords(p, env), ids)) == ids
    {
      SeasonRecordsShape(p, env);
      CycleRequestsFollowIds(SeasonRecords(p, env), ids);
    }

    /** A cycle gives back every connection it takes. */
    lemma CycleGivesBackConnections(p: Provider, env: DbEnv, ids: seq<Option<Json>>)
      ensures Balanced(Cycle(SeasonRecords(p, env), ids))
    {
      SeasonRecordsShape(p, env);
      CycleBalanced(SeasonRecords(p, env), ids);
    }

    // the crawler's operations

    /** `fetchCurrentSeasonIdsFromAvailableLeagues()`: one request; its errors are caught. */
    method FetchCurrentSeasonIdsFromAvailableLeagues(p: Provider) returns (ids: Option<seq<Option<Json>>>)
      modifies rt
      ensures ids == CurrentSeasonIds(p.leagues)
      ensures rt.trace == old(rt.trace) + [Fetch(LeaguesWithCurrentSeasons)]
    {
      rt.Emit(Fetch(LeaguesWithCurrentSeasons));
      var data := p.leagues;
      if data.Err? || !Truthy(data.value) || !IsArray(data.value) {
        return None;
      }
      ids := LeagueSeasonIds(data.value.value.items);
    }

    /** One update of a season, by the gateway method that performs it. */
    method UpdatePart(part: Part, s: Json, env: DbEnv) returns (r: Result<(), string>)
      requires Wired()
      modifies rt, bettles.scanner
      ensures r == Step(part, s, env).result
      ensures rt.trace == old(rt.trace) + Step(part, s, env).events
    {
      match part
      case TeamsPart => r := bettles.UpdateTeamsOfSeason(s, env);
      case SeasonPart => r := bettles.UpdateSeason(s, env);
      case StagesPart => r := bettles.UpdateStagesOfSeason(s, env);
      case RoundsPart => r := bettles.UpdateRoundsOfSeason(s, env);
      case GroupsPart => r := bettles.UpdateGroupsOfSeason(s, env);
      case LeaguePart => r := bettles.UpdateLeagueOfSeason(s, env);
      case FixturesPart => r := bettles.UpdateFixturesOfSeason(s, env);
    }

    /** The updates `parts`, each awaited in turn; the first rejection ends them. */
    method RunUpdates(parts: seq<Part>, s: Json, env: DbEnv) returns (r: Result<(), string>)
      requires Wired()
      modifies rt, bettles.scanner
      ensures r == Chain(parts, s, env).result
      ensures rt.trace == old(rt.trace) + Chain(parts, s, env).events
    {
      ghost var done: seq<Event> := [];
      for i := 0 to |parts|
        invariant rt.trace == old(rt.trace) + done
        invariant Chain(parts, s, env).events == done + Chain(parts[i..], s, env).events
        invariant Chain(parts, s, env).result == Chain(parts[i..], s, env).result
      {
        r := UpdatePart(parts[i], s, env);
        ghost var step := Step(parts[i], s, env);
        assert parts[i..][1..] == parts[i + 1..];
        assert Chain(parts[i..], s, env) == AndThen(step, Chain(parts[i + 1..], s, env));
        AppendAssoc(old(rt.trace), done, step.events);
        if r.Err? {
          return;
        }
        AppendAssoc(done, step.events, Chain(parts[i + 1..], s, env).events);
        done := done + step.events;
      }
      assert parts[|parts|..] == [];
      r := Ok(());
    }

    /** The preparation of a season, up to its updates. */
    method PrepareSeason(p: Provider, id: Option<Json>) returns (r: Result<Prepared, string>)
      modifies rt
      ensures r == Prepare(p, id).result
      ensures rt.trace == old(rt.trace) + Prepare(p, id).events
    {
      rt.Emit(Fetch(FullSeason(id)));
      var season := p.fullSeason(id);
      if season.Err? {
        return Err(season.error);
      }
      var seasonId := Prop(season.value, "id");
      if seasonId.Err? {
        return Err(seasonId.error);
      }
      rt.Emit(Fetch(TeamsOfSeason(seasonId.value)));
      var teams := p.teamsOfSeason(seasonId.value);
      if teams.Err? {
        return Err(teams.error);
      }
      var cleaned := CleanFixturesOfSeason(season.value);
      if cleaned.Err? {
        return Err(cleaned.error);
      }
      var cleanedSeason := SetTeamsData(cleaned.value, teams.value);
      if cleanedSeason.Err? {
        return Err(cleanedSeason.error);
      }
      r := Ok(Prepared(season.value, teams.value, cleanedSeason.value));
    }

    /** The body of the per-season `try` in `fetchSeasons`. */
    method CrawlSeason(p: Provider, env: DbEnv, id: Option<Json>) returns (r: Result<(), string>)
      requires Wired()
      modifies rt, bettles.scanner
      ensures r == SeasonRun(p, env, id).result
      ensures rt.trace == old(rt.trace) + SeasonRun(p, env, id).events
    {
      var pre := PrepareSeason(p, id);
      if pre.Err? {
        assert SeasonRun(p, env, id) == Outcome(Prepare(p, id).events, Err(pre.error));
        return Err(pre.error);
      }
      var c := pre.value;
      ghost var updates := SeasonUpdates(c.cleaned, env);
      ghost var prepared := Prepare(p, id).events;
      r := RunUpdates(updateOrder, c.cleaned, env);
      assert SeasonRun(p, env, id) == Outcome(prepared + Finish(c, env), updates.result);
      if r.Err? {
        assert Finish(c, env) == updates.events;
        AppendAssoc(old(rt.trace), prepared, updates.events);
        return;
      }
      ghost var updated := rt.trace;
      if config.persistAsJson {
        // the writes are not awaited: their outcomes do not reach the crawler
        var _ := writer.CreateSeasonJsons(Some(SetTeamsData(c.season, c.teams).value), c.teams, (true, true));
      }
      assert rt.trace == updated + SeasonWrites(c);
      assert Finish(c, env) == updates.events + SeasonWrites(c);
      AppendAssoc(old(rt.trace) + prepared, updates.events, SeasonWrites(c));
      AppendAssoc(old(rt.trace), prepared, Finish(c, env));
    }

    /** `fetchSeasons(ids)`: every season in turn; a season's failure is caught and the next one runs. */
    method FetchSeasons(p: Provider, env: DbEnv, ids: Option<seq<Option<Json>>>)
      requires Wired()
      modifies rt, bettles.scanner
      ensures rt.trace == old(rt.trace) + FetchSeasonsEvents(p, env, ids)
    {
      if ids.None? || |ids.value| == 0 {
        return;
      }
      var list := ids.value;
      for i := 0 to |list|
        invariant rt.trace == old(rt.trace) + Cycle(SeasonRecords(p, env), list[..i])
      {
        var _ := CrawlSeason(p, env, list[i]);
        assert list[..i + 1][..i] == list[..i];
        assert Cycle(SeasonRecords(p, env), list[..i + 1]) == Cycle(SeasonRecords(p, env), list[..i]) + SeasonRun(p, env, list[i]).events;
        AppendAssoc(old(rt.trace), Cycle(SeasonRecords(p, env), list[..i]), SeasonRun(p, env, list[i]).events);
      }
      assert list[..|list|] == list;
    }

    /** `run()`: one cycle, then a timer for the next one after `refreshTimeout`. */
    method Run(p: Provider, env: DbEnv)
      requires Wired()
      modifies this, rt, bettles.scanner
      ensures validSeasonIds == old(validSeasonIds)
      ensures rt.trace == old(rt.trace) + FetchSeasonsEvents(p, env, validSeasonIds)
        + [SetTimer(config.refreshTimeout, RunSeasons)]
      ensures timeoutHandle == Some(|rt.trace| - 1)
    {
      FetchSeasons(p, env, validSeasonIds);
      var handle := rt.ArmTimer(config.refreshTimeout, RunSeasons);
      timeoutHandle := Some(handle);
    }

    /** `runOnce()`: one cycle and no timer. */
    method RunOnce(p: Provider, env: DbEnv)
      requires Wired()
      modifies rt, bettles.scanner
      ensures rt.trace == old(rt.trace) + FetchSeasonsEvents(p, env, validSeasonIds)
    {
      FetchSeasons(p, env, validSeasonIds);
    }

    /** The first half of `setup()`: the ids come from the configuration in manual mode and from the running leagues in auto mode. */
    method ResolveSeasonIds(p: Provider)
      modifies this, rt
      ensures validSeasonIds == if config.basics.seasonMode == Manual then ConfiguredIds(config.basics.seasons)
                                else CurrentSeasonIds(p.leagues)
      ensures rt.trace == old(rt.trace) + (if config.basics.seasonMode == Auto then [Fetch(LeaguesWithCurrentSeasons)] else [])
      ensures timeoutHandle == old(timeoutHandle)
    {
      if config.basics.seasonMode == Manual {
        validSeasonIds := ConfiguredIds(config.basics.seasons);
      }
      if config.basics.seasonMode == Auto {
        validSeasonIds := FetchCurrentSeasonIdsFromAvailableLeagues(p);
      }
    }

    /**
     * `setup()`: the season ids are resolved, then one cycle runs, followed
     * by a timer unless the crawl mode is "once".
     */
    method Setup(p: Provider, env: DbEnv)
      requires Wired()
      modifies this, rt, bettles.scanner
      ensures validSeasonIds == if config.basics.seasonMode == Manual then ConfiguredIds(config.basics.seasons)
                                else CurrentSeasonIds(p.leagues)
      ensures rt.trace == old(rt.trace)
        + (if config.basics.seasonMode == Auto then [Fetch(LeaguesWithCurrentSeasons)] else [])
        + FetchSeasonsEvents(p, env, validSeasonIds)
        + (if config.crawlMode == Once then [] else [SetTimer(config.refreshTimeout, RunSeasons)])
      ensures config.crawlMode == Once ==> timeoutHandle == old(timeoutHandle)
      ensures config.crawlMode != Once ==> timeoutHandle == Some(|rt.trace| - 1)
    {
      ResolveSeasonIds(p);
      if config.crawlMode == Once {
        RunOnce(p, env);
      } else {
        Run(p, env);
      }
    }

    /** `stop()`: clears the pending cycle timer. */
    method Stop()
      modifies rt
      ensures rt.trace == old(rt.trace) + [ClearTimer(timeoutHandle)]
    {
      rt.Emit(ClearTimer(timeoutHandle));
    }

    /** The `date.set` event: one season is crawled again, outside the cycle. */
    method HandleSetDateEvent(p: Provider, env: DbEnv, seasonId: Option<Json>)
      requires Wired()
      modifies rt, bettles.scanner
      ensures rt.trace == old(rt.trace) + SeasonRun(p, env, seasonId).events
    {
      FetchSeasons(p, env, Some([seasonId]));
      assert [seasonId][..0] == [];
      CycleOfOne(SeasonRecords(p, env), seasonId);
    }
  }
}
