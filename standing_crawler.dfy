/**
 * The standings crawler. For each season id in turn it requests the season's
 * standings, stores them through the gateway when persisting to the
 * database, and writes them as a JSON snapshot when persisting as JSON. One
 * `try` surrounds the whole loop, so the first failure ends the cycle; the
 * cycle itself never rejects.
 */
module StandingCrawling {
  import opened Wrappers
  import opened Js
  import opened Effects
  import opened CrawlConfiguration
  import opened Bettles
  import opened FileWriting
  import opened CurrentSeasonsCrawling
  import opened Scanner
  import opened TemplateEngine
  import opened NunjuckRender

  /** The standings requests for `ids`, in order. */
  function StandingsRequests(ids: seq<Option<Json>>): seq<Request> {
    seq(|ids|, i requires 0 <= i < |ids| => SeasonStandings(ids[i]))
  }

  /**
   * The cycle over `ids` when `run(id)` is what the loop body does for
   * `id`: each id in turn, and the first rejection ends the cycle.
   */
  function StandingsCycle(run: Option<Json> -> Outcome, ids: seq<Option<Json>>): Outcome
    decreases |ids|
  {
    if ids == [] then Outcome([], Ok(()))
    else AndThen(run(ids[0]), StandingsCycle(run, ids[1..]))
  }

  /** A cycle over `a + b` is the cycle over `a`, then, if it resolved, the cycle over `b`. */
  lemma {:induction false} StandingsCycleConcat(run: Option<Json> -> Outcome, a: seq<Option<Json>>, b: seq<Option<Json>>)
    ensures StandingsCycle(run, a + b) == AndThen(StandingsCycle(run, a), StandingsCycle(run, b))
    decreases |a|
  {
    if a == [] {
      assert a + b == b;
      assert [] + StandingsCycle(run, b).events == StandingsCycle(run, b).events;
    } else {
      assert (a + b)[0] == a[0];
      assert (a + b)[1..] == a[1..] + b;
      StandingsCycleConcat(run, a[1..], b);
      AndThenAssoc(run(a[0]), StandingsCycle(run, a[1..]), StandingsCycle(run, b));
    }
  }

  /** A cycle resolves exactly when the loop body resolves for every id. */
  lemma {:induction false} StandingsCycleResolvedIff(run: Option<Json> -> Outcome, ids: seq<Option<Json>>)
    ensures StandingsCycle(run, ids).result.Ok? <==> forall i :: 0 <= i < |ids| ==> run(ids[i]).result.Ok?
    decreases |ids|
  {
    if ids != [] {
      var rest := ids[1..];
      StandingsCycleResolvedIff(run, rest);
      assert forall i :: 0 <= i < |rest| ==> rest[i] == ids[i + 1];
      assert (forall i :: 0 <= i < |ids| ==> run(ids[i]).result.Ok?)
        <==> run(ids[0]).result.Ok? && forall i :: 0 <= i < |rest| ==> run(rest[i]).result.Ok?;
    }
  }

  /**
   * Abort on the first error: when every id before `id` resolves and `id`
   * rejects, the cycle rejects with that error and the ids after it are not
   * visited.
   */
  lemma FirstFailureAbortsCycle(run: Option<Json> -> Outcome, before: seq<Option<Json>>, id: Option<Json>, after: seq<Option<Json>>)
    requires forall i :: 0 <= i < |before| ==> run(before[i]).result.Ok?
    requires run(id).result.Err?
    ensures StandingsCycle(run, before + [id] + after)
         == Outcome(StandingsCycle(run, before).events + run(id).events, run(id).result)
  {
    StandingsCycleResolvedIff(run, before);
    StandingsCycleConcat(run, before + [id], after);
    StandingsCycleConcat(run, before, [id]);
    assert [id][1..] == [];
    assert StandingsCycle(run, [id]) == run(id);
  }

  /** The loop body for `id` asks the data provider for the standings of `id` and for nothing else. */
  ghost predicate RequestsOwnStandings(run: Option<Json> -> Outcome) {
    forall id :: Requests(run(id).events) == [SeasonStandings(id)]
  }

  /** When every id resolves, the cycle requests the standings of every id once, in order. */
  lemma {:induction false} ResolvedCycleRequests(run: Option<Json> -> Outcome, ids: seq<Option<Json>>)
    requires RequestsOwnStandings(run)
    requires forall i :: 0 <= i < |ids| ==> run(ids[i]).result.Ok?
    ensures Requests(StandingsCycle(run, ids).events) == StandingsRequests(ids)
    decreases |ids|
  {
    if ids != [] {
      var rest := ids[1..];
      assert forall i :: 0 <= i < |rest| ==> run(rest[i]).result.Ok? by {
        forall i | 0 <= i < |rest| ensures run(rest[i]).result.Ok? {
          assert rest[i] == ids[i + 1];
        }
      }
      ResolvedCycleRequests(run, rest);
      RequestsConcat(run(ids[0]).events, StandingsCycle(run, rest).events);
      assert StandingsRequests(ids) == [SeasonStandings(ids[0])] + StandingsRequests(rest);
    }
  }

  lemma NoFetchesConcat(a: seq<Event>, b: seq<Event>)
    requires NoFetches(a) && NoFetches(b)
    ensures NoFetches(a + b)
  {
    forall i | 0 <= i < |a + b| ensures !(a + b)[i].Fetch? {
      if i >= |a| {
        assert (a + b)[i] == b[i - |a|];
      }
    }
  }

  class StandingCrawler {
    const rt: Runtime
    const config: CrawlConfig
    const bettles: BettlesApi
    const writer: FileWriter
    /** `#seasonIds`: undefined until set up. */
    var seasonIds: Option<seq<Option<Json>>>
    /** The handle of the pending cycle timer, undefined before the first one. */
    var timeoutHandle: Option<nat>

    /** The gateway and the writer record into the crawler's runtime and follow its configuration. */
    predicate Wired() {
      bettles.Wired() && bettles.rt == rt && writer.rt == rt
      && bettles.persistToDb == config.persistToDb && writer.mockDbPath == config.basics.mockDbPath
    }

    /** The constructor; with `autorun` the setup is started by the caller. */
    constructor(rt: Runtime, config: CrawlConfig, bettles: BettlesApi, writer: FileWriter)
      requires bettles.Wired() && bettles.rt == rt && writer.rt == rt
      requires bettles.persistToDb == config.persistToDb && writer.mockDbPath == config.basics.mockDbPath
      ensures Wired()
      ensures this.rt == rt && this.config == config && this.bettles == bettles && this.writer == writer
      ensures seasonIds.None? && timeoutHandle.None?
    {
      this.rt := rt;
      this.config := config;
      this.bettles := bettles;
      this.writer := writer;
      seasonIds := None;
      timeoutHandle := None;
    }

    /** What `updateLeagueStandings(standings)` does and how it settles. */
    function StandingsUpdateOutcome(standings: Option<Json>, env: DbEnv): Outcome {
      if !(IsArray(standings) && |standings.value.items| > 0) then Outcome([], Ok(()))
      else
        var stages := standings.value.items;
        match bettles.StandingsSeasonId(stages)
        case Err(_) => Outcome([], Err(TYPE_ERROR))
        case Ok(seasonId) =>
          var u := bettles.StandingsUpdate(stages, seasonId, FlattenStandings(stages));
          Outcome(bettles.CheckedEvents(u, env), bettles.CheckedResult(u, env))
    }

    /** The snapshot of a season's standings: `<mockDbPath>/<seasonId>/standing.json`. */
    function StandingsWrite(id: Option<Json>, standings: Option<Json>): Event {
      WriteJson(SeasonDir(config.basics.mockDbPath, id) + "standing.json", standings)
    }

    /**
     * The loop body for `id`: the standings are requested; the gateway
     * stores them only with `persistToDb`, and the snapshot is written only
     * with `persistAsJson`, after the store resolved.
     */
    function StandingRun(p: Provider, env: DbEnv, id: Option<Json>): Outcome {
      var fetch := [Fetch(SeasonStandings(id))];
      match p.seasonStandings(id)
      case Err(e) => Outcome(fetch, Err(e))
      case Ok(standings) =>
        var stored := StoreRun(env, id, standings);
        Outcome(fetch + stored.events, stored.result)
    }

    /** What follows a successful request for the standings of `id`. */
    function StoreRun(env: DbEnv, id: Option<Json>, standings: Option<Json>): Outcome {
      var update := if config.persistToDb then StandingsUpdateOutcome(standings, env) else Outcome([], Ok(()));
      if update.result.Err? then update
      else Outcome(update.events + (if config.persistAsJson then [StandingsWrite(id, standings)] else []), Ok(()))
    }

    function StandingRecords(p: Provider, env: DbEnv): Option<Json> -> Outcome {
      id => StandingRun(p, env, id)
    }

    /** The cycle of this crawler over `ids`: the cycle over all ids but the last, then the last one if it resolved. */
    function Crawl(p: Provider, env: DbEnv, ids: seq<Option<Json>>): Outcome
      decreases |ids|
    {
      if ids == [] then Outcome([], Ok(()))
      else AndThen(Crawl(p, env, ids[..|ids| - 1]), StandingRun(p, env, ids[|ids| - 1]))
    }

    /** Once a prefix of the ids rejects, the cycle is that prefix's. */
    lemma {:induction false} CrawlPrefixErr(p: Provider, env: DbEnv, ids: seq<Option<Json>>, k: nat)
      requires k <= |ids| && Crawl(p, env, ids[..k]).result.Err?
      ensures Crawl(p, env, ids) == Crawl(p, env, ids[..k])
      decreases |ids| - k
    {
      if k < |ids| {
        assert ids[..k + 1][..k] == ids[..k];
        CrawlPrefixErr(p, env, ids, k + 1);
      } else {
        assert ids[..k] == ids;
      }
    }

    /** This crawler's cycle is the cycle of its loop body. */
    lemma {:induction false} CrawlIsCycle(p: Provider, env: DbEnv, ids: seq<Option<Json>>)
      ensures Crawl(p, env, ids) == StandingsCycle(StandingRecords(p, env), ids)
      decreases |ids|
    {
      if ids != [] {
        var run := StandingRecords(p, env);
        var init, last := ids[..|ids| - 1], ids[|ids| - 1];
        CrawlIsCycle(p, env, init);
        assert ids == init + [last];
        StandingsCycleConcat(run, init, [last]);
        assert [last][1..] == [];
        assert StandingsCycle(run, [last]) == AndThen(run(last), Outcome([], Ok(())));
        assert run(last).events + [] == run(last).events;
      }
    }

    /** `runOnce()`: nothing for undefined ids (the loop throws at once and the error is caught). */
    function RunOnceEvents(p: Provider, env: DbEnv, ids: Option<seq<Option<Json>>>): seq<Event> {
      if ids.None? then [] else Crawl(p, env, ids.value).events
    }

    // ---------------------------------------------------------------------------
    // properties of one id and of a cycle

    /** The gateway's standings update neither asks the data provider for anything nor writes a file. */
    lemma StandingsUpdateGatewayOnly(standings: Option<Json>, env: DbEnv)
      ensures GatewayOnly(StandingsUpdateOutcome(standings, env).events)
    {
      if IsArray(standings) && |standings.value.items| > 0 {
        var stages := standings.value.items;
        if bettles.StandingsSeasonId(stages).Ok? {
          bettles.CheckedGatewayOnly(bettles.StandingsUpdate(stages, bettles.StandingsSeasonId(stages).value, FlattenStandings(stages)), env);
        }
      }
    }

    /** The gateway's standings update gives back every connection it takes. */
    lemma StandingsUpdateBalanced(standings: Option<Json>, env: DbEnv)
      ensures Balanced(StandingsUpdateOutcome(standings, env).events)
    {
      if IsArray(standings) && |standings.value.items| > 0 {
        var stages := standings.value.items;
        if bettles.StandingsSeasonId(stages).Ok? {
          bettles.CheckedBalanced(bettles.StandingsUpdate(stages, bettles.StandingsSeasonId(stages).value, FlattenStandings(stages)), env);
        }
      }
    }

    /** What follows a successful request asks the data provider for nothing. */
    lemma StoreRunNoFetches(env: DbEnv, id: Option<Json>, standings: Option<Json>)
      ensures NoFetches(StoreRun(env, id, standings).events)
    {
      var update := if config.persistToDb then StandingsUpdateOutcome(standings, env) else Outcome([], Ok(()));
      StandingsUpdateGatewayOnly(standings, env);
      assert NoFetches(update.events);
      if update.result.Ok? {
        NoFetchesConcat(update.events, if config.persistAsJson then [StandingsWrite(id, standings)] else []);
      }
    }

    /** The loop body for `id` requests the standings of `id` and nothing else. */
    lemma StandingRunRequests(p: Provider, env: DbEnv, id: Option<Json>)
      ensures Requests(StandingRun(p, env, id).events) == [SeasonStandings(id)]
    {
      var fetch := [Fetch(SeasonStandings(id))];
      assert Requests(fetch) == [SeasonStandings(id)] by {
        assert fetch[..0] == [];
      }
      if p.seasonStandings(id).Ok? {
        var stored := StoreRun(env, id, p.seasonStandings(id).value);
        StoreRunNoFetches(env, id, p.seasonStandings(id).value);
        NoFetchesNoRequests(stored.events);
        RequestsConcat(fetch, stored.events);
      }
    }

    /** What follows a successful request gives back every connection it takes. */
    lemma StoreRunBalanced(env: DbEnv, id: Option<Json>, standings: Option<Json>)
      ensures Balanced(StoreRun(env, id, standings).events)
    {
      var update := if config.persistToDb then StandingsUpdateOutcome(standings, env) else Outcome([], Ok(()));
      var writes := if update.result.Ok? && config.persistAsJson then [StandingsWrite(id, standings)] else [];
      StandingsUpdateBalanced(standings, env);
      NoConnectionsBalanced(writes);
      BalancedConcat(update.events, writes);
      assert StoreRun(env, id, standings).events == update.events + writes || StoreRun(env, id, standings).events == update.events;
    }

    /** The loop body gives back every connection it takes, wherever it stops. */
    lemma StandingRunBalanced(p: Provider, env: DbEnv, id: Option<Json>)
      ensures Balanced(StandingRun(p, env, id).events)
    {
      var fetch := [Fetch(SeasonStandings(id))];
      NoConnectionsBalanced(fetch);
      StandingRunCases(p, env, id);
      if p.seasonStandings(id).Ok? {
        var stored := StoreRun(env, id, p.seasonStandings(id).value);
        StoreRunBalanced(env, id, p.seasonStandings(id).value);
        BalancedConcat(fetch, stored.events);
      }
    }

    /** Without `persistToDb` the gateway is not called: the body only requests and, with `persistAsJson`, writes. */
    lemma WithoutDbNothingIsStored(p: Provider, env: DbEnv, id: Option<Json>)
      requires !config.persistToDb
      ensures StandingRun(p, env, id).result == if p.seasonStandings(id).Ok? then Ok(()) else Err(p.seasonStandings(id).error)
      ensures p.seasonStandings(id).Ok? ==>
        StandingRun(p, env, id).events
        == [Fetch(SeasonStandings(id))] + (if config.persistAsJson then [StandingsWrite(id, p.seasonStandings(id).value)] else [])
      ensures NoConnections(StandingRun(p, env, id).events)
    {
      if p.seasonStandings(id).Ok? {
        assert [Fetch(SeasonStandings(id))] + [] == [Fetch(SeasonStandings(id))];
      }
    }

    /**
     * After a successful request, the snapshot is written exactly when
     * persisting as JSON and the store resolved, as the last event.
     */
    lemma StoreRunWrites(env: DbEnv, id: Option<Json>, standings: Option<Json>)
      ensures var stored := StoreRun(env, id, standings);
        !config.persistAsJson || stored.result.Err? ==>
        forall i :: 0 <= i < |stored.events| ==> !stored.events[i].WriteJson?
      ensures var stored := StoreRun(env, id, standings);
        config.persistAsJson && stored.result.Ok? ==>
        |stored.events| > 0 && stored.events[|stored.events| - 1] == StandingsWrite(id, standings)
    {
      var update := if config.persistToDb then StandingsUpdateOutcome(standings, env) else Outcome([], Ok(()));
      StandingsUpdateGatewayOnly(standings, env);
      assert forall i :: 0 <= i < |update.events| ==> !update.events[i].WriteJson?;
      if update.result.Ok? && !config.persistAsJson {
        assert update.events + [] == update.events;
      }
    }

    /**
     * The snapshot is written exactly when persisting as JSON and the body
     * resolves, and it is then the last thing the body does.
     */
    lemma SnapshotOnlyAsJson(p: Provider, env: DbEnv, id: Option<Json>)
      ensures !config.persistAsJson || StandingRun(p, env, id).result.Err? ==>
        forall i :: 0 <= i < |StandingRun(p, env, id).events| ==> !StandingRun(p, env, id).events[i].WriteJson?
      ensures config.persistAsJson && StandingRun(p, env, id).result.Ok? ==>
        var t := StandingRun(p, env, id).events;
        t[|t| - 1] == StandingsWrite(id, p.seasonStandings(id).value)
    {
      if p.seasonStandings(id).Ok? {
        var fetch := [Fetch(SeasonStandings(id))];
        var stored := StoreRun(env, id, p.seasonStandings(id).value);
        var t := fetch + stored.events;
        StoreRunWrites(env, id, p.seasonStandings(id).value);
        if !config.persistAsJson || stored.result.Err? {
          forall i | 0 <= i < |t| ensures !t[i].WriteJson? {
            if i > 0 {
              assert t[i] == stored.events[i - 1];
            }
          }
        } else {
          assert t[|t| - 1] == stored.events[|stored.events| - 1];
        }
      }
    }

    lemma StandingRecordsRequests(p: Provider, env: DbEnv)
      ensures RequestsOwnStandings(StandingRecords(p, env))
    {
      forall id ensures Requests(StandingRecords(p, env)(id).events) == [SeasonStandings(id)] {
        StandingRunRequests(p, env, id);
      }
    }

    /** A cycle in which every id resolves requests the standings of every id once, in order. */
    lemma ResolvedCycleRequestsEveryId(p: Provider, env: DbEnv, ids: seq<Option<Json>>)
      requires forall i :: 0 <= i < |ids| ==> StandingRun(p, env, ids[i]).result.Ok?
      ensures Requests(Crawl(p, env, ids).events) == StandingsRequests(ids)
    {
      CrawlIsCycle(p, env, ids);
      StandingRecordsRequests(p, env);
      ResolvedCycleRequests(StandingRecords(p, env), ids);
    }

    /**
     * When `id` is the first id whose body rejects, the cycle requests the
     * standings of the ids up to and including `id`, and of none after it.
     */
    lemma FailingIdEndsRequests(p: Provider, env: DbEnv, before: seq<Option<Json>>, id: Option<Json>, after: seq<Option<Json>>)
      requires forall i :: 0 <= i < |before| ==> StandingRun(p, env, before[i]).result.Ok?
      requires StandingRun(p, env, id).result.Err?
      ensures Requests(Crawl(p, env, before + [id] + after).events) == StandingsRequests(before + [id])
    {
      var run := StandingRecords(p, env);
      CrawlIsCycle(p, env, before + [id] + after);
      CrawlIsCycle(p, env, before);
      FirstFailureAbortsCycle(run, before, id, after);
      ResolvedCycleRequestsEveryId(p, env, before);
      StandingRunRequests(p, env, id);
      RequestsConcat(StandingsCycle(run, before).events, run(id).events);
      assert StandingsRequests(before + [id]) == StandingsRequests(before) + [SeasonStandings(id)];
    }

    /** A cycle gives back every connection it takes. */
    lemma {:induction false} CycleGivesBackConnections(p: Provider, env: DbEnv, ids: seq<Option<Json>>)
      ensures Balanced(Crawl(p, env, ids).events)
      decreases |ids|
    {
      if ids != [] {
        StandingRunBalanced(p, env, ids[|ids| - 1]);
        CycleGivesBackConnections(p, env, ids[..|ids| - 1]);
        AndThenBalanced(Crawl(p, env, ids[..|ids| - 1]), StandingRun(p, env, ids[|ids| - 1]));
      }
    }

    // ---------------------------------------------------------------------------
    // the crawler's operations

    /** `fetchCurrentSeasonIdsFromAvailableLeagues()`: one request; its errors are caught. */
    method FetchCurrentSeasonIdsFromAvailableLeagues(p: Provider) returns (ids: Option<seq<Option<Json>>>)
      modifies rt
      ensures ids == CurrentSeasonIds(p.leagues)
      ensures rt.trace == old(rt.trace) + [Fetch(LeaguesWithCurrentSeasons)]
    {
      rt.Emit(Fetch(LeaguesWithCurrentSeasons));
      var data := p.leagues;
      if data.Err? || !Truthy(data.value) || !IsArray(data.value) {
        return None;
      }
      ids := LeagueSeasonIds(data.value.value.items);
    }

    /** The two ways the loop body for `id` goes, as `CrawlStandings` states them. */
    lemma StandingRunCases(p: Provider, env: DbEnv, id: Option<Json>)
      ensures p.seasonStandings(id).Err? ==>
        StandingRun(p, env, id) == Outcome([Fetch(SeasonStandings(id))], Err(p.seasonStandings(id).error))
      ensures p.seasonStandings(id).Ok? ==>
        StandingRun(p, env, id).result == StoreRun(env, id, p.seasonStandings(id).value).result
        && StandingRun(p, env, id).events == [Fetch(SeasonStandings(id))] + StoreRun(env, id, p.seasonStandings(id).value).events
    {
    }

    /** `await this.bettles.updateLeagueStandings(standings)`. */
    method UpdateStandings(standings: Option<Json>, env: DbEnv) returns (r: Result<(), string>)
      requires Wired()
      modifies rt, bettles.scanner
      ensures r == StandingsUpdateOutcome(standings, env).result
      ensures rt.trace == old(rt.trace) + StandingsUpdateOutcome(standings, env).events
    {
      r := bettles.UpdateLeagueStandings(standings, env);
    }

    /** The loop body of `runOnce()` for one id. */
    method CrawlStandings(p: Provider, env: DbEnv, id: Option<Json>) returns (r: Result<(), string>)
      requires Wired()
      modifies rt, bettles.scanner
      ensures r == StandingRun(p, env, id).result
      ensures rt.trace == old(rt.trace) + StandingRun(p, env, id).events
    {
      rt.Emit(Fetch(SeasonStandings(id)));
      var standings := p.seasonStandings(id);
      if standings.Err? {
        return Err(standings.error);
      }
      r := StoreStandings(env, id, standings.value);
      AppendAssoc(old(rt.trace), [Fetch(SeasonStandings(id))], StoreRun(env, id, standings.value).events);
    }

    /** The rest of the loop body once the standings arrived. */
    method StoreStandings(env: DbEnv, id: Option<Json>, standings: Option<Json>) returns (r: Result<(), string>)
      requires Wired()
      modifies rt, bettles.scanner
      ensures r == StoreRun(env, id, standings).result
      ensures rt.trace == old(rt.trace) + StoreRun(env, id, standings).events
    {
      r := Ok(());
      if config.persistToDb {
        r := UpdateStandings(standings, env);
        if r.Err? {
          return;
        }
      }
      if config.persistAsJson {
        // the write is not awaited: its outcome does not reach the crawler
        writer.CreateStandingsJson(id, standings, true);
      }
    }

    /** The loop body of `runOnce()` for `ids[i]`, which extends the cycle over the ids before it. */
    method CrawlAt(p: Provider, env: DbEnv, ids: seq<Option<Json>>, i: nat, ghost start: seq<Event>) returns (r: Result<(), string>)
      requires Wired() && i < |ids|
      requires Crawl(p, env, ids[..i]).result.Ok? && rt.trace == start + Crawl(p, env, ids[..i]).events
      modifies rt, bettles.scanner
      ensures r == Crawl(p, env, ids[..i + 1]).result
      ensures rt.trace == start + Crawl(p, env, ids[..i + 1]).events
    {
      r := CrawlStandings(p, env, ids[i]);
      assert ids[..i + 1][..i] == ids[..i];
      AppendAssoc(start, Crawl(p, env, ids[..i]).events, StandingRun(p, env, ids[i]).events);
    }

    /** `runOnce()`: the ids in order; the first failure ends the cycle and is caught. */
    method RunOnce(p: Provider, env: DbEnv)
      requires Wired()
      modifies rt, bettles.scanner
      ensures rt.trace == old(rt.trace) + RunOnceEvents(p, env, seasonIds)
    {
      if seasonIds.None? {
        return;
      }
      var ids := seasonIds.value;
      for i := 0 to |ids|
        invariant rt.trace == old(rt.trace) + Crawl(p, env, ids[..i]).events
        invariant Crawl(p, env, ids[..i]).result.Ok?
      {
        var r := CrawlAt(p, env, ids, i, old(rt.trace));
        if r.Err? {
          CrawlPrefixErr(p, env, ids, i + 1);
          return;
        }
      }
      assert ids[..|ids|] == ids;
    }

    /** `run()`: one cycle, then a timer for the next one after `refreshTimeout`. */
    method Run(p: Provider, env: DbEnv)
      requires Wired()
      modifies this, rt, bettles.scanner
      ensures seasonIds == old(seasonIds)
      ensures rt.trace == old(rt.trace) + RunOnceEvents(p, env, seasonIds) + [SetTimer(config.refreshTimeout, RunStandings)]
      ensures timeoutHandle == Some(|rt.trace| - 1)
    {
      RunOnce(p, env);
      var handle := rt.ArmTimer(config.refreshTimeout, RunStandings);
      timeoutHandle := Some(handle);
    }

    /**
     * `setup()`: nothing without `standings`; otherwise the ids come from
     * the configuration in manual mode and from the running leagues in auto
     * mode, then one cycle runs, followed by a timer unless the crawl mode
     * is "once".
     */
    method Setup(p: Provider, env: DbEnv)
      requires Wired()
      modifies this, rt, bettles.scanner
      ensures !config.basics.standings ==>
        rt.trace == old(rt.trace) && seasonIds == old(seasonIds) && timeoutHandle == old(timeoutHandle)
      ensures config.basics.standings ==>
        seasonIds == (if config.basics.seasonMode == Manual then ConfiguredIds(config.basics.seasons) else CurrentSeasonIds(p.leagues))
        && rt.trace == old(rt.trace)
          + (if config.basics.seasonMode == Auto then [Fetch(LeaguesWithCurrentSeasons)] else [])
          + RunOnceEvents(p, env, seasonIds)
          + (if config.crawlMode == Once then [] else [SetTimer(config.refreshTimeout, RunStandings)])
      ensures config.basics.standings && config.crawlMode == Once ==> timeoutHandle == old(timeoutHandle)
      ensures config.basics.standings && config.crawlMode != Once ==> timeoutHandle == Some(|rt.trace| - 1)
    {
      if !config.basics.standings {
        return;
      }
      if config.basics.seasonMode == Manual {
        seasonIds := ConfiguredIds(config.basics.seasons);
      }
      if config.basics.seasonMode == Auto {
        seasonIds := FetchCurrentSeasonIdsFromAvailableLeagues(p);
      }
      if config.crawlMode == Once {
        RunOnce(p, env);
      } else {
        Run(p, env);
      }
    }

    /** `stop()`: clears the pending cycle timer. */
    method Stop()
      modifies rt
      ensures rt.trace == old(rt.trace) + [ClearTimer(timeoutHandle)]
    {
      rt.Emit(ClearTimer(timeoutHandle));
    }
  }
}
