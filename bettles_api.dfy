/**
 * The persistence gateway. Every update renders an SQL template and saves
 * the statement: saving takes a connection, runs the statement and gives the
 * connection back; a failing statement is retried later by a timer, at most
 * `MAX_ATTEMPTS` times. The updates of whole collections first reload the
 * scanner log and skip a payload whose hash has not changed.
 */
module Bettles {
  import opened Wrappers
  import opened Text
  import opened Js
  import opened TemplateEngine
  import opened Effects
  import opened NunjuckRender
  import opened Scanner
  import opened BackOff

  /** How often a failing statement is retried. */
  const MAX_ATTEMPTS: nat := 10

  /** Where the rendered statements of the updates are named after. */
  const SQL_DIR := "./generated-sql/api/"

  /** The first line of the statement the live update builds. */
  const LIVE_SQL_HEADER := " -- Auto generated"

  // ---------------------------------------------------------------------------
  // save

  /** `!sql` is false: there is a statement to run. */
  predicate HasSql(sql: Option<string>) {
    sql.Some? && sql.value != ""
  }

  /**
   * The record of one statement run by `save` with outcome `ok`: a
   * connection, the statement, a retry timer when it failed with attempts
   * left, and the connection given back.
   */
  function StatementEvents(sql: string, log: string, attempts: nat, ok: bool): seq<Event> {
    [Connect, Query(sql, ok)]
    + (if !ok && attempts < MAX_ATTEMPTS then [SetTimer(RetryDelay(attempts + 1), RetrySave(sql, log, attempts + 1))] else [])
    + [Release]
  }

  /**
   * The record of `save(sql, log, attempts)`: nothing without a statement,
   * with persisting switched off, or when no connection can be taken;
   * otherwise the statement is run.
   */
  function SaveEvents(sql: Option<string>, log: string, attempts: nat, persistToDb: bool, env: DbEnv): seq<Event>
  {
    if !HasSql(sql) || !persistToDb || !env.connectOk then []
    else StatementEvents(sql.value, log, attempts, env.queryOk(sql.value))
  }

  /** `save` rejects only when it needs a connection and cannot get one; a failing statement is not an error of the call. */
  function SaveResult(sql: Option<string>, persistToDb: bool, env: DbEnv): (r: Result<(), string>)
    ensures r.Err? <==> HasSql(sql) && persistToDb && !env.connectOk
  {
    if HasSql(sql) && persistToDb && !env.connectOk then Err(CONNECT_ERROR) else Ok(())
  }

  /**
   * One statement: the connection is always given back, the statement runs
   * once, and a retry is armed exactly when it failed with attempts left,
   * with the next attempt number and the back-off of `attempts + 2` (the
   * caller and the retry helper both increment).
   */
  lemma StatementRules(sql: string, log: string, attempts: nat, ok: bool)
    ensures Balanced(StatementEvents(sql, log, attempts, ok))
    ensures Queries(StatementEvents(sql, log, attempts, ok)) == [(sql, ok)]
    ensures Timers(StatementEvents(sql, log, attempts, ok)) ==
      if !ok && attempts < MAX_ATTEMPTS then [(ExponentialBackOff(attempts + 2), RetrySave(sql, log, attempts + 1))] else []
  {
    var between: seq<Event> :=
      if !ok && attempts < MAX_ATTEMPTS then [SetTimer(RetryDelay(attempts + 1), RetrySave(sql, log, attempts + 1))] else [];
    var t := StatementEvents(sql, log, attempts, ok);
    assert t == [Connect, Query(sql, ok)] + between + [Release];
    OneQueryBalanced(sql, ok, between);
    QueriesConcat([Connect, Query(sql, ok)] + between, [Release]);
    QueriesConcat([Connect, Query(sql, ok)], between);
    QueriesConcat([Connect], [Query(sql, ok)]);
    assert [Connect] + [Query(sql, ok)] == [Connect, Query(sql, ok)];
    assert Queries([Connect]) == [] by { assert [Connect][..0] == []; }
    assert Queries([Query(sql, ok)]) == [(sql, ok)] by { assert [Query(sql, ok)][..0] == []; }
    assert Queries([Release]) == [] by { assert [Release][..0] == []; }
    TimersConcat([Connect, Query(sql, ok)] + between, [Release]);
    TimersConcat([Connect, Query(sql, ok)], between);
    TimersConcat([Connect], [Query(sql, ok)]);
    assert Timers([Connect]) == [] by { assert [Connect][..0] == []; }
    assert Timers([Query(sql, ok)]) == [] by { assert [Query(sql, ok)][..0] == []; }
    assert Timers([Release]) == [] by { assert [Release][..0] == []; }
    if between != [] {
      assert Queries(between) == [] by { assert between[..0] == []; }
      assert Timers(between) == [(RetryDelay(attempts + 1), RetrySave(sql, log, attempts + 1))] by {
        assert between[..0] == [];
      }
    }
  }

  /** Every fixture's id can be read exactly when every id but the last can, and the last one can. */
  lemma IdsReadableSnoc(fixtures: seq<Json>, init: seq<Json>)
    requires |fixtures| > 0 && init == fixtures[..|fixtures| - 1]
    ensures (forall i :: 0 <= i < |fixtures| ==> FixtureId(fixtures[i]).Ok?)
      <==> (forall i :: 0 <= i < |init| ==> FixtureId(init[i]).Ok?) && FixtureId(fixtures[|fixtures| - 1]).Ok?
  {
    assert forall i :: 0 <= i < |init| ==> init[i] == fixtures[i];
  }

  /** `save` neither asks the data provider for anything nor writes a file. */
  lemma SaveGatewayOnly(sql: Option<string>, log: string, attempts: nat, persistToDb: bool, env: DbEnv)
    ensures GatewayOnly(SaveEvents(sql, log, attempts, persistToDb, env))
  {
  }

  /** One call of `save` gives back every connection it takes and runs at most one statement. */
  lemma SaveRules(sql: Option<string>, log: string, attempts: nat, persistToDb: bool, env: DbEnv)
    ensures Balanced(SaveEvents(sql, log, attempts, persistToDb, env))
    ensures Queries(SaveEvents(sql, log, attempts, persistToDb, env)) ==
      (if HasSql(sql) && persistToDb && env.connectOk then [(sql.value, env.queryOk(sql.value))] else [])
  {
    if HasSql(sql) && persistToDb && env.connectOk {
      StatementRules(sql.value, log, attempts, env.queryOk(sql.value));
    }
  }

  /**
   * The attempts of one statement from attempt `attempts` on, each retry
   * running when its timer fires and attempt k having outcome `outcomes[k]`.
   */
  function RetryChain(sql: string, log: string, outcomes: seq<bool>, attempts: nat): seq<Event>
    requires attempts <= MAX_ATTEMPTS < |outcomes|
    decreases |outcomes| - attempts
  {
    var ok := outcomes[attempts];
    StatementEvents(sql, log, attempts, ok)
    + (if !ok && attempts < MAX_ATTEMPTS then RetryChain(sql, log, outcomes, attempts + 1) else [])
  }

  /**
   * The retry timers of a statement that fails at every attempt from
   * `attempts` on: the k-th follows attempt `attempts + k`.
   */
  function FailingTimers(sql: string, log: string, attempts: nat): seq<(int, Call)>
    requires attempts <= MAX_ATTEMPTS
  {
    seq(MAX_ATTEMPTS - attempts, (k: nat) => (ExponentialBackOff(attempts + k + 2), RetrySave(sql, log, attempts + k + 1)))
  }

  /** The timers from attempt `attempts` on are its own retry followed by those from the next attempt on. */
  lemma FailingTimersCons(sql: string, log: string, attempts: nat)
    requires attempts < MAX_ATTEMPTS
    ensures FailingTimers(sql, log, attempts)
      == [(ExponentialBackOff(attempts + 2), RetrySave(sql, log, attempts + 1))] + FailingTimers(sql, log, attempts + 1)
  {
    var all := FailingTimers(sql, log, attempts);
    var rest := FailingTimers(sql, log, attempts + 1);
    forall k | 0 <= k < |rest| ensures all[k + 1] == rest[k] {
      assert attempts + (k + 1) + 2 == attempts + 1 + k + 2;
    }
  }

  /** A statement that keeps failing gives back every connection of its retries. */
  lemma {:induction false} FailingChainBalanced(sql: string, log: string, outcomes: seq<bool>, attempts: nat)
    requires attempts <= MAX_ATTEMPTS < |outcomes|
    requires forall k :: 0 <= k < |outcomes| ==> !outcomes[k]
    ensures Balanced(RetryChain(sql, log, outcomes, attempts))
    decreases MAX_ATTEMPTS - attempts
  {
    var head := StatementEvents(sql, log, attempts, false);
    assert Balanced(head) by {
      StatementRules(sql, log, attempts, false);
    }
    if attempts < MAX_ATTEMPTS {
      var tail := RetryChain(sql, log, outcomes, attempts + 1);
      FailingChainBalanced(sql, log, outcomes, attempts + 1);
      assert RetryChain(sql, log, outcomes, attempts) == head + tail;
      BalancedConcat(head, tail);
    } else {
      assert RetryChain(sql, log, outcomes, attempts) == head + [];
      assert head + [] == head;
    }
  }

  /** A statement that keeps failing runs `MAX_ATTEMPTS + 1 - attempts` more times, failing each time. */
  lemma {:induction false} FailingChainQueries(sql: string, log: string, outcomes: seq<bool>, attempts: nat)
    requires attempts <= MAX_ATTEMPTS < |outcomes|
    requires forall k :: 0 <= k < |outcomes| ==> !outcomes[k]
    ensures Queries(RetryChain(sql, log, outcomes, attempts)) == seq(MAX_ATTEMPTS + 1 - attempts, _ => (sql, false))
    decreases MAX_ATTEMPTS - attempts
  {
    var head := StatementEvents(sql, log, attempts, false);
    assert Queries(head) == [(sql, false)] by {
      StatementRules(sql, log, attempts, false);
    }
    if attempts < MAX_ATTEMPTS {
      var tail := RetryChain(sql, log, outcomes, attempts + 1);
      FailingChainQueries(sql, log, outcomes, attempts + 1);
      assert RetryChain(sql, log, outcomes, attempts) == head + tail;
      QueriesConcat(head, tail);
      var failures := seq(MAX_ATTEMPTS + 1 - attempts, _ => (sql, false));
      assert failures == [(sql, false)] + failures[1..];
    } else {
      assert RetryChain(sql, log, outcomes, attempts) == head + [];
      assert head + [] == head;
      assert seq(1, _ => (sql, false)) == [(sql, false)];
    }
  }

  /** A statement that keeps failing arms the retries of `FailingTimers`. */
  lemma {:induction false} FailingChainTimers(sql: string, log: string, outcomes: seq<bool>, attempts: nat)
    requires attempts <= MAX_ATTEMPTS < |outcomes|
    requires forall k :: 0 <= k < |outcomes| ==> !outcomes[k]
    ensures Timers(RetryChain(sql, log, outcomes, attempts)) == FailingTimers(sql, log, attempts)
    decreases MAX_ATTEMPTS - attempts
  {
    var head := StatementEvents(sql, log, attempts, false);
    assert Timers(head) ==
      if attempts < MAX_ATTEMPTS then [(ExponentialBackOff(attempts + 2), RetrySave(sql, log, attempts + 1))] else [] by {
      StatementRules(sql, log, attempts, false);
    }
    if attempts < MAX_ATTEMPTS {
      var tail := RetryChain(sql, log, outcomes, attempts + 1);
      FailingChainTimers(sql, log, outcomes, attempts + 1);
      assert RetryChain(sql, log, outcomes, attempts) == head + tail;
      TimersConcat(head, tail);
      FailingTimersCons(sql, log, attempts);
    } else {
      assert RetryChain(sql, log, outcomes, attempts) == head + [];
      assert head + [] == head;
    }
  }

  /** A statement that always fails runs eleven times and gives back every connection. */
  lemma AlwaysFailingSaveRunsElevenTimes(sql: string, log: string, outcomes: seq<bool>)
    requires MAX_ATTEMPTS < |outcomes|
    requires forall k :: 0 <= k < |outcomes| ==> !outcomes[k]
    ensures |Queries(RetryChain(sql, log, outcomes, 0))| == 11
    ensures forall i :: 0 <= i < 11 ==> Queries(RetryChain(sql, log, outcomes, 0))[i] == (sql, false)
    ensures Balanced(RetryChain(sql, log, outcomes, 0))
  {
    FailingChainQueries(sql, log, outcomes, 0);
    FailingChainBalanced(sql, log, outcomes, 0);
  }

  /** The ten retries of a statement that always fails wait the back-off of 2, 3, …, 11. */
  lemma AlwaysFailingSaveBacksOff(sql: string, log: string, outcomes: seq<bool>)
    requires MAX_ATTEMPTS < |outcomes|
    requires forall k :: 0 <= k < |outcomes| ==> !outcomes[k]
    ensures |Timers(RetryChain(sql, log, outcomes, 0))| == 10
    ensures forall k :: 0 <= k < 10 ==> Timers(RetryChain(sql, log, outcomes, 0))[k].0 == ExponentialBackOff(k + 2)
  {
    FailingChainTimers(sql, log, outcomes, 0);
  }

  /** A statement that succeeds at its first attempt runs once and arms no timer. */
  lemma FirstSuccessRunsOnce(sql: string, log: string, outcomes: seq<bool>)
    requires MAX_ATTEMPTS < |outcomes| && outcomes[0]
    ensures Queries(RetryChain(sql, log, outcomes, 0)) == [(sql, true)]
    ensures Timers(RetryChain(sql, log, outcomes, 0)) == []
  {
    StatementRules(sql, log, 0, true);
    assert RetryChain(sql, log, outcomes, 0) == StatementEvents(sql, log, 0, true) + [];
    assert StatementEvents(sql, log, 0, true) + [] == StatementEvents(sql, log, 0, true);
  }

  // ---------------------------------------------------------------------------
  // values the updates read

  /** `v?.toString(10)`. */
  function IdText(v: Option<Json>): (r: Option<string>)
    ensures r.None? <==> Nullish(v)
    ensures r.Some? ==> r.value == ToJsString(v)
  {
    if Nullish(v) then None else Some(ToJsString(v))
  }

  /** `n.toString(10)` of a number, where None is NaN. */
  function NumberText(n: Option<int>): (r: string)
    ensures n.Some? ==> r == IntToString(n.value)
    ensures n.None? ==> r == "NaN"
  {
    match n
    case None => "NaN"
    case Some(i) => IntToString(i)
  }

  /**
   * A number as it appears in the data handed to a template. JSON values
   * cannot hold NaN, so the NaN that `StandingsSeasonId` gives for a
   * non-numeric `season_id` is carried as null; a number never becomes null.
   */
  function NumberJson(n: Option<int>): Json {
    match n
    case None => JNull
    case Some(i) => JNum(i)
  }

  /** The file a season-wide statement is named after: `season-<id>/season-<id>-<part>.data.sql`. */
  function SeasonFile(seasonId: string, part: string): string {
    SQL_DIR + "season-" + seasonId + "/season-" + seasonId + "-" + part + ".data.sql"
  }

  /** `{ season: [season], fixtures: season.fixtures.data }`; an undefined member is absent. */
  function SeasonData(season: Json, fixtures: Option<Json>): Json {
    var base := map["season" := JArr([season])];
    JObj(if fixtures.Some? then base["fixtures" := fixtures.value] else base)
  }

  /** `{ season_id, standing_entries }`. */
  function StandingsData(seasonId: Option<int>, entries: seq<Json>): Json {
    JObj(map["season_id" := NumberJson(seasonId), "standing_entries" := JArr(entries)])
  }

  // ---------------------------------------------------------------------------
  // flattening standings

  /** `v.forEach`: only an array can be iterated; anything else throws. */
  function ForEachItems(v: Option<Json>): (r: Result<seq<Json>, string>)
    ensures r.Ok? <==> IsArray(v)
    ensures r.Ok? ==> r.value == v.value.items
    ensures r.Err? ==> r.error == TYPE_ERROR
  {
    if IsArray(v) then Ok(v.value.items) else Err(TYPE_ERROR)
  }

  /** What one team position contributes: the entries of its own standings when it has them, else the position itself. */
  function TeamEntries(team: Json): (r: Result<seq<Json>, string>)
    ensures r.Err? ==> r.error == TYPE_ERROR
    ensures r.Ok? && !Truthy(Get(Some(team), "standings")) ==> r.value == [team]
    ensures r.Ok? && Truthy(Get(Some(team), "standings")) ==>
      IsArray(Get(Get(Some(team), "standings"), "data")) && r.value == Get(Get(Some(team), "standings"), "data").value.items
  {
    match Prop(Some(team), "standings")
    case Err(e) => Err(e)
    case Ok(standings) =>
      if Truthy(standings) then ForEachItems(Get(standings, "data")) else Ok([team])
  }

  /** The entries of the positions `teams`, in order, or the first error. */
  function TeamsEntries(teams: seq<Json>): (r: Result<seq<Json>, string>)
    ensures r.Err? ==> r.error == TYPE_ERROR
  {
    if teams == [] then Ok([])
    else
      match TeamsEntries(teams[..|teams| - 1])
      case Err(e) => Err(e)
      case Ok(before) =>
        match TeamEntries(teams[|teams| - 1])
        case Err(e) => Err(e)
        case Ok(last) => Ok(before + last)
  }

  /** The entries of one stage: `stage.standings.data`, each position flattened. */
  function StageEntries(stage: Json): (r: Result<seq<Json>, string>)
    ensures r.Err? ==> r.error == TYPE_ERROR
  {
    match Path(Some(stage), ["standings", "data"])
    case Err(_) => Err(TYPE_ERROR)
    case Ok(data) =>
      match ForEachItems(data)
      case Err(e) => Err(e)
      case Ok(teams) => TeamsEntries(teams)
  }

  /** The flattened standing entries of all stages, in order, or the first error. */
  function FlattenStandings(stages: seq<Json>): (r: Result<seq<Json>, string>)
    ensures r.Err? ==> r.error == TYPE_ERROR
  {
    if stages == [] then Ok([])
    else
      match FlattenStandings(stages[..|stages| - 1])
      case Err(e) => Err(e)
      case Ok(before) =>
        match StageEntries(stages[|stages| - 1])
        case Err(e) => Err(e)
        case Ok(last) => Ok(before + last)
  }

  /** Once a prefix of the positions fails, the whole list fails. */
  lemma {:induction false} TeamsEntriesErrStays(teams: seq<Json>, k: nat)
    requires k <= |teams| && TeamsEntries(teams[..k]).Err?
    ensures TeamsEntries(teams).Err?
    decreases |teams| - k
  {
    if k < |teams| {
      assert teams[..k + 1][..k] == teams[..k];
      TeamsEntriesErrStays(teams, k + 1);
    } else {
      assert teams[..k] == teams;
    }
  }

  /** Once a prefix of the stages fails, the whole flattening fails. */
  lemma {:induction false} FlattenErrStays(stages: seq<Json>, k: nat)
    requires k <= |stages| && FlattenStandings(stages[..k]).Err?
    ensures FlattenStandings(stages).Err?
    decreases |stages| - k
  {
    if k < |stages| {
      assert stages[..k + 1][..k] == stages[..k];
      FlattenErrStays(stages, k + 1);
    } else {
      assert stages[..k] == stages;
    }
  }

  /** Flattening distributes over the concatenation of stage lists. */
  lemma {:induction false} FlattenAppend(a: seq<Json>, b: seq<Json>)
    ensures FlattenStandings(a + b) ==
      match FlattenStandings(a)
      case Err(e) => Err(e)
      case Ok(x) =>
        match FlattenStandings(b)
        case Err(e) => Err(e)
        case Ok(y) => Ok(x + y)
    decreases |b|
  {
    if b == [] {
      assert a + b == a;
      match FlattenStandings(a)
      case Err(_) =>
      case Ok(x) => assert x + [] == x;
    } else {
      var b0 := b[..|b| - 1];
      assert (a + b)[..|a + b| - 1] == a + b0;
      assert (a + b)[|a + b| - 1] == b[|b| - 1];
      FlattenAppend(a, b0);
      match FlattenStandings(a)
      case Err(_) =>
      case Ok(x) =>
        match FlattenStandings(b0)
        case Err(_) =>
        case Ok(y) =>
          match StageEntries(b[|b| - 1])
          case Err(_) =>
          case Ok(z) =>
            assert FlattenStandings(b) == Ok(y + z);
            assert FlattenStandings(a + b) == Ok(x + y + z);
            AppendAssoc(x, y, z);
    }
  }

  /** Stages whose positions carry no standings of their own contribute their positions unchanged. */
  lemma {:induction false} PlainTeamsEntries(teams: seq<Json>)
    requires forall i :: 0 <= i < |teams| ==> teams[i].JObj? && !Truthy(Get(Some(teams[i]), "standings"))
    ensures TeamsEntries(teams) == Ok(teams)
    decreases |teams|
  {
    if teams != [] {
      PlainTeamsEntries(teams[..|teams| - 1]);
      assert teams[..|teams| - 1] + [teams[|teams| - 1]] == teams;
    }
  }

  /** The inner `forEach` of `updateLeagueStandings`: the entries of one stage's positions, pushed in order. */
  method TeamsEntriesLoop(teams: seq<Json>) returns (r: Result<seq<Json>, string>)
    ensures r == TeamsEntries(teams)
  {
    var entries: seq<Json> := [];
    var j := 0;
    while j < |teams|
      invariant 0 <= j <= |teams|
      invariant TeamsEntries(teams[..j]) == Ok(entries)
    {
      assert teams[..j + 1][..j] == teams[..j];
      var team := teams[j];
      if Nullish(Some(team)) {
        TeamsEntriesErrStays(teams, j + 1);
        return Err(TYPE_ERROR);
      }
      var standings := Get(Some(team), "standings");
      if Truthy(standings) {
        var data := Get(standings, "data");
        if !IsArray(data) {
          TeamsEntriesErrStays(teams, j + 1);
          return Err(TYPE_ERROR);
        }
        var elems := data.value.items;
        ghost var before := entries;
        var k := 0;
        while k < |elems|
          invariant 0 <= k <= |elems|
          invariant entries == before + elems[..k]
        {
          assert elems[..k + 1] == elems[..k] + [elems[k]];
          entries := entries + [elems[k]];
          k := k + 1;
        }
        assert elems[..k] == elems;
      } else {
        entries := entries + [team];
      }
      j := j + 1;
    }
    assert teams[..j] == teams;
    r := Ok(entries);
  }

  /** The nested `forEach` pushes of `updateLeagueStandings`: every stage in turn. */
  method FlattenStandingsLoop(stages: seq<Json>) returns (r: Result<seq<Json>, string>)
    ensures r == FlattenStandings(stages)
  {
    var entries: seq<Json> := [];
    var i := 0;
    while i < |stages|
      invariant 0 <= i <= |stages|
      invariant FlattenStandings(stages[..i]) == Ok(entries)
    {
      assert stages[..i + 1][..i] == stages[..i];
      var data := Path(Some(stages[i]), ["standings", "data"]);
      if data.Err? || !IsArray(data.value) {
        FlattenErrStays(stages, i + 1);
        return Err(TYPE_ERROR);
      }
      var stageEntries := TeamsEntriesLoop(data.value.value.items);
      if stageEntries.Err? {
        FlattenErrStays(stages, i + 1);
        return Err(TYPE_ERROR);
      }
      entries := entries + stageEntries.value;
      i := i + 1;
    }
    assert stages[..i] == stages;
    r := Ok(entries);
  }

  // ---------------------------------------------------------------------------
  // updates that reload the scanner log first

  /**
   * An update that reloads the hashes, creates a log entry for `logged`
   * under `id`, skips an unchanged payload when `skipSame` holds, and
   * otherwise renders `data` with the entry as meta and saves it. `data` is
   * an error when reading it throws.
   */
  datatype Checked = Checked(
    logType: LogType,
    logged: Option<Json>,
    id: Option<string>,
    skipSame: bool,
    templateFilename: string,
    outputFilename: string,
    data: Result<Option<Json>, string>,
    log: string)

  /** `fixture.id.toString(10)`: throws on a nullish fixture or id. */
  function FixtureId(fixture: Json): (r: Result<string, string>)
    ensures r.Err? <==> Nullish(Some(fixture)) || Nullish(Get(Some(fixture), "id"))
    ensures r.Ok? ==> r.value == ToJsString(Get(Some(fixture), "id"))
  {
    match Prop(Some(fixture), "id")
    case Err(e) => Err(e)
    case Ok(id) => if Nullish(id) then Err(TYPE_ERROR) else Ok(ToJsString(id))
  }

  /** What `String(piece)` appends for one fixture: an unchanged fixture gives the text "undefined". */
  function PieceText(piece: Option<string>): string {
    match piece
    case None => "undefined"
    case Some(s) => s
  }

  class BettlesApi {
    const rt: Runtime
    const engine: NunjuckService
    const scanner: ScannerApi
    const persistToDb: bool

    /** The renderer and the scanner record into the same runtime. */
    predicate Wired() {
      engine.rt == rt && scanner.rt == rt
    }

    constructor(rt: Runtime, engine: NunjuckService, scanner: ScannerApi, persistToDb: bool)
      requires engine.rt == rt && scanner.rt == rt
      ensures Wired()
      ensures this.rt == rt && this.engine == engine && this.scanner == scanner && this.persistToDb == persistToDb
    {
      this.rt := rt;
      this.engine := engine;
      this.scanner := scanner;
      this.persistToDb := persistToDb;
    }

    /** `save(sql, log, attempts)`. */
    method Save(sql: Option<string>, log: string, attempts: nat, env: DbEnv) returns (r: Result<(), string>)
      modifies rt
      ensures r == SaveResult(sql, persistToDb, env)
      ensures rt.trace == old(rt.trace) + SaveEvents(sql, log, attempts, persistToDb, env)
    {
      if !HasSql(sql) {
        return Ok(());
      }
      if !persistToDb {
        return Ok(());
      }
      if !env.connectOk {
        return Err(CONNECT_ERROR);
      }
      rt.Emit(Connect);
      var ok := env.queryOk(sql.value);
      rt.Emit(Query(sql.value, ok));
      if !ok && attempts < MAX_ATTEMPTS {
        rt.Emit(SetTimer(RetryDelay(attempts + 1), RetrySave(sql.value, log, attempts + 1)));
      }
      rt.Emit(Release);
      r := Ok(());
    }

    /** The record of rendering `options` and saving the result. */
    function RenderSaveEvents(options: TemplateOptions, log: string, env: DbEnv): seq<Event> {
      RenderEvents(options) + SaveEvents(Rendered(engine.template, options), log, 0, persistToDb, env)
    }

    /** Rendering and saving rejects only when a rendered statement needs a connection it cannot get. */
    function RenderSaveResult(options: TemplateOptions, env: DbEnv): (r: Result<(), string>)
      ensures r.Err? <==>
        !RendersNothing(options) && engine.template(options) != "" && persistToDb && !env.connectOk
    {
      SaveResult(Rendered(engine.template, options), persistToDb, env)
    }

    /** Rendering and saving gives every connection back. */
    lemma RenderSaveBalanced(options: TemplateOptions, log: string, env: DbEnv)
      ensures Balanced(RenderSaveEvents(options, log, env))
    {
      NoConnectionsBalanced(RenderEvents(options));
      SaveRules(Rendered(engine.template, options), log, 0, persistToDb, env);
      BalancedConcat(RenderEvents(options), SaveEvents(Rendered(engine.template, options), log, 0, persistToDb, env));
    }

    /**
     * The empty-list guard of the list updates changes nothing: rendering an
     * empty list already renders and saves nothing.
     */
    lemma EmptyListGuardAgreesWithRender(options: TemplateOptions, log: string, env: DbEnv)
      requires IsArray(options.data) && |options.data.value.items| == 0
      ensures RenderSaveEvents(options, log, env) == []
      ensures RenderSaveResult(options, env) == Ok(())
    {
    }

    method RenderAndSave(options: TemplateOptions, log: string, env: DbEnv) returns (r: Result<(), string>)
      requires Wired()
      modifies rt
      ensures r == RenderSaveResult(options, env)
      ensures rt.trace == old(rt.trace) + RenderSaveEvents(options, log, env)
    {
      var sql := engine.Render(options);
      r := Save(sql, log, 0, env);
    }

    /** The list updates: an empty list is skipped, anything else is rendered and saved. */
    method ListUpdate(options: TemplateOptions, log: string, env: DbEnv) returns (r: Result<(), string>)
      requires Wired()
      modifies rt
      ensures r == RenderSaveResult(options, env)
      ensures rt.trace == old(rt.trace) + RenderSaveEvents(options, log, env)
    {
      if IsArray(options.data) && |options.data.value.items| < 1 {
        EmptyListGuardAgreesWithRender(options, log, env);
        return Ok(());
      }
      r := RenderAndSave(options, log, env);
    }

    /** `updateContinents(list)`. */
    method UpdateContinents(list: Option<Json>, env: DbEnv) returns (r: Result<(), string>)
      requires Wired()
      modifies rt
      ensures r == RenderSaveResult(ContinentsOptions(list), env)
      ensures rt.trace == old(rt.trace) + RenderSaveEvents(ContinentsOptions(list), "placeholder continents", env)
    {
      r := ListUpdate(ContinentsOptions(list), "placeholder continents", env);
    }

    function ContinentsOptions(list: Option<Json>): TemplateOptions {
      TemplateOptions("continents.njk", SQL_DIR + "update-continents.data.sql", list, None)
    }

    /** `updateTeams(teams)`: the placeholder teams. */
    method UpdateTeams(teams: Option<Json>, env: DbEnv) returns (r: Result<(), string>)
      requires Wired()
      modifies rt
      ensures r == RenderSaveResult(TeamsOptions(teams), env)
      ensures rt.trace == old(rt.trace) + RenderSaveEvents(TeamsOptions(teams), "placeholder teams", env)
    {
      r := ListUpdate(TeamsOptions(teams), "placeholder teams", env);
    }

    function TeamsOptions(teams: Option<Json>): TemplateOptions {
      TemplateOptions("team.njk", SQL_DIR + "update-placeholder-teams.data.sql", teams, None)
    }

    /** The options of `update<Part>OfSeason`: `season.<member>?.data` with the season's file. */
    function SeasonListOptions(season: Json, member: string, template: string): TemplateOptions {
      var id := ToJsString(Get(Some(season), "id"));
      TemplateOptions(template, SeasonFile(id, member), Get(Get(Some(season), member), "data"), None)
    }

    function SeasonListLog(season: Json, what: string): string {
      what + " (season: " + ToJsString(Get(Some(season), "id")) + ")"
    }

    /** The record of `update<Part>OfSeason`: nothing for a null season, which throws. */
    function SeasonListEvents(season: Json, member: string, template: string, what: string, env: DbEnv): seq<Event> {
      if season.JNull? then []
      else RenderSaveEvents(SeasonListOptions(season, member, template), SeasonListLog(season, what), env)
    }

    function SeasonListResult(season: Json, member: string, template: string, env: DbEnv): (r: Result<(), string>)
      ensures season.JNull? ==> r == Err(TYPE_ERROR)
    {
      if season.JNull? then Err(TYPE_ERROR) else RenderSaveResult(SeasonListOptions(season, member, template), env)
    }

    /** The shared shape of the five season-list updates. */
    method UpdateSeasonList(season: Json, member: string, template: string, what: string, env: DbEnv)
      returns (r: Result<(), string>)
      requires Wired()
      modifies rt
      ensures r == SeasonListResult(season, member, template, env)
      ensures rt.trace == old(rt.trace) + SeasonListEvents(season, member, template, what, env)
    {
      if season.JNull? {
        return Err(TYPE_ERROR);
      }
      r := ListUpdate(SeasonListOptions(season, member, template), SeasonListLog(season, what), env);
    }

    method UpdateTeamsOfSeason(season: Json, env: DbEnv) returns (r: Result<(), string>)
      requires Wired()
      modifies rt
      ensures r == SeasonListResult(season, "teams", "team.njk", env)
      ensures rt.trace == old(rt.trace) + SeasonListEvents(season, "teams", "team.njk", "teams", env)
    {
      r := UpdateSeasonList(season, "teams", "team.njk", "teams", env);
    }

    method UpdateStagesOfSeason(season: Json, env: DbEnv) returns (r: Result<(), string>)
      requires Wired()
      modifies rt
      ensures r == SeasonListResult(season, "stages", "stage.njk", env)
      ensures rt.trace == old(rt.trace) + SeasonListEvents(season, "stages", "stage.njk", "stages", env)
    {
      r := UpdateSeasonList(season, "stages", "stage.njk", "stages", env);
    }

    method UpdateRoundsOfSeason(season: Json, env: DbEnv) returns (r: Result<(), string>)
      requires Wired()
      modifies rt
      ensures r == SeasonListResult(season, "rounds", "round.njk", env)
      ensures rt.trace == old(rt.trace) + SeasonListEvents(season, "rounds", "round.njk", "rounds", env)
    {
      r := UpdateSeasonList(season, "rounds", "round.njk", "rounds", env);
    }

    method UpdateGroupsOfSeason(season: Json, env: DbEnv) returns (r: Result<(), string>)
      requires Wired()
      modifies rt
      ensures r == SeasonListResult(season, "groups", "group.njk", env)
      ensures rt.trace == old(rt.trace) + SeasonListEvents(season, "groups", "group.njk", "groups", env)
    {
      r := UpdateSeasonList(season, "groups", "group.njk", "groups", env);
    }

    method UpdateFixturesOfSeason(season: Json, env: DbEnv) returns (r: Result<(), string>)
      requires Wired()
      modifies rt
      ensures r == SeasonListResult(season, "fixtures", "fixture.njk", env)
      ensures rt.trace == old(rt.trace) + SeasonListEvents(season, "fixtures", "fixture.njk", "fixtures", env)
    {
      r := UpdateSeasonList(season, "fixtures", "fixture.njk", "fixtures", env);
    }

    /** The options of `updateLeagueOfSeason`: the whole season. */
    function LeagueOfSeasonOptions(season: Json): TemplateOptions {
      var id := ToJsString(Get(Some(season), "id"));
      TemplateOptions("upsert-league.njk", SeasonFile(id, "current-season"), Some(season), None)
    }

    /** `updateLeagueOfSeason(season)`: a null season throws while naming the file. */
    method UpdateLeagueOfSeason(season: Json, env: DbEnv) returns (r: Result<(), string>)
      requires Wired()
      modifies rt
      ensures r == (if season.JNull? then Err(TYPE_ERROR) else RenderSaveResult(LeagueOfSeasonOptions(season), env))
      ensures rt.trace == old(rt.trace) +
        (if season.JNull? then [] else RenderSaveEvents(LeagueOfSeasonOptions(season), "league with current season", env))
    {
      if season.JNull? {
        return Err(TYPE_ERROR);
      }
      r := RenderAndSave(LeagueOfSeasonOptions(season), "league with current season", env);
    }

    // -------------------------------------------------------------------------
    // checked updates

    /** The log entry an update creates once the hashes are reloaded from `env`. */
    function EntryAfterReload(u: Checked, env: DbEnv): Result<ScannerLogEntry, string> {
      MakeLogEntry(scanner.stringify, scanner.hasher, ReloadedCache(env), u.logType, u.logged, u.id)
    }

    /** Whether the update renders: the reload succeeds, the payload changed (or is not checked), and its data can be read. */
    predicate CheckedRenders(u: Checked, env: DbEnv) {
      env.connectOk
      && EntryAfterReload(u, env).Ok?
      && !(u.skipSame && EntryAfterReload(u, env).value.isSameAsPrevious == Some(true))
      && u.data.Ok?
    }

    function CheckedOptions(u: Checked, env: DbEnv): TemplateOptions
      requires CheckedRenders(u, env)
    {
      TemplateOptions(u.templateFilename, u.outputFilename, u.data.value, Some(EntryAfterReload(u, env).value))
    }

    function CheckedEvents(u: Checked, env: DbEnv): seq<Event> {
      ReloadEvents(env) + (if CheckedRenders(u, env) then RenderSaveEvents(CheckedOptions(u, env), u.log, env) else [])
    }

    function CheckedResult(u: Checked, env: DbEnv): (r: Result<(), string>)
      ensures !env.connectOk ==> r == Err(CONNECT_ERROR)
      ensures env.connectOk && u.logged.None? ==> r == Err(TYPE_ERROR)
    {
      if !env.connectOk then Err(CONNECT_ERROR)
      else
        match EntryAfterReload(u, env)
        case Err(e) => Err(e)
        case Ok(entry) =>
          if u.skipSame && entry.isSameAsPrevious == Some(true) then Ok(())
          else if u.data.Err? then Err(u.data.error)
          else RenderSaveResult(CheckedOptions(u, env), env)
    }

    /** A checked update neither asks the data provider for anything nor writes a file. */
    lemma CheckedGatewayOnly(u: Checked, env: DbEnv)
      ensures GatewayOnly(CheckedEvents(u, env))
    {
      assert GatewayOnly(ReloadEvents(env));
      if CheckedRenders(u, env) {
        var options := CheckedOptions(u, env);
        SaveGatewayOnly(Rendered(engine.template, options), u.log, 0, persistToDb, env);
        GatewayOnlyConcat(RenderEvents(options), SaveEvents(Rendered(engine.template, options), u.log, 0, persistToDb, env));
        GatewayOnlyConcat(ReloadEvents(env), RenderSaveEvents(options, u.log, env));
      } else {
        assert CheckedEvents(u, env) == ReloadEvents(env);
      }
    }

    /** A checked update gives back every connection it takes. */
    lemma CheckedBalanced(u: Checked, env: DbEnv)
      ensures Balanced(CheckedEvents(u, env))
    {
      if CheckedRenders(u, env) {
        RenderSaveBalanced(CheckedOptions(u, env), u.log, env);
        BalancedConcat(ReloadEvents(env), RenderSaveEvents(CheckedOptions(u, env), u.log, env));
      } else {
        assert CheckedEvents(u, env) == ReloadEvents(env);
      }
    }

    /**
     * A checked payload whose hash equals the reloaded one writes nothing
     * after the reload and succeeds; its statement is never rendered.
     */
    lemma UnchangedPayloadWritesNothing(u: Checked, env: DbEnv)
      requires env.connectOk && u.skipSame && u.logged.Some? && u.id.Some?
      requires u.id.value in ReloadedCache(env)
      requires ReloadedCache(env)[u.id.value].hash == EntryAfterReload(u, env).value.hash
      ensures CheckedEvents(u, env) == ReloadEvents(env)
      ensures CheckedResult(u, env) == Ok(())
    {
      assert CheckedEvents(u, env) == ReloadEvents(env) + [];
    }

    /** A payload under an identifier the log has never seen is always written. */
    lemma NewIdentifierIsRendered(u: Checked, env: DbEnv)
      requires env.connectOk && u.logged.Some? && u.data.Ok?
      requires u.id.None? || u.id.value !in ReloadedCache(env)
      ensures CheckedRenders(u, env)
    {
    }

    method CheckedUpdate(u: Checked, env: DbEnv) returns (r: Result<(), string>)
      requires Wired()
      modifies rt, scanner
      ensures r == CheckedResult(u, env)
      ensures rt.trace == old(rt.trace) + CheckedEvents(u, env)
      ensures scanner.cache == if env.connectOk then ReloadedCache(env) else old(scanner.cache)
    {
      r := scanner.FetchCurrentHashesFromDatabase(env);
      if r.Err? {
        return;
      }
      var entry := scanner.CreateLogEntry(u.logType, u.logged, u.id);
      if entry.Err? {
        return Err(entry.error);
      }
      if u.skipSame && entry.value.isSameAsPrevious == Some(true) {
        assert CheckedEvents(u, env) == ReloadEvents(env) + [];
        return Ok(());
      }
      if u.data.Err? {
        assert CheckedEvents(u, env) == ReloadEvents(env) + [];
        return Err(u.data.error);
      }
      ghost var trace := rt.trace;
      r := RenderAndSave(TemplateOptions(u.templateFilename, u.outputFilename, u.data.value, Some(entry.value)), u.log, env);
      assert trace + RenderSaveEvents(CheckedOptions(u, env), u.log, env) == old(rt.trace) + CheckedEvents(u, env);
    }

    function CountriesUpdate(countries: Option<Json>): Checked {
      Checked(AllCountries, countries, Some("all-countries"), true,
              "countries.njk", SQL_DIR + "update-countries.data.sql", Ok(countries), "countries")
    }

    /** `updateCountries(countries)`: skipped when the countries have not changed. */
    method UpdateCountries(countries: Option<Json>, env: DbEnv) returns (r: Result<(), string>)
      requires Wired()
      modifies rt, scanner
      ensures r == CheckedResult(CountriesUpdate(countries), env)
      ensures rt.trace == old(rt.trace) + CheckedEvents(CountriesUpdate(countries), env)
      ensures scanner.cache == if env.connectOk then ReloadedCache(env) else old(scanner.cache)
    {
      r := CheckedUpdate(CountriesUpdate(countries), env);
    }

    function LeaguesUpdate(leagues: Option<Json>): Checked {
      Checked(AllLeagues, leagues, Some("all-leagues"), false,
              "upsert-leagues.njk", SQL_DIR + "update-leagues.data.sql", Ok(leagues), "leagues")
    }

    /** `updateLeagues(leagues)`: the unchanged check is switched off, so the leagues are always written. */
    method UpdateLeagues(leagues: Option<Json>, env: DbEnv) returns (r: Result<(), string>)
      requires Wired()
      modifies rt, scanner
      ensures r == CheckedResult(LeaguesUpdate(leagues), env)
      ensures rt.trace == old(rt.trace) + CheckedEvents(LeaguesUpdate(leagues), env)
      ensures scanner.cache == if env.connectOk then ReloadedCache(env) else old(scanner.cache)
    {
      r := CheckedUpdate(LeaguesUpdate(leagues), env);
    }

    /** Leagues are rendered whenever the reload succeeds and there are leagues to serialise. */
    lemma LeaguesAlwaysRendered(leagues: Json, env: DbEnv)
      requires env.connectOk
      ensures CheckedRenders(LeaguesUpdate(Some(leagues)), env)
    {
    }

    /** The update `updateSeason` performs for a non-null season. */
    function SeasonUpdate(season: Json): Checked {
      var id := ToJsString(Get(Some(season), "id"));
      var data := match Prop(Get(Some(season), "fixtures"), "data")
        case Err(e) => Err(e)
        case Ok(fixtures) => Ok(Some(SeasonData(season, fixtures)));
      Checked(Season, Some(season), IdText(Get(Some(season), "id")), true,
              "update-season.njk", SeasonFile(id, "base"), data, "season " + id)
    }

    /** `updateSeason(season)`: a null season throws before anything happens. */
    method UpdateSeason(season: Json, env: DbEnv) returns (r: Result<(), string>)
      requires Wired()
      modifies rt, scanner
      ensures season.JNull? ==> r == Err(TYPE_ERROR) && rt.trace == old(rt.trace) && scanner.cache == old(scanner.cache)
      ensures !season.JNull? ==> r == CheckedResult(SeasonUpdate(season), env)
      ensures !season.JNull? ==> rt.trace == old(rt.trace) + CheckedEvents(SeasonUpdate(season), env)
      ensures !season.JNull? ==> scanner.cache == if env.connectOk then ReloadedCache(env) else old(scanner.cache)
    {
      if season.JNull? {
        return Err(TYPE_ERROR);
      }
      r := CheckedUpdate(SeasonUpdate(season), env);
    }

    /** A season without fixtures throws after the hashes are reloaded, unless it is unchanged. */
    lemma SeasonWithoutFixturesThrows(season: Json, env: DbEnv)
      requires season.JObj? && env.connectOk && Nullish(Get(Some(season), "fixtures"))
      requires CheckedResult(SeasonUpdate(season), env).Ok?
      ensures EntryAfterReload(SeasonUpdate(season), env).value.isSameAsPrevious == Some(true)
    {
    }

    /** The update `updateLeagueStandings` performs for a non-empty list whose first stage is not null. */
    function StandingsUpdate(standing: seq<Json>, seasonId: Option<int>, entries: Result<seq<Json>, string>): Checked {
      var id := NumberText(seasonId);
      var data := match entries
        case Err(e) => Err(e)
        case Ok(es) => Ok(Some(StandingsData(seasonId, es)));
      Checked(Standings, Some(JArr(standing)), Some(id), true,
              "standing.njk", SeasonFile(id, "standings"), data, "standings (season " + id + ")")
    }

    /** `Number(standing[0].season_id)` for a non-empty list, or the TypeError of a null first stage. */
    function StandingsSeasonId(standing: seq<Json>): Result<Option<int>, string>
      requires |standing| > 0
    {
      match Prop(Some(standing[0]), "season_id")
      case Err(e) => Err(e)
      case Ok(v) => Ok(ToNumber(v))
    }

    /**
     * `updateLeagueStandings(standing)`: anything but a non-empty list does
     * nothing; otherwise the standings are checked against their hash under
     * the season id and, when changed, flattened and saved.
     */
    method UpdateLeagueStandings(standing: Option<Json>, env: DbEnv) returns (r: Result<(), string>)
      requires Wired()
      modifies rt, scanner
      ensures !(IsArray(standing) && |standing.value.items| > 0) ==>
        r == Ok(()) && rt.trace == old(rt.trace) && scanner.cache == old(scanner.cache)
      ensures IsArray(standing) && |standing.value.items| > 0 && StandingsSeasonId(standing.value.items).Err? ==>
        r == Err(TYPE_ERROR) && rt.trace == old(rt.trace) && scanner.cache == old(scanner.cache)
      ensures IsArray(standing) && |standing.value.items| > 0 && StandingsSeasonId(standing.value.items).Ok? ==>
        var u := StandingsUpdate(standing.value.items, StandingsSeasonId(standing.value.items).value,
                                 FlattenStandings(standing.value.items));
        r == CheckedResult(u, env) && rt.trace == old(rt.trace) + CheckedEvents(u, env)
    {
      if !(IsArray(standing) && |standing.value.items| > 0) {
        return Ok(());
      }
      var stages := standing.value.items;
      var seasonId := StandingsSeasonId(stages);
      if seasonId.Err? {
        return Err(TYPE_ERROR);
      }
      var entries := FlattenStandingsLoop(stages);
      r := CheckedUpdate(StandingsUpdate(stages, seasonId.value, entries), env);
    }

    // -------------------------------------------------------------------------
    // live fixtures

    /** The log entry of one live fixture against `cache`, with its id text. */
    function FixtureEntry(cache: map<string, ScannerLog>, fixture: Json, id: string): ScannerLogEntry {
      MakeLogEntry(scanner.stringify, scanner.hasher, cache, LiveEntry, Some(fixture), Some(id)).value
    }

    function FixtureOptions(cache: map<string, ScannerLog>, fixture: Json, id: string): TemplateOptions {
      TemplateOptions("upsert-fixture.njk", SQL_DIR + "update-season-" + id + ".data.sql", Some(fixture),
                      Some(FixtureEntry(cache, fixture, id)))
    }

    /** Whether `fixtureToSql` renders: the id can be read and the fixture changed. */
    predicate FixtureRenders(cache: map<string, ScannerLog>, fixture: Json) {
      FixtureId(fixture).Ok? && FixtureEntry(cache, fixture, FixtureId(fixture).value).isSameAsPrevious != Some(true)
    }

    /** `fixtureToSql(fixture)`: nothing for an unchanged fixture, else the rendered statement. */
    function FixtureSql(cache: map<string, ScannerLog>, fixture: Json): (r: Result<Option<string>, string>)
      ensures r.Err? <==> FixtureId(fixture).Err?
      ensures r.Ok? && !FixtureRenders(cache, fixture) ==> r.value.None?
      ensures FixtureRenders(cache, fixture) ==>
        r == Ok(Some(engine.template(FixtureOptions(cache, fixture, FixtureId(fixture).value))))
    {
      match FixtureId(fixture)
      case Err(e) => Err(e)
      case Ok(id) =>
        if FixtureEntry(cache, fixture, id).isSameAsPrevious == Some(true) then Ok(None)
        else Ok(Rendered(engine.template, FixtureOptions(cache, fixture, id)))
    }

    function FixtureEvents(cache: map<string, ScannerLog>, fixture: Json): seq<Event> {
      if FixtureRenders(cache, fixture) then [Event.Render(FixtureOptions(cache, fixture, FixtureId(fixture).value))] else []
    }

    method FixtureToSql(fixture: Json) returns (r: Result<Option<string>, string>)
      requires Wired()
      modifies rt
      ensures r == FixtureSql(scanner.cache, fixture)
      ensures rt.trace == old(rt.trace) + FixtureEvents(scanner.cache, fixture)
    {
      var id := FixtureId(fixture);
      if id.Err? {
        return Err(id.error);
      }
      var entry := scanner.CreateLogEntry(LiveEntry, Some(fixture), Some(id.value));
      if entry.value.isSameAsPrevious == Some(true) {
        return Ok(None);
      }
      var content := engine.Render(FixtureOptions(scanner.cache, fixture, id.value));
      r := Ok(content);
    }

    /** The statement `updateLiveFixtures` builds: the header, then each fixture's text and a line break; the first unreadable id aborts. */
    function LiveSql(cache: map<string, ScannerLog>, fixtures: seq<Json>): (r: Result<string, string>)
      ensures r.Ok? ==> |r.value| >= |LIVE_SQL_HEADER| && r.value[..|LIVE_SQL_HEADER|] == LIVE_SQL_HEADER
      ensures r.Err? ==> r.error == TYPE_ERROR
    {
      if fixtures == [] then Ok(LIVE_SQL_HEADER)
      else
        match LiveSql(cache, fixtures[..|fixtures| - 1])
        case Err(e) => Err(e)
        case Ok(sql) =>
          match FixtureSql(cache, fixtures[|fixtures| - 1])
          case Err(e) => Err(e)
          case Ok(piece) => Ok(sql + PieceText(piece) + "\n")
    }

    /** The renders of `updateLiveFixtures`, up to the fixture whose id cannot be read. */
    function LiveRenderEvents(cache: map<string, ScannerLog>, fixtures: seq<Json>): (t: seq<Event>)
      ensures NoConnections(t)
    {
      if fixtures == [] then []
      else
        var before := LiveRenderEvents(cache, fixtures[..|fixtures| - 1]);
        if LiveSql(cache, fixtures[..|fixtures| - 1]).Err? then before
        else before + FixtureEvents(cache, fixtures[|fixtures| - 1])
    }

    /** The live statement can be built exactly when every fixture's id can be read. */
    lemma {:induction false} LiveSqlOkIffIdsReadable(cache: map<string, ScannerLog>, fixtures: seq<Json>)
      ensures LiveSql(cache, fixtures).Ok? <==> forall i :: 0 <= i < |fixtures| ==> FixtureId(fixtures[i]).Ok?
      decreases |fixtures|
    {
      if fixtures != [] {
        var init := fixtures[..|fixtures| - 1];
        var last := fixtures[|fixtures| - 1];
        LiveSqlOkIffIdsReadable(cache, init);
        assert LiveSql(cache, fixtures).Ok? <==> LiveSql(cache, init).Ok? && FixtureId(last).Ok?;
        IdsReadableSnoc(fixtures, init);
      }
    }

    /** One more fixture: its piece is appended, and it is rendered when it changed. */
    lemma LiveSqlStep(cache: map<string, ScannerLog>, fixtures: seq<Json>, i: nat)
      requires i < |fixtures| && LiveSql(cache, fixtures[..i]).Ok?
      ensures LiveSql(cache, fixtures[..i + 1]) ==
        match FixtureSql(cache, fixtures[i])
        case Err(e) => Err(e)
        case Ok(piece) => Ok(LiveSql(cache, fixtures[..i]).value + PieceText(piece) + "\n")
      ensures LiveRenderEvents(cache, fixtures[..i + 1]) == LiveRenderEvents(cache, fixtures[..i]) + FixtureEvents(cache, fixtures[i])
    {
      assert fixtures[..i + 1][..i] == fixtures[..i];
      assert fixtures[..i + 1][i] == fixtures[i];
    }

    /** Appending a fixture whose id can be read appends its text and a line break. */
    lemma LiveSqlAppend(cache: map<string, ScannerLog>, fixtures: seq<Json>, fixture: Json)
      requires LiveSql(cache, fixtures).Ok? && FixtureSql(cache, fixture).Ok?
      ensures LiveSql(cache, fixtures + [fixture])
        == Ok(LiveSql(cache, fixtures).value + PieceText(FixtureSql(cache, fixture).value) + "\n")
    {
      var all := fixtures + [fixture];
      assert all[..|all| - 1] == fixtures;
      assert all[|all| - 1] == fixture;
    }

    /**
     * A changed fixture appends its rendered statement, an unchanged one the
     * text "undefined", each followed by a line break.
     */
    lemma LiveSqlSnoc(cache: map<string, ScannerLog>, fixtures: seq<Json>, fixture: Json)
      requires LiveSql(cache, fixtures).Ok? && FixtureId(fixture).Ok?
      ensures FixtureRenders(cache, fixture) ==>
        LiveSql(cache, fixtures + [fixture])
        == Ok(LiveSql(cache, fixtures).value + engine.template(FixtureOptions(cache, fixture, FixtureId(fixture).value)) + "\n")
      ensures !FixtureRenders(cache, fixture) ==>
        LiveSql(cache, fixtures + [fixture]) == Ok(LiveSql(cache, fixtures).value + "undefined" + "\n")
    {
      var piece := FixtureSql(cache, fixture);
      LiveSqlAppend(cache, fixtures, fixture);
      if FixtureRenders(cache, fixture) {
        assert PieceText(piece.value) == engine.template(FixtureOptions(cache, fixture, FixtureId(fixture).value));
      } else {
        assert PieceText(piece.value) == "undefined";
      }
    }

    /** `updateLiveFixtures(fixtures)`. */
    method UpdateLiveFixtures(fixtures: seq<Json>, env: DbEnv) returns (r: Result<(), string>)
      requires Wired()
      modifies rt, scanner
      ensures !env.connectOk ==> r == Err(CONNECT_ERROR) && rt.trace == old(rt.trace)
      ensures env.connectOk ==>
        var cache := ReloadedCache(env);
        rt.trace == old(rt.trace) + ReloadEvents(env) + LiveRenderEvents(cache, fixtures)
          + (if LiveSql(cache, fixtures).Ok? then SaveEvents(Some(LiveSql(cache, fixtures).value), "live fixtures", 0, persistToDb, env) else [])
        && r == (if LiveSql(cache, fixtures).Ok? then SaveResult(Some(LiveSql(cache, fixtures).value), persistToDb, env) else Err(TYPE_ERROR))
      ensures scanner.cache == if env.connectOk then ReloadedCache(env) else old(scanner.cache)
    {
      r := scanner.FetchCurrentHashesFromDatabase(env);
      if r.Err? {
        return;
      }
      var sql := BuildLiveSql(fixtures);
      if sql.Err? {
        return Err(sql.error);
      }
      r := Save(Some(sql.value), "live fixtures", 0, env);
    }

    /** The loop of `updateLiveFixtures` that renders each fixture and joins the pieces, on the current cache. */
    method BuildLiveSql(fixtures: seq<Json>) returns (r: Result<string, string>)
      requires Wired()
      modifies rt
      ensures r == LiveSql(scanner.cache, fixtures)
      ensures rt.trace == old(rt.trace) + LiveRenderEvents(scanner.cache, fixtures)
    {
      var sql := LIVE_SQL_HEADER;
      var i := 0;
      while i < |fixtures|
        invariant 0 <= i <= |fixtures|
        invariant LiveSql(scanner.cache, fixtures[..i]) == Ok(sql)
        invariant rt.trace == old(rt.trace) + LiveRenderEvents(scanner.cache, fixtures[..i])
      {
        LiveSqlStep(scanner.cache, fixtures, i);
        var piece := FixtureToSql(fixtures[i]);
        if piece.Err? {
          LiveSqlPrefixErr(scanner.cache, fixtures, i + 1);
          return Err(TYPE_ERROR);
        }
        sql := sql + PieceText(piece.value) + "\n";
        i := i + 1;
      }
      assert fixtures[..i] == fixtures;
      r := Ok(sql);
    }

    /** Once a prefix of the fixtures fails, the statement fails and no further fixture is rendered. */
    lemma {:induction false} LiveSqlPrefixErr(cache: map<string, ScannerLog>, fixtures: seq<Json>, k: nat)
      requires k <= |fixtures| && LiveSql(cache, fixtures[..k]).Err?
      ensures LiveSql(cache, fixtures).Err?
      ensures LiveRenderEvents(cache, fixtures) == LiveRenderEvents(cache, fixtures[..k])
      decreases |fixtures| - k
    {
      if k < |fixtures| {
        assert fixtures[..k + 1][..k] == fixtures[..k];
        LiveSqlPrefixErr(cache, fixtures, k + 1);
      } else {
        assert fixtures[..k] == fixtures;
      }
    }
  }
}
