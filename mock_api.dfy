/**
 * The mocked SportMonks data source: seasons come from JSON snapshots, and a
 * season can be "set back" to an instant, so that every fixture kicking off
 * after it looks as if it had not been played yet.
 *
 * JavaScript `Date`s are modelled by their time value in epoch milliseconds;
 * parsing a date string and printing a date are parameters of the service.
 */
module MockApi {
  import opened Wrappers
  import opened Js
  import opened Text

  /** The largest magnitude of a valid time value (section 21.4.1.31, TimeClip, of ECMA-262). */
  const MAX_TIME: int := 8640000000000000

  /** The kick-off of a fixture: `fixture.time.starting_at.date_time`. */
  const KICK_OFF_PATH: seq<string> := ["time", "starting_at", "date_time"]

  /** Where a season keeps its fixtures: `season.fixtures.data`. */
  const FIXTURES_PATH: seq<string> := ["fixtures", "data"]

  /** A JavaScript `Date`: its time value, or `None` for an Invalid Date (time value NaN). */
  datatype Date = Date(time: Option<int>)

  /** TimeClip: a time value outside the representable range becomes NaN. */
  function TimeClip(t: int): (r: Option<int>)
    ensures r.Some? <==> -MAX_TIME <= t <= MAX_TIME
    ensures r.Some? ==> r.value == t
  {
    if -MAX_TIME <= t <= MAX_TIME then Some(t) else None
  }

  /**
   * `new Date(v)` for a single argument: undefined is invalid, null is the
   * epoch, booleans and numbers are time values, strings (and the string
   * form of arrays and objects) go through the date parser.
   */
  function NewDate(v: Option<Json>, parse: string -> Option<int>): Date {
    match v
    case None => Date(None)
    case Some(JNull) => Date(Some(0))
    case Some(JBool(b)) => Date(Some(if b then 1 else 0))
    case Some(JNum(n)) => Date(TimeClip(n))
    case Some(JStr(s)) => Date(parse(s))
    case Some(j) => Date(parse(JsonToString(j)))
  }

  /** `a > b` on dates compares time values; any comparison with NaN is false. */
  predicate After(a: Date, b: Date) {
    a.time.Some? && b.time.Some? && a.time.value > b.time.value
  }

  /** `String(date)`: "Invalid Date", or the engine's rendering of a valid date. */
  function DateString(d: Date, dateText: int -> string): (r: string)
    ensures d.time.None? ==> r == "Invalid Date"
    ensures d.time.Some? ==> r == dateText(d.time.value)
  {
    if d.time.None? then "Invalid Date" else dateText(d.time.value)
  }

  /** How the message of `setBackSeasonToDate` starts. */
  const SET_BACK_PREFIX: string := "Successfully set back date of season "

  /** The message `setBackSeasonToDate` answers with: the season id right after the prefix, a final period. */
  function SetBackMessage(seasonId: int, dateTime: Date, dateText: int -> string): (r: string)
    ensures |r| > |SET_BACK_PREFIX| + |IntToString(seasonId)|
    ensures r[..|SET_BACK_PREFIX|] == SET_BACK_PREFIX
    ensures r[|SET_BACK_PREFIX|..|SET_BACK_PREFIX| + |IntToString(seasonId)|] == IntToString(seasonId)
    ensures r[|r| - 1] == '.'
  {
    var id := IntToString(seasonId);
    var tail := " to " + DateString(dateTime, dateText) + ".";
    assert (id + tail)[..|id|] == id;
    SET_BACK_PREFIX + (id + tail)
  }

  /** The stored season id as the JavaScript value it is compared with (undefined until set). */
  function IdValue(id: Option<int>): Option<Json> {
    if id.Some? then Some(JNum(id.value)) else None
  }

  /** Storing a value a map already holds leaves the map as it is. */
  lemma UpdateSame<K, V>(m: map<K, V>, k: K, v: V)
    requires k in m && m[k] == v
    ensures m[k := v] == m
  {
    assert m[k := v].Keys == m.Keys;
  }

  // ---------------------------------------------------------------------------
  // one fixture

  /** A fixture whose kick-off can be read: it is an object and so is its `time`. */
  predicate HasTime(fixture: Json) {
    fixture.JObj? && "time" in fixture.fields && fixture.fields["time"].JObj?
  }

  lemma KickOffReadable(fixture: Json)
    requires Path(Some(fixture), KICK_OFF_PATH).Ok?
    ensures HasTime(fixture)
  {
    var time := Get(Some(fixture), "time");
    assert Prop(Some(fixture), "time") == Ok(time);
    assert Path(Some(fixture), KICK_OFF_PATH) == Path(time, KICK_OFF_PATH[1..]);
    assert !Nullish(time);
    var start := Get(time, "starting_at");
    assert Path(time, KICK_OFF_PATH[1..]) == Path(start, KICK_OFF_PATH[2..]);
    assert !Nullish(start);
  }

  /** The scores of a fixture that has not kicked off. */
  const RESET_SCORES: map<string, Json> := map[
    "localteam_score" := JNum(0), "visitorteam_score" := JNum(0),
    "localteam_pen_score" := JNull, "visitorteam_pen_score" := JNull,
    "ht_score" := JNull, "ft_score" := JNull, "et_score" := JNull, "ps_score" := JNull]

  /** The in-place assignments the set-back makes on a fixture, in the order the source makes them. */
  function ResetFixture(fixture: Json): Json
    requires HasTime(fixture)
  {
    var time := fixture.fields["time"].fields;
    JObj(fixture.fields["winner_team_id" := JNull]["winning_odds_calculated" := JBool(false)]
                       ["scores" := JObj(RESET_SCORES)]
                       ["time" := JObj(time["status" := JStr("NS")]["minute" := JNull])])
  }

  /** What a reset fixture looks like; every other field of it and of its `time` is kept. */
  lemma ResetFixtureRules(fixture: Json)
    requires HasTime(fixture)
    ensures var r := ResetFixture(fixture);
      HasTime(r)
      && r.fields.Keys == fixture.fields.Keys + {"winner_team_id", "winning_odds_calculated", "scores"}
      && r.fields["winner_team_id"] == JNull
      && r.fields["winning_odds_calculated"] == JBool(false)
      && r.fields["scores"] == JObj(RESET_SCORES)
      && RESET_SCORES["localteam_score"] == JNum(0) && RESET_SCORES["visitorteam_score"] == JNum(0)
      && (forall k :: k in RESET_SCORES && k != "localteam_score" && k != "visitorteam_score" ==> RESET_SCORES[k] == JNull)
      && r.fields["time"].fields.Keys == fixture.fields["time"].fields.Keys + {"status", "minute"}
      && r.fields["time"].fields["status"] == JStr("NS")
      && r.fields["time"].fields["minute"] == JNull
      && (forall k :: k in fixture.fields && k !in {"winner_team_id", "winning_odds_calculated", "scores", "time"} ==>
            r.fields[k] == fixture.fields[k])
      && (forall k :: k in fixture.fields["time"].fields && k != "status" && k != "minute" ==>
            r.fields["time"].fields[k] == fixture.fields["time"].fields[k])
  {
  }

  /** Resetting keeps the kick-off, and resetting twice is resetting once. */
  lemma ResetKeepsKickOff(fixture: Json)
    requires HasTime(fixture)
    ensures Path(Some(ResetFixture(fixture)), KICK_OFF_PATH) == Path(Some(fixture), KICK_OFF_PATH)
    ensures ResetFixture(ResetFixture(fixture)) == ResetFixture(fixture)
  {
    var r := ResetFixture(fixture);
    var time := Get(Some(fixture), "time");
    var time' := Get(Some(r), "time");
    assert Get(time', "starting_at") == Get(time, "starting_at");
    assert Path(Some(r), KICK_OFF_PATH) == Path(time', KICK_OFF_PATH[1..]);
    assert Path(Some(fixture), KICK_OFF_PATH) == Path(time, KICK_OFF_PATH[1..]);
    assert Path(time', KICK_OFF_PATH[1..]) == Path(Get(time', "starting_at"), KICK_OFF_PATH[2..]);
    assert Path(time, KICK_OFF_PATH[1..]) == Path(Get(time, "starting_at"), KICK_OFF_PATH[2..]);
    var t := r.fields["time"].fields;
    UpdateSame(t, "minute", JNull);
    UpdateSame(t, "status", JStr("NS"));
    UpdateSame(r.fields, "time", JObj(t));
    UpdateSame(r.fields, "scores", JObj(RESET_SCORES));
    UpdateSame(r.fields, "winning_odds_calculated", JBool(false));
    UpdateSame(r.fields, "winner_team_id", JNull);
  }

  /**
   * The callback of the set-back map: reading the kick-off throws when a link
   * of the path is nullish; a fixture kicking off strictly after `instant` is
   * reset, any other is returned as it is.
   */
  function SetBackFixture(fixture: Json, instant: Date, parse: string -> Option<int>): Result<Json, string> {
    match Path(Some(fixture), KICK_OFF_PATH)
    case Err(e) => Err(e)
    case Ok(start) =>
      if After(NewDate(start, parse), instant) then KickOffReadable(fixture); Ok(ResetFixture(fixture))
      else Ok(fixture)
  }

  /** A fixture is reset exactly when it kicks off strictly after the instant, and untouched otherwise. */
  lemma SetBackFixtureRules(fixture: Json, instant: Date, parse: string -> Option<int>)
    ensures var r := SetBackFixture(fixture, instant, parse);
      var start := Path(Some(fixture), KICK_OFF_PATH);
      (r.Err? <==> start.Err?)
      && (r.Ok? && After(NewDate(start.value, parse), instant) ==> HasTime(fixture) && r.value == ResetFixture(fixture))
      && (r.Ok? && !After(NewDate(start.value, parse), instant) ==> r.value == fixture)
  {
    if Path(Some(fixture), KICK_OFF_PATH).Ok? {
      KickOffReadable(fixture);
    }
  }

  /** Setting back a fixture that was already set back to the same instant changes nothing. */
  lemma SetBackFixtureIdempotent(fixture: Json, instant: Date, parse: string -> Option<int>)
    requires SetBackFixture(fixture, instant, parse).Ok?
    ensures var once := SetBackFixture(fixture, instant, parse).value;
      SetBackFixture(once, instant, parse) == Ok(once)
  {
    KickOffReadable(fixture);
    var start := Path(Some(fixture), KICK_OFF_PATH).value;
    if After(NewDate(start, parse), instant) {
      ResetKeepsKickOff(fixture);
    }
  }

  // ---------------------------------------------------------------------------
  // the fixture list

  /** `fixtures.map(callback)` with the set-back callback. */
  function SetBackFixtures(fixtures: seq<Json>, instant: Date, parse: string -> Option<int>): Result<seq<Json>, string> {
    MapOrThrow(fixtures, f => SetBackFixture(f, instant, parse))
  }

  /** The list succeeds iff every fixture does; it then has the same length and order, fixture by fixture. */
  lemma SetBackFixturesShape(fixtures: seq<Json>, instant: Date, parse: string -> Option<int>)
    ensures var r := SetBackFixtures(fixtures, instant, parse);
      (r.Ok? <==> forall i :: 0 <= i < |fixtures| ==> SetBackFixture(fixtures[i], instant, parse).Ok?)
      && (r.Err? ==> r.error == TYPE_ERROR)
      && (r.Ok? ==>
            |r.value| == |fixtures|
            && forall i :: 0 <= i < |fixtures| ==> r.value[i] == SetBackFixture(fixtures[i], instant, parse).value)
  {
    var f := fx => SetBackFixture(fx, instant, parse);
    MapOrThrowShape(fixtures, f);
    if MapOrThrow(fixtures, f).Err? {
      var k :| 0 <= k < |fixtures| && f(fixtures[k]).Err? && MapOrThrow(fixtures, f).error == f(fixtures[k]).error;
      PathAgreesWithOptPath(Some(fixtures[k]), KICK_OFF_PATH);
    }
  }

  /** Mapping the set-back over a list it has already been mapped over changes nothing. */
  lemma SetBackFixturesIdempotent(fixtures: seq<Json>, instant: Date, parse: string -> Option<int>)
    requires SetBackFixtures(fixtures, instant, parse).Ok?
    ensures var once := SetBackFixtures(fixtures, instant, parse).value;
      SetBackFixtures(once, instant, parse) == Ok(once)
  {
    var once := SetBackFixtures(fixtures, instant, parse).value;
    SetBackFixturesShape(fixtures, instant, parse);
    SetBackFixturesShape(once, instant, parse);
    forall i | 0 <= i < |fixtures|
      ensures SetBackFixture(once[i], instant, parse) == Ok(once[i])
    {
      SetBackFixtureIdempotent(fixtures[i], instant, parse);
    }
    var twice := SetBackFixtures(once, instant, parse);
    assert twice.Ok?;
    assert twice.value == once;
  }

  // ---------------------------------------------------------------------------
  // the season

  /** A season whose fixture list can be reassigned: `season.fixtures` is an object. */
  predicate HasFixtures(season: Json) {
    season.JObj? && "fixtures" in season.fields && season.fields["fixtures"].JObj?
  }

  lemma FixturesReadable(season: Json)
    requires Path(Some(season), FIXTURES_PATH).Ok? && IsArray(Path(Some(season), FIXTURES_PATH).value)
    ensures HasFixtures(season)
  {
    var fixtures := Get(Some(season), "fixtures");
    assert Path(Some(season), FIXTURES_PATH) == Path(fixtures, FIXTURES_PATH[1..]);
    assert Path(fixtures, FIXTURES_PATH[1..]) == Path(Get(fixtures, "data"), []);
  }

  /** `season.fixtures.data = list`. */
  function WithFixtures(season: Json, list: seq<Json>): Json
    requires HasFixtures(season)
  {
    JObj(season.fields["fixtures" := JObj(season.fields["fixtures"].fields["data" := JArr(list)])])
  }

  /** The reassigned season keeps its id and now holds exactly `list`. */
  lemma WithFixturesRules(season: Json, list: seq<Json>)
    requires HasFixtures(season)
    ensures Get(Some(WithFixtures(season, list)), "id") == Get(Some(season), "id")
    ensures Path(Some(WithFixtures(season, list)), FIXTURES_PATH) == Ok(Some(JArr(list)))
    ensures HasFixtures(WithFixtures(season, list))
    ensures WithFixtures(WithFixtures(season, list), list) == WithFixtures(season, list)
  {
    var s := WithFixtures(season, list);
    assert Path(Some(s), FIXTURES_PATH) == Path(Get(Some(s), "fixtures"), FIXTURES_PATH[1..]);
    assert Path(Get(Some(s), "fixtures"), FIXTURES_PATH[1..]) == Path(Some(JArr(list)), []);
    var f := s.fields["fixtures"].fields;
    UpdateSame(f, "data", JArr(list));
    UpdateSame(s.fields, "fixtures", JObj(f));
  }

  /**
   * `manipulateSeasonJson(season)` under the stored set-back id and instant:
   * reading `season.id` or `season.fixtures.data` may throw, and so does
   * `map` on a value that is not an array.
   */
  function ManipulatedSeason(setBackId: Option<int>, setBackTime: Option<Date>, season: Json,
                             parse: string -> Option<int>): Result<Json, string>
  {
    match Prop(Some(season), "id")
    case Err(e) => Err(e)
    case Ok(id) =>
      if !(StrictEquals(id, IdValue(setBackId)) && setBackTime.Some?) then Ok(season)
      else
        match Path(Some(season), FIXTURES_PATH)
        case Err(e) => Err(e)
        case Ok(data) =>
          if !IsArray(data) then Err(TYPE_ERROR)
          else
            match SetBackFixtures(data.value.items, setBackTime.value, parse)
            case Err(e) => Err(e)
            case Ok(list) => FixturesReadable(season); Ok(WithFixtures(season, list))
  }

  /** Another season, or no stored instant: the season comes back as it is (`null` has no `id` to read). */
  lemma OtherSeasonUnchanged(setBackId: Option<int>, setBackTime: Option<Date>, season: Json,
                             parse: string -> Option<int>)
    requires setBackTime.None? || !StrictEquals(Get(Some(season), "id"), IdValue(setBackId))
    ensures var r := ManipulatedSeason(setBackId, setBackTime, season, parse);
      (season.JNull? ==> r == Err(TYPE_ERROR)) && (!season.JNull? ==> r == Ok(season))
  {
  }

  /**
   * The matching season: its fixture list is reassigned with the same length
   * and order, every fixture kicking off strictly after the instant reset and
   * every other one untouched.
   */
  lemma MatchingSeasonSetBack(setBackId: int, instant: Date, season: Json, parse: string -> Option<int>)
    requires StrictEquals(Get(Some(season), "id"), Some(JNum(setBackId)))
    requires ManipulatedSeason(Some(setBackId), Some(instant), season, parse).Ok?
    ensures var r := ManipulatedSeason(Some(setBackId), Some(instant), season, parse).value;
      var before := Path(Some(season), FIXTURES_PATH).value.value.items;
      HasFixtures(season)
      && Get(Some(r), "id") == Get(Some(season), "id")
      && Path(Some(r), FIXTURES_PATH).Ok? && IsArray(Path(Some(r), FIXTURES_PATH).value)
      && var after := Path(Some(r), FIXTURES_PATH).value.value.items;
      |after| == |before|
      && forall i :: 0 <= i < |before| ==>
           Path(Some(before[i]), KICK_OFF_PATH).Ok?
           && (After(NewDate(Path(Some(before[i]), KICK_OFF_PATH).value, parse), instant) ==>
                 HasTime(before[i]) && after[i] == ResetFixture(before[i]))
           && (!After(NewDate(Path(Some(before[i]), KICK_OFF_PATH).value, parse), instant) ==>
                 after[i] == before[i])
  {
    assert !season.JNull?;
    var data := Path(Some(season), FIXTURES_PATH);
    assert data.Ok? && IsArray(data.value);
    FixturesReadable(season);
    var before := data.value.value.items;
    var list := SetBackFixtures(before, instant, parse).value;
    WithFixturesRules(season, list);
    SetBackFixturesShape(before, instant, parse);
    forall i | 0 <= i < |before|
      ensures Path(Some(before[i]), KICK_OFF_PATH).Ok?
      ensures After(NewDate(Path(Some(before[i]), KICK_OFF_PATH).value, parse), instant) ==>
                HasTime(before[i]) && list[i] == ResetFixture(before[i])
      ensures !After(NewDate(Path(Some(before[i]), KICK_OFF_PATH).value, parse), instant) ==> list[i] == before[i]
    {
      SetBackFixtureRules(before[i], instant, parse);
    }
  }

  /** Manipulating a manipulated season again gives the same season. */
  lemma ManipulateIdempotent(setBackId: Option<int>, setBackTime: Option<Date>, season: Json,
                             parse: string -> Option<int>)
    requires ManipulatedSeason(setBackId, setBackTime, season, parse).Ok?
    ensures var once := ManipulatedSeason(setBackId, setBackTime, season, parse).value;
      ManipulatedSeason(setBackId, setBackTime, once, parse) == Ok(once)
  {
    var id := Get(Some(season), "id");
    if StrictEquals(id, IdValue(setBackId)) && setBackTime.Some? {
      var data := Path(Some(season), FIXTURES_PATH).value;
      FixturesReadable(season);
      var list := SetBackFixtures(data.value.items, setBackTime.value, parse).value;
      var once := WithFixtures(season, list);
      WithFixturesRules(season, list);
      SetBackFixturesIdempotent(data.value.items, setBackTime.value, parse);
      assert ManipulatedSeason(setBackId, setBackTime, once, parse) == Ok(WithFixtures(once, list));
    }
  }

  // ---------------------------------------------------------------------------
  // the service

  /** `MockSportMonksApi`: the snapshot directory and the stored set-back season and instant. */
  class MockSportMonksApi {
    const mockDbPath: string
    /** The engine's date parser, as used by `new Date(string)`. */
    const parseDate: string -> Option<int>
    /** The engine's rendering of a valid date, as used by `String(date)`. */
    const dateText: int -> string
    /** `setBackSeasonId`: undefined until a season is set back. */
    var setBackSeasonId: Option<int>
    /** `setBackDateTime`: null until a season is set back. */
    var setBackDateTime: Option<Date>

    constructor(mockDbPath: string, parseDate: string -> Option<int>, dateText: int -> string)
      ensures this.mockDbPath == mockDbPath && this.parseDate == parseDate && this.dateText == dateText
      ensures setBackSeasonId.None? && setBackDateTime.None?
    {
      this.mockDbPath := mockDbPath;
      this.parseDate := parseDate;
      this.dateText := dateText;
      setBackSeasonId := None;
      setBackDateTime := None;
    }

    /** `setBackSeasonToDate`: stores the season and the instant and reports both. */
    method SetBackSeasonToDate(seasonId: int, dateTime: Date) returns (msg: string)
      modifies this
      ensures setBackSeasonId == Some(seasonId) && setBackDateTime == Some(dateTime)
      ensures msg == SetBackMessage(seasonId, dateTime, dateText)
    {
      setBackSeasonId := Some(seasonId);
      setBackDateTime := Some(dateTime);
      msg := SetBackMessage(seasonId, dateTime, dateText);
    }

    /**
     * `manipulateSeasonJson`: for the set-back season, walks its fixtures,
     * resets each one kicking off after the stored instant and reassigns the
     * list; any other season is returned as it is.
     */
    method ManipulateSeasonJson(season: Json) returns (r: Result<Json, string>)
      ensures r == ManipulatedSeason(setBackSeasonId, setBackDateTime, season, parseDate)
    {
      var id := Prop(Some(season), "id");
      if id.Err? {
        return Err(id.error);
      }
      if !(StrictEquals(id.value, IdValue(setBackSeasonId)) && setBackDateTime.Some?) {
        return Ok(season);
      }
      var data := Path(Some(season), FIXTURES_PATH);
      if data.Err? {
        return Err(data.error);
      }
      if !IsArray(data.value) {
        return Err(TYPE_ERROR);
      }
      var list := SetBackList(data.value.value.items, setBackDateTime.value);
      if list.Err? {
        return Err(list.error);
      }
      FixturesReadable(season);
      r := Ok(WithFixtures(season, list.value));
    }

    /** The `fixtures.map` of `manipulateSeasonJson`: one fixture after the other, the first throw aborting. */
    method SetBackList(fixtures: seq<Json>, instant: Date) returns (r: Result<seq<Json>, string>)
      ensures r == SetBackFixtures(fixtures, instant, parseDate)
    {
      var list: seq<Json> := [];
      for i := 0 to |fixtures|
        invariant SetBackFixtures(fixtures[..i], instant, parseDate) == Ok(list)
      {
        assert fixtures[..i + 1][..i] == fixtures[..i];
        var start := Path(Some(fixtures[i]), KICK_OFF_PATH);
        if start.Err? {
          assert SetBackFixture(fixtures[i], instant, parseDate).Err?;
          SetBackFixturesShape(fixtures, instant, parseDate);
          PathAgreesWithOptPath(Some(fixtures[i]), KICK_OFF_PATH);
          return Err(start.error);
        }
        var fixture := fixtures[i];
        if After(NewDate(start.value, parseDate), instant) {
          KickOffReadable(fixture);
          fixture := ResetFixture(fixture);
        }
        list := list + [fixture];
      }
      assert fixtures[..|fixtures|] == fixtures;
      r := Ok(list);
    }

    /** `fetchAllContinents` is not implemented by the mock: always empty. */
    function FetchAllContinents(): (r: Result<seq<Json>, string>)
      ensures r == Ok([])
    {
      Ok([])
    }

    /** `fetchAllPlaceholders(ids)` is not implemented by the mock: empty whatever the ids. */
    function FetchAllPlaceholders(ids: seq<int>): (r: Result<seq<Json>, string>)
      ensures r == Ok([])
    {
      Ok([])
    }

    /** `fetchAvailableCountries` is not implemented by the mock: always empty. */
    function FetchAvailableCountries(): (r: Result<seq<Json>, string>)
      ensures r == Ok([])
    {
      Ok([])
    }

    /** `fetchAvailableLeagues` is not implemented by the mock: always empty. */
    function FetchAvailableLeagues(): (r: Result<seq<Json>, string>)
      ensures r == Ok([])
    {
      Ok([])
    }

    /** `fetchLive` rejects: the mock has no live feed. */
    function FetchLive(): (r: Result<seq<Json>, string>)
      ensures r.Err? && r.error == "Method not implemented."
    {
      Err("Method not implemented.")
    }
  }
}
