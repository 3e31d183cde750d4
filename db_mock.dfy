/**
 * The developer-facing service over the mocked data source: setting a season
 * back to a game's kick-off, and the fixture view of a season (team ids turned
 * into names, ordered by kick-off).
 */
module DbMock {
  import opened Wrappers
  import opened Js
  import opened Text
  import opened MockApi

  /** `1000 * 60`: including a game sets the season back one minute before its kick-off. */
  const INCLUDE_GAME_SHIFT: int := 60000

  /** The answer outside mock mode, where `${this.config.mockApi}` prints `false`. */
  const NOT_MOCK_MESSAGE: string :=
    "System is running with mockApi false, setBackSeason() is only available in fake API mode!"

  /**
   * The instant `setBackSeason` hands to the data source: `new Date(date_time)`,
   * moved back one minute by `setTime` when the game is included (NaN stays NaN).
   */
  function SetBackInstant(parse: string -> Option<int>, dateTime: string, includeGame: bool): Date {
    var date := Date(parse(dateTime));
    if includeGame then
      Date(if date.time.Some? then TimeClip(date.time.value - INCLUDE_GAME_SHIFT) else None)
    else date
  }

  /**
   * Which fixtures the set-back resets: with the game included, every fixture
   * kicking off later than one minute before the given instant, so the game
   * kicking off at the instant itself; without it, only those strictly later.
   */
  lemma SetBackInstantRules(parse: string -> Option<int>, dateTime: string, kickOff: int)
    requires parse(dateTime).Some?
    requires -MAX_TIME + INCLUDE_GAME_SHIFT <= parse(dateTime).value <= MAX_TIME
    ensures var t := parse(dateTime).value;
      (After(Date(Some(kickOff)), SetBackInstant(parse, dateTime, true)) <==> kickOff > t - INCLUDE_GAME_SHIFT)
      && (After(Date(Some(kickOff)), SetBackInstant(parse, dateTime, false)) <==> kickOff > t)
      && After(Date(Some(t)), SetBackInstant(parse, dateTime, true))
      && !After(Date(Some(t)), SetBackInstant(parse, dateTime, false))
  {
  }

  /** An unparsable date sets nothing back: no fixture is after an Invalid Date. */
  lemma InvalidInstantResetsNothing(parse: string -> Option<int>, dateTime: string, includeGame: bool, kickOff: Date)
    requires parse(dateTime).None?
    ensures !After(kickOff, SetBackInstant(parse, dateTime, includeGame))
  {
  }

  /**
   * The game kicking off at the given instant: setting the season back with
   * the game included resets it, setting it back without the game keeps it.
   */
  lemma IncludedGameIsReset(parse: string -> Option<int>, dateTime: string, fixture: Json)
    requires Path(Some(fixture), KICK_OFF_PATH) == Ok(Some(JStr(dateTime)))
    requires parse(dateTime).Some? && -MAX_TIME + INCLUDE_GAME_SHIFT <= parse(dateTime).value <= MAX_TIME
    ensures HasTime(fixture)
    ensures SetBackFixture(fixture, SetBackInstant(parse, dateTime, true), parse) == Ok(ResetFixture(fixture))
    ensures SetBackFixture(fixture, SetBackInstant(parse, dateTime, false), parse) == Ok(fixture)
  {
    KickOffReadable(fixture);
    SetBackInstantRules(parse, dateTime, parse(dateTime).value);
  }

  // ---------------------------------------------------------------------------
  // the fixture view

  /** `FixtureCleaned`: what the fixture view shows of a fixture. */
  datatype FixtureCleaned = FixtureCleaned(
    id: Option<Json>,
    dateTime: Option<Json>,
    localTeam: Option<Json>,
    visitingTeam: Option<Json>,
    localTeamScore: Option<Json>,
    visitingTeamScore: Option<Json>)

  /** The callback of `teams.find`: `team.id === fixture[key]`, where both reads may throw. */
  function TeamMatches(team: Json, fixture: Json, key: string): Result<bool, string> {
    match Prop(Some(team), "id")
    case Err(e) => Err(e)
    case Ok(teamId) =>
      match Prop(Some(fixture), key)
      case Err(e) => Err(e)
      case Ok(wanted) => Ok(StrictEquals(teamId, wanted))
  }

  /** `teams.find(team => team.id === fixture[key])`: the first matching team, or undefined. */
  function FindTeam(teams: seq<Json>, fixture: Json, key: string): Result<Option<Json>, string>
    decreases |teams|
  {
    if teams == [] then Ok(None)
    else
      match TeamMatches(teams[0], fixture, key)
      case Err(e) => Err(e)
      case Ok(found) => if found then Ok(Some(teams[0])) else FindTeam(teams[1..], fixture, key)
  }

  /** The team found is the first one whose id matches. */
  lemma {:induction false} FindTeamFindsFirst(teams: seq<Json>, fixture: Json, key: string)
    requires FindTeam(teams, fixture, key).Ok? && FindTeam(teams, fixture, key).value.Some?
    ensures exists k ::
      0 <= k < |teams| && FindTeam(teams, fixture, key).value.value == teams[k]
      && TeamMatches(teams[k], fixture, key) == Ok(true)
      && forall j :: 0 <= j < k ==> TeamMatches(teams[j], fixture, key) == Ok(false)
    decreases |teams|
  {
    var rest := teams[1..];
    if TeamMatches(teams[0], fixture, key) == Ok(false) {
      FindTeamFindsFirst(rest, fixture, key);
      var k :| 0 <= k < |rest| && FindTeam(rest, fixture, key).value.value == rest[k]
        && TeamMatches(rest[k], fixture, key) == Ok(true)
        && forall j :: 0 <= j < k ==> TeamMatches(rest[j], fixture, key) == Ok(false);
      assert teams[k + 1] == rest[k];
      forall j | 0 <= j < k + 1 ensures TeamMatches(teams[j], fixture, key) == Ok(false) {
        if j > 0 { assert teams[j] == rest[j - 1]; }
      }
    } else {
      assert TeamMatches(teams[0], fixture, key) == Ok(true);
    }
  }

  /** The lookup answers undefined exactly when every team is read and none matches. */
  lemma {:induction false} FindTeamNone(teams: seq<Json>, fixture: Json, key: string)
    ensures FindTeam(teams, fixture, key) == Ok(None) <==>
      forall j :: 0 <= j < |teams| ==> TeamMatches(teams[j], fixture, key) == Ok(false)
    decreases |teams|
  {
    if teams != [] {
      var rest := teams[1..];
      FindTeamNone(rest, fixture, key);
      if TeamMatches(teams[0], fixture, key) == Ok(false) {
        assert FindTeam(teams, fixture, key) == FindTeam(rest, fixture, key);
        if forall j :: 0 <= j < |rest| ==> TeamMatches(rest[j], fixture, key) == Ok(false) {
          forall j | 0 <= j < |teams| ensures TeamMatches(teams[j], fixture, key) == Ok(false) {
            if j > 0 { assert teams[j] == rest[j - 1]; }
          }
        } else {
          var j :| 0 <= j < |rest| && TeamMatches(rest[j], fixture, key) != Ok(false);
          assert teams[j + 1] == rest[j];
        }
      }
    }
  }

  /** The lookup throws exactly when reading a nullish team, or the nullish fixture, comes before any match. */
  lemma {:induction false} FindTeamThrows(teams: seq<Json>, fixture: Json, key: string)
    ensures FindTeam(teams, fixture, key).Err? <==>
      exists k ::
        0 <= k < |teams| && TeamMatches(teams[k], fixture, key).Err?
        && forall j :: 0 <= j < k ==> TeamMatches(teams[j], fixture, key) == Ok(false)
    decreases |teams|
  {
    if teams != [] {
      var rest := teams[1..];
      FindTeamThrows(rest, fixture, key);
      var m := TeamMatches(teams[0], fixture, key);
      if m == Ok(false) {
        assert FindTeam(teams, fixture, key) == FindTeam(rest, fixture, key);
        if FindTeam(rest, fixture, key).Err? {
          var k :| 0 <= k < |rest| && TeamMatches(rest[k], fixture, key).Err?
            && forall j :: 0 <= j < k ==> TeamMatches(rest[j], fixture, key) == Ok(false);
          assert teams[k + 1] == rest[k];
          forall j | 0 <= j < k + 1 ensures TeamMatches(teams[j], fixture, key) == Ok(false) {
            if j > 0 { assert teams[j] == rest[j - 1]; }
          }
        } else {
          forall k | 0 <= k < |teams| && TeamMatches(teams[k], fixture, key).Err?
            ensures exists j :: 0 <= j < k && TeamMatches(teams[j], fixture, key) != Ok(false)
          {
            assert k > 0 && teams[k] == rest[k - 1];
            var j :| 0 <= j < k - 1 && TeamMatches(rest[j], fixture, key) != Ok(false);
            assert teams[j + 1] == rest[j];
          }
        }
      } else if m.Err? {
        assert TeamMatches(teams[0], fixture, key).Err?;
      } else {
        forall k | 0 <= k < |teams| && TeamMatches(teams[k], fixture, key).Err?
          ensures exists j :: 0 <= j < k && TeamMatches(teams[j], fixture, key) != Ok(false)
        {
          assert TeamMatches(teams[0], fixture, key) != Ok(false);
        }
      }
    }
  }

  /** The callback of the fixture view's `map`: team names looked up, id, kick-off and scores copied. */
  function CleanFixture(fixture: Json, teams: seq<Json>): Result<FixtureCleaned, string> {
    match FindTeam(teams, fixture, "localteam_id")
    case Err(e) => Err(e)
    case Ok(local) =>
      match FindTeam(teams, fixture, "visitorteam_id")
      case Err(e) => Err(e)
      case Ok(visitor) =>
        match Path(Some(fixture), ["scores", "localteam_score"])
        case Err(e) => Err(e)
        case Ok(localScore) =>
          match Path(Some(fixture), ["scores", "visitorteam_score"])
          case Err(e) => Err(e)
          case Ok(visitorScore) =>
            match Prop(Some(fixture), "id")
            case Err(e) => Err(e)
            case Ok(id) =>
              match Path(Some(fixture), KICK_OFF_PATH)
              case Err(e) => Err(e)
              case Ok(dateTime) =>
                Ok(FixtureCleaned(id, dateTime, Get(local, "name"), Get(visitor, "name"), localScore, visitorScore))
  }

  /** What a cleaned fixture holds, and when cleaning throws. */
  lemma CleanFixtureRules(fixture: Json, teams: seq<Json>)
    ensures var r := CleanFixture(fixture, teams);
      (r.Ok? <==>
         FindTeam(teams, fixture, "localteam_id").Ok? && FindTeam(teams, fixture, "visitorteam_id").Ok?
         && fixture.JObj? && !Nullish(Get(Some(fixture), "scores"))
         && Path(Some(fixture), KICK_OFF_PATH).Ok?)
      && (r.Ok? ==>
            r.value.id == Get(Some(fixture), "id")
            && r.value.dateTime == OptPath(Some(fixture), KICK_OFF_PATH)
            && r.value.localTeam == Get(FindTeam(teams, fixture, "localteam_id").value, "name")
            && r.value.visitingTeam == Get(FindTeam(teams, fixture, "visitorteam_id").value, "name")
            && r.value.localTeamScore == Get(Get(Some(fixture), "scores"), "localteam_score")
            && r.value.visitingTeamScore == Get(Get(Some(fixture), "scores"), "visitorteam_score"))
  {
    PathAgreesWithOptPath(Some(fixture), KICK_OFF_PATH);
    var scores := Get(Some(fixture), "scores");
    if !fixture.JNull? {
      assert Path(Some(fixture), ["scores", "localteam_score"]) == Path(scores, ["localteam_score"]);
      assert Path(scores, ["localteam_score"]) == Prop(scores, "localteam_score");
      assert Path(Some(fixture), ["scores", "visitorteam_score"]) == Path(scores, ["visitorteam_score"]);
      assert Path(scores, ["visitorteam_score"]) == Prop(scores, "visitorteam_score");
      if !fixture.JObj? {
        assert Nullish(scores);
      }
    }
    if Path(Some(fixture), KICK_OFF_PATH).Ok? {
      KickOffReadable(fixture);
    }
  }

  /** The `map` of the fixture view: one entry per fixture, in order; the first throw aborts. */
  function CleanFixtures(fixtures: seq<Json>, teams: seq<Json>): Result<seq<FixtureCleaned>, string> {
    MapOrThrow(fixtures, f => CleanFixture(f, teams))
  }

  /** The map succeeds iff every fixture cleans; it then holds exactly one entry per fixture, in order. */
  lemma CleanFixturesShape(fixtures: seq<Json>, teams: seq<Json>)
    ensures var r := CleanFixtures(fixtures, teams);
      (r.Ok? <==> forall i :: 0 <= i < |fixtures| ==> CleanFixture(fixtures[i], teams).Ok?)
      && (r.Ok? ==>
            |r.value| == |fixtures|
            && forall i :: 0 <= i < |fixtures| ==> r.value[i] == CleanFixture(fixtures[i], teams).value)
  {
    MapOrThrowShape(fixtures, f => CleanFixture(f, teams));
  }

  // ---------------------------------------------------------------------------
  // ordering by kick-off

  /** The declared type of a kick-off: `date_time` is a string. */
  predicate HasDateString(c: FixtureCleaned) {
    c.dateTime.Some? && c.dateTime.value.JStr?
  }

  /** The `date_time` string an entry is ordered by. */
  function DateKey(c: FixtureCleaned): string
    requires HasDateString(c)
  {
    c.dateTime.value.s
  }

  /** Non-decreasing by `date_time`, as the comparator `a.date_time > b.date_time ? 1 : -1` orders strings. */
  predicate SortedByDate(s: seq<FixtureCleaned>)
    requires forall i :: 0 <= i < |s| ==> HasDateString(s[i])
  {
    forall i, j :: 0 <= i < j < |s| ==> LexLeq(DateKey(s[i]), DateKey(s[j]))
  }

  /** Places `x` before the first entry that does not kick off earlier. */
  function InsertByDate(x: FixtureCleaned, s: seq<FixtureCleaned>): (r: seq<FixtureCleaned>)
    requires HasDateString(x) && forall i :: 0 <= i < |s| ==> HasDateString(s[i])
    ensures |r| == |s| + 1 && multiset(r) == multiset(s) + multiset{x}
    ensures forall i :: 0 <= i < |r| ==> HasDateString(r[i])
  {
    if s == [] || LexLeq(DateKey(x), DateKey(s[0])) then [x] + s
    else
      var rest := InsertByDate(x, s[1..]);
      assert s == [s[0]] + s[1..];
      [s[0]] + rest
  }

  lemma {:induction false} InsertByDateSorted(x: FixtureCleaned, s: seq<FixtureCleaned>)
    requires HasDateString(x) && forall i :: 0 <= i < |s| ==> HasDateString(s[i])
    requires SortedByDate(s)
    ensures SortedByDate(InsertByDate(x, s))
  {
    var r := InsertByDate(x, s);
    if s == [] || LexLeq(DateKey(x), DateKey(s[0])) {
      forall i, j | 0 <= i < j < |r| ensures LexLeq(DateKey(r[i]), DateKey(r[j])) {
        if i == 0 && j > 1 {
          LexLeqTransitive(DateKey(x), DateKey(s[0]), DateKey(s[j - 1]));
        }
      }
    } else {
      var tail := s[1..];
      InsertByDateSorted(x, tail);
      var rest := InsertByDate(x, tail);
      LexLeqTotal(DateKey(x), DateKey(s[0]));
      forall i, j | 0 <= i < j < |r| ensures LexLeq(DateKey(r[i]), DateKey(r[j])) {
        if i == 0 {
          assert r[j] == rest[j - 1];
          assert r[j] in multiset(rest);
          assert r[j] == x || r[j] in multiset(tail);
          if r[j] != x {
            var k :| 0 <= k < |tail| && tail[k] == r[j];
            assert s[k + 1] == r[j];
          }
        }
      }
    }
  }

  /** The ordering of the fixture view: an insertion sort by `date_time`. */
  function SortByDate(s: seq<FixtureCleaned>): (r: seq<FixtureCleaned>)
    requires forall i :: 0 <= i < |s| ==> HasDateString(s[i])
    ensures |r| == |s| && multiset(r) == multiset(s)
    ensures forall i :: 0 <= i < |r| ==> HasDateString(r[i])
    decreases |s|
  {
    if s == [] then []
    else
      assert s == s[..|s| - 1] + [s[|s| - 1]];
      InsertByDate(s[|s| - 1], SortByDate(s[..|s| - 1]))
  }

  lemma {:induction false} SortByDateSorted(s: seq<FixtureCleaned>)
    requires forall i :: 0 <= i < |s| ==> HasDateString(s[i])
    ensures SortedByDate(SortByDate(s))
    decreases |s|
  {
    if s != [] {
      SortByDateSorted(s[..|s| - 1]);
      InsertByDateSorted(s[|s| - 1], SortByDate(s[..|s| - 1]));
    }
  }

  /** The declared type of a fixture: its kick-off, when it can be read, is a string. */
  predicate KickOffIsString(fixture: Json) {
    var start := Path(Some(fixture), KICK_OFF_PATH);
    start.Ok? ==> start.value.Some? && start.value.value.JStr?
  }

  /**
   * `transformFixtureData(fixtures, teams)`: every fixture cleaned, then the
   * list ordered by `date_time`. Every `date_time` that can be read is a
   * string, as the declared type of a fixture says.
   */
  function TransformFixtureData(fixtures: seq<Json>, teams: seq<Json>): Result<seq<FixtureCleaned>, string>
    requires forall i :: 0 <= i < |fixtures| ==>
      KickOffIsString(fixtures[i])
  {
    match CleanFixtures(fixtures, teams)
    case Err(e) => Err(e)
    case Ok(cleaned) =>
      CleanedHaveDates(fixtures, teams);
      Ok(SortByDate(cleaned))
  }

  lemma CleanedHaveDates(fixtures: seq<Json>, teams: seq<Json>)
    requires forall i :: 0 <= i < |fixtures| ==>
      KickOffIsString(fixtures[i])
    requires CleanFixtures(fixtures, teams).Ok?
    ensures var cleaned := CleanFixtures(fixtures, teams).value;
      forall i :: 0 <= i < |cleaned| ==> HasDateString(cleaned[i])
  {
    CleanFixturesShape(fixtures, teams);
    forall i | 0 <= i < |fixtures|
      ensures HasDateString(CleanFixtures(fixtures, teams).value[i])
    {
      CleanFixtureRules(fixtures[i], teams);
      PathAgreesWithOptPath(Some(fixtures[i]), KICK_OFF_PATH);
    }
  }

  /**
   * The fixture view holds exactly the cleaned fixtures, one per fixture,
   * ordered non-decreasingly by `date_time`; it fails iff some fixture fails
   * to clean.
   */
  lemma TransformFixtureDataRules(fixtures: seq<Json>, teams: seq<Json>)
    requires forall i :: 0 <= i < |fixtures| ==>
      KickOffIsString(fixtures[i])
    ensures var r := TransformFixtureData(fixtures, teams);
      (r.Ok? <==> forall i :: 0 <= i < |fixtures| ==> CleanFixture(fixtures[i], teams).Ok?)
      && (r.Ok? ==>
            |r.value| == |fixtures|
            && multiset(r.value) == multiset(seq(|fixtures|, i requires 0 <= i < |fixtures| =>
                                                   CleanFixture(fixtures[i], teams).value))
            && (forall i :: 0 <= i < |r.value| ==> HasDateString(r.value[i]))
            && SortedByDate(r.value))
  {
    CleanFixturesShape(fixtures, teams);
    var c := CleanFixtures(fixtures, teams);
    if c.Ok? {
      CleanedHaveDates(fixtures, teams);
      SortByDateSorted(c.value);
      assert c.value == seq(|fixtures|, i requires 0 <= i < |fixtures| => CleanFixture(fixtures[i], teams).value);
    }
  }

  // ---------------------------------------------------------------------------
  // the service

  /** `DbMockService`: the data-source mode and the mocked data source. */
  class DbMockService {
    /** `config.mockApi`. */
    const mockApi: bool
    /** The data source, which is the mock whenever `mockApi` holds. */
    const api: MockSportMonksApi

    constructor(mockApi: bool, api: MockSportMonksApi)
      ensures this.mockApi == mockApi && this.api == api
    {
      this.mockApi := mockApi;
      this.api := api;
    }

    /**
     * `setBackSeason`: in mock mode, sets the data source back to the given
     * kick-off, one minute earlier when the game is included; otherwise the
     * data source is not touched and a fixed message is answered.
     */
    method SetBackSeason(seasonId: int, dateTime: string, includeGame: bool) returns (msg: string)
      modifies api
      ensures mockApi ==>
        api.setBackSeasonId == Some(seasonId)
        && api.setBackDateTime == Some(SetBackInstant(api.parseDate, dateTime, includeGame))
        && msg == SetBackMessage(seasonId, SetBackInstant(api.parseDate, dateTime, includeGame), api.dateText)
      ensures !mockApi ==> unchanged(api) && msg == NOT_MOCK_MESSAGE
    {
      if mockApi {
        var date := Date(api.parseDate(dateTime));
        if includeGame {
          var newDate := Date(if date.time.Some? then TimeClip(date.time.value - INCLUDE_GAME_SHIFT) else None);
          msg := api.SetBackSeasonToDate(seasonId, newDate);
        } else {
          msg := api.SetBackSeasonToDate(seasonId, date);
        }
        return;
      }
      msg := NOT_MOCK_MESSAGE;
    }
  }
}
