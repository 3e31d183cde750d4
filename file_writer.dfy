/**
 * JSON snapshots of crawled seasons and standings for the mocked data
 * source. Writing a file is recorded as an event; whether the write
 * succeeds is an input.
 */
module FileWriting {
  import opened Wrappers
  import opened Js
  import opened Effects

  /** The directory of a season's snapshots: `<mockDbPath>/<id>/`. */
  function SeasonDir(mockDbPath: string, id: Option<Json>): (r: string)
    ensures |r| > |mockDbPath| + 1 && r[..|mockDbPath|] == mockDbPath && r[|r| - 1] == '/'
  {
    mockDbPath + "/" + ToJsString(id) + "/"
  }

  /** `!season || !season.league`: nothing is written for such a season. */
  predicate SkipsSeason(season: Option<Json>) {
    !Truthy(season) || !Truthy(Get(season, "league"))
  }

  /** The writes of `createSeasonJsons`: the season as `<id>.json`, then the teams as `teams.json`. */
  function SeasonJsonWrites(mockDbPath: string, season: Option<Json>, teams: Option<Json>): (t: seq<Event>)
    ensures SkipsSeason(season) ==> t == []
    ensures !SkipsSeason(season) ==>
      var dir := SeasonDir(mockDbPath, Get(season, "id"));
      |t| == 2
      && t[0] == WriteJson(dir + ToJsString(Get(season, "id")) + ".json", season)
      && t[1] == WriteJson(dir + "teams.json", teams)
  {
    if SkipsSeason(season) then []
    else
      var id := Get(season, "id");
      var dir := SeasonDir(mockDbPath, id);
      [WriteJson(dir + ToJsString(id) + ".json", season), WriteJson(dir + "teams.json", teams)]
  }

  /**
   * Both snapshot files of a season lie in the directory `createSeasonJsons`
   * returns, and they are two different files unless the id reads "teams".
   */
  lemma SeasonFilesInReturnedDir(mockDbPath: string, season: Option<Json>, teams: Option<Json>)
    requires !SkipsSeason(season)
    ensures forall i :: 0 <= i < |SeasonJsonWrites(mockDbPath, season, teams)| ==>
      var path := SeasonJsonWrites(mockDbPath, season, teams)[i].path;
      var dir := SeasonDir(mockDbPath, Get(season, "id"));
      |dir| < |path| && path[..|dir|] == dir
    ensures ToJsString(Get(season, "id")) != "teams" ==>
      SeasonJsonWrites(mockDbPath, season, teams)[0].path != SeasonJsonWrites(mockDbPath, season, teams)[1].path
  {
    var dir := SeasonDir(mockDbPath, Get(season, "id"));
    var id := ToJsString(Get(season, "id"));
    assert (dir + id + ".json")[..|dir|] == dir;
    assert (dir + "teams.json")[..|dir|] == dir;
    if id != "teams" {
      assert (dir + id + ".json")[|dir|..] == id + ".json";
      assert (dir + "teams.json")[|dir|..] == "teams.json";
      assert (id + ".json")[..|id|] == id;
    }
  }

  class FileWriter {
    const rt: Runtime
    const mockDbPath: string

    constructor(rt: Runtime, mockDbPath: string)
      ensures this.rt == rt && this.mockDbPath == mockDbPath
    {
      this.rt := rt;
      this.mockDbPath := mockDbPath;
    }

    /** `writeJsonFile(filename, data)`: true when the write succeeds, false when it fails; it never rejects. */
    method WriteJsonFile(filename: string, data: Option<Json>, succeeds: bool) returns (written: bool)
      modifies rt
      ensures written == succeeds
      ensures rt.trace == old(rt.trace) + [WriteJson(filename, data)]
    {
      rt.Emit(WriteJson(filename, data));
      written := succeeds;
    }

    /**
     * `createSeasonJsons(season, teams)`: the directory the two files are
     * written to, or undefined without a season or its league. The writes
     * are not awaited, so their outcomes do not change the result.
     */
    method CreateSeasonJsons(season: Option<Json>, teams: Option<Json>, outcomes: (bool, bool)) returns (path: Option<string>)
      modifies rt
      ensures path.None? <==> SkipsSeason(season)
      ensures path.Some? ==> path.value == SeasonDir(mockDbPath, Get(season, "id"))
      ensures rt.trace == old(rt.trace) + SeasonJsonWrites(mockDbPath, season, teams)
    {
      if !Truthy(season) || !Truthy(Get(season, "league")) {
        return None;
      }
      var outputPath := SeasonDir(mockDbPath, Get(season, "id"));
      var _ := WriteJsonFile(outputPath + ToJsString(Get(season, "id")) + ".json", season, outcomes.0);
      var _ := WriteJsonFile(outputPath + "teams.json", teams, outcomes.1);
      path := Some(outputPath);
    }

    /** `createStandingsJson(seasonId, standings)`: one file, `<mockDbPath>/<seasonId>/standing.json`. */
    method CreateStandingsJson(seasonId: Option<Json>, standings: Option<Json>, succeeds: bool)
      modifies rt
      ensures rt.trace == old(rt.trace) + [WriteJson(SeasonDir(mockDbPath, seasonId) + "standing.json", standings)]
    {
      var _ := WriteJsonFile(SeasonDir(mockDbPath, seasonId) + "standing.json", standings, succeeds);
    }
  }
}
