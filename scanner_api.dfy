/**
 * The change-detection cache: for each entity identifier the last hash
 * written to the scanner log. It is refilled from the database before every
 * update, and a new payload is compared with it by hashing the payload's
 * serialisation. `JSON.stringify` and SHA-256 are the abstract functions
 * `stringify` and `hasher`; nothing is assumed about them.
 */
module Scanner {
  import opened Wrappers
  import opened Text
  import opened Js
  import opened TemplateEngine
  import opened Effects

  const SCANNER_VERSION := "0.3.0"

  /** The text of the `log` member of every entry the scanner creates. */
  const SCANNER_LOG_TEXT := "automatic update from scanner " + SCANNER_VERSION

  /** The query that reads the newest hash of every identifier. */
  const SCANNER_LOG_QUERY :=
    "select distinct on (identifier) identifier, type, hash, created_at from app_public.scanner_log order by identifier, created_at desc"

  /** A cached scanner-log entry. */
  datatype ScannerLog = ScannerLog(logType: string, id: string, hash: string)

  function LogOf(row: LogRow): ScannerLog {
    ScannerLog(row.rowType, row.identifier, row.hash)
  }

  /** The cache after setting the rows one by one into an empty map. */
  function CacheOf(rows: seq<LogRow>): map<string, ScannerLog>
  {
    if rows == [] then map[]
    else
      var row := rows[|rows| - 1];
      CacheOf(rows[..|rows| - 1])[row.identifier := LogOf(row)]
  }

  /** The refilled cache has one entry per identifier found in the rows. */
  lemma {:induction false} CacheOfKeys(rows: seq<LogRow>)
    ensures forall id :: id in CacheOf(rows) <==> exists j :: 0 <= j < |rows| && rows[j].identifier == id
    decreases |rows|
  {
    if rows != [] {
      var init := rows[..|rows| - 1];
      var row := rows[|rows| - 1];
      CacheOfKeys(init);
      forall id | id in CacheOf(rows)
        ensures exists j :: 0 <= j < |rows| && rows[j].identifier == id
      {
        if id != row.identifier {
          assert id in CacheOf(init);
          var j :| 0 <= j < |init| && init[j].identifier == id;
          assert rows[j] == init[j];
        }
      }
      forall id | exists j :: 0 <= j < |rows| && rows[j].identifier == id
        ensures id in CacheOf(rows)
      {
        var j :| 0 <= j < |rows| && rows[j].identifier == id;
        if j < |init| {
          assert init[j] == rows[j];
        }
      }
    }
  }

  /** Each entry of the refilled cache comes from the last row with its identifier. */
  lemma {:induction false} CacheOfLastRow(rows: seq<LogRow>)
    ensures forall id :: id in CacheOf(rows) ==>
      exists j :: 0 <= j < |rows| && rows[j].identifier == id && CacheOf(rows)[id] == LogOf(rows[j])
        && forall k :: j < k < |rows| ==> rows[k].identifier != id
    decreases |rows|
  {
    if rows != [] {
      var init := rows[..|rows| - 1];
      var row := rows[|rows| - 1];
      CacheOfLastRow(init);
      forall id | id in CacheOf(rows)
        ensures exists j :: 0 <= j < |rows| && rows[j].identifier == id && CacheOf(rows)[id] == LogOf(rows[j])
                             && forall k :: j < k < |rows| ==> rows[k].identifier != id
      {
        if id == row.identifier {
          assert rows[|rows| - 1].identifier == id;
        } else {
          assert id in CacheOf(init) && CacheOf(rows)[id] == CacheOf(init)[id];
          var j :| 0 <= j < |init| && init[j].identifier == id && CacheOf(init)[id] == LogOf(init[j])
            && forall k :: j < k < |init| ==> init[k].identifier != id;
          assert rows[j] == init[j];
          forall k | j < k < |rows| ensures rows[k].identifier != id {
            if k < |init| {
              assert rows[k] == init[k];
            }
          }
        }
      }
    }
  }

  /** The cache after a reload in which a connection could be taken: empty when the query fails. */
  function ReloadedCache(env: DbEnv): map<string, ScannerLog> {
    match env.logRows
    case None => map[]
    case Some(rows) => CacheOf(rows)
  }

  /** The record of a reload: nothing when no connection can be taken. */
  function ReloadEvents(env: DbEnv): (t: seq<Event>)
    ensures Balanced(t)
  {
    if !env.connectOk then []
    else
      var t := [Connect, Query(SCANNER_LOG_QUERY, env.logRows.Some?), Release];
      OneQueryBalanced(SCANNER_LOG_QUERY, env.logRows.Some?, []);
      assert t == [Connect, Query(SCANNER_LOG_QUERY, env.logRows.Some?)] + [] + [Release];
      t
  }

  /** `JSON.stringify(data).replace(/'/g, "''")`; serialising undefined gives undefined, whose `replace` throws. */
  function QuotedJson(stringify: Json -> string, data: Option<Json>): (r: Result<string, string>)
    ensures r.Err? <==> data.None?
    ensures r.Err? ==> r.error == TYPE_ERROR
    ensures r.Ok? ==> UndoubleQuotes(r.value) == stringify(data.value)
  {
    match data
    case None => Err(TYPE_ERROR)
    case Some(d) =>
      UndoubleDoubledQuotes(stringify(d));
      Ok(ReplaceAll(stringify(d), '\'', "''"))
  }

  /** The hash cached for `id`, if any. */
  function CachedHash(cache: map<string, ScannerLog>, id: Option<string>): (r: Option<string>)
    ensures r.Some? <==> id.Some? && id.value in cache
    ensures r.Some? ==> r.value == cache[id.value].hash
  {
    if id.Some? && id.value in cache then Some(cache[id.value].hash) else None
  }

  /**
   * `createLogEntry` against a cache: the quoted serialisation, its hash,
   * and whether that hash is the cached one for `id`. Type and id are passed
   * through.
   */
  function MakeLogEntry(stringify: Json -> string, hasher: string -> string, cache: map<string, ScannerLog>,
                        logType: LogType, data: Option<Json>, id: Option<string>): (r: Result<ScannerLogEntry, string>)
    ensures r.Err? <==> data.None?
    ensures r.Ok? ==>
      var e := r.value;
      e.logType == logType && e.id == id && e.log == Some(SCANNER_LOG_TEXT)
      && e.json.Some? && UndoubleQuotes(e.json.value) == stringify(data.value)
      && e.hash == hasher(e.json.value)
      && e.isSameAsPrevious.Some?
      && (e.isSameAsPrevious == Some(true) <==> id.Some? && id.value in cache && cache[id.value].hash == e.hash)
  {
    match QuotedJson(stringify, data)
    case Err(err) => Err(err)
    case Ok(json) =>
      var hash := hasher(json);
      Ok(ScannerLogEntry(logType, hash, id, Some(SCANNER_LOG_TEXT), Some(json), Some(CachedHash(cache, id) == Some(hash))))
  }

  class ScannerApi {
    var cache: map<string, ScannerLog>
    const rt: Runtime
    const stringify: Json -> string
    const hasher: string -> string

    constructor(rt: Runtime, stringify: Json -> string, hasher: string -> string)
      ensures cache == map[]
      ensures this.rt == rt && this.stringify == stringify && this.hasher == hasher
    {
      cache := map[];
      this.rt := rt;
      this.stringify := stringify;
      this.hasher := hasher;
    }

    /** `getFromCache`: absent keys give undefined. */
    function GetFromCache(key: string): (r: Option<ScannerLog>)
      reads this
      ensures r.Some? <==> key in cache
      ensures r.Some? ==> r.value == cache[key]
    {
      if key in cache then Some(cache[key]) else None
    }

    /** `getHashFromCache`: the cached hash, or undefined for an absent (or undefined) key. */
    function GetHashFromCache(key: Option<string>): (r: Option<string>)
      reads this
      ensures r == CachedHash(cache, key)
    {
      if key.Some? then
        match GetFromCache(key.value)
        case None => None
        case Some(entry) => Some(entry.hash)
      else None
    }

    /** `reset`: empties the cache. */
    method Reset()
      modifies this
      ensures cache == map[]
    {
      cache := map[];
    }

    /**
     * `fetchCurrentHashesFromDatabase`. When no connection can be taken the
     * call rejects and nothing changes. Otherwise the cache is cleared, the
     * query's rows are set one by one, and the connection is given back
     * whether the query succeeds or not; a failed query is swallowed and
     * leaves the cache empty.
     */
    method FetchCurrentHashesFromDatabase(env: DbEnv) returns (r: Result<(), string>)
      modifies this, rt
      ensures r == if env.connectOk then Ok(()) else Err(CONNECT_ERROR)
      ensures !env.connectOk ==> cache == old(cache)
      ensures env.connectOk ==> cache == ReloadedCache(env)
      ensures rt.trace == old(rt.trace) + ReloadEvents(env)
    {
      if !env.connectOk {
        return Err(CONNECT_ERROR);
      }
      rt.Emit(Connect);
      cache := map[];
      match env.logRows {
        case None =>
          rt.Emit(Query(SCANNER_LOG_QUERY, false));
        case Some(rows) =>
          rt.Emit(Query(SCANNER_LOG_QUERY, true));
          ghost var trace := rt.trace;
          var i := 0;
          while i < |rows|
            invariant 0 <= i <= |rows|
            invariant rt.trace == trace
            invariant cache == CacheOf(rows[..i])
          {
            assert rows[..i + 1][..i] == rows[..i];
            cache := cache[rows[i].identifier := LogOf(rows[i])];
            i := i + 1;
          }
          assert rows[..i] == rows;
      }
      rt.Emit(Release);
      r := Ok(());
    }

    /** `createLogEntry`, on the current cache. */
    function CreateLogEntry(logType: LogType, data: Option<Json>, id: Option<string>): (r: Result<ScannerLogEntry, string>)
      reads this
      ensures r == MakeLogEntry(stringify, hasher, cache, logType, data, id)
    {
      MakeLogEntry(stringify, hasher, cache, logType, data, id)
    }

    /** An identifier the cache has never seen is never the same as before. */
    lemma AbsentIsNew(logType: LogType, data: Json, id: Option<string>)
      requires id.None? || id.value !in cache
      ensures CreateLogEntry(logType, Some(data), id).Ok?
      ensures CreateLogEntry(logType, Some(data), id).value.isSameAsPrevious == Some(false)
    {
    }
  }
}
