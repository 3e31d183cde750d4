/**
 * The filters the SQL templates use: `esc` for quoting, `ifNil` for
 * defaults, and the provider-value transformers under their filter names.
 */
module NunjucksEnv {
  import opened Wrappers
  import opened Text
  import opened Js
  import opened Transformers

  /**
   * `esc`: `str.replace("'", "''")`. With a string pattern only the first
   * quote is doubled; anything but a string has no `replace` and throws.
   */
  function Esc(str: Option<Json>): (r: Result<string, string>)
    ensures r.Err? <==> !(str.Some? && str.value.JStr?)
    ensures r.Err? ==> r.error == TYPE_ERROR
    ensures r.Ok? && '\'' !in str.value.s ==> r.value == str.value.s
    ensures r.Ok? && '\'' in str.value.s ==> |r.value| == |str.value.s| + 1
  {
    if str.Some? && str.value.JStr? then Ok(ReplaceFirst(str.value.s, '\'', "''")) else Err(TYPE_ERROR)
  }

  /** Only the first quote is doubled: "it's Bob's" becomes "it''s Bob's", not "it''s Bob''s". */
  lemma EscDoublesOnlyFirstQuote(a: string, b: string)
    requires '\'' !in a
    ensures Esc(Some(JStr(a + "'" + b))) == Ok(a + "''" + b)
  {
    var s := a + "'" + b;
    assert s[|a|] == '\'';
    assert s[..|a|] == a;
    assert IndexOf(s, '\'') == Some(|a|);
    assert s[|a| + 1..] == b;
  }

  /** The default a missing `ifNil` argument takes. */
  const NIL_DEFAULT: Json := JStr("NULL")

  /** `ifNil(item, defaults = 'NULL')`: the default for null and undefined, the item itself otherwise. */
  function IfNil(item: Option<Json>, defaults: Option<Json>): (r: Option<Json>)
    ensures Nullish(item) && defaults.Some? ==> r == defaults
    ensures Nullish(item) && defaults.None? ==> r == Some(NIL_DEFAULT)
    ensures !Nullish(item) ==> r == item
  {
    if Nullish(item) then (if defaults.None? then Some(NIL_DEFAULT) else defaults) else item
  }

  /** Falsy values that are not nil are kept: 0, "" and false are not replaced. */
  lemma IfNilKeepsFalsy(defaults: Option<Json>)
    ensures IfNil(Some(JNum(0)), defaults) == Some(JNum(0))
    ensures IfNil(Some(JStr("")), defaults) == Some(JStr(""))
    ensures IfNil(Some(JBool(false)), defaults) == Some(JBool(false))
    ensures !Truthy(Some(JNum(0))) && !Truthy(Some(JStr(""))) && !Truthy(Some(JBool(false)))
  {
  }

  /** The filters the environment registers. */
  datatype Filter = EscFilter | StatusFilter | StageTypeFilter | LeagueTypeFilter | HomeFilter | AwayFilter | IfNilFilter

  function FilterName(f: Filter): string {
    match f
    case EscFilter => "esc"
    case StatusFilter => "status"
    case StageTypeFilter => "stageType"
    case LeagueTypeFilter => "leagueType"
    case HomeFilter => "home"
    case AwayFilter => "away"
    case IfNilFilter => "ifNil"
  }

  /** The filter a template name refers to, or None for a name that is not registered. */
  function FilterNamed(name: string): (r: Option<Filter>)
    ensures r.Some? ==> FilterName(r.value) == name
  {
    match name
    case "esc" => Some(EscFilter)
    case "status" => Some(StatusFilter)
    case "stageType" => Some(StageTypeFilter)
    case "leagueType" => Some(LeagueTypeFilter)
    case "home" => Some(HomeFilter)
    case "away" => Some(AwayFilter)
    case "ifNil" => Some(IfNilFilter)
    case _ => None
  }

  /** Every filter is found under its own name, so no two filters share a name. */
  lemma FilterNamesDistinct(f: Filter, g: Filter)
    ensures FilterNamed(FilterName(f)) == Some(f)
    ensures FilterName(f) == FilterName(g) ==> f == g
  {
  }

  /**
   * A one-argument filter applied to a string, with the value the bound
   * transformer gives: the canonical status name, the stage type, the league
   * type, or the home or away score (null when the score does not match).
   */
  function ApplyToString(f: Filter, s: string): (r: Result<Json, string>)
    ensures f == StatusFilter ==> (r.Ok? <==> TransformStatus(s).Ok?)
    ensures f == StatusFilter && r.Ok? ==> r.value == JStr(StatusName(TransformStatus(s).value))
    ensures f == StageTypeFilter ==> r == Ok(JStr(TransformStageType(s)))
    ensures f == LeagueTypeFilter ==> r == Ok(JStr(TransformLeagueType(s)))
    ensures f == HomeFilter ==> r == Ok(if ExtractHome(s).Some? then JNum(ExtractHome(s).value) else JNull)
    ensures f == AwayFilter ==> r == Ok(if ExtractAway(s).Some? then JNum(ExtractAway(s).value) else JNull)
    ensures f == EscFilter ==> r == Ok(JStr(ReplaceFirst(s, '\'', "''")))
    ensures f == IfNilFilter ==> r == Ok(JStr(s))
  {
    match f
    case EscFilter => Ok(JStr(Esc(Some(JStr(s))).value))
    case StatusFilter =>
      (match TransformStatus(s)
       case Ok(st) => Ok(JStr(StatusName(st)))
       case Err(e) => Err(e))
    case StageTypeFilter => Ok(JStr(TransformStageType(s)))
    case LeagueTypeFilter => Ok(JStr(TransformLeagueType(s)))
    case HomeFilter => Ok(match ExtractHome(s) case Some(h) => JNum(h) case None => JNull)
    case AwayFilter => Ok(match ExtractAway(s) case Some(a) => JNum(a) case None => JNull)
    case IfNilFilter => Ok(IfNil(Some(JStr(s)), None).value)
  }
}
