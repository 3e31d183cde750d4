/**
 * The common settings read from the environment: the HTTP port and the
 * enabled log levels.
 */
module CommonConfiguration {
  import opened Wrappers
  import opened Text
  import opened Js

  /** Every log level, in the order of the default. */
  const LOG_LEVELS: seq<string> := ["log", "error", "warn", "debug", "verbose"]

  const DEFAULT_PORT := 3000

  /** One token of `LOG_LEVEL`, lower-cased, then trimmed. */
  function NormalizeLevel(token: string): string {
    Trim(ToLower(token))
  }

  /** The normalised tokens that are among `names`, in order and with repetitions. */
  function KeepNames(normalize: string -> string, names: seq<string>, tokens: seq<string>): (r: seq<string>)
    ensures |r| <= |tokens|
    ensures forall i :: 0 <= i < |r| ==> r[i] in names
  {
    if tokens == [] then []
    else
      var t := normalize(tokens[0]);
      (if t in names then [t] else []) + KeepNames(normalize, names, tokens[1..])
  }

  /** Tokens that are names already in normal form pass through unchanged. */
  lemma {:induction false} KeepNamesOfNames(normalize: string -> string, names: seq<string>, tokens: seq<string>)
    requires forall i :: 0 <= i < |tokens| ==> tokens[i] in names && normalize(tokens[i]) == tokens[i]
    ensures KeepNames(normalize, names, tokens) == tokens
    decreases |tokens|
  {
    if tokens != [] {
      KeepNamesOfNames(normalize, names, tokens[1..]);
      assert [tokens[0]] + tokens[1..] == tokens;
    }
  }

  /** The normalised tokens that name a log level. */
  function KeepLevels(tokens: seq<string>): (r: seq<string>)
    ensures |r| <= |tokens|
    ensures forall i :: 0 <= i < |r| ==> r[i] in LOG_LEVELS
  {
    KeepNames(NormalizeLevel, LOG_LEVELS, tokens)
  }

  /**
   * `extractLogLevel(value)`: the levels named in the comma-separated list;
   * all five when the value is undefined or names none.
   */
  function ExtractLogLevel(value: Option<string>): (r: seq<string>)
    ensures |r| > 0
    ensures forall i :: 0 <= i < |r| ==> r[i] in LOG_LEVELS
    ensures value.None? ==> r == LOG_LEVELS
    ensures value.Some? && KeepLevels(Split(value.value, ',')) != [] ==> r == KeepLevels(Split(value.value, ','))
    ensures value.Some? && KeepLevels(Split(value.value, ',')) == [] ==> r == LOG_LEVELS
  {
    if value.None? then LOG_LEVELS
    else
      var levels := KeepLevels(Split(value.value, ','));
      if levels == [] then LOG_LEVELS else levels
  }

  /** A level name is already normalised. */
  lemma LevelIsNormal(level: string)
    requires level in LOG_LEVELS
    ensures NormalizeLevel(level) == level
  {
    assert ToLower(level) == level;
    assert level[0] != ' ' && !IsWhiteSpace(level[0]) && !IsWhiteSpace(level[|level| - 1]);
  }

  lemma LevelHasNoComma(level: string)
    requires level in LOG_LEVELS
    ensures ',' !in level
  {
    assert level == "log" || level == "error" || level == "warn" || level == "debug" || level == "verbose";
  }

  /** Levels that are all names pass through unchanged. */
  lemma KeepLevelsOfLevels(levels: seq<string>)
    requires forall i :: 0 <= i < |levels| ==> levels[i] in LOG_LEVELS
    ensures KeepLevels(levels) == levels
  {
    forall i | 0 <= i < |levels| ensures NormalizeLevel(levels[i]) == levels[i] {
      LevelIsNormal(levels[i]);
    }
    KeepNamesOfNames(NormalizeLevel, LOG_LEVELS, levels);
  }

  /**
   * Reading back a list of levels written with commas gives the same list:
   * order and repetitions are kept, and nothing is added.
   */
  lemma ExtractLogLevelRoundTrip(levels: seq<string>)
    requires |levels| > 0
    requires forall i :: 0 <= i < |levels| ==> levels[i] in LOG_LEVELS
    ensures ExtractLogLevel(Some(Join(levels, ','))) == levels
  {
    forall i | 0 <= i < |levels| ensures ',' !in levels[i] {
      LevelHasNoComma(levels[i]);
    }
    SplitJoin(levels, ',');
    KeepLevelsOfLevels(levels);
    assert KeepLevels(Split(Join(levels, ','), ',')) == levels;
  }

  /** `Number(PORT) || 3000`. */
  function Port(value: Option<string>): (p: int)
    ensures p != 0
    ensures value.None? ==> p == DEFAULT_PORT
  {
    var n := if value.Some? then StringToNumber(value.value) else None;
    if n.Some? && n.value != 0 then n.value else DEFAULT_PORT
  }

  /** A port written as a non-zero integer is read back; "0", "" and non-numbers fall back to 3000. */
  lemma PortRoundTrip(n: int)
    ensures n != 0 ==> Port(Some(IntToString(n))) == n
    ensures n == 0 ==> Port(Some(IntToString(n))) == DEFAULT_PORT
  {
    StringToNumberOfIntToString(n);
  }

  /** The settings of the common namespace that the model covers. */
  datatype CommonConfig = CommonConfig(port: int, logLevel: seq<string>)

  function CommonConfigOf(env: Env): (c: CommonConfig)
    ensures c.port != 0 && |c.logLevel| > 0
  {
    CommonConfig(Port(EnvValue(env, "PORT")), ExtractLogLevel(EnvValue(env, "LOG_LEVEL")))
  }
}
