/**
 * The slice of JavaScript's value semantics the crawler relies on: JSON-shaped
 * values, `undefined`, truthiness, property reads with and without optional
 * chaining, `String(v)`, `Number(v)` and `parseInt(s, 10)`.
 *
 * Numbers are integers here; fractional, exponent, hexadecimal and infinite
 * numerals are outside the model.
 */
module Js {
  import opened Wrappers
  import opened Text

  /** A JSON-shaped JavaScript value. Objects are compared by content, not by identity. */
  datatype Json =
    | JNull
    | JBool(b: bool)
    | JNum(n: int)
    | JStr(s: string)
    | JArr(items: seq<Json>)
    | JObj(fields: map<string, Json>)

  /** The message recorded for every TypeError the engine would raise. */
  const TYPE_ERROR := "TypeError"

  /** `process.env`: the variables that are set. */
  type Env = map<string, string>

  /** `process.env[key]`: undefined when the variable is not set. */
  function EnvValue(env: Env, key: string): (r: Option<string>)
    ensures r.Some? <==> key in env
    ensures r.Some? ==> r.value == env[key]
  {
    if key in env then Some(env[key]) else None
  }

  /** `v === null || v === undefined`, where `None` is `undefined`. */
  predicate Nullish(v: Option<Json>) {
    v.None? || v.value.JNull?
  }

  /** JavaScript truthiness (`!!v`); arrays and objects are truthy even when empty. */
  predicate Truthy(v: Option<Json>) {
    match v
    case None => false
    case Some(JNull) => false
    case Some(JBool(b)) => b
    case Some(JNum(n)) => n != 0
    case Some(JStr(s)) => s != ""
    case Some(JArr(_)) => true
    case Some(JObj(_)) => true
  }

  /** `Array.isArray(v)`. */
  predicate IsArray(v: Option<Json>) {
    v.Some? && v.value.JArr?
  }

  /** `v?.[key]`: the property, or undefined when `v` is nullish, not an object or lacks the key. */
  function Get(v: Option<Json>, key: string): Option<Json> {
    if v.Some? && v.value.JObj? && key in v.value.fields then Some(v.value.fields[key]) else None
  }

  /** `v.key`: like `Get`, but reading a property of a nullish value throws a TypeError. */
  function Prop(v: Option<Json>, key: string): (r: Result<Option<Json>, string>)
    ensures r.Err? <==> Nullish(v)
    ensures r.Ok? ==> r.value == Get(v, key)
  {
    if Nullish(v) then Err(TYPE_ERROR) else Ok(Get(v, key))
  }

  /** `v.k1.k2…kn`: reads a chain of properties, throwing at the first nullish link. */
  function Path(v: Option<Json>, keys: seq<string>): Result<Option<Json>, string>
    decreases |keys|
  {
    if keys == [] then Ok(v)
    else match Prop(v, keys[0])
      case Err(e) => Err(e)
      case Ok(w) => Path(w, keys[1..])
  }

  /** `v?.k1?.k2…`: optional chaining along a path never throws. */
  function OptPath(v: Option<Json>, keys: seq<string>): Option<Json>
    decreases |keys|
  {
    if keys == [] then v else OptPath(Get(v, keys[0]), keys[1..])
  }

  /** Whenever the throwing read succeeds it agrees with the optional chain. */
  lemma {:induction false} PathAgreesWithOptPath(v: Option<Json>, keys: seq<string>)
    ensures Path(v, keys).Ok? ==> Path(v, keys).value == OptPath(v, keys)
    ensures Path(v, keys).Err? ==> Path(v, keys).error == TYPE_ERROR
    decreases |keys|
  {
    if keys != [] && !Nullish(v) {
      PathAgreesWithOptPath(Get(v, keys[0]), keys[1..]);
    }
  }

  /** `a === b` for the primitive values the source compares; distinct objects are never identical. */
  predicate StrictEquals(a: Option<Json>, b: Option<Json>) {
    match (a, b)
    case (None, None) => true
    case (Some(JNull), Some(JNull)) => true
    case (Some(JBool(x)), Some(JBool(y))) => x == y
    case (Some(JNum(x)), Some(JNum(y))) => x == y
    case (Some(JStr(x)), Some(JStr(y))) => x == y
    case _ => false
  }

  // ---------------------------------------------------------------------------
  // String(v)

  /** `String(v)` (and template-literal interpolation) for every value of the model. */
  function ToJsString(v: Option<Json>): string {
    match v
    case None => "undefined"
    case Some(j) => JsonToString(j)
  }

  /** `String(j)`; an array prints its elements joined by ",", with null as "". */
  function JsonToString(j: Json): string
    decreases j
  {
    match j
    case JNull => "null"
    case JBool(b) => if b then "true" else "false"
    case JNum(n) => IntToString(n)
    case JStr(s) => s
    case JArr(items) =>
      JoinStrings(seq(|items|, i requires 0 <= i < |items| =>
        if items[i].JNull? then "" else JsonToString(items[i])))
    case JObj(_) => "[object Object]"
  }

  function JoinStrings(parts: seq<string>): string {
    if parts == [] then "" else if |parts| == 1 then parts[0] else parts[0] + "," + JoinStrings(parts[1..])
  }

  // ---------------------------------------------------------------------------
  // Number(v) and parseInt(s, 10)

  /** The value of an optionally signed run of digits, or None. */
  function SignedDecimal(t: string): (r: Option<int>)
    ensures r.Some? ==> t != []
  {
    if t != [] && (t[0] == '+' || t[0] == '-') && |t| > 1 && AllDigits(t[1..]) then
      var d: int := DecimalValue(t[1..]);
      Some(if t[0] == '-' then -d else d)
    else if t != [] && AllDigits(t) then Some(DecimalValue(t))
    else None
  }

  /** `Number(s)` for a string: surrounding white space is ignored, "" is 0, anything else that is not an integer numeral is NaN (None). */
  function StringToNumber(s: string): (r: Option<int>)
    ensures Trim(s) == "" ==> r == Some(0)
  {
    var t := Trim(s);
    if t == "" then Some(0) else SignedDecimal(t)
  }

  /** `Number` reads back what `String` writes for every integer. */
  lemma StringToNumberOfIntToString(i: int)
    ensures StringToNumber(IntToString(i)) == Some(i)
  {
    var s := IntToString(i);
    assert !IsWhiteSpace(s[0]) && !IsWhiteSpace(s[|s| - 1]) by {
      if i < 0 {
        assert IsDigit(NatToString(-i)[|NatToString(-i)| - 1]);
      } else {
        assert IsDigit(NatToString(i)[0]) && IsDigit(NatToString(i)[|NatToString(i)| - 1]);
      }
    }
    assert TrimStart(s) == s;
    assert TrimEnd(s) == s;
    if i < 0 {
      assert s[1..] == NatToString(-i);
    }
  }

  /**
   * `Number(v)`: None stands for NaN. Arrays and objects give NaN here, while
   * JavaScript converts `[]` to 0 and a one-element array through its element.
   */
  function ToNumber(v: Option<Json>): Option<int>
  {
    match v
    case None => None
    case Some(JNull) => Some(0)
    case Some(JBool(b)) => Some(if b then 1 else 0)
    case Some(JNum(n)) => Some(n)
    case Some(JStr(s)) => StringToNumber(s)
    case Some(_) => None
  }

  /** The longest prefix of `s` made of digits. */
  function DigitPrefix(s: string): (r: string)
    ensures |r| <= |s| && r == s[..|r|] && AllDigits(r)
    ensures |r| < |s| ==> !IsDigit(s[|r|])
  {
    if s == [] || !IsDigit(s[0]) then [] else [s[0]] + DigitPrefix(s[1..])
  }

  /** `parseInt(s, 10)`: leading white space and one sign are skipped, then the longest run of digits is read; no digit gives NaN (None). */
  function ParseInt10(s: string): Option<int>
  {
    var t := TrimStart(s);
    var sign := if t != [] && t[0] == '-' then -1 else 1;
    var body := if t != [] && (t[0] == '-' || t[0] == '+') then t[1..] else t;
    var digits := DigitPrefix(body);
    if digits == [] then None else Some(sign * DecimalValue(digits))
  }

  /** `parseInt` reads back what `String` writes for every integer. */
  lemma ParseInt10OfIntToString(i: int)
    ensures ParseInt10(IntToString(i)) == Some(i)
  {
    var s := IntToString(i);
    var n := if i < 0 then NatToString(-i) else NatToString(i);
    assert !IsWhiteSpace(s[0]) by {
      if i >= 0 { assert IsDigit(n[0]); }
    }
    assert TrimStart(s) == s;
    var body := if i < 0 then s[1..] else s;
    assert body == n;
    DigitPrefixOfDigits(n);
  }

  lemma {:induction false} DigitPrefixOfDigits(s: string)
    requires AllDigits(s)
    ensures DigitPrefix(s) == s
  {
    if s != [] {
      DigitPrefixOfDigits(s[1..]);
    }
  }

  // ---------------------------------------------------------------------------
  // Array.prototype.map with a callback that may throw

  /** `xs.map(f)`: the callback on every element in order; the first throw aborts the map. */
  function MapOrThrow<A, B>(xs: seq<A>, f: A -> Result<B, string>): Result<seq<B>, string>
    decreases |xs|
  {
    if xs == [] then Ok([])
    else
      match MapOrThrow(xs[..|xs| - 1], f)
      case Err(e) => Err(e)
      case Ok(done) =>
        match f(xs[|xs| - 1])
        case Err(e) => Err(e)
        case Ok(last) => Ok(done + [last])
  }

  /**
   * The map succeeds iff the callback succeeds on every element; it then has
   * one result per element, in order; otherwise its error is the callback's
   * error on the first element where it throws.
   */
  lemma {:induction false} MapOrThrowShape<A, B>(xs: seq<A>, f: A -> Result<B, string>)
    ensures var r := MapOrThrow(xs, f);
      (r.Ok? <==> forall i :: 0 <= i < |xs| ==> f(xs[i]).Ok?)
      && (r.Ok? ==> |r.value| == |xs| && forall i :: 0 <= i < |xs| ==> r.value[i] == f(xs[i]).value)
      && (r.Err? ==> exists k :: 0 <= k < |xs| && f(xs[k]).Err? && r.error == f(xs[k]).error
                       && forall j :: 0 <= j < k ==> f(xs[j]).Ok?)
    decreases |xs|
  {
    if xs != [] {
      var init := xs[..|xs| - 1];
      MapOrThrowShape(init, f);
      assert forall i :: 0 <= i < |init| ==> init[i] == xs[i];
      if MapOrThrow(init, f).Ok? && f(xs[|xs| - 1]).Err? {
        assert forall j :: 0 <= j < |xs| - 1 ==> f(xs[j]).Ok?;
      }
    }
  }
}
