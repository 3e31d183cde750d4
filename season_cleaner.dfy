/**
 * The season cleaner: before a season is hashed, thirteen volatile keys are
 * dropped from each of its fixtures, so that only relevant changes alter the
 * hash. Nothing given to it is changed; it builds fresh values.
 */
module SeasonCleaning {
  import opened Wrappers
  import opened Js
  import opened Text

  /** The fixture keys the cleaner drops. */
  const OMITTED_KEYS: set<string> := {
    "assistants", "attendance", "coaches", "colors", "commentaries", "details", "formations",
    "neutral_venue", "pitch", "referee_id", "standings", "venue_id", "weather_report"
  }

  /** The one-character strings a string is made of, as `for…of` and `for…in` visit them. */
  function Chars(s: string): (r: seq<Json>)
    ensures |r| == |s|
    ensures forall i :: 0 <= i < |s| ==> r[i] == JStr([s[i]])
  {
    seq(|s|, i requires 0 <= i < |s| => JStr([s[i]]))
  }

  /** An object whose keys are the decimal indices of `items`, each holding its element. */
  function Indexed(items: seq<Json>): (r: map<string, Json>)
    ensures forall i :: 0 <= i < |items| ==> NatToString(i) in r && r[NatToString(i)] == items[i]
    ensures forall k :: k in r ==> exists i :: 0 <= i < |items| && k == NatToString(i)
  {
    forall i, j | 0 <= i < |items| && 0 <= j < |items| && NatToString(i) == NatToString(j)
      ensures i == j
    {
      IntToStringInjective(i, j);
    }
    map i | 0 <= i < |items| :: NatToString(i) := items[i]
  }

  /**
   * The keys lodash copies from a value, with their values: the members of an
   * object, the indices of a list or a string, and nothing for null,
   * undefined, a number or a boolean.
   */
  function OwnKeys(e: Json): (r: map<string, Json>)
    ensures e.JObj? ==> r == e.fields
    ensures e.JArr? ==> r == Indexed(e.items)
    ensures e.JStr? ==> r == Indexed(Chars(e.s))
    ensures e.JNull? || e.JNum? || e.JBool? ==> r == map[]
  {
    match e
    case JObj(fields) => fields
    case JArr(items) => Indexed(items)
    case JStr(s) => Indexed(Chars(s))
    case _ => map[]
  }

  /** `omit(e, OMITTED_KEYS)`: a fresh object with every other key lodash copies from `e`, and its value. */
  function Omit(e: Json): (r: Json)
    ensures r.JObj?
    ensures forall k :: k in r.fields <==> k in OwnKeys(e) && k !in OMITTED_KEYS
    ensures forall k :: k in r.fields ==> r.fields[k] == OwnKeys(e)[k]
  {
    var keys := OwnKeys(e);
    JObj(map k | k in keys && k !in OMITTED_KEYS :: keys[k])
  }

  /** A list or a string keeps every index: no dropped key is a decimal numeral. */
  lemma OmitKeepsIndices(e: Json, i: nat)
    requires e.JArr? || e.JStr?
    requires i < (if e.JArr? then |e.items| else |e.s|)
    ensures NatToString(i) in Omit(e).fields
    ensures Omit(e).fields[NatToString(i)] == if e.JArr? then e.items[i] else JStr([e.s[i]])
  {
    var k := NatToString(i);
    assert k !in OMITTED_KEYS by {
      assert IsDigit(k[0]);
    }
  }

  /** Dropping the keys a second time changes nothing. */
  lemma OmitIdempotent(e: Json)
    ensures Omit(Omit(e)) == Omit(e)
  {
    var once := Omit(e);
    assert OwnKeys(once) == once.fields;
    assert Omit(once).fields == once.fields;
  }

  /** The values `for…of` visits: the elements of a list, the characters of a string; None when the value is not iterable. */
  function ForOfItems(v: Option<Json>): (r: Option<seq<Json>>)
    ensures r.Some? <==> IsArray(v) || (v.Some? && v.value.JStr?)
    ensures IsArray(v) ==> r == Some(v.value.items)
    ensures v.Some? && v.value.JStr? ==> r == Some(Chars(v.value.s))
  {
    if IsArray(v) then Some(v.value.items)
    else if v.Some? && v.value.JStr? then Some(Chars(v.value.s))
    else None
  }

  /**
   * `cleanUpFixture`: each value `for…of` visits, cleaned, in the same order;
   * a value that cannot be iterated throws.
   */
  function CleanUpFixture(data: Option<Json>): (r: Result<seq<Json>, string>)
    ensures r.Err? <==> ForOfItems(data).None?
    ensures r.Err? ==> r.error == TYPE_ERROR
    ensures r.Ok? ==> |r.value| == |ForOfItems(data).value|
    ensures r.Ok? ==> forall i :: 0 <= i < |r.value| ==> r.value[i] == Omit(ForOfItems(data).value[i])
  {
    match ForOfItems(data)
    case None => Err(TYPE_ERROR)
    case Some(items) => Ok(seq(|items|, i requires 0 <= i < |items| => Omit(items[i])))
  }

  /** A string of fixtures is cleaned character by character: each becomes `{ "0": <the character> }`. */
  lemma CleanStringData(s: string)
    ensures CleanUpFixture(Some(JStr(s))).Ok?
    ensures forall i :: 0 <= i < |s| ==> CleanUpFixture(Some(JStr(s))).value[i] == JObj(map["0" := JStr([s[i]])])
  {
    forall i | 0 <= i < |s| ensures CleanUpFixture(Some(JStr(s))).value[i] == JObj(map["0" := JStr([s[i]])]) {
      var c := JStr([s[i]]);
      OmitKeepsIndices(c, 0);
      assert NatToString(0) == "0";
      assert Omit(c).fields == map["0" := JStr([s[i]])] by {
        forall k | k in Omit(c).fields ensures k == "0" {
          var j :| 0 <= j < 1 && k == NatToString(j);
        }
      }
    }
  }

  /**
   * `cleanFixturesOfSeason`: a falsy season, or one without fixtures, is
   * returned as it is. Otherwise a copy of the season whose `fixtures` is
   * `{ data: <the cleaned list> }`.
   */
  function CleanFixturesOfSeason(season: Option<Json>): (r: Result<Option<Json>, string>)
    ensures !Truthy(season) || !Truthy(Get(season, "fixtures")) ==> r == Ok(season)
    ensures Truthy(season) && Truthy(Get(season, "fixtures")) ==>
      var data := Get(Get(season, "fixtures"), "data");
      (r.Err? <==> ForOfItems(data).None?)
      && (r.Err? ==> r.error == TYPE_ERROR)
      && (r.Ok? ==>
            r.value.Some? && r.value.value.JObj?
            && Get(r.value, "fixtures") == Some(JObj(map["data" := JArr(CleanUpFixture(data).value)])))
  {
    if !Truthy(season) || !Truthy(Get(season, "fixtures")) then Ok(season)
    else
      match CleanUpFixture(Get(Get(season, "fixtures"), "data"))
      case Err(e) => Err(e)
      case Ok(list) => Ok(Some(JObj(season.value.fields["fixtures" := JObj(map["data" := JArr(list)])])))
  }

  /** A cleaned season keeps every other member of the season, with the same value. */
  lemma CleanKeepsOtherFields(season: Option<Json>, k: string)
    requires k != "fixtures"
    requires CleanFixturesOfSeason(season).Ok?
    ensures Get(CleanFixturesOfSeason(season).value, k) == Get(season, k)
  {
  }

  /** Cleaning a cleaned season gives the same season. */
  lemma CleanIdempotent(season: Option<Json>)
    requires CleanFixturesOfSeason(season).Ok?
    ensures CleanFixturesOfSeason(CleanFixturesOfSeason(season).value) == CleanFixturesOfSeason(season)
  {
    var once := CleanFixturesOfSeason(season).value;
    if Truthy(season) && Truthy(Get(season, "fixtures")) {
      var list := CleanUpFixture(Get(Get(season, "fixtures"), "data")).value;
      var list2 := CleanUpFixture(Some(JArr(list))).value;
      assert list2 == list by {
        forall i | 0 <= i < |list| ensures list2[i] == list[i] {
          OmitIdempotent(ForOfItems(Get(Get(season, "fixtures"), "data")).value[i]);
        }
      }
      assert once.value.fields["fixtures" := JObj(map["data" := JArr(list2)])] == once.value.fields;
    }
  }
}
