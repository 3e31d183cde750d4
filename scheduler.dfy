/**
 * The adaptive poll scheduler. From a list of fixtures it extracts the
 * schedule of the fixtures still to be played or in play: sorted by kick-off,
 * with a window from the first kick-off to the last kick-off plus 90 minutes.
 * It remembers the last such schedule, classifies an instant against it into
 * one of eleven action modes, and looks up the poll timeout of a mode.
 *
 * Instants are epoch milliseconds. Reading a fixture's kick-off instant from
 * its date, time and zone strings is the parameter `startOf`.
 */
module Scheduler {
  import opened Wrappers
  import opened Js
  import opened Transformers

  const MINUTE: int := 60000

  /** The window of a schedule ends this long after its last kick-off. */
  const SLOT_TAIL: int := 90 * MINUTE

  datatype ActionMode =
    | Live
    | Before5Min | Before15Min | Before30Min | Before1Hour | Before4Hour | Before8Hour | Before12Hour
    | LongBefore
    | After30Min
    | LongAfter

  /** The timeouts (milliseconds) per action mode, under the source's own field names. */
  datatype TimeoutTable = TimeoutTable(
    LIVE_TIMEOUT: nat,
    MIN_5_TIMEOUT: nat,
    MIN_15_TIMEOUT: nat,
    MIN_30_TIMEOUT: nat,
    HOUR_1_TIMEOUT: nat,
    HOUR_4_TIMEOUT: nat,
    HOUR_8_TIMEOUT: nat,
    HOUR_12_TIMEOUT: nat,
    LONG_BEFORE_TIMEOUT: nat,
    LONG_AFTER_TIMEOUT: nat,
    DEFAULT_TIMEOUT: nat)

  datatype ScheduleAction = ScheduleAction(mode: ActionMode, timeout: nat)

  datatype Schedule = Schedule(
    fixtures: seq<Json>,
    first: Json,
    last: Json,
    isSame: bool,
    isSingleSlot: bool,
    slotStart: int,
    slotEnd: int,
    someAreInPlay: bool)

  // ---------------------------------------------------------------------------
  // Fixture status

  /** Where a fixture keeps its provider status code. */
  const STATUS_PATH: seq<string> := ["time", "status"]
  /** Where a fixture keeps its kick-off date and time string. */
  const DATE_TIME_PATH: seq<string> := ["time", "starting_at", "date_time"]

  /** `transformStatusComplete(e.time.status)`: throws when `time` is missing or the status is unknown. */
  function CollapsedStatusOf(e: Json): Result<Collapsed, string> {
    match Path(Some(e), STATUS_PATH)
    case Err(err) => Err(err)
    case Ok(status) =>
      if status.Some? && status.value.JStr? then TransformStatusComplete(status.value.s)
      else Err("Status key not found: " + ToJsString(status))
  }

  /** A fixture is relevant when it is not finished yet or in play. */
  predicate IsRelevant(e: Json) {
    CollapsedStatusOf(e) == Ok(NotFin) || CollapsedStatusOf(e) == Ok(InPlay)
  }

  predicate IsInPlay(e: Json) {
    CollapsedStatusOf(e) == Ok(InPlay)
  }

  /** The error of the first fixture, in list order, whose status cannot be read. */
  function FirstStatusError(fs: seq<Json>): (r: Option<string>)
    ensures r.None? <==> forall i :: 0 <= i < |fs| ==> CollapsedStatusOf(fs[i]).Ok?
  {
    if fs == [] then None
    else if CollapsedStatusOf(fs[0]).Err? then Some(CollapsedStatusOf(fs[0]).error)
    else
      var r := FirstStatusError(fs[1..]);
      assert forall i :: 1 <= i < |fs| ==> fs[i] == fs[1..][i - 1];
      r
  }

  /** `fixtures.filter(relevant)`: keeps exactly the relevant fixtures, each as often as it occurs, in order. */
  function Relevant(fs: seq<Json>): (r: seq<Json>)
    ensures forall x :: multiset(r)[x] == if IsRelevant(x) then multiset(fs)[x] else 0
    ensures forall x :: x in r ==> x in fs && IsRelevant(x)
  {
    if fs == [] then []
    else
      var rest := Relevant(fs[1..]);
      assert fs == [fs[0]] + fs[1..];
      var r := (if IsRelevant(fs[0]) then [fs[0]] else []) + rest;
      assert forall x :: x in r ==> x == fs[0] || x in rest;
      r
  }

  /** `fixtures.filter(inPlay).length > 0`. */
  predicate SomeInPlay(fs: seq<Json>) {
    exists i :: 0 <= i < |fs| && IsInPlay(fs[i])
  }

  // ---------------------------------------------------------------------------
  // Sorting by kick-off (a stable sort, as `Array.prototype.sort` is)

  predicate SortedBy(s: seq<Json>, key: Json -> int) {
    forall i, j :: 0 <= i < j < |s| ==> key(s[i]) <= key(s[j])
  }

  /** Inserts `x` after every leading element whose key is not greater than its own. */
  function InsertByKey(x: Json, s: seq<Json>, key: Json -> int): (r: seq<Json>)
    ensures multiset(r) == multiset(s) + multiset{x}
    ensures forall y :: y in r ==> y == x || y in s
  {
    if s == [] then [x]
    else if key(x) < key(s[0]) then [x] + s
    else
      assert s == [s[0]] + s[1..];
      [s[0]] + InsertByKey(x, s[1..], key)
  }

  /** Inserting into a sorted list keeps it sorted. */
  lemma {:induction false} InsertByKeySorted(x: Json, s: seq<Json>, key: Json -> int)
    requires SortedBy(s, key)
    ensures SortedBy(InsertByKey(x, s, key), key)
    decreases |s|
  {
    if s == [] {
    } else if key(x) < key(s[0]) {
      ConsSorted(x, s, key);
    } else {
      var tail := s[1..];
      assert SortedBy(tail, key) by {
        forall i, j | 0 <= i < j < |tail| ensures key(tail[i]) <= key(tail[j]) {
          assert tail[i] == s[i + 1] && tail[j] == s[j + 1];
        }
      }
      InsertByKeySorted(x, tail, key);
      var rest := InsertByKey(x, tail, key);
      assert forall k :: 0 <= k < |rest| ==> key(s[0]) <= key(rest[k]) by {
        forall k | 0 <= k < |rest| ensures key(s[0]) <= key(rest[k]) {
          assert rest[k] in rest;
          if rest[k] != x {
            var m :| 0 <= m < |tail| && tail[m] == rest[k];
            assert s[m + 1] == rest[k];
          }
        }
      }
      ConsSorted(s[0], rest, key);
    }
  }

  /** A head no greater than any element of a sorted tail keeps the list sorted. */
  lemma ConsSorted(h: Json, t: seq<Json>, key: Json -> int)
    requires SortedBy(t, key)
    requires |t| > 0 ==> key(h) <= key(t[0])
    ensures SortedBy([h] + t, key)
  {
    var r := [h] + t;
    forall i, j | 0 <= i < j < |r| ensures key(r[i]) <= key(r[j]) {
      assert r[j] == t[j - 1];
      if i > 0 {
        assert r[i] == t[i - 1];
      } else if j > 1 {
        assert key(t[0]) <= key(t[j - 1]);
      }
    }
  }

  /** Sorts by key; of two fixtures with the same key the earlier one stays first. */
  function SortByKey(s: seq<Json>, key: Json -> int): (r: seq<Json>)
    ensures SortedBy(r, key)
    ensures multiset(r) == multiset(s)
    ensures |r| == |s|
  {
    if s == [] then []
    else
      var init := s[..|s| - 1];
      assert s == init + [s[|s| - 1]];
      InsertByKeySorted(s[|s| - 1], SortByKey(init, key), key);
      var r := InsertByKey(s[|s| - 1], SortByKey(init, key), key);
      assert |r| == |multiset(r)|;
      r
  }

  // ---------------------------------------------------------------------------
  // Building a schedule

  /** Every stored schedule is non-empty, sorted, and its window runs from the first to the last kick-off plus 90 minutes. */
  predicate WellFormed(s: Schedule, startOf: Json -> int) {
    |s.fixtures| > 0
    && SortedBy(s.fixtures, startOf)
    && s.first == s.fixtures[0]
    && s.last == s.fixtures[|s.fixtures| - 1]
    && s.slotStart == startOf(s.first)
    && s.slotEnd == startOf(s.last) + SLOT_TAIL
    && s.isSame == (|s.fixtures| == 1)
  }

  /** `a.time?.starting_at?.date_time === b.time?.starting_at?.date_time`. */
  predicate SameDateTime(a: Json, b: Json) {
    StrictEquals(OptPath(Some(a), DATE_TIME_PATH), OptPath(Some(b), DATE_TIME_PATH))
  }

  /** Reading `fixture.time.starting_at.date_time` throws: `time` or `starting_at` is missing. */
  predicate KickOffUnreadable(e: Json) {
    Path(Some(e), DATE_TIME_PATH).Err?
  }

  /** Some fixture of the list has no readable kick-off. */
  predicate SomeKickOffUnreadable(s: seq<Json>) {
    exists i :: 0 <= i < |s| && KickOffUnreadable(s[i])
  }

  /** Sorting moves only fixtures of the list, so its ends are readable when every fixture is. */
  lemma SortedEndsReadable(s: seq<Json>, key: Json -> int)
    requires s != [] && !SomeKickOffUnreadable(s)
    ensures var sorted := SortByKey(s, key);
      |sorted| > 0 && !KickOffUnreadable(sorted[0]) && !KickOffUnreadable(sorted[|sorted| - 1])
  {
    var sorted := SortByKey(s, key);
    assert sorted[0] in multiset(s) && sorted[|sorted| - 1] in multiset(s);
  }

  /**
   * The schedule object built around a sorted, non-empty list of relevant
   * fixtures. Reading `time.starting_at.date_time` of the first and last
   * fixture throws a TypeError when `time` or `starting_at` is missing.
   */
  function ScheduleOfSorted(sorted: seq<Json>, someAreInPlay: bool, startOf: Json -> int)
    : (r: Result<Option<Schedule>, string>)
    requires |sorted| > 0
    ensures r.Err? <==> KickOffUnreadable(sorted[0]) || KickOffUnreadable(sorted[|sorted| - 1])
    ensures r.Err? ==> r.error == TYPE_ERROR
    ensures r.Ok? ==>
      && r.value.Some?
      && r.value.value.fixtures == sorted
      && r.value.value.first == sorted[0]
      && r.value.value.last == sorted[|sorted| - 1]
      && r.value.value.isSame == (|sorted| == 1)
      && r.value.value.slotStart == startOf(sorted[0])
      && r.value.value.slotEnd == startOf(sorted[|sorted| - 1]) + SLOT_TAIL
      && r.value.value.someAreInPlay == someAreInPlay
      && (r.value.value.isSingleSlot <==> SameDateTime(sorted[0], sorted[|sorted| - 1]))
  {
    var first := sorted[0];
    var last := sorted[|sorted| - 1];
    PathAgreesWithOptPath(Some(first), DATE_TIME_PATH);
    PathAgreesWithOptPath(Some(last), DATE_TIME_PATH);
    match Path(Some(first), DATE_TIME_PATH)
    case Err(e) => Err(e)
    case Ok(firstDate) =>
      match Path(Some(last), DATE_TIME_PATH)
      case Err(e) => Err(e)
      case Ok(lastDate) =>
        Ok(Some(Schedule(
          fixtures := sorted,
          first := first,
          last := last,
          isSame := |sorted| == 1,
          isSingleSlot := StrictEquals(firstDate, lastDate),
          slotStart := startOf(first),
          slotEnd := startOf(last) + SLOT_TAIL,
          someAreInPlay := someAreInPlay)))
  }

  /**
   * The schedule of a list of fixtures, or None when no fixture is relevant;
   * an unreadable status is the error the source throws, and so is a
   * relevant fixture without `starting_at`, wherever it sits in the list:
   * with two or more relevant fixtures the sort's comparator reads the
   * kick-off of every one of them, and a single one is read as the first
   * and last fixture.
   */
  function BuildSchedule(fs: seq<Json>, startOf: Json -> int): (r: Result<Option<Schedule>, string>)
    ensures FirstStatusError(fs).Some? ==> r == Err(FirstStatusError(fs).value)
    ensures FirstStatusError(fs).None? && Relevant(fs) == [] ==> r == Ok(None)
    ensures FirstStatusError(fs).None? && Relevant(fs) != [] ==>
      (r.Err? <==> SomeKickOffUnreadable(Relevant(fs)))
      && (r.Err? ==> r.error == TYPE_ERROR) && (r.Ok? ==> r.value.Some?)
  {
    if FirstStatusError(fs).Some? then Err(FirstStatusError(fs).value)
    else
      var relevant := Relevant(fs);
      if relevant == [] then Ok(None)
      else if SomeKickOffUnreadable(relevant) then Err(TYPE_ERROR)
      else
        SortedEndsReadable(relevant, startOf);
        ScheduleOfSorted(SortByKey(relevant, startOf), SomeInPlay(fs), startOf)
  }

  /** A fixture not started yet, with a `starting_at` when a kick-off string is given. */
  function NotStartedFixture(kickOff: Option<string>): Json {
    var time := map["status" := JStr("NS")];
    JObj(map["time" := JObj(
      if kickOff.Some? then time["starting_at" := JObj(map["date_time" := JStr(kickOff.value)])] else time)])
  }

  lemma NotStartedFixtureRules(kickOff: Option<string>)
    ensures IsRelevant(NotStartedFixture(kickOff))
    ensures KickOffUnreadable(NotStartedFixture(kickOff)) <==> kickOff.None?
  {
    var e := NotStartedFixture(kickOff);
    assert Path(Some(e), STATUS_PATH) == Ok(Some(JStr("NS"))) by {
      assert STATUS_PATH[1..][1..] == [];
    }
    assert DATE_TIME_PATH[1..][1..][1..] == [];
  }

  /** Filtering a list of relevant fixtures keeps all of them. */
  lemma {:induction false} RelevantKeepsAll(fs: seq<Json>)
    requires forall i :: 0 <= i < |fs| ==> IsRelevant(fs[i])
    ensures Relevant(fs) == fs
  {
    if fs != [] {
      RelevantKeepsAll(fs[1..]);
    }
  }

  /**
   * Three fixtures not started yet, the middle one without `starting_at`:
   * reading only the first and last kick-off would accept the list, but the
   * sort's comparator reads the middle one too, so the whole call throws.
   */
  lemma MiddleKickOffMissingThrows(startOf: Json -> int)
    ensures var timed := NotStartedFixture(Some("2020-01-01 12:00:00"));
      var fs := [timed, NotStartedFixture(None), timed];
      ScheduleOfSorted(fs, false, startOf).Ok?
      && BuildSchedule(fs, startOf) == Err(TYPE_ERROR)
  {
    var timed := NotStartedFixture(Some("2020-01-01 12:00:00"));
    var fs := [timed, NotStartedFixture(None), timed];
    NotStartedFixtureRules(Some("2020-01-01 12:00:00"));
    NotStartedFixtureRules(None);
    RelevantKeepsAll(fs);
    assert KickOffUnreadable(fs[1]);
  }

  /**
   * A built schedule is well formed, holds exactly the relevant fixtures,
   * and every one of them kicks off inside its window.
   */
  lemma BuildScheduleShape(fs: seq<Json>, startOf: Json -> int)
    ensures var r := BuildSchedule(fs, startOf);
      r.Ok? && r.value.Some? ==>
      var s := r.value.value;
      WellFormed(s, startOf)
      && multiset(s.fixtures) == multiset(Relevant(fs))
      && (s.someAreInPlay <==> SomeInPlay(fs))
      && (s.isSingleSlot <==> SameDateTime(s.first, s.last))
      && (forall k :: 0 <= k < |s.fixtures| ==> s.slotStart <= startOf(s.fixtures[k]) < s.slotEnd)
      && s.slotStart + SLOT_TAIL <= s.slotEnd
  {
    if FirstStatusError(fs).None? && Relevant(fs) != [] {
      SortedWithinEnds(SortByKey(Relevant(fs), startOf), startOf);
    }
  }

  /** Every key of a sorted, non-empty list lies between the first and the last key. */
  lemma SortedWithinEnds(sorted: seq<Json>, key: Json -> int)
    requires |sorted| > 0 && SortedBy(sorted, key)
    ensures forall k :: 0 <= k < |sorted| ==> key(sorted[0]) <= key(sorted[k]) <= key(sorted[|sorted| - 1])
  {
    forall k | 0 <= k < |sorted| ensures key(sorted[0]) <= key(sorted[k]) <= key(sorted[|sorted| - 1]) {
      if 0 < k {
        assert key(sorted[0]) <= key(sorted[k]);
      }
      if k < |sorted| - 1 {
        assert key(sorted[k]) <= key(sorted[|sorted| - 1]);
      }
    }
  }

  // ---------------------------------------------------------------------------
  // Classification of an instant

  /**
   * The tier of an instant `lead` milliseconds before the window opens. The
   * source compares the lead in fractional minutes with inclusive upper
   * bounds, which is the same as comparing milliseconds.
   */
  function BeforeTier(lead: int): (m: ActionMode)
    requires lead > 0
    ensures m == Before5Min <==> lead <= 5 * MINUTE
    ensures m == Before15Min <==> 5 * MINUTE < lead <= 15 * MINUTE
    ensures m == Before30Min <==> 15 * MINUTE < lead <= 30 * MINUTE
    ensures m == Before1Hour <==> 30 * MINUTE < lead <= 60 * MINUTE
    ensures m == Before4Hour <==> 60 * MINUTE < lead <= 240 * MINUTE
    ensures m == Before8Hour <==> 240 * MINUTE < lead <= 480 * MINUTE
    ensures m == Before12Hour <==> 480 * MINUTE < lead <= 720 * MINUTE
    ensures m == LongBefore <==> 720 * MINUTE < lead
  {
    if lead <= 5 * MINUTE then Before5Min
    else if lead <= 15 * MINUTE then Before15Min
    else if lead <= 30 * MINUTE then Before30Min
    else if lead <= 60 * MINUTE then Before1Hour
    else if lead <= 240 * MINUTE then Before4Hour
    else if lead <= 480 * MINUTE then Before8Hour
    else if lead <= 720 * MINUTE then Before12Hour
    else LongBefore
  }

  /**
   * The mode for a schedule at instant `now`; None when the window ends
   * before it starts, where the source's interval is invalid and no branch
   * returns.
   */
  function Classify(s: Option<Schedule>, now: int): (r: Option<ActionMode>)
    ensures s.None? ==> r == Some(LongAfter)
    ensures s.Some? && s.value.someAreInPlay ==> r == Some(Live)
    ensures s.Some? && !s.value.someAreInPlay ==> (r.None? <==> s.value.slotEnd < s.value.slotStart)
    ensures s.Some? && !s.value.someAreInPlay && s.value.slotStart <= s.value.slotEnd ==>
      (now < s.value.slotStart ==> r == Some(BeforeTier(s.value.slotStart - now)))
      && (s.value.slotStart <= now < s.value.slotEnd ==> r == Some(Live))
      && (s.value.slotEnd <= now && now - s.value.slotEnd <= 30 * MINUTE ==> r == Some(After30Min))
      && (s.value.slotEnd + 30 * MINUTE < now ==> r == Some(LongAfter))
  {
    match s
    case None => Some(LongAfter)
    case Some(sc) =>
      if sc.someAreInPlay then Some(Live)
      else if sc.slotEnd < sc.slotStart then None
      else if now < sc.slotStart then Some(BeforeTier(sc.slotStart - now))
      else if now < sc.slotEnd then Some(Live)
      else if now - sc.slotEnd <= 30 * MINUTE then Some(After30Min)
      else Some(LongAfter)
  }

  /** The position of a mode on the time line of a window that is not in play. */
  function Phase(m: ActionMode): nat {
    match m
    case LongBefore => 0
    case Before12Hour => 1
    case Before8Hour => 2
    case Before4Hour => 3
    case Before1Hour => 4
    case Before30Min => 5
    case Before15Min => 6
    case Before5Min => 7
    case Live => 8
    case After30Min => 9
    case LongAfter => 10
  }

  /** As time passes, the mode of a well-formed window only moves forward on the time line. */
  lemma ClassifyMonotone(s: Schedule, t1: int, t2: int)
    requires !s.someAreInPlay && s.slotStart <= s.slotEnd && t1 <= t2
    ensures Classify(Some(s), t1).Some? && Classify(Some(s), t2).Some?
    ensures Phase(Classify(Some(s), t1).value) <= Phase(Classify(Some(s), t2).value)
  {
    if t2 < s.slotStart {
      var m1, m2 := BeforeTier(s.slotStart - t1), BeforeTier(s.slotStart - t2);
      assert Phase(m1) <= Phase(m2);
    }
  }

  /**
   * The tier boundaries, for a window opening at `start` and closing at
   * `end`: 5 minutes before is still the last tier, one second earlier is the
   * next; the window is half open; 30 minutes after its end is still
   * AFTER_30_MIN and one second later is LONG_AFTER.
   */
  lemma ClassifyBoundaries(s: Schedule)
    requires !s.someAreInPlay && s.slotStart + SLOT_TAIL <= s.slotEnd
    ensures Classify(Some(s), s.slotStart - 5 * MINUTE) == Some(Before5Min)
    ensures Classify(Some(s), s.slotStart - 5 * MINUTE - 1000) == Some(Before15Min)
    ensures Classify(Some(s), s.slotStart - 15 * MINUTE) == Some(Before15Min)
    ensures Classify(Some(s), s.slotStart - 15 * MINUTE - 1000) == Some(Before30Min)
    ensures Classify(Some(s), s.slotStart - 60 * MINUTE) == Some(Before1Hour)
    ensures Classify(Some(s), s.slotStart - 720 * MINUTE) == Some(Before12Hour)
    ensures Classify(Some(s), s.slotStart - 720 * MINUTE - 1000) == Some(LongBefore)
    ensures Classify(Some(s), s.slotStart) == Some(Live)
    ensures Classify(Some(s), s.slotEnd - 1000) == Some(Live)
    ensures Classify(Some(s), s.slotEnd) == Some(After30Min)
    ensures Classify(Some(s), s.slotEnd + 30 * MINUTE) == Some(After30Min)
    ensures Classify(Some(s), s.slotEnd + 30 * MINUTE + 1000) == Some(LongAfter)
  {
  }

  /** `getTimeout`: the table entry of a mode; AFTER_30_MIN has no entry and falls back to the default. */
  function Timeout(table: TimeoutTable, mode: ActionMode): (t: nat)
    ensures mode == After30Min ==> t == table.DEFAULT_TIMEOUT
    ensures mode == Live ==> t == table.LIVE_TIMEOUT
    ensures mode == LongAfter ==> t == table.LONG_AFTER_TIMEOUT
  {
    match mode
    case Live => table.LIVE_TIMEOUT
    case Before5Min => table.MIN_5_TIMEOUT
    case Before15Min => table.MIN_15_TIMEOUT
    case Before30Min => table.MIN_30_TIMEOUT
    case Before1Hour => table.HOUR_1_TIMEOUT
    case Before4Hour => table.HOUR_4_TIMEOUT
    case Before8Hour => table.HOUR_8_TIMEOUT
    case Before12Hour => table.HOUR_12_TIMEOUT
    case LongBefore => table.LONG_BEFORE_TIMEOUT
    case LongAfter => table.LONG_AFTER_TIMEOUT
    case After30Min => table.DEFAULT_TIMEOUT
  }

  // ---------------------------------------------------------------------------
  // The service

  /**
   * `extractSchedule` on a value, given the stored schedule: the result and
   * the schedule stored afterwards. A falsy argument gives undefined, a
   * truthy non-array throws, an error keeps the stored schedule, a list
   * without relevant fixtures returns the stored one, and a new schedule
   * replaces it and is returned.
   */
  function Extract(stored: Option<Schedule>, fixtures: Option<Json>, startOf: Json -> int)
    : (out: (Result<Option<Schedule>, string>, Option<Schedule>))
    ensures !Truthy(fixtures) ==> out == (Ok(None), stored)
    ensures Truthy(fixtures) && !IsArray(fixtures) ==> out == (Err(TYPE_ERROR), stored)
    ensures IsArray(fixtures) ==>
      var built := BuildSchedule(fixtures.value.items, startOf);
      (built.Err? ==> out == (Err(built.error), stored))
      && (built == Ok(None) ==> out == (Ok(stored), stored))
      && (built.Ok? && built.value.Some? ==> out == (built, built.value))
  {
    if !Truthy(fixtures) then (Ok(None), stored)
    else if !IsArray(fixtures) then (Err(TYPE_ERROR), stored)
    else match BuildSchedule(fixtures.value.items, startOf)
      case Err(e) => (Err(e), stored)
      case Ok(None) => (Ok(stored), stored)
      case Ok(Some(s)) => (Ok(Some(s)), Some(s))
  }

  /** The action for the schedule `chosen` at instant `now`: its mode and that mode's timeout in `table`. */
  function ActionOf(table: TimeoutTable, chosen: Option<Schedule>, now: int): Option<ScheduleAction>
  {
    match Classify(chosen, now)
    case None => None
    case Some(mode) => Some(ScheduleAction(mode, Timeout(table, mode)))
  }

  class SchedulerService {
    /** The last non-empty schedule extracted, if any. */
    var currentSchedule: Option<Schedule>
    var timeoutTable: TimeoutTable
    /** The kick-off instant of a fixture, read from its date, time and zone strings. */
    const startOf: Json -> int

    predicate Valid()
      reads this
    {
      currentSchedule.Some? ==> WellFormed(currentSchedule.value, startOf)
    }

    /** Starts with no schedule and the default timeout table. */
    constructor(defaultTable: TimeoutTable, startOf: Json -> int)
      ensures Valid()
      ensures currentSchedule == None && timeoutTable == defaultTable && this.startOf == startOf
    {
      currentSchedule := None;
      timeoutTable := defaultTable;
      this.startOf := startOf;
    }

    /**
     * `extractSchedule`: a falsy argument gives undefined and changes
     * nothing; a truthy non-array throws; otherwise the schedule of the list
     * replaces the stored one when it has a relevant fixture, and the stored
     * schedule is returned.
     */
    method ExtractSchedule(fixtures: Option<Json>) returns (r: Result<Option<Schedule>, string>)
      requires Valid()
      modifies this
      ensures Valid()
      ensures timeoutTable == old(timeoutTable)
      ensures (r, currentSchedule) == Extract(old(currentSchedule), fixtures, startOf)
    {
      var out := Extract(currentSchedule, fixtures, startOf);
      if IsArray(fixtures) {
        BuildScheduleShape(fixtures.value.items, startOf);
      }
      r, currentSchedule := out.0, out.1;
    }

    /**
     * `processSchedule(schedule, now)`: the given schedule or else the stored
     * one is classified, and the mode's timeout is looked up.
     */
    function ProcessSchedule(schedule: Option<Schedule>, now: int): (r: Option<ScheduleAction>)
      reads this
      ensures var chosen := if schedule.Some? then schedule else currentSchedule;
        (r.Some? <==> Classify(chosen, now).Some?)
        && (r.Some? ==> r.value.mode == Classify(chosen, now).value)
      ensures r.Some? ==> r.value.timeout == Timeout(timeoutTable, r.value.mode)
    {
      ActionOf(timeoutTable, if schedule.Some? then schedule else currentSchedule, now)
    }

    /** With the stored schedule always well formed, processing it never falls through. */
    lemma ProcessStoredScheduleTotal(now: int)
      requires Valid()
      ensures ProcessSchedule(None, now).Some?
    {
      if currentSchedule.Some? {
        var s := currentSchedule.value;
        assert startOf(s.first) <= startOf(s.last) by {
          assert s.first == s.fixtures[0] && s.last == s.fixtures[|s.fixtures| - 1];
          if |s.fixtures| > 1 {
            assert startOf(s.fixtures[0]) <= startOf(s.fixtures[|s.fixtures| - 1]);
          }
        }
      }
    }

    /** `getTimeout`. */
    function GetTimeout(mode: ActionMode): (t: nat)
      reads this
      ensures t == Timeout(timeoutTable, mode)
    {
      Timeout(timeoutTable, mode)
    }

    /** `setTimeoutTable`: replaces the table and re-evaluates the stored schedule at `now`. */
    method SetTimeoutTable(table: TimeoutTable, now: int) returns (r: Option<ScheduleAction>)
      requires Valid()
      modifies this
      ensures Valid()
      ensures timeoutTable == table && currentSchedule == old(currentSchedule)
      ensures r == ProcessSchedule(None, now) && r.Some?
    {
      timeoutTable := table;
      ProcessStoredScheduleTotal(now);
      r := ProcessSchedule(None, now);
    }
  }
}
