/**
 * The live scanner. It polls the provider's live fixtures: a failed request
 * is retried with back-off up to attempt 30 and then given up; a successful
 * one goes through the scheduler, whose action timeout becomes the delay of
 * the next poll, and a non-empty list is rendered into one statement and
 * saved. Its own `save` retries a failing statement like the gateway's, but
 * does not look at the persist-to-database switch.
 */
module ScannerLive {
  import opened Wrappers
  import opened Js
  import opened TemplateEngine
  import opened Effects
  import opened NunjuckRender
  import opened Scheduler
  import opened BackOff
  import Bettles

  const VERSION := "0.3.0"
  /** The poll delay before the scheduler has said anything, in milliseconds. */
  const INITIAL_TIMEOUT: int := 60000
  /** A failed request at this many attempts or more is not retried. */
  const MAX_FETCH_ATTEMPTS: nat := 30
  const LIVE_TEMPLATE := "update-fixtures.njk"
  const LIVE_OUTPUT := "./generated-sql/api/update-live.data.sql"
  const LIVE_LOG := "live scanner"

  /**
   * The abstract functions the scanner works with: a fixture's kick-off
   * instant (the scheduler's), the template (the renderer's) and
   * `JSON.stringify`.
   */
  datatype Wiring = Wiring(startOf: Json -> int, template: TemplateOptions -> string, stringify: Json -> string)

  /** `data && data.length > 0`, for a value that is undefined or a list. */
  predicate NonEmptyList(data: Option<Json>) {
    IsArray(data) && |data.value.items| > 0
  }

  /** The render options `update` builds for a list of fixtures. */
  function LiveOptions(stringify: Json -> string, fixtures: Json): TemplateOptions {
    TemplateOptions(
      LIVE_TEMPLATE,
      LIVE_OUTPUT,
      Some(fixtures),
      Some(ScannerLogEntry(LiveEntry, "empty", None, Some("automatic update from scanner " + VERSION), Some(stringify(fixtures)), None)))
  }

  // ---------------------------------------------------------------------------
  // save

  /**
   * The record of one statement run by the live `save` with outcome `ok`: a
   * connection, the statement, a retry timer when it failed with attempts
   * left, and the connection given back.
   */
  function LiveStatementEvents(sql: string, log: string, attempts: nat, ok: bool): seq<Event> {
    [Connect, Query(sql, ok)]
    + (if !ok && attempts < Bettles.MAX_ATTEMPTS then [SetTimer(RetryDelay(attempts + 1), RetryLiveSave(sql, log, attempts + 1))] else [])
    + [Release]
  }

  /** The record of the live `save(sql, log, attempts)`: nothing without a statement or without a connection. */
  function LiveSaveEvents(sql: Option<string>, log: string, attempts: nat, env: DbEnv): seq<Event> {
    if !Bettles.HasSql(sql) || !env.connectOk then []
    else LiveStatementEvents(sql.value, log, attempts, env.queryOk(sql.value))
  }

  /** The live `save` rejects only when it has a statement and cannot get a connection. */
  function LiveSaveResult(sql: Option<string>, env: DbEnv): (r: Result<(), string>)
    ensures r.Err? <==> Bettles.HasSql(sql) && !env.connectOk
  {
    if Bettles.HasSql(sql) && !env.connectOk then Err(CONNECT_ERROR) else Ok(())
  }

  /**
   * One statement of the live `save`: the connection is always given back,
   * the statement runs once, and a retry is armed exactly when it failed
   * with attempts left, with the next attempt number and the back-off of
   * `attempts + 2`.
   */
  lemma LiveStatementRules(sql: string, log: string, attempts: nat, ok: bool)
    ensures Balanced(LiveStatementEvents(sql, log, attempts, ok))
    ensures Queries(LiveStatementEvents(sql, log, attempts, ok)) == [(sql, ok)]
    ensures Timers(LiveStatementEvents(sql, log, attempts, ok)) ==
      if !ok && attempts < Bettles.MAX_ATTEMPTS then [(ExponentialBackOff(attempts + 2), RetryLiveSave(sql, log, attempts + 1))] else []
    ensures Requests(LiveStatementEvents(sql, log, attempts, ok)) == []
    ensures Renders(LiveStatementEvents(sql, log, attempts, ok)) == []
  {
    var between: seq<Event> :=
      if !ok && attempts < Bettles.MAX_ATTEMPTS then [SetTimer(RetryDelay(attempts + 1), RetryLiveSave(sql, log, attempts + 1))] else [];
    var head := [Connect, Query(sql, ok)];
    assert LiveStatementEvents(sql, log, attempts, ok) == head + between + [Release];
    OneQueryBalanced(sql, ok, between);
    QueriesConcat(head + between, [Release]);
    QueriesConcat(head, between);
    QueriesConcat([Connect], [Query(sql, ok)]);
    assert [Connect] + [Query(sql, ok)] == head;
    assert Queries([Connect]) == [] by { assert [Connect][..0] == []; }
    assert Queries([Query(sql, ok)]) == [(sql, ok)] by { assert [Query(sql, ok)][..0] == []; }
    assert Queries([Release]) == [] by { assert [Release][..0] == []; }
    TimersConcat(head + between, [Release]);
    TimersConcat(head, between);
    TimersConcat([Connect], [Query(sql, ok)]);
    assert Timers([Connect]) == [] by { assert [Connect][..0] == []; }
    assert Timers([Query(sql, ok)]) == [] by { assert [Query(sql, ok)][..0] == []; }
    assert Timers([Release]) == [] by { assert [Release][..0] == []; }
    RequestsConcat(head + between, [Release]);
    RequestsConcat(head, between);
    RendersConcat(head + between, [Release]);
    RendersConcat(head, between);
    assert Requests(head) == [] && Renders(head) == [] by { assert head[..1] == [Connect]; assert [Connect][..0] == []; }
    assert Requests([Release]) == [] && Renders([Release]) == [] by { assert [Release][..0] == []; }
    if between != [] {
      assert Queries(between) == [] && Requests(between) == [] && Renders(between) == [] by { assert between[..0] == []; }
      assert Timers(between) == [(RetryDelay(attempts + 1), RetryLiveSave(sql, log, attempts + 1))] by {
        assert between[..0] == [];
      }
    }
  }

  /**
   * One call of the live `save`: every connection is given back, nothing is
   * asked of the provider or rendered, a statement runs exactly when there
   * is one and a connection, whatever the persist-to-database switch says,
   * and a failure with attempts left arms one retry.
   */
  lemma LiveSaveRules(sql: Option<string>, log: string, attempts: nat, env: DbEnv)
    ensures Balanced(LiveSaveEvents(sql, log, attempts, env))
    ensures Requests(LiveSaveEvents(sql, log, attempts, env)) == []
    ensures Renders(LiveSaveEvents(sql, log, attempts, env)) == []
    ensures Queries(LiveSaveEvents(sql, log, attempts, env)) ==
      if Bettles.HasSql(sql) && env.connectOk then [(sql.value, env.queryOk(sql.value))] else []
    ensures Timers(LiveSaveEvents(sql, log, attempts, env)) ==
      if Bettles.HasSql(sql) && env.connectOk && !env.queryOk(sql.value) && attempts < Bettles.MAX_ATTEMPTS
      then [(ExponentialBackOff(attempts + 2), RetryLiveSave(sql.value, log, attempts + 1))]
      else []
    ensures forall i :: 0 <= i < |Timers(LiveSaveEvents(sql, log, attempts, env))| ==>
      Timers(LiveSaveEvents(sql, log, attempts, env))[i].1.RetryLiveSave?
  {
    if Bettles.HasSql(sql) && env.connectOk {
      LiveStatementRules(sql.value, log, attempts, env.queryOk(sql.value));
    }
  }

  // ---------------------------------------------------------------------------
  // fetch

  /** The retry a failed request arms while attempts are left. */
  function RetryEvents(attempts: nat): seq<Event> {
    if attempts < MAX_FETCH_ATTEMPTS then [SetTimer(RetryDelay(attempts + 1), LiveFetch(attempts + 1))] else []
  }

  /** The record of a poll whose request failed: the request, then a retry while attempts are left. */
  function FailedPollEvents(attempts: nat): seq<Event> {
    [Fetch(LiveFixtures)] + RetryEvents(attempts)
  }

  /** The record of `update(data)` up to its save: one render of a non-empty list. */
  function UpdateEvents(w: Wiring, data: Option<Json>): seq<Event> {
    if NonEmptyList(data) then [Render(LiveOptions(w.stringify, data.value))] else []
  }

  /** The statement `update(data)` hands to `save`; None when it is not called. */
  function PendingSql(w: Wiring, data: Option<Json>): Option<string> {
    if NonEmptyList(data) then Rendered(w.template, LiveOptions(w.stringify, data.value)) else None
  }

  /** The next poll, armed after the action's timeout with the attempts reset. */
  function NextPollEvents(action: Option<ScheduleAction>): seq<Event> {
    if action.Some? then [SetTimer(action.value.timeout, LiveFetch(0))] else []
  }

  /**
   * The record of a poll after its schedule was extracted: the render of a
   * non-empty list, the next poll when there is an action, and then the
   * save `update` started, which is not awaited and so takes its connection
   * after the poll is done.
   */
  function ScheduledEvents(w: Wiring, data: Option<Json>, action: Option<ScheduleAction>, env: DbEnv): seq<Event> {
    UpdateEvents(w, data) + NextPollEvents(action) + LiveSaveEvents(PendingSql(w, data), LIVE_LOG, 0, env)
  }

  /** What one poll did: its record, the scheduler's stored schedule and the scanner's timeout afterwards, and how it settled. */
  datatype Poll = Poll(events: seq<Event>, schedule: Option<Schedule>, timeout: int, result: Result<(), string>)

  /**
   * A poll after the provider answered `data`: a schedule that cannot be
   * extracted is thrown; an undefined action is thrown when its timeout is
   * read, after the update has started.
   */
  function AnsweredPoll(w: Wiring, stored: Option<Schedule>, table: TimeoutTable, timeout: int,
                        data: Option<Json>, now: int, env: DbEnv): Poll
  {
    var out := Extract(stored, data, w.startOf);
    if out.0.Err? then Poll([], out.1, timeout, Err(out.0.error))
    else
      var action := ActionOf(table, if out.0.value.Some? then out.0.value else out.1, now);
      var events := ScheduledEvents(w, data, action, env);
      if action.None? then Poll(events, out.1, timeout, Err(TYPE_ERROR))
      else Poll(events, out.1, action.value.timeout, Ok(()))
  }

  /**
   * `fetch(attempts)`, the provider answering `fetched`, at instant `now`,
   * from the stored schedule `stored`, the timeout table `table` and the
   * timeout `timeout`: the request, then the retry or the answered poll.
   */
  function PollOf(w: Wiring, stored: Option<Schedule>, table: TimeoutTable, timeout: int, attempts: nat,
                  fetched: Result<Option<Json>, string>, now: int, env: DbEnv): Poll
  {
    match fetched
    case Err(_) => Poll(FailedPollEvents(attempts), stored, timeout, Ok(()))
    case Ok(data) =>
      var a := AnsweredPoll(w, stored, table, timeout, data, now, env);
      a.(events := [Fetch(LiveFixtures)] + a.events)
  }

  lemma FailedPollRules(attempts: nat)
    ensures Requests(FailedPollEvents(attempts)) == [LiveFixtures]
    ensures Timers(FailedPollEvents(attempts)) ==
      if attempts < MAX_FETCH_ATTEMPTS then [(ExponentialBackOff(attempts + 2), LiveFetch(attempts + 1))] else []
    ensures Renders(FailedPollEvents(attempts)) == [] && Queries(FailedPollEvents(attempts)) == []
    ensures Balanced(FailedPollEvents(attempts))
  {
    var head, retry := [Fetch(LiveFixtures)], RetryEvents(attempts);
    assert Requests(head) == [LiveFixtures] && Timers(head) == [] && Renders(head) == [] && Queries(head) == [] by {
      assert head[..0] == [];
    }
    if retry != [] {
      assert Requests(retry) == [] && Renders(retry) == [] && Queries(retry) == [] by { assert retry[..0] == []; }
      assert Timers(retry) == [(RetryDelay(attempts + 1), LiveFetch(attempts + 1))] by { assert retry[..0] == []; }
    }
    RequestsConcat(head, retry);
    TimersConcat(head, retry);
    RendersConcat(head, retry);
    QueriesConcat(head, retry);
    NoConnectionsBalanced(head + retry);
  }

  /** A failed request leaves the schedule and the timeout alone and retries below attempt 30, with the back-off of `attempts + 2`. */
  lemma FailedPollRetries(w: Wiring, stored: Option<Schedule>, table: TimeoutTable, timeout: int, attempts: nat,
                          error: string, now: int, env: DbEnv)
    ensures var p := PollOf(w, stored, table, timeout, attempts, Err(error), now, env);
      p.result.Ok? && p.schedule == stored && p.timeout == timeout
      && Requests(p.events) == [LiveFixtures]
      && Timers(p.events) ==
        if attempts < MAX_FETCH_ATTEMPTS then [(ExponentialBackOff(attempts + 2), LiveFetch(attempts + 1))] else []
  {
    FailedPollRules(attempts);
  }

  /**
   * The polls of a source that fails every time, from attempt `attempts` on:
   * each retry runs when the timer of the previous one fires.
   */
  function FailingPolls(attempts: nat): seq<Event>
    requires attempts <= MAX_FETCH_ATTEMPTS
    decreases MAX_FETCH_ATTEMPTS - attempts
  {
    FailedPollEvents(attempts) + (if attempts < MAX_FETCH_ATTEMPTS then FailingPolls(attempts + 1) else [])
  }

  /** A source that always fails is asked `31 - attempts` more times. */
  lemma {:induction false} FailingPollsRequests(attempts: nat)
    requires attempts <= MAX_FETCH_ATTEMPTS
    ensures Requests(FailingPolls(attempts)) == seq(MAX_FETCH_ATTEMPTS + 1 - attempts, _ => LiveFixtures)
    decreases MAX_FETCH_ATTEMPTS - attempts
  {
    var head := FailedPollEvents(attempts);
    FailedPollRules(attempts);
    var all := seq(MAX_FETCH_ATTEMPTS + 1 - attempts, _ => LiveFixtures);
    if attempts < MAX_FETCH_ATTEMPTS {
      var tail := FailingPolls(attempts + 1);
      FailingPollsRequests(attempts + 1);
      assert FailingPolls(attempts) == head + tail;
      RequestsConcat(head, tail);
      assert all == [LiveFixtures] + all[1..];
    } else {
      assert FailingPolls(attempts) == head + [];
      assert head + [] == head;
      assert all == [LiveFixtures];
    }
  }

  /** The retry timers of a source that fails every time from attempt `attempts` on: the k-th follows attempt `attempts + k`. */
  function FailingPollTimers(attempts: nat): seq<(int, Call)>
    requires attempts <= MAX_FETCH_ATTEMPTS
  {
    seq(MAX_FETCH_ATTEMPTS - attempts, (k: nat) => (ExponentialBackOff(attempts + k + 2), LiveFetch(attempts + k + 1)))
  }

  /** The retries from attempt `attempts` on are its own retry followed by those from the next attempt on. */
  lemma FailingPollTimersCons(attempts: nat)
    requires attempts < MAX_FETCH_ATTEMPTS
    ensures FailingPollTimers(attempts)
      == [(ExponentialBackOff(attempts + 2), LiveFetch(attempts + 1))] + FailingPollTimers(attempts + 1)
  {
    var all, rest := FailingPollTimers(attempts), FailingPollTimers(attempts + 1);
    forall k | 0 <= k < |rest| ensures all[k + 1] == rest[k] {
      assert attempts + (k + 1) + 2 == attempts + 1 + k + 2;
    }
  }

  /** A source that always fails gets the retries of `FailingPollTimers` and nothing else. */
  lemma {:induction false} FailingPollsTimers(attempts: nat)
    requires attempts <= MAX_FETCH_ATTEMPTS
    ensures Timers(FailingPolls(attempts)) == FailingPollTimers(attempts)
    decreases MAX_FETCH_ATTEMPTS - attempts
  {
    var head := FailedPollEvents(attempts);
    FailedPollRules(attempts);
    if attempts < MAX_FETCH_ATTEMPTS {
      var tail := FailingPolls(attempts + 1);
      FailingPollsTimers(attempts + 1);
      assert FailingPolls(attempts) == head + tail;
      TimersConcat(head, tail);
      FailingPollTimersCons(attempts);
    } else {
      assert FailingPolls(attempts) == head + [];
      assert head + [] == head;
    }
  }

  /**
   * A source that always fails, polled from attempt 0, is asked 31 times;
   * the last retry is attempt 30, after which the scanner gives up.
   */
  lemma AlwaysFailingSourceIsAsked31Times()
    ensures |Requests(FailingPolls(0))| == 31
    ensures |Timers(FailingPolls(0))| == 30
    ensures Timers(FailingPolls(0))[29] == (MAX_DELAY, LiveFetch(30))
  {
    FailingPollsRequests(0);
    FailingPollsTimers(0);
    var ts := FailingPollTimers(0);
    assert |ts| == 30 && ts[29] == (ExponentialBackOff(31), LiveFetch(30));
    BackOffExact(31);
  }

  /** The record of `update` renders a non-empty list once, and does nothing else. */
  lemma UpdateEventsRules(w: Wiring, data: Option<Json>)
    ensures NoConnections(UpdateEvents(w, data))
    ensures Requests(UpdateEvents(w, data)) == [] && Queries(UpdateEvents(w, data)) == [] && Timers(UpdateEvents(w, data)) == []
    ensures Renders(UpdateEvents(w, data)) == (if NonEmptyList(data) then [LiveOptions(w.stringify, data.value)] else [])
  {
    if NonEmptyList(data) {
      assert UpdateEvents(w, data)[..0] == [];
    }
  }

  /** The record of re-arming holds one timer, for a fresh poll after the action's timeout. */
  lemma NextPollRules(action: Option<ScheduleAction>)
    ensures NoConnections(NextPollEvents(action))
    ensures Requests(NextPollEvents(action)) == [] && Queries(NextPollEvents(action)) == [] && Renders(NextPollEvents(action)) == []
    ensures Timers(NextPollEvents(action)) == (if action.Some? then [(action.value.timeout, LiveFetch(0))] else [])
  {
    if action.Some? {
      assert NextPollEvents(action)[..0] == [];
    }
  }

  lemma ThreePartsRequests(u: seq<Event>, n: seq<Event>, s: seq<Event>)
    ensures Requests(u + n + s) == Requests(u) + Requests(n) + Requests(s)
  {
    RequestsConcat(u, n);
    RequestsConcat(u + n, s);
  }

  lemma ThreePartsRenders(u: seq<Event>, n: seq<Event>, s: seq<Event>)
    ensures Renders(u + n + s) == Renders(u) + Renders(n) + Renders(s)
  {
    RendersConcat(u, n);
    RendersConcat(u + n, s);
  }

  lemma ThreePartsQueries(u: seq<Event>, n: seq<Event>, s: seq<Event>)
    ensures Queries(u + n + s) == Queries(u) + Queries(n) + Queries(s)
  {
    QueriesConcat(u, n);
    QueriesConcat(u + n, s);
  }

  lemma ThreePartsTimers(u: seq<Event>, n: seq<Event>, s: seq<Event>)
    ensures Timers(u + n + s) == Timers(u) + Timers(n) + Timers(s)
  {
    TimersConcat(u, n);
    TimersConcat(u + n, s);
  }

  /** Two records without connections, then a balanced one, are balanced. */
  lemma TwoQuietThenBalanced(u: seq<Event>, n: seq<Event>, s: seq<Event>)
    requires NoConnections(u) && NoConnections(n) && Balanced(s)
    ensures Balanced(u + n + s)
  {
    assert NoConnections(u + n) by {
      forall i | 0 <= i < |u + n| ensures !(u + n)[i].Connect? && !(u + n)[i].Release? {
        if i < |u| {
          assert (u + n)[i] == u[i];
        } else {
          assert (u + n)[i] == n[i - |u|];
        }
      }
    }
    NoConnectionsBalanced(u + n);
    BalancedConcat(u + n, s);
  }

  /** After its schedule was extracted, a poll asks the provider for nothing more and renders a non-empty list once. */
  lemma ScheduledRequestsRenders(w: Wiring, data: Option<Json>, action: Option<ScheduleAction>, env: DbEnv)
    ensures Requests(ScheduledEvents(w, data, action, env)) == []
    ensures Renders(ScheduledEvents(w, data, action, env)) ==
      (if NonEmptyList(data) then [LiveOptions(w.stringify, data.value)] else [])
  {
    var u, n := UpdateEvents(w, data), NextPollEvents(action);
    var save := LiveSaveEvents(PendingSql(w, data), LIVE_LOG, 0, env);
    UpdateEventsRules(w, data);
    NextPollRules(action);
    LiveSaveRules(PendingSql(w, data), LIVE_LOG, 0, env);
    ThreePartsRequests(u, n, save);
    ThreePartsRenders(u, n, save);
  }

  /**
   * After its schedule was extracted, a poll runs only the statement of its
   * save, and arms the next poll, when there is an action, before any retry
   * of that save.
   */
  lemma ScheduledQueriesTimers(w: Wiring, data: Option<Json>, action: Option<ScheduleAction>, env: DbEnv)
    ensures var save := LiveSaveEvents(PendingSql(w, data), LIVE_LOG, 0, env);
      Queries(ScheduledEvents(w, data, action, env)) == Queries(save)
      && Timers(ScheduledEvents(w, data, action, env)) ==
        (if action.Some? then [(action.value.timeout, LiveFetch(0))] else []) + Timers(save)
  {
    var u, n := UpdateEvents(w, data), NextPollEvents(action);
    var save := LiveSaveEvents(PendingSql(w, data), LIVE_LOG, 0, env);
    UpdateEventsRules(w, data);
    NextPollRules(action);
    ThreePartsQueries(u, n, save);
    ThreePartsTimers(u, n, save);
  }

  /** After its schedule was extracted, a poll gives back every connection it takes. */
  lemma ScheduledBalanced(w: Wiring, data: Option<Json>, action: Option<ScheduleAction>, env: DbEnv)
    ensures Balanced(ScheduledEvents(w, data, action, env))
  {
    UpdateEventsRules(w, data);
    NextPollRules(action);
    LiveSaveRules(PendingSql(w, data), LIVE_LOG, 0, env);
    TwoQuietThenBalanced(UpdateEvents(w, data), NextPollEvents(action), LiveSaveEvents(PendingSql(w, data), LIVE_LOG, 0, env));
  }

  /** The options of the live render: the list itself, the live template, and the LIVE log entry of hash 'empty' holding the serialised list. */
  lemma LiveOptionsRules(stringify: Json -> string, fixtures: Json)
    ensures var o := LiveOptions(stringify, fixtures);
      o.data == Some(fixtures) && o.templateFilename == LIVE_TEMPLATE && o.meta.Some?
      && LogTypeName(o.meta.value.logType) == "LIVE" && o.meta.value.hash == "empty"
      && o.meta.value.json == Some(stringify(fixtures))
  {
  }

  /** The request that starts every answered poll is its only one, and it neither renders, runs nor arms anything. */
  lemma RequestFirst(rest: seq<Event>)
    ensures Requests([Fetch(LiveFixtures)] + rest) == [LiveFixtures] + Requests(rest)
    ensures Renders([Fetch(LiveFixtures)] + rest) == Renders(rest)
    ensures Queries([Fetch(LiveFixtures)] + rest) == Queries(rest)
    ensures Timers([Fetch(LiveFixtures)] + rest) == Timers(rest)
    ensures Balanced(rest) ==> Balanced([Fetch(LiveFixtures)] + rest)
  {
    var f := [Fetch(LiveFixtures)];
    assert Requests(f) == [LiveFixtures] && Renders(f) == [] && Queries(f) == [] && Timers(f) == [] by {
      assert f[..0] == [];
    }
    RequestsConcat(f, rest);
    RendersConcat(f, rest);
    QueriesConcat(f, rest);
    TimersConcat(f, rest);
    if Balanced(rest) {
      NoConnectionsBalanced(f);
      BalancedConcat(f, rest);
    }
  }

  /** Every poll asks the provider once and gives back every connection it takes. */
  lemma PollRequestsBalanced(w: Wiring, stored: Option<Schedule>, table: TimeoutTable, timeout: int, attempts: nat,
                             fetched: Result<Option<Json>, string>, now: int, env: DbEnv)
    ensures var p := PollOf(w, stored, table, timeout, attempts, fetched, now, env);
      Requests(p.events) == [LiveFixtures] && Balanced(p.events)
  {
    if fetched.Ok? {
      var data := fetched.value;
      var out := Extract(stored, data, w.startOf);
      var a := AnsweredPoll(w, stored, table, timeout, data, now, env);
      RequestFirst(a.events);
      if out.0.Err? {
        assert a.events == [];
      } else {
        var action := ActionOf(table, if out.0.value.Some? then out.0.value else out.1, now);
        assert a.events == ScheduledEvents(w, data, action, env);
        ScheduledRequestsRenders(w, data, action, env);
        ScheduledBalanced(w, data, action, env);
      }
    } else {
      FailedPollRules(attempts);
    }
  }

  /**
   * Only a non-empty list that went through the scheduler is rendered,
   * once, with the options of `LiveOptions`.
   */
  lemma PollRenders(w: Wiring, stored: Option<Schedule>, table: TimeoutTable, timeout: int, attempts: nat,
                    fetched: Result<Option<Json>, string>, now: int, env: DbEnv)
    ensures var p := PollOf(w, stored, table, timeout, attempts, fetched, now, env);
      Renders(p.events) ==
        (if fetched.Ok? && Extract(stored, fetched.value, w.startOf).0.Ok? && NonEmptyList(fetched.value)
         then [LiveOptions(w.stringify, fetched.value.value)] else [])
  {
    if fetched.Ok? {
      var data := fetched.value;
      var out := Extract(stored, data, w.startOf);
      var a := AnsweredPoll(w, stored, table, timeout, data, now, env);
      RequestFirst(a.events);
      if out.0.Err? {
        assert a.events == [];
      } else {
        var action := ActionOf(table, if out.0.value.Some? then out.0.value else out.1, now);
        assert a.events == ScheduledEvents(w, data, action, env);
        ScheduledRequestsRenders(w, data, action, env);
      }
    } else {
      FailedPollRules(attempts);
    }
  }

  /** Nothing is saved without a render and a connection. */
  lemma PollSavesOnlyRendered(w: Wiring, stored: Option<Schedule>, table: TimeoutTable, timeout: int, attempts: nat,
                              fetched: Result<Option<Json>, string>, now: int, env: DbEnv)
    ensures var p := PollOf(w, stored, table, timeout, attempts, fetched, now, env);
      Queries(p.events) != [] ==> Renders(p.events) != [] && env.connectOk
  {
    if fetched.Ok? {
      var data := fetched.value;
      var out := Extract(stored, data, w.startOf);
      var a := AnsweredPoll(w, stored, table, timeout, data, now, env);
      RequestFirst(a.events);
      if out.0.Err? {
        assert a.events == [];
      } else {
        var action := ActionOf(table, if out.0.value.Some? then out.0.value else out.1, now);
        assert a.events == ScheduledEvents(w, data, action, env);
        ScheduledRequestsRenders(w, data, action, env);
        ScheduledQueriesTimers(w, data, action, env);
        LiveSaveRules(PendingSql(w, data), LIVE_LOG, 0, env);
      }
    } else {
      FailedPollRules(attempts);
    }
  }

  /**
   * Extracting from a well-formed stored schedule: what is stored afterwards
   * is well formed, and the schedule handed on is either that one or
   * undefined with nothing changed.
   */
  lemma ExtractKeepsWellFormed(stored: Option<Schedule>, data: Option<Json>, startOf: Json -> int)
    requires stored.Some? ==> WellFormed(stored.value, startOf)
    requires Extract(stored, data, startOf).0.Ok?
    ensures var out := Extract(stored, data, startOf);
      (out.1.Some? ==> WellFormed(out.1.value, startOf))
      && (if out.0.value.Some? then out.0.value else out.1) == out.1
  {
    if IsArray(data) {
      BuildScheduleShape(data.value.items, startOf);
    }
  }

  /** The window of a well-formed schedule closes no earlier than it opens. */
  lemma WellFormedWindow(s: Schedule, startOf: Json -> int)
    requires WellFormed(s, startOf)
    ensures s.slotStart <= s.slotEnd
  {
    if |s.fixtures| > 1 {
      assert startOf(s.fixtures[0]) <= startOf(s.fixtures[|s.fixtures| - 1]);
    }
  }

  /** A well-formed schedule, or none, always has an action. */
  lemma ActionOfWellFormed(table: TimeoutTable, s: Option<Schedule>, startOf: Json -> int, now: int)
    requires s.Some? ==> WellFormed(s.value, startOf)
    ensures ActionOf(table, s, now).Some?
    ensures ActionOf(table, s, now).value.timeout == Timeout(table, Classify(s, now).value)
  {
    if s.Some? {
      WellFormedWindow(s.value, startOf);
    }
  }

  /**
   * The timeout fed back: when the scheduler's stored schedule is well
   * formed, a poll whose schedule was extracted always re-arms itself, with
   * attempts reset to 0, after the timeout of the mode of the schedule it
   * now stores, and that timeout becomes the scanner's; every other timer
   * of the poll is a retry of its save.
   */
  lemma ExtractedPollRearms(w: Wiring, stored: Option<Schedule>, table: TimeoutTable, timeout: int, attempts: nat,
                            data: Option<Json>, now: int, env: DbEnv)
    requires stored.Some? ==> WellFormed(stored.value, w.startOf)
    requires Extract(stored, data, w.startOf).0.Ok?
    ensures var p := PollOf(w, stored, table, timeout, attempts, Ok(data), now, env);
      p.result.Ok?
      && Classify(p.schedule, now).Some?
      && p.timeout == Timeout(table, Classify(p.schedule, now).value)
      && |Timers(p.events)| > 0 && Timers(p.events)[0] == (p.timeout, LiveFetch(0))
      && (forall i :: 1 <= i < |Timers(p.events)| ==> Timers(p.events)[i].1.RetryLiveSave?)
  {
    var out := Extract(stored, data, w.startOf);
    ExtractKeepsWellFormed(stored, data, w.startOf);
    ActionOfWellFormed(table, out.1, w.startOf, now);
    var action := ActionOf(table, out.1, now);
    var p := PollOf(w, stored, table, timeout, attempts, Ok(data), now, env);
    assert p.events == [Fetch(LiveFixtures)] + ScheduledEvents(w, data, action, env);
    RequestFirst(ScheduledEvents(w, data, action, env));
    ScheduledTimersRearm(w, data, action, env);
  }

  /** With an action, the first timer after the schedule is the next poll and the others are retries of the save. */
  lemma ScheduledTimersRearm(w: Wiring, data: Option<Json>, action: Option<ScheduleAction>, env: DbEnv)
    requires action.Some?
    ensures var ts := Timers(ScheduledEvents(w, data, action, env));
      |ts| > 0 && ts[0] == (action.value.timeout, LiveFetch(0))
      && forall i :: 1 <= i < |ts| ==> ts[i].1.RetryLiveSave?
  {
    var save := Timers(LiveSaveEvents(PendingSql(w, data), LIVE_LOG, 0, env));
    ScheduledQueriesTimers(w, data, action, env);
    LiveSaveRules(PendingSql(w, data), LIVE_LOG, 0, env);
    var ts := Timers(ScheduledEvents(w, data, action, env));
    assert ts == [(action.value.timeout, LiveFetch(0))] + save;
    forall i | 1 <= i < |ts| ensures ts[i].1.RetryLiveSave? {
      assert ts[i] == save[i - 1];
    }
  }

  // ---------------------------------------------------------------------------
  // ApiScannerLive

  class ApiScannerLive {
    const rt: Runtime
    const engine: NunjuckService
    const scheduler: SchedulerService
    /** `JSON.stringify`. */
    const stringify: Json -> string
    /** The delay of the next poll, in milliseconds. */
    var timeout: int

    /** The renderer records into the scanner's runtime and the scheduler keeps its invariant. */
    predicate Wired()
      reads this, scheduler
    {
      engine.rt == rt && scheduler.Valid()
    }

    function Deps(): Wiring {
      Wiring(scheduler.startOf, engine.template, stringify)
    }

    /** The constructor; the first poll, which the source starts from it, is `Run`. */
    constructor(rt: Runtime, engine: NunjuckService, scheduler: SchedulerService, stringify: Json -> string)
      requires engine.rt == rt && scheduler.Valid()
      ensures Wired()
      ensures this.rt == rt && this.engine == engine && this.scheduler == scheduler && this.stringify == stringify
      ensures timeout == INITIAL_TIMEOUT
    {
      this.rt := rt;
      this.engine := engine;
      this.scheduler := scheduler;
      this.stringify := stringify;
      timeout := INITIAL_TIMEOUT;
    }

    /** `run`: the first poll, at attempt 0. */
    method Run(fetched: Result<Option<Json>, string>, now: int, env: DbEnv) returns (r: Result<(), string>)
      requires Wired()
      modifies this, rt, scheduler
      ensures Wired()
      ensures scheduler.timeoutTable == old(scheduler.timeoutTable)
      ensures var p := PollOf(Deps(), old(scheduler.currentSchedule), old(scheduler.timeoutTable), old(timeout), 0, fetched, now, env);
        r == p.result && rt.trace == old(rt.trace) + p.events
        && scheduler.currentSchedule == p.schedule && timeout == p.timeout
    {
      r := Fetch(0, fetched, now, env);
    }

    /** `stop` does nothing: a running live scanner cannot be cancelled. */
    method Stop()
      requires Wired()
      ensures Wired()
      ensures rt.trace == old(rt.trace) && timeout == old(timeout)
    {
    }

    /** `fetch(attempts)`, the provider answering `fetched` at instant `now`. */
    method Fetch(attempts: nat, fetched: Result<Option<Json>, string>, now: int, env: DbEnv) returns (r: Result<(), string>)
      requires Wired()
      modifies this, rt, scheduler
      ensures Wired()
      ensures scheduler.timeoutTable == old(scheduler.timeoutTable)
      ensures var p := PollOf(Deps(), old(scheduler.currentSchedule), old(scheduler.timeoutTable), old(timeout), attempts, fetched, now, env);
        r == p.result && rt.trace == old(rt.trace) + p.events
        && scheduler.currentSchedule == p.schedule && timeout == p.timeout
    {
      ghost var t0 := rt.trace;
      rt.Emit(Event.Fetch(LiveFixtures));
      if fetched.Err? {
        if attempts < MAX_FETCH_ATTEMPTS {
          var _ := rt.ArmTimer(RetryDelay(attempts + 1), LiveFetch(attempts + 1));
        }
        AppendAssoc(t0, [Event.Fetch(LiveFixtures)], RetryEvents(attempts));
        return Ok(());
      }
      r := Answer(fetched.value, now, env);
      AppendAssoc(t0, [Event.Fetch(LiveFixtures)],
        AnsweredPoll(Deps(), old(scheduler.currentSchedule), old(scheduler.timeoutTable), old(timeout), fetched.value, now, env).events);
    }

    /** The part of `fetch` after the provider answered `data`. */
    method Answer(data: Option<Json>, now: int, env: DbEnv) returns (r: Result<(), string>)
      requires Wired()
      modifies this, rt, scheduler
      ensures Wired()
      ensures scheduler.timeoutTable == old(scheduler.timeoutTable)
      ensures var a := AnsweredPoll(Deps(), old(scheduler.currentSchedule), old(scheduler.timeoutTable), old(timeout), data, now, env);
        r == a.result && rt.trace == old(rt.trace) + a.events
        && scheduler.currentSchedule == a.schedule && timeout == a.timeout
    {
      var schedule := scheduler.ExtractSchedule(data);
      if schedule.Err? {
        return Err(schedule.error);
      }
      var action := scheduler.ProcessSchedule(schedule.value, now);
      Proceed(data, action, env);
      r := if action.Some? then Ok(()) else Err(TYPE_ERROR);
    }

    /** The rest of `fetch` once the action is known: update, read the action's timeout and re-arm, then the save started by the update. */
    method Proceed(data: Option<Json>, action: Option<ScheduleAction>, env: DbEnv)
      requires engine.rt == rt
      modifies this, rt
      ensures rt.trace == old(rt.trace) + ScheduledEvents(Deps(), data, action, env)
      ensures timeout == if action.Some? then action.value.timeout else old(timeout)
    {
      ghost var t0 := rt.trace;
      var pending: Option<string> := None;
      if NonEmptyList(data) {
        pending := Update(data.value);
      }
      if action.Some? {
        timeout := action.value.timeout;
        var _ := rt.ArmTimer(timeout, LiveFetch(0));
      }
      ghost var u, n := UpdateEvents(Deps(), data), NextPollEvents(action);
      AppendAssoc(t0, u, n);
      // `update` is not awaited: its save takes a connection once the poll is done.
      var _ := Save(pending, LIVE_LOG, 0, env);
      AppendAssoc(t0, u + n, LiveSaveEvents(pending, LIVE_LOG, 0, env));
    }

    /** `update(fixtures)` up to its save: a non-empty list is rendered with the LIVE log entry; the statement for `save` is returned. */
    method Update(fixtures: Json) returns (pending: Option<string>)
      requires engine.rt == rt
      modifies rt
      ensures pending == PendingSql(Deps(), Some(fixtures))
      ensures rt.trace == old(rt.trace) + UpdateEvents(Deps(), Some(fixtures))
    {
      if !NonEmptyList(Some(fixtures)) {
        return None;
      }
      var options := LiveOptions(stringify, fixtures);
      pending := engine.Render(options);
    }

    /** `save(sql, log, attempts)`: no persist-to-database check; a failure with attempts left arms a retry. */
    method Save(sql: Option<string>, log: string, attempts: nat, env: DbEnv) returns (r: Result<(), string>)
      modifies rt
      ensures r == LiveSaveResult(sql, env)
      ensures rt.trace == old(rt.trace) + LiveSaveEvents(sql, log, attempts, env)
    {
      if !Bettles.HasSql(sql) {
        return Ok(());
      }
      if !env.connectOk {
        return Err(CONNECT_ERROR);
      }
      rt.Emit(Connect);
      var ok := env.queryOk(sql.value);
      rt.Emit(Query(sql.value, ok));
      if !ok && attempts < Bettles.MAX_ATTEMPTS {
        rt.Emit(SetTimer(RetryDelay(attempts + 1), RetryLiveSave(sql.value, log, attempts + 1)));
      }
      rt.Emit(Release);
      r := Ok(());
    }
  }
}
