/**
 * What the crawler does outside its own objects, recorded in order: database
 * connections taken from and given back to the pool, statements run and
 * whether they succeeded, render calls, requests to the data provider, JSON
 * files written, and timers armed and cleared. The pool, the provider, the
 * renderer, the file system and the timer queue are not modelled beyond this
 * record; their answers are inputs of the operations that use them.
 */
module Effects {
  import opened Wrappers
  import opened Js
  import opened TemplateEngine

  /** A request to the sports-data provider. */
  datatype Request =
    | FullSeason(seasonId: Option<Json>)
    | TeamsOfSeason(seasonId: Option<Json>)
    | SeasonStandings(seasonId: Option<Json>)
    | LeaguesWithCurrentSeasons
    | LiveFixtures

  /** The call a timer makes when it fires. */
  datatype Call =
    | RetrySave(sql: string, log: string, attempts: nat)
    | RetryLiveSave(sql: string, log: string, attempts: nat)
    | LiveFetch(attempts: nat)
    | RunSeasons
    | RunStandings

  datatype Event =
    | Connect
    | Release
    | Query(sql: string, ok: bool)
    | Render(options: TemplateOptions)
    | Fetch(request: Request)
    | WriteJson(path: string, data: Option<Json>)
    | SetTimer(delay: int, call: Call)
    | ClearTimer(handle: Option<nat>)

  /**
   * The data provider's answers during one crawl cycle: the season, its teams
   * and its standings for a season id, and the leagues with their current
   * seasons. `Err` is a rejected request; `Ok(None)` an undefined payload.
   */
  datatype Provider = Provider(
    fullSeason: Option<Json> -> Result<Option<Json>, string>,
    teamsOfSeason: Option<Json> -> Result<Option<Json>, string>,
    seasonStandings: Option<Json> -> Result<Option<Json>, string>,
    leagues: Result<Option<Json>, string>)

  /** What an awaited call did and how it settled. */
  datatype Outcome = Outcome(events: seq<Event>, result: Result<(), string>)

  /** `await a; await b;`: `b` runs only when `a` resolves. */
  function AndThen(a: Outcome, b: Outcome): (o: Outcome)
    ensures a.result.Err? ==> o == a
    ensures a.result.Ok? ==> o.events == a.events + b.events && o.result == b.result
  {
    if a.result.Err? then a else Outcome(a.events + b.events, b.result)
  }

  /** Records regrouped: appending in two steps is appending the two parts at once. */
  lemma AppendAssoc<T>(a: seq<T>, b: seq<T>, c: seq<T>)
    ensures (a + b) + c == a + (b + c)
  {}

  /** Awaiting three calls in turn does not depend on how they are grouped. */
  lemma AndThenAssoc(a: Outcome, b: Outcome, c: Outcome)
    ensures AndThen(AndThen(a, b), c) == AndThen(a, AndThen(b, c))
  {
    if a.result.Ok? && b.result.Ok? {
      AppendAssoc(a.events, b.events, c.events);
    }
  }

  lemma AndThenBalanced(a: Outcome, b: Outcome)
    requires Balanced(a.events) && Balanced(b.events)
    ensures Balanced(AndThen(a, b).events)
  {
    if a.result.Ok? {
      BalancedConcat(a.events, b.events);
    }
  }

  /** The rejection of an operation that cannot take a connection from the pool. */
  const CONNECT_ERROR := "connect failed"

  /** A row of the scanner-log query: the last hash recorded for an identifier. */
  datatype LogRow = LogRow(identifier: string, rowType: string, hash: string)

  /**
   * The database's answers: whether a connection can be taken from the pool,
   * the rows of the scanner-log query (None when that query fails), and
   * which statements succeed.
   */
  datatype DbEnv = DbEnv(connectOk: bool, logRows: Option<seq<LogRow>>, queryOk: string -> bool)

  /**
   * Whether a connection is held after the events of `t`, or None when `t`
   * connects while holding a connection or releases one it does not hold.
   */
  function Held(t: seq<Event>): Option<bool>
  {
    if t == [] then Some(false)
    else
      var e := t[|t| - 1];
      match Held(t[..|t| - 1])
      case None => None
      case Some(open) =>
        if e.Connect? then (if open then None else Some(true))
        else if e.Release? then (if open then Some(false) else None)
        else Some(open)
  }

  /** Every connection taken is given back exactly once, and none is taken twice. */
  predicate Balanced(t: seq<Event>) {
    Held(t) == Some(false)
  }

  /** The events after a balanced prefix behave as if they started on their own. */
  lemma {:induction false} HeldAfterBalanced(a: seq<Event>, b: seq<Event>)
    requires Balanced(a)
    ensures Held(a + b) == Held(b)
    decreases |b|
  {
    if b != [] {
      assert (a + b)[..|a + b| - 1] == a + b[..|b| - 1];
      HeldAfterBalanced(a, b[..|b| - 1]);
    } else {
      assert a + b == a;
    }
  }

  lemma BalancedConcat(a: seq<Event>, b: seq<Event>)
    requires Balanced(a) && Balanced(b)
    ensures Balanced(a + b)
  {
    HeldAfterBalanced(a, b);
  }

  /** A run of events that touches no connection. */
  predicate NoConnections(t: seq<Event>) {
    forall i :: 0 <= i < |t| ==> !t[i].Connect? && !t[i].Release?
  }

  lemma {:induction false} NoConnectionsBalanced(t: seq<Event>)
    requires NoConnections(t)
    ensures Balanced(t)
    decreases |t|
  {
    if t != [] {
      NoConnectionsBalanced(t[..|t| - 1]);
    }
  }

  /** The connection use of one statement: take a connection, run, give it back. */
  lemma OneQueryBalanced(sql: string, ok: bool, between: seq<Event>)
    requires NoConnections(between)
    ensures Balanced([Connect, Query(sql, ok)] + between + [Release])
  {
    var t := [Connect, Query(sql, ok)] + between + [Release];
    NoConnectionsBalanced(between);
    assert Held([Connect]) == Some(true) by {
      assert [Connect][..0] == [];
    }
    assert Held([Connect, Query(sql, ok)]) == Some(true) by {
      assert [Connect, Query(sql, ok)][..1] == [Connect];
    }
    assert Held([Connect, Query(sql, ok)] + between) == Some(true) by {
      HeldWhileOpen([Connect, Query(sql, ok)], between);
    }
    assert t[..|t| - 1] == [Connect, Query(sql, ok)] + between;
  }

  lemma {:induction false} HeldWhileOpen(a: seq<Event>, b: seq<Event>)
    requires Held(a) == Some(true) && NoConnections(b)
    ensures Held(a + b) == Some(true)
    decreases |b|
  {
    if b == [] {
      assert a + b == a;
    } else {
      assert (a + b)[..|a + b| - 1] == a + b[..|b| - 1];
      HeldWhileOpen(a, b[..|b| - 1]);
    }
  }

  /** The timers armed in `t`, in order, as (delay, call) pairs. */
  function Timers(t: seq<Event>): seq<(int, Call)>
  {
    if t == [] then []
    else
      var e := t[|t| - 1];
      Timers(t[..|t| - 1]) + (if e.SetTimer? then [(e.delay, e.call)] else [])
  }

  lemma {:induction false} TimersConcat(a: seq<Event>, b: seq<Event>)
    ensures Timers(a + b) == Timers(a) + Timers(b)
    decreases |b|
  {
    if b == [] {
      assert a + b == a;
    } else {
      assert (a + b)[..|a + b| - 1] == a + b[..|b| - 1];
      TimersConcat(a, b[..|b| - 1]);
    }
  }

  /** The statements run in `t`, in order, with their outcomes. */
  function Queries(t: seq<Event>): seq<(string, bool)>
  {
    if t == [] then []
    else
      var e := t[|t| - 1];
      Queries(t[..|t| - 1]) + (if e.Query? then [(e.sql, e.ok)] else [])
  }

  lemma {:induction false} QueriesConcat(a: seq<Event>, b: seq<Event>)
    ensures Queries(a + b) == Queries(a) + Queries(b)
    decreases |b|
  {
    if b == [] {
      assert a + b == a;
    } else {
      assert (a + b)[..|a + b| - 1] == a + b[..|b| - 1];
      QueriesConcat(a, b[..|b| - 1]);
    }
  }

  /** The requests made to the data provider in `t`, in order. */
  function Requests(t: seq<Event>): seq<Request>
  {
    if t == [] then []
    else
      var e := t[|t| - 1];
      Requests(t[..|t| - 1]) + (if e.Fetch? then [e.request] else [])
  }

  lemma {:induction false} RequestsConcat(a: seq<Event>, b: seq<Event>)
    ensures Requests(a + b) == Requests(a) + Requests(b)
    decreases |b|
  {
    if b == [] {
      assert a + b == a;
    } else {
      assert (a + b)[..|a + b| - 1] == a + b[..|b| - 1];
      RequestsConcat(a, b[..|b| - 1]);
    }
  }

  /** The options of the render calls in `t`, in order. */
  function Renders(t: seq<Event>): seq<TemplateOptions>
  {
    if t == [] then []
    else
      var e := t[|t| - 1];
      Renders(t[..|t| - 1]) + (if e.Render? then [e.options] else [])
  }

  lemma {:induction false} RendersConcat(a: seq<Event>, b: seq<Event>)
    ensures Renders(a + b) == Renders(a) + Renders(b)
    decreases |b|
  {
    if b == [] {
      assert a + b == a;
    } else {
      assert (a + b)[..|a + b| - 1] == a + b[..|b| - 1];
      RendersConcat(a, b[..|b| - 1]);
    }
  }

  /** A run of events that asks the data provider for nothing. */
  predicate NoFetches(t: seq<Event>) {
    forall i :: 0 <= i < |t| ==> !t[i].Fetch?
  }

  lemma {:induction false} NoFetchesNoRequests(t: seq<Event>)
    requires NoFetches(t)
    ensures Requests(t) == []
    decreases |t|
  {
    if t != [] {
      NoFetchesNoRequests(t[..|t| - 1]);
    }
  }

  /** Events of the database gateway alone: no request to the data provider and no file written. */
  predicate GatewayOnly(t: seq<Event>) {
    forall i :: 0 <= i < |t| ==> !t[i].Fetch? && !t[i].WriteJson?
  }

  lemma GatewayOnlyConcat(a: seq<Event>, b: seq<Event>)
    requires GatewayOnly(a) && GatewayOnly(b)
    ensures GatewayOnly(a + b)
  {
    forall i | 0 <= i < |a + b| ensures !(a + b)[i].Fetch? && !(a + b)[i].WriteJson? {
      if i >= |a| {
        assert (a + b)[i] == b[i - |a|];
      }
    }
  }

  /** The record every component appends to. */
  class Runtime {
    var trace: seq<Event>

    constructor()
      ensures trace == []
    {
      trace := [];
    }

    method Emit(e: Event)
      modifies this
      ensures trace == old(trace) + [e]
    {
      trace := trace + [e];
    }

    /** `setTimeout(call, delay)`: the handle is the timer's position in the record. */
    method ArmTimer(delay: int, call: Call) returns (handle: nat)
      modifies this
      ensures handle == |old(trace)|
      ensures trace == old(trace) + [SetTimer(delay, call)]
    {
      handle := |trace|;
      trace := trace + [SetTimer(delay, call)];
    }
  }
}
