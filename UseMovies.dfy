/**
 * The search hook of src/useMovies.tsx as a state machine over `movies`,
 * `isLoading` and `error`.
 *
 * The HTTP call is abstracted away: each request is a token (a `nat`), and the
 * way it ends is an input event. The hook's effect runs once per change of
 * `query`. It first runs the previous run's cleanup, which aborts that run's
 * request. Then it applies the length gate and, for a long enough query,
 * invokes the callback and starts one request.
 */
module UseMovies {
  import opened Wrappers
  import opened Types

  /** The error shown for a response whose HTTP status is not ok. */
  const NotOkMessage: string := "something went wrong with fetching movies"
  /** The error shown for a response whose `Response` field is `'False'`. */
  const NotFoundMessage: string := "Movie not found"
  /** Queries shorter than this (by `query.length`, untrimmed) start no request. */
  const MinQueryLength: nat := 3

  /** How the network side of a request ends when the request was not aborted. */
  datatype Response =
    | Found(search: seq<Movie>)   // status ok and `Response` is not 'False': the `Search` array
    | NotOk                       // `res.ok` is false
    | NoMatch                     // status ok, but `data.Response === 'False'`
    | Failed(message: string)     // any other thrown `Error` (network failure, unreadable JSON)

  /** A request still in flight: the query it was sent for, and whether its controller has aborted it. */
  datatype Request = Request(query: string, aborted: bool)

  /**
   * What the hook does outside its own state, in order. The callback is the
   * one `App` passes (`handleCloseMovie`), so it is always present.
   */
  datatype Effect = Callback | Fetch(query: string, token: nat)

  /** Everything the hook holds. `controller` is the token whose abort the pending cleanup will signal. */
  datatype Search = Search(
    query: string,
    movies: seq<Movie>,
    isLoading: bool,
    error: string,
    controller: Option<nat>,
    inFlight: map<nat, Request>,
    nextToken: nat,
    effects: seq<Effect>)

  /** The inputs of the machine: a new query, or the end of one request. */
  datatype Event = QueryChange(query: string) | Settle(token: nat, response: Response)

  /** The state when the hook mounts with the empty query: that query is short, so no request is made. */
  function Initial(): Search
  {
    Search("", [], false, "", None, map[], 0, [])
  }

  /** The previous effect run's cleanup: `controller.abort()` on the request it started, if any. */
  function Cleanup(s: Search): (r: Search)
    ensures r.controller == None && r.inFlight.Keys == s.inFlight.Keys
    ensures forall t | t in s.inFlight ::
      r.inFlight[t].query == s.inFlight[t].query &&
      r.inFlight[t].aborted == (s.inFlight[t].aborted || s.controller == Some(t))
    ensures r.(controller := s.controller, inFlight := s.inFlight) == s
  {
    match s.controller
    case None => s
    case Some(t) =>
      var inFlight := if t in s.inFlight then s.inFlight[t := s.inFlight[t].(aborted := true)] else s.inFlight;
      s.(controller := None, inFlight := inFlight)
  }

  /** The effect re-run for query `q`: nothing when `q` equals the current query (React compares dependencies). */
  function OnQuery(s: Search, q: string): (r: Search)
    ensures q == s.query ==> r == s
    // the previous request is aborted; the other requests in flight are left alone
    ensures q != s.query ==> r.query == q && forall t | t in s.inFlight && t != s.nextToken ::
      t in r.inFlight && r.inFlight[t].query == s.inFlight[t].query &&
      r.inFlight[t].aborted == (s.inFlight[t].aborted || s.controller == Some(t))
    // the length gate: a short query clears the results and the error, invokes no callback, starts no request
    ensures q != s.query && |q| < MinQueryLength ==>
      r.movies == [] && r.error == "" && r.isLoading == s.isLoading &&
      r.effects == s.effects && r.nextToken == s.nextToken &&
      r.inFlight.Keys == s.inFlight.Keys && r.controller == None
    // a long query invokes the callback, then starts exactly one request, which is loading with no error
    ensures q != s.query && |q| >= MinQueryLength ==>
      r.effects == s.effects + [Callback, Fetch(q, s.nextToken)] &&
      r.isLoading && r.error == "" && r.movies == s.movies &&
      r.controller == Some(s.nextToken) && r.nextToken == s.nextToken + 1 &&
      r.inFlight.Keys == s.inFlight.Keys + {s.nextToken} &&
      r.inFlight[s.nextToken] == Request(q, false)
  {
    if q == s.query then s
    else
      var c := Cleanup(s);
      if |q| < MinQueryLength then
        c.(query := q, movies := [], error := "")
      else
        var t := s.nextToken;
        c.(query := q, isLoading := true, error := "", controller := Some(t),
           inFlight := c.inFlight[t := Request(q, false)], nextToken := t + 1,
           effects := s.effects + [Callback, Fetch(q, t)])
  }

  /**
   * Request `t` ends. An aborted request ends in an `AbortError`, whatever the
   * network did: the catch ignores it. Every ending, the abort included, runs
   * the `finally` that clears `isLoading`.
   */
  function OnSettle(s: Search, t: nat, response: Response): (r: Search)
    requires t in s.inFlight
    ensures !r.isLoading
    ensures r.inFlight == s.inFlight - {t}
    ensures r.query == s.query && r.controller == s.controller && r.nextToken == s.nextToken && r.effects == s.effects
    ensures s.inFlight[t].aborted ==> r.movies == s.movies && r.error == s.error
    ensures !s.inFlight[t].aborted ==>
      match response
      case Found(ms) => r.movies == ms && r.error == ""
      case NotOk => r.movies == s.movies && r.error == NotOkMessage
      case NoMatch => r.movies == s.movies && r.error == NotFoundMessage
      case Failed(m) => r.movies == s.movies && r.error == m
  {
    var done := s.(inFlight := s.inFlight - {t}, isLoading := false);
    if s.inFlight[t].aborted then done
    else
      match response
      case Found(ms) => done.(movies := ms, error := "")
      case NotOk => done.(error := NotOkMessage)
      case NoMatch => done.(error := NotFoundMessage)
      case Failed(m) => done.(error := m)
  }

  /** One event. A request settles once, so a settle event for a token not in flight does nothing. */
  function Step(s: Search, e: Event): Search
  {
    match e
    case QueryChange(q) => OnQuery(s, q)
    case Settle(t, response) => if t in s.inFlight then OnSettle(s, t, response) else s
  }

  /** The state after a sequence of events. */
  function Run(s: Search, events: seq<Event>): Search
    decreases |events|
  {
    if events == [] then s else Run(Step(s, events[0]), events[1..])
  }

  /**
   * The ordering the abort signal enforces: every in-flight request that has
   * not been aborted is the one the pending cleanup will abort, and it was sent
   * for the current query. Tokens are handed out in increasing order.
   */
  ghost predicate Inv(s: Search)
  {
    (forall t | t in s.inFlight :: t < s.nextToken) &&
    (forall t | t in s.inFlight && !s.inFlight[t].aborted ::
      s.controller == Some(t) && s.inFlight[t].query == s.query)
  }

  lemma InitialInv()
    ensures Inv(Initial())
  {
  }

  lemma OnQueryKeepsInv(s: Search, q: string)
    requires Inv(s)
    ensures Inv(OnQuery(s, q))
  {
    if q != s.query {
      var c := Cleanup(s);
      assert forall t | t in c.inFlight :: c.inFlight[t].aborted;
    }
  }

  lemma OnSettleKeepsInv(s: Search, t: nat, response: Response)
    requires Inv(s) && t in s.inFlight
    ensures Inv(OnSettle(s, t, response))
  {
  }

  /** Every state reachable from a state satisfying the invariant satisfies it. */
  lemma {:induction false} RunKeepsInv(s: Search, events: seq<Event>)
    requires Inv(s)
    ensures Inv(Run(s, events))
    decreases |events|
  {
    if events != [] {
      match events[0] {
        case QueryChange(q) => OnQueryKeepsInv(s, q);
        case Settle(t, response) =>
          if t in s.inFlight {
            OnSettleKeepsInv(s, t, response);
          }
      }
      RunKeepsInv(Step(s, events[0]), events[1..]);
    }
  }

  /**
   * A request commits movies or an error only when it is the request of the
   * current query: a superseded request never overwrites the state.
   */
  lemma OnlyCurrentRequestCommits(s: Search, t: nat, response: Response)
    requires Inv(s) && t in s.inFlight
    requires OnSettle(s, t, response).movies != s.movies || OnSettle(s, t, response).error != s.error
    ensures s.controller == Some(t) && s.inFlight[t].query == s.query
  {
  }

  /**
   * Along any sequence of query changes and responses from the mounted hook,
   * whatever a response commits belongs to the last query issued.
   */
  lemma LastQueryWins(events: seq<Event>, t: nat, response: Response)
    requires t in Run(Initial(), events).inFlight
    requires
      var s := Run(Initial(), events);
      OnSettle(s, t, response).movies != s.movies || OnSettle(s, t, response).error != s.error
    ensures
      var s := Run(Initial(), events);
      s.inFlight[t].query == s.query && s.controller == Some(t) && |s.query| >= MinQueryLength
  {
    var s := Run(Initial(), events);
    RunKeepsInv(Initial(), events);
    OnlyCurrentRequestCommits(s, t, response);
    FetchedQueriesAreLong(events);
  }

  /** Every request was sent for a query that passed the length gate. */
  ghost predicate RequestsAreLong(s: Search)
  {
    forall t | t in s.inFlight :: |s.inFlight[t].query| >= MinQueryLength
  }

  lemma {:induction false} RunKeepsRequestsLong(s: Search, events: seq<Event>)
    requires RequestsAreLong(s)
    ensures RequestsAreLong(Run(s, events))
    decreases |events|
  {
    if events != [] {
      RunKeepsRequestsLong(Step(s, events[0]), events[1..]);
    }
  }

  lemma FetchedQueriesAreLong(events: seq<Event>)
    ensures RequestsAreLong(Run(Initial(), events))
  {
    RunKeepsRequestsLong(Initial(), events);
  }

  /**
   * As written, an aborted request's `finally` clears `isLoading` even when a
   * newer request is still in flight: after typing "abc" then "abcd", the end
   * of the aborted "abc" request leaves the "abcd" request pending with
   * `isLoading` false.
   */
  lemma AbortedRequestClearsLoadingOfNewer()
    ensures
      var s := Run(Initial(), [QueryChange("abc"), QueryChange("abcd"), Settle(0, NotOk)]);
      !s.isLoading && s.controller == Some(1) && 1 in s.inFlight && !s.inFlight[1].aborted && s.error == ""
  {
    var s1 := OnQuery(Initial(), "abc");
    var s2 := OnQuery(s1, "abcd");
    assert s2.inFlight[0].aborted;
    var s3 := OnSettle(s2, 0, NotOk);
    assert Run(Initial(), [QueryChange("abc"), QueryChange("abcd"), Settle(0, NotOk)]) == s3 by {
      var es := [QueryChange("abc"), QueryChange("abcd"), Settle(0, NotOk)];
      assert es[1..] == [QueryChange("abcd"), Settle(0, NotOk)];
      assert es[1..][1..] == [Settle(0, NotOk)];
    }
  }

  /** The hook's state slots, the pending cleanup's controller and the requests in flight. */
  class MovieSearch {
    var query: string
    var movies: seq<Movie>
    var isLoading: bool
    var error: string
    var controller: Option<nat>
    var inFlight: map<nat, Request>
    var nextToken: nat
    var effects: seq<Effect>

    function State(): Search
      reads this
    {
      Search(query, movies, isLoading, error, controller, inFlight, nextToken, effects)
    }

    /** Mounting with the empty query. */
    constructor ()
      ensures State() == Initial()
    {
      query, movies, isLoading, error := "", [], false, "";
      controller, inFlight, nextToken, effects := None, map[], 0, [];
    }

    /** The query changes (or is set to the same value, which React ignores). */
    method SetQuery(q: string)
      modifies this
      ensures State() == OnQuery(old(State()), q)
    {
      if q == query {
        return;
      }
      // cleanup of the previous run
      if controller.Some? {
        var t := controller.value;
        if t in inFlight {
          inFlight := inFlight[t := inFlight[t].(aborted := true)];
        }
        controller := None;
      }
      query := q;
      if |q| < MinQueryLength {
        movies := [];
        error := "";
        return;
      }
      effects := effects + [Callback];
      // fetchMovies() runs synchronously up to its first await
      var t := nextToken;
      nextToken := nextToken + 1;
      isLoading := true;
      error := "";
      inFlight := inFlight[t := Request(q, false)];
      effects := effects + [Fetch(q, t)];
      controller := Some(t);
    }

    /** Request `t` ends with `response`, or with an `AbortError` if it was aborted. */
    method Settle(t: nat, response: Response)
      requires t in inFlight
      modifies this
      ensures State() == OnSettle(old(State()), t, response)
    {
      var aborted := inFlight[t].aborted;
      inFlight := inFlight - {t};
      if !aborted {
        match response
        case Found(ms) =>
          movies := ms;
          error := "";
        case NotOk =>
          error := NotOkMessage;
        case NoMatch =>
          error := NotFoundMessage;
        case Failed(m) =>
          error := m;
      }
      // finally
      isLoading := false;
    }
  }
}
