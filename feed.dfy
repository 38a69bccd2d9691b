/** The feed controller of the main page: the state it holds, the events that
    change it (a key press in the search box, a change of the box's text, and
    the settling of one photo request), a pure transition function over that
    state, and the `Body` object whose methods perform the same transitions in
    place. */
module Feed {
  import opened Photos

  /** How one search request settled, as seen by the controller.
      `Errors` is an error payload from the service; `Response` carries the
      results together with the statistics outcome of each result, position by
      position; `Threw` is an exception from the search call or from any of the
      statistics calls. */
  datatype SearchOutcome =
    | Errors(messages: seq<string>)
    | Response(results: seq<Photo>, stats: seq<StatsOutcome>)
    | Threw

  /** Every result got exactly one statistics lookup. */
  predicate WellFormed(o: SearchOutcome)
  {
    o.Response? ==> |o.stats| == |o.results|
  }

  /** The four pieces of state of the controller. `data` is absent until the
      first response or exception arrives; `query` is the committed search
      term and `searchInput` the text in the search box. */
  datatype FeedState = FeedState(
    data: Option<seq<Photo>>,
    error: Option<string>,
    query: string,
    searchInput: string)

  const DefaultQuery := "moody"
  const EnterKey := "Enter"

  /** The state on first render. */
  const Initial := FeedState(None, None, DefaultQuery, "")

  /** The loading view is shown instead of the feed. */
  predicate IsLoading(s: FeedState)
  {
    s.data.None?
  }

  /** A key press in the search box: Enter commits the box's text as the query. */
  function PressKey(s: FeedState, key: string): (r: FeedState)
    ensures r.query == (if key == EnterKey then s.searchInput else s.query)
    ensures r.data == s.data && r.error == s.error && r.searchInput == s.searchInput
  {
    if key == EnterKey then s.(query := s.searchInput) else s
  }

  /** The search box's text changes to value. */
  function ChangeInput(s: FeedState, value: string): (r: FeedState)
    ensures r.searchInput == value
    ensures r.data == s.data && r.error == s.error && r.query == s.query
  {
    s.(searchInput := value)
  }

  /** The first error message, or none when the payload lists no message. */
  function FirstError(messages: seq<string>): (r: Option<string>)
  {
    if |messages| > 0 then Some(messages[0]) else None
  }

  /** A photo request settles with outcome o. */
  function Settle(s: FeedState, o: SearchOutcome): (r: FeedState)
    requires WellFormed(o)
    ensures r.query == s.query && r.searchInput == s.searchInput
    ensures o.Errors? ==> r.data == s.data && r.error == FirstError(o.messages)
    ensures o.Response? ==> r.error == s.error && r.data.Some?
    ensures o.Response? ==> |r.data.value| == |o.results|
    ensures o.Response? ==> forall i :: 0 <= i < |o.results| ==> r.data.value[i] == Enrich(o.results[i], o.stats[i])
    ensures o.Threw? ==> r.error == None && r.data == Some(Placeholders())
  {
    match o
    case Errors(messages) => s.(error := FirstError(messages))
    case Response(results, stats) => s.(data := Some(EnrichAll(results, stats)))
    case Threw => s.(error := None, data := Some(Placeholders()))
  }

  datatype Event =
    | KeyPress(key: string)
    | InputChange(value: string)
    | Settled(outcome: SearchOutcome)

  predicate EventOk(e: Event)
  {
    e.Settled? ==> WellFormed(e.outcome)
  }

  predicate EventsOk(evs: seq<Event>)
  {
    forall i :: 0 <= i < |evs| ==> EventOk(evs[i])
  }

  /** The event puts a list of photos into `data`. */
  predicate SetsData(e: Event)
  {
    e.Settled? && !e.outcome.Errors?
  }

  /** One event. While the loading view shows, the search box is not on the
      page, so key and input events cannot reach it and change nothing. */
  function Step(s: FeedState, e: Event): (r: FeedState)
    requires EventOk(e)
  {
    match e
    case KeyPress(key) => if IsLoading(s) then s else PressKey(s, key)
    case InputChange(value) => if IsLoading(s) then s else ChangeInput(s, value)
    case Settled(o) => Settle(s, o)
  }

  /** The state after the events, in order. */
  function Run(s: FeedState, evs: seq<Event>): (r: FeedState)
    requires EventsOk(evs)
    decreases |evs|
  {
    if evs == [] then s else Run(Step(s, evs[0]), evs[1..])
  }

  lemma {:induction false} RunAppend(s: FeedState, a: seq<Event>, b: seq<Event>)
    requires EventsOk(a) && EventsOk(b)
    ensures EventsOk(a + b)
    ensures Run(s, a + b) == Run(Run(s, a), b)
    decreases |a|
  {
    assert forall i :: 0 <= i < |a + b| ==> (a + b)[i] == if i < |a| then a[i] else b[i - |a|];
    if a == [] {
      assert a + b == b;
    } else {
      assert (a + b)[1..] == a[1..] + b;
      RunAppend(Step(s, a[0]), a[1..], b);
    }
  }

  /** The loading view is shown after a run of events exactly when it was shown
      before and no event of the run put photos into `data`: once photos are
      shown, the loading view never comes back. */
  lemma {:induction false} LoadingUntilData(s: FeedState, evs: seq<Event>)
    requires EventsOk(evs)
    ensures IsLoading(Run(s, evs)) <==> IsLoading(s) && forall i :: 0 <= i < |evs| ==> !SetsData(evs[i])
    decreases |evs|
  {
    if evs != [] {
      LoadingUntilData(Step(s, evs[0]), evs[1..]);
      assert forall i :: 1 <= i < |evs| ==> evs[i] == evs[1..][i - 1];
    }
  }

  /** From the first render, the loading view is shown exactly until a response
      or an exception arrives; error payloads alone keep it. */
  lemma LoadingFromInitial(evs: seq<Event>)
    requires EventsOk(evs)
    ensures IsLoading(Run(Initial, evs)) <==> forall i :: 0 <= i < |evs| ==> !SetsData(evs[i])
  {
    LoadingUntilData(Initial, evs);
  }

  /** While the loading view still shows after a run of events, the query and
      the box's text are what they were before it. */
  lemma {:induction false} LoadingKeepsInput(s: FeedState, evs: seq<Event>)
    requires EventsOk(evs)
    requires IsLoading(Run(s, evs))
    ensures Run(s, evs).query == s.query && Run(s, evs).searchInput == s.searchInput
    decreases |evs|
  {
    if evs != [] {
      var t := Step(s, evs[0]);
      LoadingUntilData(t, evs[1..]);
      LoadingKeepsInput(t, evs[1..]);
    }
  }

  /** So, from the first render, the loading view always comes with the
      default query and an empty box. */
  lemma LoadingFromInitialKeepsInput(evs: seq<Event>)
    requires EventsOk(evs)
    requires IsLoading(Run(Initial, evs))
    ensures Run(Initial, evs).query == DefaultQuery && Run(Initial, evs).searchInput == ""
  {
    LoadingKeepsInput(Initial, evs);
  }

  /** Without an Enter key press the committed query never changes, whatever is
      typed and whatever requests settle. */
  lemma {:induction false} QueryChangesOnlyOnEnter(s: FeedState, evs: seq<Event>)
    requires EventsOk(evs)
    requires forall i :: 0 <= i < |evs| ==> evs[i] != KeyPress(EnterKey)
    ensures Run(s, evs).query == s.query
    decreases |evs|
  {
    if evs != [] {
      assert forall i :: 0 <= i < |evs[1..]| ==> evs[1..][i] == evs[i + 1];
      QueryChangesOnlyOnEnter(Step(s, evs[0]), evs[1..]);
    }
  }

  /** Events that put no photos into `data` leave it as it was. */
  lemma {:induction false} DataKept(s: FeedState, evs: seq<Event>)
    requires EventsOk(evs)
    requires forall i :: 0 <= i < |evs| ==> !SetsData(evs[i])
    ensures Run(s, evs).data == s.data
    decreases |evs|
  {
    if evs != [] {
      assert forall i :: 0 <= i < |evs[1..]| ==> evs[1..][i] == evs[i + 1];
      DataKept(Step(s, evs[0]), evs[1..]);
    }
  }

  /** The feed shows exactly what the last response or exception produced:
      earlier results are replaced, never kept or appended to, and nothing
      checks which query the settled request was made for. */
  lemma LastSettledWins(s: FeedState, before: seq<Event>, o: SearchOutcome, after: seq<Event>)
    requires EventsOk(before) && EventsOk(after) && WellFormed(o)
    requires o.Response? || o.Threw?
    requires forall i :: 0 <= i < |after| ==> !SetsData(after[i])
    ensures EventsOk(before + [Settled(o)] + after)
    ensures o.Response? ==> Run(s, before + [Settled(o)] + after).data == Some(EnrichAll(o.results, o.stats))
    ensures o.Threw? ==> Run(s, before + [Settled(o)] + after).data == Some(Placeholders())
  {
    var mid := [Settled(o)];
    RunAppend(s, before, mid);
    RunAppend(s, before + mid, after);
    var t := Run(s, before + mid);
    assert t == Settle(Run(s, before), o) by {
      assert mid[1..] == [];
    }
    DataKept(t, after);
  }

  /** The controller object. Each method performs one event in place and is
      proved to reach the state the transition function gives. */
  class Body {
    var data: Option<seq<Photo>>
    var error: Option<string>
    var query: string
    var searchInput: string

    function State(): FeedState
      reads this
    {
      FeedState(data, error, query, searchInput)
    }

    constructor ()
      ensures State() == Initial
    {
      data := None;
      error := None;
      query := DefaultQuery;
      searchInput := "";
    }

    /** The key handler of the search box, which exists only once the feed is
        shown. `refetch` tells whether the
        committed query changed, which is what makes the page request photos
        for it. */
    method HandleSearch(key: string) returns (refetch: bool)
      requires data.Some?
      modifies this
      ensures State() == PressKey(old(State()), key)
      ensures refetch <==> query != old(query)
    {
      var before := query;
      if key == EnterKey {
        query := searchInput;
      }
      refetch := query != before;
    }

    /** The change handler of the search box, which exists only once the feed
        is shown. */
    method HandleInputChange(value: string)
      requires data.Some?
      modifies this
      ensures State() == ChangeInput(old(State()), value)
    {
      searchInput := value;
    }

    /** A photo request for some query settles. */
    method FetchSettled(outcome: SearchOutcome)
      requires WellFormed(outcome)
      modifies this
      ensures State() == Settle(old(State()), outcome)
    {
      match outcome {
        case Errors(messages) =>
          error := FirstError(messages);
        case Response(results, stats) =>
          data := Some(EnrichAll(results, stats));
        case Threw =>
          error := None;
          data := Some(Placeholders());
      }
    }

    /** Whether this render shows the loading view instead of the feed. */
    method ShowsLoading() returns (loading: bool)
      ensures loading <==> IsLoading(State())
    {
      loading := data == None;
    }
  }
}
