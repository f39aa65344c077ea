/** The occupancy screen of one lot: its load/error/data state, the loads
    that drive it, the Retry button, and which of four views it shows.

    The fetch helper never throws: it yields the decoded response body, or
    `null` on any network, HTTP-status or JSON-parse failure. A load is
    therefore a start event followed by a finish event carrying that
    outcome. The body is not checked against the expected shape, so its
    `result` field may be missing (`undefined`). */
module OccupancyScreen {
  import opened Nullable
  import opened OccupancyStatus

  /** A decoded response body; `result` is `None` when the body lacks it. */
  datatype ApiResponse = ApiResponse(result: Option<ParkingSpotSummary>)

  /** The message a failed fetch leaves on the screen. */
  const FetchFailedMessage := "Failed to fetch data"

  /** The screen's three pieces of state. */
  datatype PageState = PageState(data: Option<ParkingSpotSummary>, loading: bool, error: Option<string>)
  {
    /** The only error a load can record is the fetch-failure message. */
    predicate Valid() { error == None || error == Some(FetchFailedMessage) }
  }

  /** The state on mount: no data, loading, no error. */
  const InitialState := PageState(None, true, None)

  /** The state updates of the screen: a load starts, a load finishes with
      the fetch's outcome (`None` for `null`), or Retry clears the error. */
  datatype PageEvent = LoadStarted | LoadFinished(response: Option<ApiResponse>) | ErrorCleared

  function Step(s: PageState, e: PageEvent): PageState
  {
    match e
    case LoadStarted => s.(loading := true)
    case LoadFinished(response) =>
      if response.Some? then s.(data := response.value.result, loading := false)
      else s.(error := Some(FetchFailedMessage), loading := false)
    case ErrorCleared => s.(error := None)
  }

  function Run(s: PageState, events: seq<PageEvent>): PageState
    decreases |events|
  {
    if events == [] then s else Run(Step(s, events[0]), events[1..])
  }

  /** One complete load whose fetch had the given outcome. */
  function LoadEvents(response: Option<ApiResponse>): seq<PageEvent>
  {
    [LoadStarted, LoadFinished(response)]
  }

  /** The Retry button: clear the error, then exactly one load. */
  function RetryEvents(response: Option<ApiResponse>): seq<PageEvent>
  {
    [ErrorCleared] + LoadEvents(response)
  }

  /** A series of complete loads, as the polling timer issues them. */
  function Polls(responses: seq<Option<ApiResponse>>): (events: seq<PageEvent>)
    ensures |events| == 2 * |responses|
    ensures forall i :: 0 <= i < |events| ==> events[i] != ErrorCleared
    decreases |responses|
  {
    if responses == [] then [] else LoadEvents(responses[0]) + Polls(responses[1..])
  }

  /** What the screen shows. */
  datatype Screen =
    | LoadingIndicator
    | ErrorPanel(message: string)
    | Dashboard(summary: ParkingSpotSummary, color: string, text: string)
    | NoDataMessage

  /** The render precedence: loading first, then a (truthy) error, then
      the data, and "No data available" when there is none. */
  function Render(s: PageState): (v: Screen)
    ensures v == LoadingIndicator <==> s.loading
    ensures v.ErrorPanel? <==> !s.loading && TruthyString(s.error)
    ensures v.ErrorPanel? ==> v.message == s.error.value
    ensures v.Dashboard? <==> !s.loading && !TruthyString(s.error) && s.data.Some?
    ensures v.Dashboard? ==> v.summary == s.data.value && v.color == StatusColor(s.data) && v.text == StatusText(s.data)
    ensures v == NoDataMessage <==> !s.loading && !TruthyString(s.error) && s.data.None?
  {
    if s.loading then LoadingIndicator
    else if TruthyString(s.error) then ErrorPanel(s.error.value)
    else if s.data.Some? then Dashboard(s.data.value, StatusColor(s.data), StatusText(s.data))
    else NoDataMessage
  }

  /** Running two event sequences is running their concatenation. */
  lemma {:induction false} RunAppend(s: PageState, a: seq<PageEvent>, b: seq<PageEvent>)
    ensures Run(s, a + b) == Run(Run(s, a), b)
    decreases |a|
  {
    if a == [] {
      assert a + b == b;
    } else {
      assert (a + b)[1..] == a[1..] + b;
      RunAppend(Step(s, a[0]), a[1..], b);
    }
  }

  /** Running two events is stepping twice. */
  lemma RunPair(s: PageState, a: PageEvent, b: PageEvent)
    ensures Run(s, [a, b]) == Step(Step(s, a), b)
  {
    assert [a, b][1..] == [b];
    assert [b][1..] == [];
    assert Run(s, [a, b]) == Run(Step(s, a), [b]);
    assert Run(Step(s, a), [b]) == Run(Step(Step(s, a), b), []);
  }

  /** The only error ever recorded is the fetch-failure message. */
  lemma {:induction false} RunKeepsValid(s: PageState, events: seq<PageEvent>)
    requires s.Valid()
    ensures Run(s, events).Valid()
    decreases |events|
  {
    if events != [] {
      RunKeepsValid(Step(s, events[0]), events[1..]);
    }
  }

  /** A load ends with the screen no longer loading, whatever the outcome:
      success replaces the data wholesale and leaves the error alone;
      failure records the error and keeps the previous data. */
  lemma LoadOutcome(s: PageState, response: Option<ApiResponse>)
    ensures var r := Run(s, LoadEvents(response));
            && !r.loading
            && (response.Some? ==> r.data == response.value.result && r.error == s.error)
            && (response.None? ==> r.data == s.data && r.error == Some(FetchFailedMessage))
  {
    RunPair(s, LoadStarted, LoadFinished(response));
  }

  /** An error is never cleared by loads, only by Retry: once set, it
      survives every sequence of events without `ErrorCleared`. */
  lemma {:induction false} ErrorClearedOnlyByRetry(s: PageState, events: seq<PageEvent>)
    requires s.error == Some(FetchFailedMessage)
    requires forall i :: 0 <= i < |events| ==> events[i] != ErrorCleared
    ensures Run(s, events).error == Some(FetchFailedMessage)
    decreases |events|
  {
    if events != [] {
      ErrorClearedOnlyByRetry(Step(s, events[0]), events[1..]);
    }
  }

  /** A stale error stays on screen: after a failure, any number of later
      polls, successful or not, still end on the error panel. */
  lemma {:induction false} StaleErrorStaysVisible(s: PageState, responses: seq<Option<ApiResponse>>)
    requires s.error == Some(FetchFailedMessage)
    requires |responses| > 0
    ensures Render(Run(s, Polls(responses))) == ErrorPanel(FetchFailedMessage)
    decreases |responses|
  {
    var first := Run(s, LoadEvents(responses[0]));
    LoadOutcome(s, responses[0]);
    RunAppend(s, LoadEvents(responses[0]), Polls(responses[1..]));
    if |responses| > 1 {
      StaleErrorStaysVisible(first, responses[1..]);
    } else {
      assert Polls(responses[1..]) == [];
    }
  }

  /** Retry after an error: a successful fetch shows its data (or "No data
      available" when the body has none), a failed one shows the error
      again with the previous data kept. */
  lemma RetryOutcome(s: PageState, response: Option<ApiResponse>)
    ensures var r := Run(s, RetryEvents(response));
            && (response.Some? && response.value.result.Some? ==>
                  Render(r) == Dashboard(response.value.result.value,
                                         StatusColor(response.value.result), StatusText(response.value.result)))
            && (response.Some? && response.value.result.None? ==> Render(r) == NoDataMessage)
            && (response.None? ==> Render(r) == ErrorPanel(FetchFailedMessage) && r.data == s.data)
  {
    var cleared := Step(s, ErrorCleared);
    RunAppend(s, [ErrorCleared], LoadEvents(response));
    LoadOutcome(cleared, response);
  }

  /** The occupancy screen's state, updated by the load callback and the
      Retry button. */
  class OccupancyPage {
    var data: Option<ParkingSpotSummary>
    var loading: bool
    var error: Option<string>

    function State(): PageState
      reads this
    {
      PageState(data, loading, error)
    }

    constructor ()
      ensures State() == InitialState && State().Valid()
    {
      data := None;
      loading := true;
      error := None;
    }

    /** The part of a load before the fetch is awaited. */
    method StartLoad()
      modifies this
      ensures loading && data == old(data) && error == old(error)
      ensures State() == Step(old(State()), LoadStarted)
    {
      loading := true;
    }

    /** The part of a load after the fetch resolves: store the result or
        record the failure, then stop loading. */
    method FinishLoad(response: Option<ApiResponse>)
      modifies this
      ensures !loading
      ensures response.Some? ==> data == response.value.result && error == old(error)
      ensures response.None? ==> data == old(data) && error == Some(FetchFailedMessage)
      ensures State() == Step(old(State()), LoadFinished(response))
    {
      if response.Some? {
        data := response.value.result;
      } else {
        error := Some(FetchFailedMessage);
      }
      loading := false;
    }

    /** One complete load whose fetch had the given outcome. */
    method LoadData(response: Option<ApiResponse>)
      modifies this
      ensures !loading
      ensures response.Some? ==> data == response.value.result && error == old(error)
      ensures response.None? ==> data == old(data) && error == Some(FetchFailedMessage)
      ensures State() == Run(old(State()), LoadEvents(response))
    {
      ghost var before := State();
      StartLoad();
      FinishLoad(response);
      RunPair(before, LoadStarted, LoadFinished(response));
    }

    /** The Retry button: clear the error, then load once. */
    method Retry(response: Option<ApiResponse>)
      modifies this
      ensures !loading
      ensures response.Some? ==> data == response.value.result && error == None
      ensures response.None? ==> data == old(data) && error == Some(FetchFailedMessage)
      ensures State() == Run(old(State()), RetryEvents(response))
    {
      error := None;
      LoadData(response);
      RunAppend(old(State()), [ErrorCleared], LoadEvents(response));
    }
  }
}
