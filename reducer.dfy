/**
 * The application state, its three actions and the reducer `nextState`,
 * together with what replaying a whole history of dispatched actions yields.
 */
module Reducer {
  import opened Wrappers
  import opened Forecast

  /** `upcomingWeather` is `None` (JavaScript `null`) until the first load completes. */
  datatype AppState = AppState(upcomingWeather: Option<seq<UpcomingWeatherItem>>, isLoading: bool, lastUpdated: int)

  datatype Action =
    | Initialization
    | LoadBegan
    | LoadComplete(lastUpdated: int, upcomingWeather: seq<UpcomingWeatherItem>)

  /** `defaultAppState`. */
  const DefaultAppState := AppState(None, false, 0)

  /**
   * `nextState`: an absent current state (`undefined`) is replaced by the
   * default; every branch returns a copy and never changes its input.
   */
  function NextState(currentState: Option<AppState>, action: Action): AppState
  {
    var current := if currentState.Some? then currentState.value else DefaultAppState;
    match action
    case LoadBegan => current.(isLoading := true)
    case LoadComplete(lastUpdated, upcomingWeather) =>
      current.(isLoading := false, upcomingWeather := Some(upcomingWeather), lastUpdated := lastUpdated)
    case Initialization => current
  }

  lemma LoadBeganMarksLoading(s: AppState)
    ensures NextState(Some(s), LoadBegan).isLoading
    ensures NextState(Some(s), LoadBegan).upcomingWeather == s.upcomingWeather
    ensures NextState(Some(s), LoadBegan).lastUpdated == s.lastUpdated
  {
  }

  lemma LoadCompleteInstallsPayload(s: Option<AppState>, lastUpdated: int, upcomingWeather: seq<UpcomingWeatherItem>)
    ensures !NextState(s, LoadComplete(lastUpdated, upcomingWeather)).isLoading
    ensures NextState(s, LoadComplete(lastUpdated, upcomingWeather)).upcomingWeather == Some(upcomingWeather)
    ensures NextState(s, LoadComplete(lastUpdated, upcomingWeather)).lastUpdated == lastUpdated
  {
  }

  lemma InitializationIsIdentity(s: AppState)
    ensures NextState(Some(s), Initialization) == s
    ensures NextState(None, Initialization) == AppState(None, false, 0)
  {
  }

  /** Re-applying the same action to the state it produced changes nothing. */
  lemma NextStateIdempotent(s: Option<AppState>, action: Action)
    ensures NextState(Some(NextState(s, action)), action) == NextState(s, action)
  {
  }

  /** The state a store holds after the reducer's initial call and then `history`, in order. */
  function Replay(history: seq<Action>): AppState
    decreases |history|
  {
    if history == [] then NextState(None, Initialization)
    else NextState(Some(Replay(history[..|history| - 1])), history[|history| - 1])
  }

  lemma ReplayAppend(history: seq<Action>, action: Action)
    ensures Replay(history + [action]) == NextState(Some(Replay(history)), action)
  {
    assert (history + [action])[..|history|] == history;
  }

  /** No `LoadComplete` was dispatched after position `i`. */
  predicate NoCompletionAfter(history: seq<Action>, i: int)
  {
    forall j :: i < j < |history| && j >= 0 ==> !history[j].LoadComplete?
  }

  lemma NoCompletionAfterAppend(prefix: seq<Action>, action: Action, i: int)
    requires -1 <= i < |prefix|
    ensures NoCompletionAfter(prefix + [action], i) <==> NoCompletionAfter(prefix, i) && !action.LoadComplete?
  {
    var history := prefix + [action];
    if NoCompletionAfter(history, i) {
      assert !history[|prefix|].LoadComplete?;
      forall j | i < j < |prefix| && j >= 0 ensures !prefix[j].LoadComplete? {
        assert history[j] == prefix[j];
      }
    }
  }

  /** The store is loading exactly when some `LoadBegan` has had no `LoadComplete` after it. */
  lemma {:induction false} ReplayLoadingFollowsHistory(history: seq<Action>)
    ensures Replay(history).isLoading <==>
              exists i :: 0 <= i < |history| && history[i].LoadBegan? && NoCompletionAfter(history, i)
    decreases |history|
  {
    if history != [] {
      var n := |history| - 1;
      var prefix := history[..n];
      var action := history[n];
      assert history == prefix + [action];
      ReplayAppend(prefix, action);
      ReplayLoadingFollowsHistory(prefix);
      forall i | 0 <= i < n
        ensures NoCompletionAfter(history, i) <==> NoCompletionAfter(prefix, i) && !action.LoadComplete?
      {
        NoCompletionAfterAppend(prefix, action, i);
      }
      match action
      case Initialization =>
        if Replay(prefix).isLoading {
          var i :| 0 <= i < n && prefix[i].LoadBegan? && NoCompletionAfter(prefix, i);
          assert history[i].LoadBegan? && NoCompletionAfter(history, i);
        }
      case LoadBegan =>
        assert NoCompletionAfter(history, n);
      case LoadComplete(_, _) =>
    }
  }

  /**
   * The forecast is absent exactly when nothing has completed, and the timestamp
   * is then 0; otherwise forecast and timestamp are those of the latest
   * `LoadComplete`.
   */
  lemma {:induction false} ReplayForecastFollowsHistory(history: seq<Action>)
    ensures Replay(history).upcomingWeather.None? <==> NoCompletionAfter(history, -1)
    ensures NoCompletionAfter(history, -1) ==> Replay(history).lastUpdated == 0
    ensures forall i :: 0 <= i < |history| && history[i].LoadComplete? && NoCompletionAfter(history, i) ==>
              Replay(history).upcomingWeather == Some(history[i].upcomingWeather) &&
              Replay(history).lastUpdated == history[i].lastUpdated
    decreases |history|
  {
    if history != [] {
      var n := |history| - 1;
      var prefix := history[..n];
      var action := history[n];
      assert history == prefix + [action];
      ReplayAppend(prefix, action);
      ReplayForecastFollowsHistory(prefix);
      NoCompletionAfterAppend(prefix, action, -1);
      forall i | 0 <= i < n
        ensures NoCompletionAfter(history, i) <==> NoCompletionAfter(prefix, i) && !action.LoadComplete?
      {
        NoCompletionAfterAppend(prefix, action, i);
      }
    }
  }

  /** After any number of `LoadBegan` with nothing completing, the store keeps loading and keeps the old forecast. */
  lemma {:induction false} LoadBeganWithoutCompletionKeepsLoading(history: seq<Action>, attempts: nat)
    requires attempts > 0
    ensures Replay(history + seq(attempts, _ => LoadBegan)).isLoading
    ensures Replay(history + seq(attempts, _ => LoadBegan)).upcomingWeather == Replay(history).upcomingWeather
    ensures Replay(history + seq(attempts, _ => LoadBegan)).lastUpdated == Replay(history).lastUpdated
    decreases attempts
  {
    var began := seq(attempts, _ => LoadBegan);
    var fewer := seq(attempts - 1, _ => LoadBegan);
    assert began == fewer + [LoadBegan];
    assert history + began == (history + fewer) + [LoadBegan];
    ReplayAppend(history + fewer, LoadBegan);
    if attempts > 1 {
      LoadBeganWithoutCompletionKeepsLoading(history, attempts - 1);
    } else {
      assert history + fewer == history;
    }
  }
}
