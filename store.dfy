/**
 * The singleton store created from `nextState`, and the refresh
 * `onRequestUpdatedData` that drives it: `LOAD_BEGAN`, the fetch, the shaping
 * of the forecast, then `LOAD_COMPLETE`.
 */
module AppStore {
  import opened Wrappers
  import opened Forecast
  import opened Reducer

  /** The store: its current state, and the actions dispatched to it so far. */
  class Store {
    var state: AppState
    ghost var history: seq<Action>

    ghost predicate Valid()
      reads this
    {
      state == Replay(history)
    }

    /** `createStore(nextState)`: the reducer is first called with no state. */
    constructor ()
      ensures Valid() && history == []
      ensures state == DefaultAppState
    {
      state := NextState(None, Initialization);
      history := [];
    }

    /** `store.dispatch(action)`: the state becomes `nextState(state, action)`. */
    method Dispatch(action: Action)
      requires Valid()
      modifies this
      ensures Valid() && history == old(history) + [action]
      ensures state == NextState(Some(old(state)), action)
    {
      ReplayAppend(history, action);
      state := NextState(Some(state), action);
      history := history + [action];
    }
  }

  /** Every forecast ever completed in `history` fits the four day tiles. */
  ghost predicate PayloadsFit(history: seq<Action>)
  {
    forall i :: 0 <= i < |history| && history[i].LoadComplete? ==> |history[i].upcomingWeather| <= MaxUpcomingDays
  }

  /**
   * `onRequestUpdatedData`. `fetched` is the decoded `daily.data` array, or
   * `None` when `fetchWeather` (or reading `daily.data`) throws; then nothing
   * after the first dispatch runs. `now` is the wall-clock time of completion.
   * On success `origin` records where each sorted entry came from; on failure it is empty.
   */
  method OnRequestUpdatedData(store: Store, fetched: Option<array<DailyEntry>>, now: int) returns (ghost origin: seq<nat>)
    requires store.Valid()
    modifies store, if fetched.Some? then {fetched.value} else {}
    ensures store.Valid()
    ensures old(PayloadsFit(store.history)) ==> PayloadsFit(store.history)
    ensures fetched.None? ==>
              store.history == old(store.history) + [LoadBegan] &&
              store.state == old(store.state).(isLoading := true)
    ensures fetched.Some? ==>
              SortedByTime(fetched.value[..]) &&
              multiset(fetched.value[..]) == multiset(old(fetched.value[..])) &&
              IsStableArrangement(fetched.value[..], old(fetched.value[..]), origin) &&
              store.history == old(store.history) + [LoadBegan, LoadComplete(now, Shape(fetched.value[..]))] &&
              store.state == AppState(Some(Shape(fetched.value[..])), false, now)
  {
    origin := [];
    store.Dispatch(LoadBegan);
    if fetched.Some? {
      var upcomingWeather;
      upcomingWeather, origin := ShapeForecast(fetched.value);
      ShapeOfSorted(old(fetched.value[..]), fetched.value[..]);
      store.Dispatch(LoadComplete(now, upcomingWeather));
    }
  }

  /** While every completed forecast came from shaping, the store never holds more than four days. */
  lemma StoredForecastFits(history: seq<Action>)
    requires PayloadsFit(history)
    ensures Replay(history).upcomingWeather.Some? ==> |Replay(history).upcomingWeather.value| <= MaxUpcomingDays
  {
    ReplayForecastFollowsHistory(history);
    if Replay(history).upcomingWeather.Some? {
      var i := LastCompletion(history);
    }
  }

  /** The position of the latest `LoadComplete` in a history that has one. */
  lemma LastCompletion(history: seq<Action>) returns (i: nat)
    requires !NoCompletionAfter(history, -1)
    ensures i < |history| && history[i].LoadComplete? && NoCompletionAfter(history, i)
    decreases |history|
  {
    var n := |history| - 1;
    if history[n].LoadComplete? {
      i := n;
    } else {
      assert !NoCompletionAfter(history[..n], -1);
      i := LastCompletion(history[..n]);
    }
  }
}
