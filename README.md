# partly-cloudy: the state and forecast logic of the weather screen

The app is one React Native screen that fetches a multi-day forecast, keeps it
in a Redux-style store and shows the current day plus a row of tiles for the
upcoming days. This Dafny project models the logic inside `App.tsx` that is
not layout or framework glue:

- **Reducer** (`reducer.dfy`, module `Reducer`): `AppState`
  (`upcomingWeather`, `isLoading`, `lastUpdated`), the three actions
  `Initialization | LoadBegan | LoadComplete(lastUpdated, upcomingWeather)`,
  `defaultAppState` and the pure reducer `nextState`. An absent current state
  (JavaScript `undefined`) is modelled as `None` and replaced by the default.
  `Replay` folds a history of dispatched actions through the reducer. Two
  lemmas pin down what the store holds after any history. It is loading
  exactly when some `LoadBegan` has had no `LoadComplete` after it. The
  forecast and timestamp are those of the latest `LoadComplete`, or
  `null`/0 before any.
- **Store and refresh** (`store.dfy`, module `AppStore`): the singleton store
  is a class with a mutable `state` field. Its `Dispatch` replaces the state
  by `nextState(state, action)`. A ghost `history` records every dispatched
  action, and `Valid()` ties `state` to `Replay(history)`.
  `OnRequestUpdatedData` runs one refresh: dispatch `LoadBegan`, then shape
  the fetched data, then dispatch `LoadComplete`. The fetched `daily.data`
  array and the wall-clock time are parameters. `None` stands for a fetch
  that throws. The source has no `try`/`catch`, so on that path only
  `LoadBegan` is dispatched and the store stays loading with the old
  forecast.
- **Forecast shaping** (`forecast.dfy`, module `Forecast`):
  `daily.data.sort(by time).slice(0, 4).map(...)`. The sort reorders the
  array in place. It is modelled as a stable insertion sort on an `array`,
  because ECMAScript's `Array.prototype.sort` is stable. A ghost index map
  records where each entry came from. The `map` callback keeps the source's
  field swap exactly as written: `temperatureLow` becomes `highTemperature`
  and `temperatureHigh` becomes `lowTemperature`.
- **Scene** (`scene.dfy`, module `Scene`): `emojiForDescription`, the four
  `dayColors`, the tiles the scene renders per upcoming day, and the
  `WeatherScene` component with its `selectedDay` state.
  `this.props.upcomingWeather[selectedDay]` is `undefined` when `selectedDay`
  is past the end, and the next read of `selectedDayItem.highTemperature`
  (App.tsx:184) then throws a `TypeError`; the model returns `None` there.
  The loading screen guards only against an absent forecast (`null`), so this
  happens when a loaded forecast is empty, or when a refresh returns fewer
  days than the index a user selected earlier: `selectedDay` is never reset.

Temperatures are JSON numbers. They are only copied, so they are modelled as
`real`. Times and timestamps are `int`.

## Model

| member | source | states |
|---|---|---|
| `Reducer.LoadBeganMarksLoading` | App.tsx:58-62 | `LOAD_BEGAN` yields `isLoading = true` and keeps `upcomingWeather` and `lastUpdated` |
| `Reducer.LoadCompleteInstallsPayload` | App.tsx:63-69 | `LOAD_COMPLETE` yields `isLoading = false` and `upcomingWeather`, `lastUpdated` equal to the action's payload, whatever the prior (or absent) state |
| `Reducer.InitializationIsIdentity` | App.tsx:48-72 | `INITIALIZATION` returns the state unchanged; with no state it returns the default `{null, false, 0}` |
| `Reducer.NextStateIdempotent` | App.tsx:54-72 | applying the same action twice gives the same state as applying it once |
| `Reducer.ReplayLoadingFollowsHistory` | App.tsx:54-72 | after any history, `isLoading` holds exactly when some `LOAD_BEGAN` has had no `LOAD_COMPLETE` after it |
| `Reducer.ReplayForecastFollowsHistory` | App.tsx:48-72 | after any history, the forecast is `null` exactly when nothing has completed, and `lastUpdated` is then 0; otherwise forecast and `lastUpdated` are those of the latest `LOAD_COMPLETE` |
| `Reducer.LoadBeganWithoutCompletionKeepsLoading` | App.tsx:89-93 | any number of begun refreshes that never complete leave the store loading with the forecast and timestamp it had before |
| `AppStore.Store.constructor` | App.tsx:74 | the store starts in `defaultAppState` with an empty history |
| `AppStore.Store.Dispatch` | App.tsx:90-92 | the new state is `nextState(old state, action)`, the action is appended to the history, and the state still equals the replayed history |
| `AppStore.OnRequestUpdatedData` | App.tsx:89-108 | on failure only `LOAD_BEGAN` is dispatched and the state is the old one with `isLoading = true`; on success the array ends sorted by time, a permutation of its old contents in which entries of equal `time` keep their original order, `LOAD_BEGAN` then `LOAD_COMPLETE(now, shaped list)` are dispatched, and the state is `{shaped list, false, now}`; a store whose completed forecasts all fit four tiles keeps that property |
| `AppStore.StoredForecastFits` | App.tsx:94-107 | while every completed forecast has at most four days, the stored forecast has at most four days |
| `Forecast.SortByTime` | App.tsx:95 | the array ends sorted ascending by `time`, a permutation of its old contents, and entries of equal `time` keep their original order |
| `Forecast.ShapeForecast` | App.tsx:94-102 | sorts the array in place as above and returns `Shape` of the sorted array |
| `Forecast.KeptAreEarliest` | App.tsx:95-96 | the kept entries number `min(4, n)`, form a sub-multiset of the input, and every input entry left out is at least as late as every kept entry |
| `Forecast.ShapeOfSorted` | App.tsx:95-102 | the shaped list has `min(4, n)` items in non-decreasing `date` order; item `i` has `highTemperature = temperatureLow`, `lowTemperature = temperatureHigh`, `date = time` and `icon = icon` of kept entry `i` |
| `Scene.EmojiForDescription` | App.tsx:454-463 | total; returns the sun glyph exactly for `"clear-day"`, the partly-cloudy glyph exactly for `"partly-cloudy-day"`, and the cloud glyph exactly for every other string |
| `Scene.DayColorAt` | App.tsx:160 | `dayColors[index]` is defined exactly for `index < 4` and is then the `index`-th colour |
| `Scene.DayTiles` | App.tsx:199-213 | one tile per upcoming day |
| `Scene.ShapedTilesAreColored` | App.tsx:199-208 | for a forecast of at most four days every tile gets a colour, no two tiles share one, and each tile shows its day's glyph |
| `Scene.OneTileSelected` | App.tsx:199-206 | the tile at `selectedDay` is the only highlighted one, and none is highlighted when `selectedDay` is past the end |
| `Scene.WeatherScene.constructor` | App.tsx:161-166 | a new scene holds its forecast and `selectedDay = 0` |
| `Scene.WeatherScene.ReceiveProps` | App.tsx:117-125 | a re-render with a new forecast keeps `selectedDay` as it was |
| `Scene.WeatherScene.Press` | App.tsx:204-206 | pressing a tile sets `selectedDay` to that tile's index, which is within the forecast |
| `Scene.WeatherScene.SelectedDayItem` | App.tsx:168-170 | the selected day's item exists exactly when `selectedDay` is within the forecast, and it is then the item at that index, whose tile is highlighted |

## Left out

- `fetchWeather` and the HTTP request and JSON decoding (App.tsx:447-452): network I/O. Its outcome is the `fetched` parameter of `OnRequestUpdatedData`, with `None` for any exception.
- `createStore`'s subscriber list, `store.subscribe`, `forceUpdate` and the React lifecycle (`componentDidMount`, `render`, App.tsx:74-87, 110-126): framework plumbing. Only the dispatch-to-reducer step is modelled.
- AppStore.Store.Dispatch: does not notify subscribers, because the subscriber list is framework plumbing.
- The choice in `App.render` between `LoadingScene` and `WeatherScene` (App.tsx:113-116): view selection; it only tests `upcomingWeather == null`.
- Redux's own initial action: the reducer treats it like `INITIALIZATION` (unrecognised, state returned unchanged). The closed `Action` datatype has no constructor for it.
- Reducer.LoadCompleteInstallsPayload: the payload's `upcomingWeather` is typed `any` in the source; the model fixes it to a list of items, the only thing ever dispatched.
- Forecast.SortByTime: does not model the comparator `a.time - b.time` on missing or non-integer times (`NaN`); times are integers here.
- All view components and their layout and styles: `LoadingScene`, `CurrentWeather`, `DayItem` (App.tsx:220-443). These are UI rendering.
- `Animated.spring` and `interpolate` in `DayItem` (App.tsx:364-388): floating-point animation values driven by the framework.
- The `Math.floor((high + low) / 2)` averages (App.tsx:183-186, 209-211). They are floating-point midpoints of the two temperatures and are not modelled.
- `moment` date formatting (App.tsx:207, 311) and `new Date().getTime()` (App.tsx:106, 182): a foreign library and the wall clock. Timestamps are `int` parameters.
- Scene.DayTiles: the `dayName` and `averageTemperature` props of each tile are omitted (date formatting and floating point, above).
- Overlapping refreshes and async interleaving of `onRequestUpdatedData`: concurrency. The model runs one refresh at a time.
