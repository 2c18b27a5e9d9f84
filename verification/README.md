# Weather home screen: a state-machine model

This project models the logic of the home screen of a React Native weather
app (`screens/HomeScreen.js`). The screen keeps six state slots: search
open, candidate locations, weather payload, loading flag, selected day
index and the derived detail of the selected day. It reacts to a handful of
callbacks:

- the search toggle;
- the debounced search text;
- the location-search reply;
- the pick of a candidate;
- the startup storage read;
- the forecast replies;
- the press of a day in the forecast strip;
- an effect that re-derives the selected day.

In the model the slots form one immutable `State`. Each callback is a pure
function that returns the next state together with the requests it sends
out (`Outcome`). Requests are location search, forecast fetch, storage read
and storage write. Their replies come back as later `Event`s, in any order
or never. `Step` runs one event's callback and then the derived-day effect.
`Run` folds `Step` over a sequence of events.

Files:

- `weather_types.dfy` (`WeatherTypes`): the candidate location and the
  forecast payload. Display-only numbers stay opaque.
- `day_view.dfy` (`DayView`): the forecast strip and the selected-day
  derivation `weather?.forecast?.forecastday[i]?.day || null`.
- `home_screen.dfy` (`HomeScreen`): state, events, requests, handlers,
  the effect, `Step`, `Run`, the UI gating (`Enabled`) and the key-value
  storage.
- `home_events.dfy` (`HomeEvents`): what each event touches and sends.
- `home_traces.dfy` (`HomeTraces`): properties of whole runs. These cover
  the derived-day invariant, arrival-order wins for replies, the spinner
  that stays up, the shape of every request, who writes storage, the
  serialising effect of the spinner on the rendered screen, and the
  pick/restart round trip through storage.

Strings are `seq<char>`, where a `char` is a Unicode scalar value. The
length guard of `handleSearch` uses JavaScript's `length`, which counts
UTF-16 code units; `HomeScreen.JsLength` computes it, counting a character
outside the Basic Multilingual Plane twice.

### Behaviour worth knowing

- Replies carry no request token. A location reply overwrites the
  candidates whatever query it answers (lines 37-39), so of two
  outstanding searches the one answered last wins
  (`HomeEvents.LaterLocationsReplyWins`, `HomeTraces.LastLocationsReplyWins`).
  A forecast reply likewise installs its payload unconditionally (lines
  27, 55). On the rendered screen, though, forecast fetches are serialised:
  `loading` starts true (line 16), only a forecast reply clears it (lines
  28, 56), a pick raises it again (line 22), and no control is rendered
  while it is up (lines 80-85). So no pick happens before the startup reply
  (`HomeTraces.NoPickBeforeFirstForecast`), and a forecast reply arrives
  between any two picks (`HomeTraces.OneForecastFetchAtATime`). When every
  reply answers a fetch sent and not yet answered, and the stored city is
  read back once (the mount effect at lines 43-45 runs once), at most one
  forecast fetch is in flight (`HomeTraces.AtMostOneFetchInFlight`).
- Closing search only flips `showSearch` (line 101); the candidates stay
  (`HomeEvents.ToggleTouchesOnlySearch`). The debounced search is never
  cancelled (line 59), so a query can settle with search closed.
- Picking a location keeps the old weather until the reply arrives (lines
  20-22 do not touch `weather`).
- A forecast reply does not reset `selectedDayIndex` (lines 27-28, 55-56).
  If the index has no day in the new payload, the detail goes blank
  (`HomeEvents.StaleIndexBlanksDetail`).
- `handleDaily` does not range-check its index (lines 67-68). An index with no
  day shows nothing; it is not refused.
- The fetch promises have no rejection handler (lines 26-31, 54-57). After
  a failed fetch the loading flag stays up for good
  (`HomeTraces.UnansweredPickKeepsSpinner`).
- The startup fallback happens when the stored value is falsy (line 50).
  That includes the empty string (`HomeTraces.EmptyNameRestartsAtDefault`).
- The `days` parameter is the string `'7'` (lines 25, 53).

## Model

| member | source | states |
|---|---|---|
| DayView.Strip | screens/HomeScreen.js:202 | the strip lists no day when the weather or its forecast is missing |
| DayView.DeriveDay | screens/HomeScreen.js:70-72 | the shown day is the strip's tile at the same index; an index outside the strip (negative or too large) shows nothing instead of failing |
| HomeScreen.Mount | screens/HomeScreen.js:13-16 | search closed, no candidates, loading, no weather, index 0 and no shown day (the last two set at lines 63-64); the state is consistent; the only request is the read of `city` (line 48) |
| HomeScreen.ToggleSearch | screens/HomeScreen.js:101 | flips `showSearch` and leaves every other slot, the candidates included, unchanged |
| HomeScreen.JsLength | screens/HomeScreen.js:36 | JavaScript's `length`: at least the number of characters and at most twice it |
| HomeScreen.HandleSearch | screens/HomeScreen.js:34-41 | a request is sent iff the text's `length` exceeds two; it can only be a location search for that text; the state is unchanged |
| HomeScreen.ReceiveLocations | screens/HomeScreen.js:37-39 | the candidates become the reply's results and nothing else changes |
| HomeScreen.HandleLocation | screens/HomeScreen.js:18-25 | candidates emptied, search closed, loading set, every other slot (weather included) kept; one seven-day fetch for the picked name, tagged with the pick |
| HomeScreen.StartupCity | screens/HomeScreen.js:48-50 | the stored value when truthy, otherwise `Viet Name`; never empty |
| HomeScreen.FetchMyWeatherData | screens/HomeScreen.js:47-53 | no state change; exactly one seven-day startup fetch for the startup city |
| HomeScreen.ReceiveForecast | screens/HomeScreen.js:26-31 | weather replaced, loading cleared, every other slot kept; a reply to a pick writes the picked name under `city`, a startup reply writes nothing (lines 54-57) |
| HomeScreen.HandleDaily | screens/HomeScreen.js:66-69 | the index is recorded as given; the shown day agrees with it; nothing else changes |
| HomeScreen.DayEffect | screens/HomeScreen.js:70-72 | when a fresh payload was stored or the index changed, the shown day is re-derived; otherwise the state is left as it is; only the shown day is ever touched |
| HomeScreen.Step | screens/HomeScreen.js:18-72 | every event preserves agreement between the shown day and the day derived from weather and index, and a forecast reply or day press establishes it from any state; only a forecast reply writes the weather or lowers loading; only a location reply or a pick writes the candidates |
| HomeScreen.Enabled | screens/HomeScreen.js:80-209 | the controls the rendered screen offers: none while loading (lines 80-85), candidates only while search is open and listed (line 109), one tile per forecast day (lines 202-209); replies and settled queries are always possible |
| HomeScreen.GetData | screens/HomeScreen.js:48 | `getData('city')` resolves to the stored value exactly when the key was written, and to nothing otherwise |
| HomeScreen.LastWrite | screens/HomeScreen.js:29 | the last value written under a key is one of the writes sent |
| HomeTraces.WrittenKeyIsFound | screens/HomeScreen.js:29 | every key written among the requests has a last write |
| HomeTraces.LastWriteIsLast | screens/HomeScreen.js:29 | the value found is written at a position after which the key is not written again |
| HomeScreen.Persist | screens/HomeScreen.js:29 | after the writes, every key reads back its last written value, or its old value when not written; writes never remove a key; requests without writes leave the storage unchanged |
| HomeEvents.ToggleTouchesOnlySearch | screens/HomeScreen.js:101 | after the toggle and the effect, only `showSearch` differs; nothing is sent |
| HomeEvents.ToggleTwiceRestores | screens/HomeScreen.js:101 | toggling twice restores the state |
| HomeEvents.QueryLengthGuard | screens/HomeScreen.js:34-41 | texts whose `length` is at most two send nothing; longer ones send one search for that text; no slot changes |
| HomeEvents.JsLengthAppend | screens/HomeScreen.js:36 | `length` of a concatenation is the sum of the `length`s |
| HomeEvents.JsLengthOfChar | screens/HomeScreen.js:36 | one character has `length` 2 outside the Basic Multilingual Plane and 1 inside it |
| HomeEvents.BmpLengthIsCharCount | screens/HomeScreen.js:36 | for text inside the Basic Multilingual Plane, `length` is the number of characters |
| HomeEvents.AstralPairIsSearched | screens/HomeScreen.js:36-37 | a two-character text made of an emoji and a letter has `length` three and is searched for |
| HomeEvents.LocationsReplyOverwrites | screens/HomeScreen.js:37-39 | a location reply replaces the list, whichever query it answers and whether search is open |
| HomeEvents.LaterLocationsReplyWins | screens/HomeScreen.js:37-39 | of two replies the later arrival decides the list, even when it answers the older query |
| HomeEvents.PickKeepsWeather | screens/HomeScreen.js:18-25 | after a pick and the effect: list emptied, search closed, loading, weather/index/shown day kept, one seven-day fetch for the name |
| HomeEvents.ForecastReplyInstalls | screens/HomeScreen.js:26-31 | payload installed, loading cleared, index/search/candidates kept, the new payload's day at the old index shown from any state; a store write only for a pick |
| HomeEvents.StaleIndexBlanksDetail | screens/HomeScreen.js:70-72 | any forecast reply with no day at the kept index blanks the detail, even one carrying the payload already shown; the index is not reset |
| HomeEvents.StartupChoosesCity | screens/HomeScreen.js:47-58 | the storage read changes no slot and sends one seven-day startup fetch, for the stored city if truthy, else `Viet Name` |
| HomeEvents.DayPressRecordsIndex | screens/HomeScreen.js:66-69 | any index is recorded unchecked; the shown day is derived from the current weather, and an index with no day shows nothing |
| HomeEvents.PressedTileIsShown | screens/HomeScreen.js:202-209 | pressing a tile the strip offers shows that tile's day |
| HomeTraces.RunKeepsConsistent | screens/HomeScreen.js:66-72 | from any consistent state, every event sequence keeps the shown day equal to the derived day |
| HomeTraces.ShownDayAlwaysDerived | screens/HomeScreen.js:63-72 | from mount, after any sequence of events, the shown day equals the day derived from weather and index |
| HomeTraces.RunKeepsWeather | screens/HomeScreen.js:27 | without forecast replies the weather never changes |
| HomeTraces.RunKeepsLoading | screens/HomeScreen.js:28 | without forecast replies a raised loading flag stays raised |
| HomeTraces.RunKeepsLocations | screens/HomeScreen.js:20 | without location replies or picks the candidate list never changes |
| HomeTraces.LastForecastReplyWins | screens/HomeScreen.js:26-57 | the last forecast reply to arrive decides the weather; the callbacks cannot tell replies apart |
| HomeTraces.UnansweredPickKeepsSpinner | screens/HomeScreen.js:22-31 | a pick followed by no forecast reply leaves loading set for good |
| HomeTraces.LastLocationsReplyWins | screens/HomeScreen.js:37-39 | the last location reply decides the list unless a pick follows it |
| HomeTraces.StepSound | screens/HomeScreen.js:18-58 | each event sends only sound requests: searches whose `length` exceeds two, seven-day fetches with a non-empty startup city, storage under `city` |
| HomeTraces.RunSound | screens/HomeScreen.js:18-58 | every request sent over any run is sound |
| HomeTraces.AllRequestsSound | screens/HomeScreen.js:43-58 | from mount, including the startup read, every request sent is sound |
| HomeTraces.PickFetch | screens/HomeScreen.js:23-26 | the request a pick sends is a seven-day forecast fetch for the picked name, tagged with the pick |
| HomeTraces.RestartFetch | screens/HomeScreen.js:47-53 | the request sent after a restart is a seven-day startup fetch for the stored city when truthy, otherwise `Viet Name` |
| HomeTraces.OnlyPickRepliesWrite | screens/HomeScreen.js:26-57 | a storage write is sent only by a forecast reply to a pick, and it writes the picked name under `city` |
| HomeTraces.RunWritesNothing | screens/HomeScreen.js:26-57 | a run with no forecast reply to a pick sends no storage write |
| HomeTraces.PickReplyIsLastWrite | screens/HomeScreen.js:26-31 | in a run where the reply to a pick of `loc` is followed by no other pick reply, the last write to `city` is `loc.name` |
| HomeTraces.PickSurvivesRestart | screens/HomeScreen.js:29-53 | for any run in which the reply to a pick with a non-empty name is the last pick reply, restarting over the resulting storage fetches that same city at startup |
| HomeTraces.EmptyNameRestartsAtDefault | screens/HomeScreen.js:29-53 | over the same runs, a picked empty name is stored but reads back falsy, so the restart fetches `Viet Name` |
| HomeTraces.SpinnerBlocksUserEvents | screens/HomeScreen.js:80-85 | in a gated run from a loading state with no forecast reply there is no toggle, pick or day press |
| HomeTraces.NoPickBeforeFirstForecast | screens/HomeScreen.js:16-22 | in a gated run from mount, no pick happens before the first forecast reply |
| HomeTraces.OneForecastFetchAtATime | screens/HomeScreen.js:18-31 | in a gated run, after a pick no further pick happens until some forecast reply arrives |
| HomeTraces.AtMostOneFetchInFlight | screens/HomeScreen.js:16-85 | in a gated run from mount where each forecast reply answers an outstanding fetch and the stored city is read back at most once, at most one forecast fetch is outstanding; none while the controls are shown (lines 80-85), none before the read (lines 47-51) |
| HomeTraces.StepFetches | screens/HomeScreen.js:18-58 | a pick and the storage read each send exactly one forecast fetch; no other event sends any |
| HomeTraces.ListedPickIsInstalled | screens/HomeScreen.js:18-39 | after any run, a reply listing one candidate, its pick and the pick's forecast reply leave that forecast installed, search closed, the list empty and the spinner gone, and send the seven-day fetch and the write of the name |
| HomeTraces.LondonScenario | screens/HomeScreen.js:18-58 | from mount with nothing stored: the default city is fetched; "Lo" sends nothing, "Lon" one search; picking London from the reply fetches seven days for "London", and its reply leaves London's forecast shown, the spinner gone, index 0, search closed and "London" written under `city` |

## Left out

- Rendering, styling, images, icons and the layout of the forecast strip
  (lines 74-231) are presentation. Only the gating they imply is kept, in
  `HomeScreen.Enabled`: no controls while loading, candidates only while
  search is open, one tile per forecast day.
- The lodash debounce and its 1200 ms quiet window (line 59) are timing
  inside a library. Only the query that survives the window is modelled,
  as the `QuerySettled` event.
- `fetchLocations`, `fetchWeatherForecast`, `getData` and `storeData` are
  foreign asynchronous I/O whose bodies are not part of this model. They
  become emitted requests and later reply events. The storage is modelled
  as a plain key-value map (`HomeScreen.Storage`) only to state the
  restart round trip.
- Weekday naming through `Date` and `toLocaleDateString` (lines 203-206) is
  locale behaviour, so it is left out.
- The numeric forecast fields (`avgtemp_c`, `maxwind_kph`, `avghumidity`)
  are floats that are only displayed. They are kept opaque (`Reading`).
- Promise rejections have no handler in the source. A failed request is a
  reply event that never arrives. No retry or error state is invented.
- A payload whose `forecast` exists but lacks `forecastday` would make the
  optional chain throw in JavaScript. The model's `Forecast` always carries
  its day list, so that crash is not represented.
- HomeScreen.DayEffect: React compares the effect's dependencies by
  reference. The model treats every forecast reply as storing a fresh
  payload object, which holds when `fetchWeatherForecast` resolves to a
  newly parsed response each time (its body is not part of this model). The
  index is compared by value, which for numbers is what `Object.is` does.
- React's render scheduling is abstracted. Each event is one callback
  followed by one run of the derived-day effect. The state setters of one
  callback are applied together. Whether React batches the setters of a
  promise callback (lines 27-29, 55-56) depends on its version; unbatched,
  the intermediate renders differ but the final state is the same.
