/** The state machine of the home screen. The component's `useState` slots
    form one immutable `State`; every callback the screen reacts to is an
    `Event`, and its handler is a pure function returning the next state
    together with the requests it sends out (location search, forecast fetch,
    storage read or write). Replies to those requests come back as later
    events, in any order, and nothing tells an old reply from a new one. */
module HomeScreen {
  import opened WeatherTypes
  import opened DayView

  /** The storage key under which the last picked city is kept. */
  const CityKey: string := "city"

  /** The city forecast at startup when nothing truthy is stored. */
  const DefaultCity: string := "Viet Name"

  /** The `days` parameter of every forecast request (a string in the source). */
  const ForecastDays: string := "7"

  /** Who asked for a forecast: the user's pick of `loc`, or startup. The reply
      callback of a pick closes over `loc`; the startup callback over nothing. */
  datatype Origin = UserPick(loc: Loc) | Startup

  /** An outgoing request; the screen never waits for it synchronously. */
  datatype Request =
    | SearchLocations(cityName: string)
    | FetchForecast(cityName: string, days: string, origin: Origin)
    | ReadStored(key: string)
    | Store(key: string, value: string)

  /** Everything the screen reacts to after it has mounted. */
  datatype Event =
    | SearchToggled                                    // the magnifier button
    | QuerySettled(text: string)                       // the debounced text survives its quiet window
    | LocationsArrived(query: string, results: seq<Loc>) // a location search resolves
    | LocationPicked(loc: Loc)                         // a candidate is pressed
    | StoredCityRead(value: Option<string>)            // the startup storage read resolves
    | ForecastArrived(origin: Origin, data: Payload)   // a forecast fetch resolves
    | DayPressed(index: int)                           // a tile of the forecast strip is pressed

  /** The component's state slots. `weather` is None for the initial `[]`,
      whose forecast chain reads as missing. */
  datatype State = State(
    showSearch: bool,
    locations: seq<Loc>,
    weather: Option<Payload>,
    loading: bool,
    selectedDayIndex: int,
    selectedDayWeather: Option<Day>)

  /** The result of reacting to one event. */
  datatype Outcome = Outcome(state: State, requests: seq<Request>)

  /** The values the `useState` calls start from. */
  const Initial: State := State(false, [], None, true, 0, None)

  /** The derived-day slot agrees with the weather and the selected index. */
  predicate Consistent(s: State) {
    s.selectedDayWeather == DeriveDay(s.weather, s.selectedDayIndex)
  }

  /** JavaScript truthiness of the value the storage read resolves to:
      a missing value and the empty string are both falsy. */
  predicate Truthy(stored: Option<string>) {
    stored.Some? && stored.value != ""
  }

  /** The first render and its mount effect: the initial state, and the
      storage read with which `fetchMyWeatherData` starts. */
  function Mount(): (o: Outcome)
    ensures Consistent(o.state)
    ensures !o.state.showSearch && o.state.locations == [] && o.state.loading
    ensures o.state.weather.None? && o.state.selectedDayIndex == 0 && o.state.selectedDayWeather.None?
    ensures o.requests == [ReadStored(CityKey)]
  {
    Outcome(Initial, [ReadStored(CityKey)])
  }

  /** The magnifier button: flips the search box and nothing else. */
  function ToggleSearch(s: State): (r: State)
    ensures r.showSearch != s.showSearch
    ensures r.(showSearch := s.showSearch) == s
  {
    s.(showSearch := !s.showSearch)
  }

  /** JavaScript's `length` of a string: it counts UTF-16 code units, so a
      character outside the Basic Multilingual Plane counts twice. */
  function JsLength(text: string): (n: nat)
    ensures |text| <= n <= 2 * |text|
    decreases |text|
  {
    if text == [] then 0
    else JsLength(text[..|text| - 1]) + (if text[|text| - 1] as int >= 0x1_0000 then 2 else 1)
  }

  /** `handleSearch`: a query whose `length` exceeds two asks for candidate
      locations; the state is untouched either way, and whether search is
      still open is not consulted. */
  function HandleSearch(s: State, value: string): (o: Outcome)
    ensures o.state == s
    ensures o.requests != [] <==> JsLength(value) > 2
    ensures forall r | r in o.requests :: r == SearchLocations(value)
  {
    if JsLength(value) > 2 then Outcome(s, [SearchLocations(value)]) else Outcome(s, [])
  }

  /** The location search's reply callback: the candidates are replaced
      wholesale by the reply, whatever query produced it. */
  function ReceiveLocations(s: State, results: seq<Loc>): (r: State)
    ensures r.locations == results
    ensures r.(locations := s.locations) == s
  {
    s.(locations := results)
  }

  /** `handleLocation`: clears the candidates, closes search, shows the
      spinner and fetches seven days for the picked name; the previous
      weather stays until a reply arrives. */
  function HandleLocation(s: State, loc: Loc): (o: Outcome)
    ensures o.state.locations == [] && !o.state.showSearch && o.state.loading
    ensures o.state.(locations := s.locations, showSearch := s.showSearch, loading := s.loading) == s
    ensures o.requests == [FetchForecast(loc.name, ForecastDays, UserPick(loc))]
  {
    Outcome(s.(locations := [], showSearch := false, loading := true),
            [FetchForecast(loc.name, ForecastDays, UserPick(loc))])
  }

  /** The city `fetchMyWeatherData` asks for: the stored value when it is
      truthy, the default city otherwise. It is never empty. */
  function StartupCity(stored: Option<string>): (city: string)
    ensures city != ""
    ensures Truthy(stored) ==> city == stored.value
    ensures !Truthy(stored) ==> city == DefaultCity
  {
    if Truthy(stored) then stored.value else DefaultCity
  }

  /** The rest of `fetchMyWeatherData` once the storage read resolves: a
      seven-day request for the startup city, with no state change. */
  function FetchMyWeatherData(s: State, stored: Option<string>): (o: Outcome)
    ensures o.state == s
    ensures |o.requests| == 1 && o.requests[0].FetchForecast?
    ensures o.requests[0].origin == Startup && o.requests[0].days == ForecastDays
    ensures o.requests[0].cityName == StartupCity(stored)
  {
    Outcome(s, [FetchForecast(StartupCity(stored), ForecastDays, Startup)])
  }

  /** A forecast reply callback: the weather is replaced and the spinner
      hidden. Only a reply to a user's pick writes the picked name to
      storage. Neither the selected index nor anything else is reset. */
  function ReceiveForecast(s: State, origin: Origin, data: Payload): (o: Outcome)
    ensures o.state.weather == Some(data) && !o.state.loading
    ensures o.state.(weather := s.weather, loading := s.loading) == s
    ensures origin.UserPick? ==> o.requests == [Store(CityKey, origin.loc.name)]
    ensures origin.Startup? ==> o.requests == []
  {
    var next := s.(weather := Some(data), loading := false);
    match origin
    case UserPick(loc) => Outcome(next, [Store(CityKey, loc.name)])
    case Startup => Outcome(next, [])
  }

  /** `handleDaily`: records the index as given, with no range check, and
      shows that day's record read from the current weather. */
  function HandleDaily(s: State, index: int): (r: State)
    ensures r.selectedDayIndex == index
    ensures Consistent(r)
    ensures r.(selectedDayIndex := s.selectedDayIndex, selectedDayWeather := s.selectedDayWeather) == s
  {
    s.(selectedDayIndex := index, selectedDayWeather := DeriveDay(s.weather, index))
  }

  /** The effect on `[weather, selectedDayIndex]`. React compares the
      dependencies with `Object.is`: a forecast reply always stores a fresh
      payload object (`freshWeather`), while the index counts as changed only
      when the number differs. After a render in which either dependency
      changed, the derived-day slot is recomputed; otherwise the effect does
      not run. */
  function DayEffect(before: State, after: State, freshWeather: bool): (r: State)
    ensures r.(selectedDayWeather := after.selectedDayWeather) == after
    ensures freshWeather || after.selectedDayIndex != before.selectedDayIndex ==> Consistent(r)
    ensures !freshWeather && after.selectedDayIndex == before.selectedDayIndex ==> r == after
  {
    if freshWeather || after.selectedDayIndex != before.selectedDayIndex then
      after.(selectedDayWeather := DeriveDay(after.weather, after.selectedDayIndex))
    else
      after
  }

  /** The callback an event invokes, before the effect runs. */
  function Handle(s: State, e: Event): Outcome {
    match e
    case SearchToggled => Outcome(ToggleSearch(s), [])
    case QuerySettled(text) => HandleSearch(s, text)
    case LocationsArrived(_, results) => Outcome(ReceiveLocations(s, results), [])
    case LocationPicked(loc) => HandleLocation(s, loc)
    case StoredCityRead(value) => FetchMyWeatherData(s, value)
    case ForecastArrived(origin, data) => ReceiveForecast(s, origin, data)
    case DayPressed(index) => Outcome(HandleDaily(s, index), [])
  }

  /** One event in full: its callback, then the derived-day effect. Every
      event keeps the derived-day slot in agreement with its sources, and a
      forecast reply or a day press puts it in agreement from any state.
      Only a forecast reply writes the weather or lowers the spinner; only a
      location reply or a pick writes the candidates. */
  function Step(s: State, e: Event): (o: Outcome)
    ensures Consistent(s) ==> Consistent(o.state)
    ensures e.ForecastArrived? || e.DayPressed? ==> Consistent(o.state)
    ensures !e.ForecastArrived? ==> o.state.weather == s.weather
    ensures !e.ForecastArrived? && s.loading ==> o.state.loading
    ensures !e.LocationsArrived? && !e.LocationPicked? ==> o.state.locations == s.locations
  {
    var h := Handle(s, e);
    Outcome(DayEffect(s, h.state, e.ForecastArrived?), h.requests)
  }

  /** The events in order from `s`: the final state and every request sent. */
  function Run(s: State, events: seq<Event>): (o: Outcome)
    decreases |events|
  {
    if events == [] then Outcome(s, [])
    else
      var before := Run(s, events[..|events| - 1]);
      var last := Step(before.state, events[|events| - 1]);
      Outcome(last.state, before.requests + last.requests)
  }

  /** The user events the rendered screen offers in state `s`: nothing but
      the spinner while loading; candidates only while search is open; one
      tile per forecast day. Replies and the debounced query may arrive at
      any time, the latter even after search has closed. */
  function Enabled(s: State, e: Event): (offered: bool)
    ensures offered && (e.SearchToggled? || e.LocationPicked? || e.DayPressed?) ==> !s.loading
    ensures offered && e.LocationPicked? ==> s.showSearch && e.loc in s.locations
    ensures offered && e.DayPressed? ==> 0 <= e.index < |Strip(s.weather)|
    ensures !(e.SearchToggled? || e.LocationPicked? || e.DayPressed?) ==> offered
  {
    match e
    case SearchToggled => !s.loading
    case LocationPicked(loc) => !s.loading && s.showSearch && loc in s.locations
    case DayPressed(index) => !s.loading && 0 <= index < |Strip(s.weather)|
    case _ => true
  }

  /** The key-value store behind `storeData` and `getData`. */
  type Storage = map<string, string>

  /** What `getData` resolves to: the stored value, or nothing for a key
      never written. */
  function GetData(store: Storage, key: string): (v: Option<string>)
    ensures v.Some? <==> key in store
    ensures v.Some? ==> v.value == store[key]
  {
    if key in store then Some(store[key]) else None
  }

  /** The value of the last write to `key` among `requests`, if any: a
      reference for what the store holds once they are applied. */
  function LastWrite(requests: seq<Request>, key: string): (v: Option<string>)
    ensures v.Some? ==> Store(key, v.value) in requests
    decreases |requests|
  {
    if requests == [] then None
    else
      match requests[|requests| - 1]
      case Store(k, value) => if k == key then Some(value) else LastWrite(requests[..|requests| - 1], key)
      case _ => LastWrite(requests[..|requests| - 1], key)
  }

  /** The store after the requests' writes, applied in the order sent. Every
      key reads back its last write, or its old value when it was not
      written; writes never remove a key. */
  function Persist(store: Storage, requests: seq<Request>): (r: Storage)
    ensures forall k :: GetData(r, k) == (if LastWrite(requests, k).Some? then LastWrite(requests, k) else GetData(store, k))
    ensures store.Keys <= r.Keys
    ensures (forall i | 0 <= i < |requests| :: !requests[i].Store?) ==> r == store
    decreases |requests|
  {
    if requests == [] then store
    else
      var before := Persist(store, requests[..|requests| - 1]);
      match requests[|requests| - 1]
      case Store(key, value) => before[key := value]
      case _ => before
  }
}
