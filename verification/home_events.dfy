/** What each event does to the home screen once its callback and the
    derived-day effect have both run: which slots it touches, which it
    leaves alone, and what it sends out. */
module HomeEvents {
  import opened WeatherTypes
  import opened DayView
  import opened HomeScreen

  /** Toggling search flips `showSearch` only: the candidate list survives a
      close, and nothing is sent. */
  lemma ToggleTouchesOnlySearch(s: State)
    ensures Step(s, SearchToggled).state == s.(showSearch := !s.showSearch)
    ensures Step(s, SearchToggled).requests == []
  {
  }

  /** Toggling twice gives back the state toggled from. */
  lemma ToggleTwiceRestores(s: State)
    ensures Step(Step(s, SearchToggled).state, SearchToggled).state == s
  {
  }

  /** A settled query whose `length` is at most two sends nothing; a longer
      one sends exactly one location search for that text. Neither changes
      any slot, and neither depends on search being open. */
  lemma QueryLengthGuard(s: State, text: string)
    ensures Step(s, QuerySettled(text)).state == s
    ensures JsLength(text) <= 2 ==> Step(s, QuerySettled(text)).requests == []
    ensures JsLength(text) > 2 ==> Step(s, QuerySettled(text)).requests == [SearchLocations(text)]
  {
  }

  /** For text inside the Basic Multilingual Plane, `length` is the number
      of characters. */
  lemma {:induction false} BmpLengthIsCharCount(text: string)
    requires forall i | 0 <= i < |text| :: text[i] as int < 0x1_0000
    ensures JsLength(text) == |text|
    decreases |text|
  {
    if text != [] {
      BmpLengthIsCharCount(text[..|text| - 1]);
    }
  }

  /** `length` adds up over concatenation. */
  lemma {:induction false} JsLengthAppend(a: string, b: string)
    ensures JsLength(a + b) == JsLength(a) + JsLength(b)
    decreases |b|
  {
    if b == [] {
      assert a + b == a;
    } else {
      var init := b[..|b| - 1];
      assert (a + b)[..|a + b| - 1] == a + init;
      assert (a + b)[|a + b| - 1] == b[|b| - 1];
      JsLengthAppend(a, init);
    }
  }

  /** A single character is one code unit inside the Basic Multilingual
      Plane and a surrogate pair, two code units, outside it. */
  lemma JsLengthOfChar(c: char)
    ensures JsLength([c]) == if c as int >= 0x1_0000 then 2 else 1
  {
    assert [c][..0] == [];
  }

  /** Two characters can already pass the guard: an emoji followed by a
      letter has `length` three, so it is searched for. */
  lemma AstralPairIsSearched(s: State)
    ensures |"\U{1F600}a"| == 2
    ensures Step(s, QuerySettled("\U{1F600}a")).requests == [SearchLocations("\U{1F600}a")]
  {
    assert "\U{1F600}a"[..1] == "\U{1F600}";
    assert JsLength("\U{1F600}") == 2;
  }

  /** A location reply replaces the candidate list and nothing else, for
      whichever query it answers and whether or not search is still open. */
  lemma LocationsReplyOverwrites(s: State, query: string, results: seq<Loc>)
    ensures Step(s, LocationsArrived(query, results)).state == s.(locations := results)
    ensures Step(s, LocationsArrived(query, results)).requests == []
  {
  }

  /** Of two location replies, the one that arrives second decides the list,
      even when it answers the older query. */
  lemma LaterLocationsReplyWins(s: State, older: string, newer: string, first: seq<Loc>, second: seq<Loc>)
    ensures Run(s, [LocationsArrived(newer, first), LocationsArrived(older, second)]).state.locations == second
  {
    assert [LocationsArrived(newer, first), LocationsArrived(older, second)][..1] == [LocationsArrived(newer, first)];
  }

  /** Picking a location empties the candidates, closes search and shows the
      spinner, keeps the old weather, the selected index and the shown day,
      and asks for seven days of forecast for the picked name. */
  lemma PickKeepsWeather(s: State, loc: Loc)
    ensures var o := Step(s, LocationPicked(loc));
      && o.state == s.(locations := [], showSearch := false, loading := true)
      && o.requests == [FetchForecast(loc.name, ForecastDays, UserPick(loc))]
  {
  }

  /** A forecast reply installs its payload and hides the spinner; it keeps
      the selected index, search and candidates, and shows the new payload's
      day at that index. A reply to a pick writes the picked name under
      `city`; a reply to the startup fetch writes nothing. */
  lemma ForecastReplyInstalls(s: State, origin: Origin, data: Payload)
    ensures var o := Step(s, ForecastArrived(origin, data));
      && o.state.weather == Some(data)
      && !o.state.loading
      && o.state.selectedDayIndex == s.selectedDayIndex
      && o.state.showSearch == s.showSearch
      && o.state.locations == s.locations
      && o.state.selectedDayWeather == DeriveDay(Some(data), s.selectedDayIndex)
      && (origin.UserPick? ==> o.requests == [Store(CityKey, origin.loc.name)])
      && (origin.Startup? ==> o.requests == [])
  {
  }

  /** When the selected index has no day in a newly arrived payload, the
      detail goes blank instead of falling back to the first day; this holds
      also when the reply carries the payload already shown. */
  lemma StaleIndexBlanksDetail(s: State, origin: Origin, data: Payload)
    requires !(0 <= s.selectedDayIndex < |Strip(Some(data))|)
    ensures Step(s, ForecastArrived(origin, data)).state.selectedDayWeather == None
    ensures Step(s, ForecastArrived(origin, data)).state.selectedDayIndex == s.selectedDayIndex
  {
  }

  /** The resolved storage read changes no slot and sends one seven-day
      startup fetch for the stored city if it is truthy, else for the default. */
  lemma StartupChoosesCity(s: State, stored: Option<string>)
    ensures Step(s, StoredCityRead(stored)).state == s
    ensures Truthy(stored) ==> Step(s, StoredCityRead(stored)).requests == [FetchForecast(stored.value, ForecastDays, Startup)]
    ensures !Truthy(stored) ==> Step(s, StoredCityRead(stored)).requests == [FetchForecast(DefaultCity, ForecastDays, Startup)]
  {
  }

  /** Pressing a day records the index unchecked and shows that day's record
      from the current weather, or nothing when the index has no day. */
  lemma DayPressRecordsIndex(s: State, index: int)
    ensures var o := Step(s, DayPressed(index));
      && o.state == s.(selectedDayIndex := index, selectedDayWeather := DeriveDay(s.weather, index))
      && o.requests == []
      && (!(0 <= index < |Strip(s.weather)|) ==> o.state.selectedDayWeather == None)
  {
  }

  /** Pressing a tile the screen offers shows exactly that tile's day. */
  lemma PressedTileIsShown(s: State, index: int)
    requires Enabled(s, DayPressed(index))
    ensures Step(s, DayPressed(index)).state.selectedDayWeather == Strip(s.weather)[index].day
  {
  }
}
