/** Properties of whole runs of the home screen: arbitrary sequences of
    events from mount on, with replies arriving in any order or never. */
module HomeTraces {
  import opened WeatherTypes
  import opened DayView
  import opened HomeScreen
  import HomeEvents

  /** Running two stretches of events one after the other ends in the state
      that running the second from where the first stopped ends in. */
  lemma {:induction false} RunAppendState(s: State, first: seq<Event>, second: seq<Event>)
    ensures Run(s, first + second).state == Run(Run(s, first).state, second).state
    decreases |second|
  {
    if second == [] {
      assert first + second == first;
    } else {
      var init := second[..|second| - 1];
      assert (first + second)[..|first + second| - 1] == first + init;
      assert (first + second)[|first + second| - 1] == second[|second| - 1];
      RunAppendState(s, first, init);
    }
  }

  /** Running two stretches of events one after the other is running their
      concatenation; the requests of the second follow those of the first. */
  lemma {:induction false} RunAppend(s: State, first: seq<Event>, second: seq<Event>)
    ensures Run(s, first + second).state == Run(Run(s, first).state, second).state
    ensures Run(s, first + second).requests == Run(s, first).requests + Run(Run(s, first).state, second).requests
    decreases |second|
  {
    RunAppendState(s, first, second);
    if second == [] {
      assert first + second == first;
    } else {
      var init := second[..|second| - 1];
      var e := second[|second| - 1];
      assert (first + second)[..|first + second| - 1] == first + init;
      assert (first + second)[|first + second| - 1] == e;
      RunAppend(s, first, init);
      var mid := Run(s, first);
      var upTo := Run(mid.state, init);
      var last := Step(upTo.state, e).requests;
      assert (mid.requests + upTo.requests) + last == mid.requests + (upTo.requests + last);
    }
  }

  /** Running `events` then one more event is one more step. */
  lemma RunSnoc(s: State, events: seq<Event>, e: Event)
    ensures Run(s, events + [e]).state == Step(Run(s, events).state, e).state
    ensures Run(s, events + [e]).requests == Run(s, events).requests + Step(Run(s, events).state, e).requests
  {
  }

  /** The derived-day slot agrees with its sources after any sequence of
      events from a consistent state, whatever the replies and their order. */
  lemma {:induction false} RunKeepsConsistent(s: State, events: seq<Event>)
    requires Consistent(s)
    ensures Consistent(Run(s, events).state)
    decreases |events|
  {
    if events != [] {
      RunKeepsConsistent(s, events[..|events| - 1]);
    }
  }

  /** From mount on, the shown day always equals the day derived from the
      current weather and selected index. */
  lemma ShownDayAlwaysDerived(events: seq<Event>)
    ensures Consistent(Run(Mount().state, events).state)
  {
  }

  /** Only a forecast reply changes the weather. */
  lemma {:induction false} RunKeepsWeather(s: State, events: seq<Event>)
    requires forall k | 0 <= k < |events| :: !events[k].ForecastArrived?
    ensures Run(s, events).state.weather == s.weather
    decreases |events|
  {
    if events != [] {
      RunKeepsWeather(s, events[..|events| - 1]);
    }
  }

  /** Only a forecast reply hides the spinner. */
  lemma {:induction false} RunKeepsLoading(s: State, events: seq<Event>)
    requires s.loading
    requires forall k | 0 <= k < |events| :: !events[k].ForecastArrived?
    ensures Run(s, events).state.loading
    decreases |events|
  {
    if events != [] {
      RunKeepsLoading(s, events[..|events| - 1]);
    }
  }

  /** Only a location reply or a pick changes the candidate list. */
  lemma {:induction false} RunKeepsLocations(s: State, events: seq<Event>)
    requires forall k | 0 <= k < |events| :: !events[k].LocationsArrived? && !events[k].LocationPicked?
    ensures Run(s, events).state.locations == s.locations
    decreases |events|
  {
    if events != [] {
      RunKeepsLocations(s, events[..|events| - 1]);
    }
  }

  /** The last forecast reply to arrive decides the weather, whichever fetch
      it answers: nothing in the callbacks tells replies apart. On the
      rendered screen, when every reply answers a fetch and the stored city
      is read once, at most one forecast fetch is in flight, since the
      spinner hides every control until one is answered
      (`AtMostOneFetchInFlight`). */
  lemma LastForecastReplyWins(s: State, before: seq<Event>, origin: Origin, data: Payload, after: seq<Event>)
    requires forall k | 0 <= k < |after| :: !after[k].ForecastArrived?
    ensures Run(s, before + [ForecastArrived(origin, data)] + after).state.weather == Some(data)
  {
    var reply := [ForecastArrived(origin, data)];
    RunAppend(s, before + reply, after);
    RunSnoc(s, before, ForecastArrived(origin, data));
    RunKeepsWeather(Run(s, before + reply).state, after);
  }

  /** A pick whose fetch is never answered leaves the spinner up for good:
      a failed request has no handler that would hide it. */
  lemma UnansweredPickKeepsSpinner(s: State, before: seq<Event>, loc: Loc, after: seq<Event>)
    requires forall k | 0 <= k < |after| :: !after[k].ForecastArrived?
    ensures Run(s, before + [LocationPicked(loc)] + after).state.loading
  {
    var pick := [LocationPicked(loc)];
    RunAppend(s, before + pick, after);
    RunSnoc(s, before, LocationPicked(loc));
    RunKeepsLoading(Run(s, before + pick).state, after);
  }

  /** The last location reply decides the candidate list unless a pick came
      after it, whichever query it answers. */
  lemma LastLocationsReplyWins(s: State, before: seq<Event>, query: string, results: seq<Loc>, after: seq<Event>)
    requires forall k | 0 <= k < |after| :: !after[k].LocationsArrived? && !after[k].LocationPicked?
    ensures Run(s, before + [LocationsArrived(query, results)] + after).state.locations == results
  {
    var reply := [LocationsArrived(query, results)];
    RunAppend(s, before + reply, after);
    RunSnoc(s, before, LocationsArrived(query, results));
    RunKeepsLocations(Run(s, before + reply).state, after);
  }

  /** The shape every request the screen sends has: searches only for texts
      whose `length` exceeds two, forecasts always for seven days and never
      for an empty startup city, storage touched only under `city`. */
  predicate Sound(r: Request) {
    match r
    case SearchLocations(q) => JsLength(q) > 2
    case FetchForecast(_, days, origin) => days == ForecastDays && (origin.Startup? ==> r.cityName != "")
    case ReadStored(key) => key == CityKey
    case Store(key, _) => key == CityKey
  }

  /** Every request one event sends is sound. */
  lemma StepSound(s: State, e: Event)
    ensures forall r | r in Step(s, e).requests :: Sound(r)
  {
  }

  /** Every request sent over a run is sound. */
  lemma {:induction false} RunSound(s: State, events: seq<Event>)
    ensures forall r | r in Run(s, events).requests :: Sound(r)
    decreases |events|
  {
    if events != [] {
      RunSound(s, events[..|events| - 1]);
      StepSound(Run(s, events[..|events| - 1]).state, events[|events| - 1]);
    }
  }

  /** From mount on, the screen sends only sound requests. */
  lemma AllRequestsSound(events: seq<Event>)
    ensures forall r | r in Mount().requests + Run(Mount().state, events).requests :: Sound(r)
  {
  }

  /** The forecast request that picking `loc` sends. */
  function PickFetch(s: State, loc: Loc): (r: Request)
    ensures r == FetchForecast(loc.name, ForecastDays, UserPick(loc))
  {
    Step(s, LocationPicked(loc)).requests[0]
  }

  /** The startup fetch after a restart, with `store` as the storage. */
  function RestartFetch(store: Storage): (r: Request)
    ensures r == FetchForecast(StartupCity(GetData(store, CityKey)), ForecastDays, Startup)
  {
    Step(Mount().state, StoredCityRead(GetData(store, CityKey))).requests[0]
  }

  /** Only a forecast reply to a pick writes storage, and it writes the
      picked name under `city`. */
  lemma OnlyPickRepliesWrite(s: State, e: Event)
    ensures forall r | r in Step(s, e).requests && r.Store? ::
      e.ForecastArrived? && e.origin.UserPick? && r == Store(CityKey, e.origin.loc.name)
  {
  }

  /** A run without forecast replies to picks writes nothing to storage. */
  lemma {:induction false} RunWritesNothing(s: State, events: seq<Event>)
    requires forall k | 0 <= k < |events| :: !(events[k].ForecastArrived? && events[k].origin.UserPick?)
    ensures forall r | r in Run(s, events).requests :: !r.Store?
    decreases |events|
  {
    if events != [] {
      RunWritesNothing(s, events[..|events| - 1]);
      OnlyPickRepliesWrite(Run(s, events[..|events| - 1]).state, events[|events| - 1]);
    }
  }

  /** The last write to a key among two batches of requests is the second
      batch's, when it has one. */
  lemma {:induction false} LastWriteAppend(first: seq<Request>, second: seq<Request>, key: string)
    ensures LastWrite(first + second, key) == if LastWrite(second, key).Some? then LastWrite(second, key) else LastWrite(first, key)
    decreases |second|
  {
    if second == [] {
      assert first + second == first;
    } else {
      var init := second[..|second| - 1];
      assert (first + second)[..|first + second| - 1] == first + init;
      assert (first + second)[|first + second| - 1] == second[|second| - 1];
      LastWriteAppend(first, init, key);
    }
  }

  /** Every key written among the requests has a last write. */
  lemma {:induction false} WrittenKeyIsFound(requests: seq<Request>, key: string, value: string)
    requires Store(key, value) in requests
    ensures LastWrite(requests, key).Some?
    decreases |requests|
  {
    var init := requests[..|requests| - 1];
    if requests[|requests| - 1] != Store(key, value) {
      assert requests == init + [requests[|requests| - 1]];
      assert Store(key, value) in init;
      WrittenKeyIsFound(init, key, value);
    }
  }

  /** The value `LastWrite` finds is written at some position after which
      the key is not written again. */
  lemma {:induction false} LastWriteIsLast(requests: seq<Request>, key: string)
    requires LastWrite(requests, key).Some?
    ensures exists i | 0 <= i < |requests| ::
      && requests[i] == Store(key, LastWrite(requests, key).value)
      && forall j | i < j < |requests| :: !(requests[j].Store? && requests[j].key == key)
    decreases |requests|
  {
    var last := |requests| - 1;
    var init := requests[..last];
    if requests[last].Store? && requests[last].key == key {
      assert requests[last] == Store(key, LastWrite(requests, key).value);
    } else {
      LastWriteIsLast(init, key);
      var i :| 0 <= i < |init| &&
        init[i] == Store(key, LastWrite(init, key).value) &&
        forall j | i < j < |init| :: !(init[j].Store? && init[j].key == key);
      assert requests[i] == init[i];
      assert forall j | i < j < |requests| :: !(requests[j].Store? && requests[j].key == key) by {
        forall j | i < j < |requests|
          ensures !(requests[j].Store? && requests[j].key == key)
        {
          if j < last {
            assert requests[j] == init[j];
          }
        }
      }
    }
  }

  /** The storage writes of a run in which the reply to a pick of `loc` is
      followed by no other reply to a pick leave `loc.name` under `city`. */
  lemma PickReplyIsLastWrite(s: State, before: seq<Event>, loc: Loc, data: Payload, after: seq<Event>)
    requires forall k | 0 <= k < |after| :: !(after[k].ForecastArrived? && after[k].origin.UserPick?)
    ensures LastWrite(Run(s, before + [ForecastArrived(UserPick(loc), data)] + after).requests, CityKey) == Some(loc.name)
  {
    var reply := [ForecastArrived(UserPick(loc), data)];
    var mid := Run(s, before + reply);
    RunAppend(s, before + reply, after);
    RunSnoc(s, before, ForecastArrived(UserPick(loc), data));
    RunWritesNothing(mid.state, after);
    var tail := Run(mid.state, after).requests;
    assert LastWrite(tail, CityKey) == None;
    LastWriteAppend(mid.requests, tail, CityKey);
    assert mid.requests == Run(s, before).requests + [Store(CityKey, loc.name)];
  }

  /** Picking a city, receiving its forecast, going on with any events that
      answer no other pick, and restarting fetches that same city at
      startup, provided its name is non-empty (the stored value must be
      truthy). */
  lemma PickSurvivesRestart(s: State, before: seq<Event>, loc: Loc, data: Payload, after: seq<Event>, store: Storage)
    requires loc.name != ""
    requires forall k | 0 <= k < |after| :: !(after[k].ForecastArrived? && after[k].origin.UserPick?)
    ensures var o := Run(s, before + [ForecastArrived(UserPick(loc), data)] + after);
      RestartFetch(Persist(store, o.requests)).cityName == loc.name
  {
    PickReplyIsLastWrite(s, before, loc, data, after);
  }

  /** A picked location whose name is empty is written but reads back as
      falsy, so the restart fetches the default city instead. */
  lemma EmptyNameRestartsAtDefault(s: State, before: seq<Event>, loc: Loc, data: Payload, after: seq<Event>, store: Storage)
    requires loc.name == ""
    requires forall k | 0 <= k < |after| :: !(after[k].ForecastArrived? && after[k].origin.UserPick?)
    ensures var o := Run(s, before + [ForecastArrived(UserPick(loc), data)] + after);
      RestartFetch(Persist(store, o.requests)).cityName == DefaultCity
  {
    PickReplyIsLastWrite(s, before, loc, data, after);
  }

  /** Every user event of the run is one the screen offers in the state it
      arrives in; replies and settled queries are always possible. */
  predicate Gated(s: State, events: seq<Event>)
    decreases |events|
  {
    events == [] ||
    (Gated(s, events[..|events| - 1]) && Enabled(Run(s, events[..|events| - 1]).state, events[|events| - 1]))
  }

  /** A gated run splits into gated stretches. */
  lemma {:induction false} GatedSuffix(s: State, first: seq<Event>, second: seq<Event>)
    requires Gated(s, first + second)
    ensures Gated(s, first)
    ensures Gated(Run(s, first).state, second)
    decreases |second|
  {
    if second == [] {
      assert first + second == first;
    } else {
      var init := second[..|second| - 1];
      assert (first + second)[..|first + second| - 1] == first + init;
      assert (first + second)[|first + second| - 1] == second[|second| - 1];
      GatedSuffix(s, first, init);
      RunAppend(s, first, init);
    }
  }

  /** While the spinner is up and no forecast reply arrives, a gated run
      holds no user event: no toggle, no pick, no day press. */
  lemma {:induction false} SpinnerBlocksUserEvents(s: State, events: seq<Event>)
    requires s.loading
    requires Gated(s, events)
    requires forall k | 0 <= k < |events| :: !events[k].ForecastArrived?
    ensures forall k | 0 <= k < |events| :: !events[k].SearchToggled? && !events[k].LocationPicked? && !events[k].DayPressed?
    decreases |events|
  {
    if events != [] {
      var init := events[..|events| - 1];
      SpinnerBlocksUserEvents(s, init);
      RunKeepsLoading(s, init);
      assert forall k | 0 <= k < |init| :: init[k] == events[k];
    }
  }

  /** On the rendered screen nobody can pick a location before the first
      forecast reply: the startup fetch is answered before any pick. */
  lemma NoPickBeforeFirstForecast(events: seq<Event>)
    requires Gated(Mount().state, events)
    requires forall k | 0 <= k < |events| :: !events[k].ForecastArrived?
    ensures forall k | 0 <= k < |events| :: !events[k].LocationPicked?
  {
    SpinnerBlocksUserEvents(Mount().state, events);
  }

  /** On the rendered screen some forecast reply arrives between two picks:
      the spinner a pick raises hides the candidates until then. Which fetch
      that reply answers is not recorded; `AtMostOneFetchInFlight` counts
      the fetches. */
  lemma OneForecastFetchAtATime(s: State, before: seq<Event>, loc: Loc, after: seq<Event>)
    requires Gated(s, before + [LocationPicked(loc)] + after)
    requires forall k | 0 <= k < |after| :: !after[k].ForecastArrived?
    ensures forall k | 0 <= k < |after| :: !after[k].LocationPicked?
  {
    var pick := [LocationPicked(loc)];
    GatedSuffix(s, before + pick, after);
    RunSnoc(s, before, LocationPicked(loc));
    SpinnerBlocksUserEvents(Run(s, before + pick).state, after);
  }

  /** The number of forecast fetches among the requests. */
  function Fetches(requests: seq<Request>): nat
    decreases |requests|
  {
    if requests == [] then 0
    else Fetches(requests[..|requests| - 1]) + (if requests[|requests| - 1].FetchForecast? then 1 else 0)
  }

  /** The number of forecast replies among the events. */
  function Replies(events: seq<Event>): nat
    decreases |events|
  {
    if events == [] then 0
    else Replies(events[..|events| - 1]) + (if events[|events| - 1].ForecastArrived? then 1 else 0)
  }

  /** The number of times the stored city was read back among the events. */
  function Reads(events: seq<Event>): nat
    decreases |events|
  {
    if events == [] then 0
    else Reads(events[..|events| - 1]) + (if events[|events| - 1].StoredCityRead? then 1 else 0)
  }

  /** Forecast fetches sent over a run from `s` and not yet answered. */
  function InFlight(s: State, events: seq<Event>): int {
    Fetches(Run(s, events).requests) - Replies(events)
  }

  /** Every forecast reply of the run answers a fetch that was sent earlier
      in the run and not answered yet. */
  predicate Paired(s: State, events: seq<Event>)
    decreases |events|
  {
    events == [] ||
    (Paired(s, events[..|events| - 1]) &&
     (events[|events| - 1].ForecastArrived? ==> InFlight(s, events[..|events| - 1]) > 0))
  }

  /** Forecast fetches add up over concatenated requests. */
  lemma {:induction false} FetchesAppend(first: seq<Request>, second: seq<Request>)
    ensures Fetches(first + second) == Fetches(first) + Fetches(second)
    decreases |second|
  {
    if second == [] {
      assert first + second == first;
    } else {
      var init := second[..|second| - 1];
      assert (first + second)[..|first + second| - 1] == first + init;
      assert (first + second)[|first + second| - 1] == second[|second| - 1];
      FetchesAppend(first, init);
    }
  }

  /** Exactly the pick and the storage read send a forecast fetch, one each. */
  lemma StepFetches(s: State, e: Event)
    ensures Fetches(Step(s, e).requests) == if e.LocationPicked? || e.StoredCityRead? then 1 else 0
  {
    var sent := Step(s, e).requests;
    if sent != [] {
      assert sent[..|sent| - 1] == [];
    }
  }

  /** On the rendered screen, in a run from mount where every forecast reply
      answers an outstanding fetch and the stored city is read back at most
      once (the mount effect runs once and sends one read), at most one
      forecast fetch is in flight; none is while the controls are shown,
      and none before the stored city is read. */
  lemma {:induction false} AtMostOneFetchInFlight(events: seq<Event>)
    requires Gated(Mount().state, events)
    requires Paired(Mount().state, events)
    requires Reads(events) <= 1
    ensures 0 <= InFlight(Mount().state, events) <= 1
    ensures !Run(Mount().state, events).state.loading ==> InFlight(Mount().state, events) == 0
    ensures Reads(events) == 0 ==> InFlight(Mount().state, events) == 0 && Run(Mount().state, events).state.loading
    decreases |events|
  {
    if events != [] {
      var init := events[..|events| - 1];
      var e := events[|events| - 1];
      AtMostOneFetchInFlight(init);
      var before := Run(Mount().state, init);
      assert init + [e] == events;
      RunSnoc(Mount().state, init, e);
      FetchesAppend(before.requests, Step(before.state, e).requests);
      StepFetches(before.state, e);
    }
  }

  /** The opening of a session from mount: nothing is stored, the default
      city's forecast arrives and the user opens search. The search is open
      over the default city's forecast, and only that fetch was sent. */
  lemma DefaultCityOpening(home: Payload, opening: seq<Event>)
    requires opening == [StoredCityRead(None), ForecastArrived(Startup, home), SearchToggled]
    ensures Run(Mount().state, opening) == Outcome(
      State(true, [], Some(home), false, 0, DeriveDay(Some(home), 0)),
      [FetchForecast(DefaultCity, ForecastDays, Startup)])
  {
    var s0 := Mount().state;
    var r1 := [FetchForecast(DefaultCity, ForecastDays, Startup)];
    var p1 := [StoredCityRead(None)];
    assert Run(s0, p1) == Outcome(s0, r1) by {
      RunSnoc(s0, [], StoredCityRead(None));
    }
    var s2 := s0.(weather := Some(home), loading := false, selectedDayWeather := DeriveDay(Some(home), 0));
    var p2 := p1 + [ForecastArrived(Startup, home)];
    assert Run(s0, p2) == Outcome(s2, r1) by {
      RunSnoc(s0, p1, ForecastArrived(Startup, home));
    }
    RunSnoc(s0, p2, SearchToggled);
    assert p2 + [SearchToggled] == opening;
  }

  /** Typing "Lo" then "Lon" after any run sends one search, for "Lon",
      and changes no slot. */
  lemma TooShortThenLongQuery(s: State, events: seq<Event>, st: State, sent: seq<Request>)
    requires Run(s, events) == Outcome(st, sent)
    ensures Run(s, events + [QuerySettled("Lo")] + [QuerySettled("Lon")]) == Outcome(st, sent + [SearchLocations("Lon")])
  {
    HomeEvents.BmpLengthIsCharCount("Lo");
    HomeEvents.BmpLengthIsCharCount("Lon");
    HomeEvents.QueryLengthGuard(st, "Lo");
    HomeEvents.QueryLengthGuard(st, "Lon");
    RunSnoc(s, events, QuerySettled("Lo"));
    RunSnoc(s, events + [QuerySettled("Lo")], QuerySettled("Lon"));
  }

  /** A location reply listing one candidate, the pick of that candidate
      and the reply to its fetch, after any run: the candidate's forecast is
      installed with search closed, the list empty and the spinner gone; the
      index is kept, and the fetch and the write of its name are sent. */
  lemma ListedPickIsInstalled(s: State, events: seq<Event>, st: State, sent: seq<Request>, query: string, loc: Loc, data: Payload)
    requires Run(s, events) == Outcome(st, sent)
    ensures Run(s, events + [LocationsArrived(query, [loc]), LocationPicked(loc), ForecastArrived(UserPick(loc), data)]) == Outcome(
      st.(locations := [], showSearch := false, loading := false, weather := Some(data),
          selectedDayWeather := DeriveDay(Some(data), st.selectedDayIndex)),
      sent + [FetchForecast(loc.name, ForecastDays, UserPick(loc)), Store(CityKey, loc.name)])
  {
    var listed := st.(locations := [loc]);
    var picked := listed.(locations := [], showSearch := false, loading := true);
    var p1 := events + [LocationsArrived(query, [loc])];
    var p2 := p1 + [LocationPicked(loc)];
    var fetch := FetchForecast(loc.name, ForecastDays, UserPick(loc));
    assert Run(s, p1) == Outcome(listed, sent) by {
      HomeEvents.LocationsReplyOverwrites(st, query, [loc]);
      RunSnoc(s, events, LocationsArrived(query, [loc]));
    }
    assert Run(s, p2) == Outcome(picked, sent + [fetch]) by {
      HomeEvents.PickKeepsWeather(listed, loc);
      RunSnoc(s, p1, LocationPicked(loc));
    }
    HomeEvents.ForecastReplyInstalls(picked, UserPick(loc), data);
    RunSnoc(s, p2, ForecastArrived(UserPick(loc), data));
    assert sent + [fetch] + [Store(CityKey, loc.name)] == sent + [fetch, Store(CityKey, loc.name)];
    assert p2 + [ForecastArrived(UserPick(loc), data)] == events + [LocationsArrived(query, [loc]), LocationPicked(loc), ForecastArrived(UserPick(loc), data)];
  }

  /** A session from mount: nothing stored, the default city's forecast
      arrives, the user opens search, types "Lo" (nothing sent) and then
      "Lon", the reply lists London, the user picks it and its forecast
      arrives (the opening is `DefaultCityOpening`). London's forecast ends
      up shown with the spinner gone and the index still 0, and "London" is
      written under `city`. The session
      is a parameter fixed by the precondition so that the event list is
      written once and the proof can step through its prefixes by name. */
  lemma LondonScenario(home: Payload, london: Payload, session: seq<Event>)
    requires session == [
      StoredCityRead(None), ForecastArrived(Startup, home), SearchToggled,
      QuerySettled("Lo"), QuerySettled("Lon"), LocationsArrived("Lon", [Loc("London", "UK")]),
      LocationPicked(Loc("London", "UK")), ForecastArrived(UserPick(Loc("London", "UK")), london)]
    ensures var o := Run(Mount().state, session);
      && o.state == State(false, [], Some(london), false, 0, DeriveDay(Some(london), 0))
      && o.requests == [
        FetchForecast(DefaultCity, ForecastDays, Startup), SearchLocations("Lon"),
        FetchForecast("London", ForecastDays, UserPick(Loc("London", "UK"))), Store(CityKey, "London")]
  {
    var london1 := Loc("London", "UK");
    var s0 := Mount().state;
    var r1 := [FetchForecast(DefaultCity, ForecastDays, Startup)];
    var r5 := r1 + [SearchLocations("Lon")];
    var p3 := [StoredCityRead(None), ForecastArrived(Startup, home), SearchToggled];
    var s3 := State(true, [], Some(home), false, 0, DeriveDay(Some(home), 0));
    DefaultCityOpening(home, p3);
    var p5 := p3 + [QuerySettled("Lo")] + [QuerySettled("Lon")];
    TooShortThenLongQuery(s0, p3, s3, r1);
    ListedPickIsInstalled(s0, p5, s3, r5, "Lon", london1, london);
    assert p5 == [StoredCityRead(None), ForecastArrived(Startup, home), SearchToggled, QuerySettled("Lo"), QuerySettled("Lon")];
    assert p5 + [LocationsArrived("Lon", [london1]), LocationPicked(london1), ForecastArrived(UserPick(london1), london)] == session;
    assert r5 + [FetchForecast(london1.name, ForecastDays, UserPick(london1)), Store(CityKey, london1.name)] == [
      FetchForecast(DefaultCity, ForecastDays, Startup), SearchLocations("Lon"),
      FetchForecast("London", ForecastDays, UserPick(Loc("London", "UK"))), Store(CityKey, "London")];
  }
}
