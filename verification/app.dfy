/**
 * The dashboard page: the state it holds, the fetch triggers that change it,
 * and which panels it renders for a given state.
 *
 * Every trigger issues a current-weather request and a forecast request
 * together and waits for both (`Promise.all`). The replies of the provider
 * are parameters of the completing transition; a trigger is modelled as a
 * begin step followed by its completion, with nothing in between.
 */
module App {
  import opened Common
  import ForecastCard
  import WeatherAlerts

  /** A (latitude, longitude) pair, as the map centre holds it. */
  datatype Coord = Coord(lat: real, lon: real)

  /** Current conditions, as far as the page state reads them. */
  datatype CurrentWeather = CurrentWeather(name: string, coord: Coord)

  /** The provider's forecast: the 3-hourly samples. */
  datatype ForecastData = ForecastData(list: seq<ForecastCard.ForecastItem>)

  /** How one provider request settled. */
  datatype Reply<T> = Ok(value: T) | Failed

  /** New York City, the centre before any fetch succeeds and the fallback location on mount. */
  const DefaultCenter: Coord := Coord(40.7128, -74.0060)

  const CoordinateFetchError: string :=
    "Failed to fetch weather data. Please check your API key and try again."

  const CitySearchErrorPrefix: string := "Failed to fetch weather data for \""

  /** The message shown when a city search fails: never empty, and it quotes the city searched for. */
  function CitySearchError(city: string): (message: string)
    ensures |message| > |CitySearchErrorPrefix| + |city|
    ensures message[..|CitySearchErrorPrefix|] == CitySearchErrorPrefix
    ensures message[|CitySearchErrorPrefix|..|CitySearchErrorPrefix| + |city|] == city
    ensures message[|CitySearchErrorPrefix| + |city|] == '"'
  {
    var suffix := "\". Please check the city name and try again.";
    assert (CitySearchErrorPrefix + city + suffix)[|CitySearchErrorPrefix| + |city|] == suffix[0];
    CitySearchErrorPrefix + city + suffix
  }

  /** JavaScript truthiness of a number that may be `null`: `null` and `0` are falsy. */
  predicate Truthy(x: Option<real>)
  {
    x.Some? && x.value != 0.0
  }

  /** The guard of the geolocation effect: both coordinates must be truthy. */
  function GeolocationTriggersFetch(latitude: Option<real>, longitude: Option<real>): (fetch: bool)
    ensures fetch ==> latitude.Some? && longitude.Some?
    ensures latitude == Some(0.0) || longitude == Some(0.0) ==> !fetch
    ensures fetch <==>
      latitude.Some? && latitude.value != 0.0 && longitude.Some? && longitude.value != 0.0
  {
    Truthy(latitude) && Truthy(longitude)
  }

  /** The alerts the page passes to the alerts panel: always none. */
  const ShownAlerts: seq<WeatherAlerts.Alert> := []

  class Dashboard {
    var currentWeather: Option<CurrentWeather>
    var forecast: Option<ForecastData>
    var loading: bool
    var error: Option<string>
    var mapCenter: Coord

    /**
     * Weather and forecast are only ever stored together, and while a fetch
     * is in progress no error is shown.
     */
    predicate Valid()
      reads this
    {
      && (currentWeather.Some? <==> forecast.Some?)
      && (loading ==> error.None?)
    }

    constructor ()
      ensures Valid()
      ensures currentWeather == None && forecast == None
      ensures !loading && error == None
      ensures mapCenter == DefaultCenter
    {
      currentWeather := None;
      forecast := None;
      loading := false;
      error := None;
      mapCenter := DefaultCenter;
    }

    // -------------------------------------------------------------------------
    // Transitions
    // -------------------------------------------------------------------------

    /** The start of every fetch: loading is set and the error is cleared. */
    method BeginFetch()
      requires Valid()
      modifies this
      ensures Valid()
      ensures loading && error == None
      ensures currentWeather == old(currentWeather) && forecast == old(forecast)
      ensures mapCenter == old(mapCenter)
    {
      loading := true;
      error := None;
    }

    /**
     * Completion of a fetch by coordinates: on success both results are stored
     * and the map is centred on the requested point; if either request failed
     * nothing but the error changes.
     */
    method CompleteCoordinateFetch(lat: real, lon: real,
                                   weatherReply: Reply<CurrentWeather>, forecastReply: Reply<ForecastData>)
      requires Valid() && loading
      modifies this
      ensures Valid() && !loading
      ensures if weatherReply.Ok? && forecastReply.Ok? then
          && currentWeather == Some(weatherReply.value)
          && forecast == Some(forecastReply.value)
          && mapCenter == Coord(lat, lon)
          && error == None
        else
          && currentWeather == old(currentWeather)
          && forecast == old(forecast)
          && mapCenter == old(mapCenter)
          && error == Some(CoordinateFetchError)
    {
      if weatherReply.Ok? && forecastReply.Ok? {
        currentWeather := Some(weatherReply.value);
        forecast := Some(forecastReply.value);
        mapCenter := Coord(lat, lon);
      } else {
        error := Some(CoordinateFetchError);
      }
      loading := false;
    }

    /**
     * Completion of a city search: on success both results are stored and the
     * map is centred on the coordinates the provider returned for the city;
     * if either request failed nothing but the error changes.
     */
    method CompleteCitySearch(city: string,
                              weatherReply: Reply<CurrentWeather>, forecastReply: Reply<ForecastData>)
      requires Valid() && loading
      modifies this
      ensures Valid() && !loading
      ensures if weatherReply.Ok? && forecastReply.Ok? then
          && currentWeather == Some(weatherReply.value)
          && forecast == Some(forecastReply.value)
          && mapCenter == weatherReply.value.coord
          && error == None
        else
          && currentWeather == old(currentWeather)
          && forecast == old(forecast)
          && mapCenter == old(mapCenter)
          && error == Some(CitySearchError(city))
    {
      if weatherReply.Ok? && forecastReply.Ok? {
        currentWeather := Some(weatherReply.value);
        forecast := Some(forecastReply.value);
        mapCenter := weatherReply.value.coord;
      } else {
        error := Some(CitySearchError(city));
      }
      loading := false;
    }

    // -------------------------------------------------------------------------
    // Triggers
    // -------------------------------------------------------------------------

    /** `fetchWeatherData(lat, lon)`: one fetch by coordinates, from start to completion. */
    method FetchWeatherData(lat: real, lon: real,
                            weatherReply: Reply<CurrentWeather>, forecastReply: Reply<ForecastData>)
      requires Valid()
      modifies this
      ensures Valid() && !loading
      ensures if weatherReply.Ok? && forecastReply.Ok? then
          && currentWeather == Some(weatherReply.value)
          && forecast == Some(forecastReply.value)
          && mapCenter == Coord(lat, lon)
          && error == None
        else
          && currentWeather == old(currentWeather)
          && forecast == old(forecast)
          && mapCenter == old(mapCenter)
          && error == Some(CoordinateFetchError)
    {
      BeginFetch();
      CompleteCoordinateFetch(lat, lon, weatherReply, forecastReply);
    }

    /** `handleCitySearch(city)`: one fetch by city name, from start to completion. */
    method HandleCitySearch(city: string,
                            weatherReply: Reply<CurrentWeather>, forecastReply: Reply<ForecastData>)
      requires Valid()
      modifies this
      ensures Valid() && !loading
      ensures if weatherReply.Ok? && forecastReply.Ok? then
          && currentWeather == Some(weatherReply.value)
          && forecast == Some(forecastReply.value)
          && mapCenter == weatherReply.value.coord
          && error == None
        else
          && currentWeather == old(currentWeather)
          && forecast == old(forecast)
          && mapCenter == old(mapCenter)
          && error == Some(CitySearchError(city))
    {
      BeginFetch();
      CompleteCitySearch(city, weatherReply, forecastReply);
    }

    /** A click on the map fetches the weather of the clicked point. */
    method HandleMapLocationSelect(lat: real, lon: real,
                                   weatherReply: Reply<CurrentWeather>, forecastReply: Reply<ForecastData>)
      requires Valid()
      modifies this
      ensures Valid() && !loading
      ensures if weatherReply.Ok? && forecastReply.Ok? then
          && currentWeather == Some(weatherReply.value)
          && forecast == Some(forecastReply.value)
          && mapCenter == Coord(lat, lon)
          && error == None
        else
          && currentWeather == old(currentWeather)
          && forecast == old(forecast)
          && mapCenter == old(mapCenter)
          && error == Some(CoordinateFetchError)
    {
      FetchWeatherData(lat, lon, weatherReply, forecastReply);
    }

    /**
     * The geolocation effect, run when the reported position changes: it
     * fetches only when both coordinates are truthy, so a position on the
     * equator or on the prime meridian is never fetched.
     */
    method OnGeolocation(latitude: Option<real>, longitude: Option<real>,
                         weatherReply: Reply<CurrentWeather>, forecastReply: Reply<ForecastData>)
      requires Valid()
      modifies this
      ensures Valid()
      ensures !GeolocationTriggersFetch(latitude, longitude) ==>
        && currentWeather == old(currentWeather) && forecast == old(forecast)
        && loading == old(loading) && error == old(error) && mapCenter == old(mapCenter)
      ensures GeolocationTriggersFetch(latitude, longitude) ==>
        && !loading
        && (weatherReply.Ok? && forecastReply.Ok? ==>
              && currentWeather == Some(weatherReply.value)
              && forecast == Some(forecastReply.value)
              && mapCenter == Coord(latitude.value, longitude.value)
              && error == None)
        && (!(weatherReply.Ok? && forecastReply.Ok?) ==>
              && currentWeather == old(currentWeather)
              && forecast == old(forecast)
              && mapCenter == old(mapCenter)
              && error == Some(CoordinateFetchError))
    {
      if GeolocationTriggersFetch(latitude, longitude) {
        FetchWeatherData(latitude.value, longitude.value, weatherReply, forecastReply);
      }
    }

    /**
     * The mount effect. It runs once, after the first render, and its guard
     * reads that render's values: no weather and not loading. The guard
     * therefore always holds, and the default location is always fetched.
     */
    method OnMount(weatherReply: Reply<CurrentWeather>, forecastReply: Reply<ForecastData>)
      requires currentWeather.None? && forecast.None? && !loading
      requires error.None? && mapCenter == DefaultCenter
      modifies this
      ensures Valid()
      ensures !loading
      ensures if weatherReply.Ok? && forecastReply.Ok? then
          && currentWeather == Some(weatherReply.value)
          && forecast == Some(forecastReply.value)
          && mapCenter == DefaultCenter
          && error == None
        else
          && currentWeather.None?
          && forecast.None?
          && mapCenter == DefaultCenter
          && error == Some(CoordinateFetchError)
    {
      if currentWeather.None? && !loading {
        FetchWeatherData(DefaultCenter.lat, DefaultCenter.lon, weatherReply, forecastReply);
      }
    }

    // -------------------------------------------------------------------------
    // What the page renders
    // -------------------------------------------------------------------------

    /** The error banner: shown while the error message is a non-empty string. */
    predicate ShowsError()
      reads this
    {
      error.Some? && error.value != ""
    }

    predicate ShowsSpinner()
      reads this
    {
      loading
    }

    /** The current-weather card and the map. */
    predicate ShowsWeatherPanel()
      reads this
    {
      currentWeather.Some? && !loading
    }

    /** The forecast card and the alerts card. */
    predicate ShowsForecastPanel()
      reads this
    {
      forecast.Some? && !loading
    }

    /** The welcome panel. */
    predicate ShowsWelcome()
      reads this
    {
      currentWeather.None? && !loading && !ShowsError()
    }
  }

  /**
   * In a valid state the weather and forecast panels are shown together, the
   * welcome panel never appears beside them or beside the spinner, and the
   * spinner never appears beside an error.
   */
  lemma PanelsAgree(d: Dashboard)
    requires d.Valid()
    ensures d.ShowsWeatherPanel() <==> d.ShowsForecastPanel()
    ensures d.ShowsWelcome() ==> !d.ShowsWeatherPanel() && !d.ShowsForecastPanel() && !d.ShowsSpinner()
    ensures d.ShowsSpinner() ==> !d.ShowsError() && !d.ShowsWeatherPanel() && !d.ShowsWelcome()
  {
  }

  /** The alerts card next to the forecast always shows its "no active alerts" panel. */
  lemma AlertsPanelAlwaysEmpty()
    ensures WeatherAlerts.Render(ShownAlerts) == WeatherAlerts.NoAlertsPanel
  {
  }
}
