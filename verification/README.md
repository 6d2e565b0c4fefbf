# Weather dashboard: a verified model of its logic

The dashboard is a single-page React application. It shows the current
weather, a five-day forecast and a map for a location. The location comes from a
city search, the browser's position, a click on the map, or the New York City default.
Most of it is rendering glue. This project models the parts of it that decide something:

- **Forecast day grouping** (`forecast_card.dfy`, module `ForecastCard`). The
  forecast panel folds a flat list of 3-hourly samples into a dictionary from
  calendar day to that day's samples and keeps the first five days in
  first-seen order. For each day it takes the highest `temp_max`, the lowest
  `temp_min`, the mean `pop`, and the condition of the day's first sample. The
  fold is modelled as the method `GroupByDay`, which updates a map and a key list
  the way the JavaScript `reduce` does. It is proved equal to a
  specification built from `DayKeys` (distinct days in first-seen order) and
  `OnDay` (the samples of one day, in order). The calendar day of a
  timestamp is a parameter `dayKey`. The panel's icon table is
  modelled as `IconFor`.
- **Page state machine** (`app.dfy`, module `App`). The class `Dashboard`
  holds the page's five state fields: current weather, forecast, loading
  flag, error message and map centre. Each fetch trigger is a begin step
  (loading on, error cleared) followed by a completion. The completion receives the
  two provider replies as parameters. Both succeed together or the data is left untouched,
  because the two requests are awaited through one `Promise.all`. The object
  invariant `Valid` states that weather and forecast are present together
  and that no error shows while loading. The render conditions are predicates of the class.
- **Search bar** (`search_bar.dfy`, module `SearchBar`). `Trim` models
  `String.prototype.trim` over the ECMAScript whitespace and line-terminator
  characters. The class `SearchBox` holds the typed query. Its submit
  passes on the trimmed query only when that is non-empty. The button-disabling
  conditions are predicates of the class.
- **Alerts panel** (`weather_alerts.dfy`, module `WeatherAlerts`). It maps
  severities to icons and to card colours, each with a default. An empty list
  renders only a "no active alerts" panel. Otherwise the panel renders a count badge and one card per alert.

`common.dfy` holds an `Option` type and `Min`.

Notes on how the model reads the code:

- JavaScript objects enumerate string keys that are not array indices in insertion order. A
  `yyyy-MM-dd` key is never an array index, so `Object.entries` of the
  accumulator lists days in first-seen order. That is the order of
  `DayKeys`, not a sorted order.
- Temperatures, `pop` and coordinates are `real`. `Math.max` and `Math.min`
  over a non-empty list are `MaxOf` and `MinOf`. The mean is the left-fold
  sum divided by the length.
- The geolocation effect tests `latitude && longitude`, which is JavaScript
  truthiness. A coordinate of exactly `0` therefore starts no fetch. The model keeps this
  behaviour (`Truthy`, `GeolocationTriggersFetch`).
- The code formats each timestamp in the browser's local time zone
  (`ForecastCard.tsx:38`), not the city's own time zone that the provider
  reports. The model leaves that choice to `dayKey`.
- The page always passes an empty list to the alerts panel. `AlertsPanelAlwaysEmpty` records that this panel
  always shows its "no active alerts" state. The panel's own logic is modelled for any list.

## Model

| member | source | states |
|---|---|---|
| `ForecastCard.IconFor` | project1/src/components/ForecastCard.tsx:11-32 | The sixteen listed condition codes map to Sun, Moon, Cloud, CloudRain, Zap or CloudSnow as tabled, each icon exactly for its codes. Every other code falls back to Cloud. |
| `ForecastCard.OnDaySnoc` | project1/src/components/ForecastCard.tsx:39-42 | One more sample is appended to its own day's list and leaves every other day's list unchanged. |
| `ForecastCard.DayKeysSnoc` | project1/src/components/ForecastCard.tsx:39-41 | One more sample adds its day at the end of the key order, unless that day already has a key. |
| `ForecastCard.GroupByDay` | project1/src/components/ForecastCard.tsx:37-44 | The accumulating fold yields the keys `DayKeys(forecast)` in insertion order. Its map holds exactly those keys, and each key maps to `OnDay(forecast, key)`, that day's samples in input order. |
| `ForecastCard.OnDayMembers` | project1/src/components/ForecastCard.tsx:37-44 | A sample is in a day's bucket exactly when it is in the input and its day key is that day. |
| `ForecastCard.OnDayOffDays` | project1/src/components/ForecastCard.tsx:39-42 | A day that never became a key has no samples. |
| `ForecastCard.DayKeysAreSampleDays` | project1/src/components/ForecastCard.tsx:37-46 | Every sample's day is a key, and every key is the day of some sample. |
| `ForecastCard.DayKeysDistinct` | project1/src/components/ForecastCard.tsx:37-46 | No day appears twice among the keys. |
| `ForecastCard.DaysInFirstSeenOrder` | project1/src/components/ForecastCard.tsx:37-46 | For any two keys in order, the earlier one has a sample before the first sample of the later one. This is first-seen order, not sorted order. |
| `ForecastCard.BucketsNonEmpty` | project1/src/components/ForecastCard.tsx:39-42 | No bucket of the grouping is empty. |
| `ForecastCard.TotalSamplesSnoc` | project1/src/components/ForecastCard.tsx:42 | For distinct days, appending one sample adds exactly one to the bucket sizes when its day is among them, and nothing otherwise. |
| `ForecastCard.GroupingKeepsEverySample` | project1/src/components/ForecastCard.tsx:37-44 | The bucket sizes add up to the number of input samples, so nothing is dropped or duplicated. |
| `ForecastCard.Entries` | project1/src/components/ForecastCard.tsx:46 | `Object.entries` lists one pair per key in key order, pairing each key with its map value. |
| `ForecastCard.FirstDays` | project1/src/components/ForecastCard.tsx:46 | `slice(0, 5)` keeps a prefix of length min(5, number of buckets). |
| `ForecastCard.MaxOf` | project1/src/components/ForecastCard.tsx:55 | The maximum of a non-empty list is at least every element and equals one of them. |
| `ForecastCard.MinOf` | project1/src/components/ForecastCard.tsx:56 | The minimum of a non-empty list is at most every element and equals one of them. |
| `ForecastCard.SumBounds` | project1/src/components/ForecastCard.tsx:57 | A sum of n values that all lie in [lo, hi] lies in [n·lo, n·hi]. |
| `ForecastCard.MeanBetween` | project1/src/components/ForecastCard.tsx:57 | The mean of values that all lie in [lo, hi] lies in [lo, hi]. |
| `ForecastCard.Mean` | project1/src/components/ForecastCard.tsx:57 | The mean times the length is the sum, and the mean lies between the list's least and greatest element. |
| `ForecastCard.MaxTempAttained` | project1/src/components/ForecastCard.tsx:55 | A day's `maxTemp` is at least every `temp_max` of the day and equals one of them. |
| `ForecastCard.MinTempAttained` | project1/src/components/ForecastCard.tsx:56 | A day's `minTemp` is at most every `temp_min` of the day and equals one of them. |
| `ForecastCard.Summarize` | project1/src/components/ForecastCard.tsx:53-64 | A day's summary bounds and attains the bucket's `temp_max` and `temp_min`. Its `avgPop` is the bucket's mean `pop`. Its icon code and description are those of the bucket's first sample, and the icon drawn is `IconFor` of that code. |
| `ForecastCard.ForecastDays` | project1/src/components/ForecastCard.tsx:37-57 | The panel's computation (fold, entries, slice, summaries) equals the specification `DailyForecast` and shows at most five days. |
| `ForecastCard.DailyForecastShowsFirstDays` | project1/src/components/ForecastCard.tsx:46-57 | The panel shows exactly min(5, number of distinct days) days. The i-th day shown summarises the i-th first-seen day's non-empty bucket. |
| `ForecastCard.EmptyForecastHasNoDays` | project1/src/components/ForecastCard.tsx:37-46 | An empty forecast gives no buckets and no days. |
| `App.Dashboard.constructor` | project1/src/App.tsx:14-18 | Initially there is no weather, no forecast, no loading and no error, and the map centre is (40.7128, -74.0060). |
| `App.Dashboard.BeginFetch` | project1/src/App.tsx:36-37 | Starting a fetch sets loading and clears the error. Weather, forecast and map centre are untouched. |
| `App.Dashboard.CompleteCoordinateFetch` | project1/src/App.tsx:39-53 | If both replies succeed, both results are stored and the centre becomes the requested (lat, lon). If either fails, weather, forecast and centre keep their values and the fixed coordinate error is set. Loading is off either way. |
| `App.Dashboard.CompleteCitySearch` | project1/src/App.tsx:60-74 | If both replies succeed, both results are stored and the centre becomes the returned weather's coordinates. If either fails, nothing but the error changes, and the error names the city. Loading is off either way. |
| `App.Dashboard.FetchWeatherData` | project1/src/App.tsx:35-54 | A full fetch by coordinates keeps `Valid` and ends not loading. It stores both results and the requested centre, or changes nothing but the error (fail-together). |
| `App.Dashboard.HandleCitySearch` | project1/src/App.tsx:56-75 | A full city search keeps `Valid` and ends not loading. It stores both results and the provider's coordinates, or changes nothing but the error. |
| `App.Dashboard.HandleMapLocationSelect` | project1/src/App.tsx:81-83 | A map click runs a full fetch for the clicked point. Both results are stored and the centre becomes the clicked point, or nothing but the error changes. |
| `App.Dashboard.OnGeolocation` | project1/src/App.tsx:86-90 | The geolocation effect fetches the reported position only when both coordinates are truthy, with the same fail-together outcome as a coordinate fetch. Otherwise the state is unchanged. |
| `App.Dashboard.OnMount` | project1/src/App.tsx:93-97 | The mount effect runs once, from the first-render state, where its guard always holds. It fetches the default location with the fail-together outcome. On success both results are stored and the centre is New York City; on failure only the error message is set. |
| `App.GeolocationTriggersFetch` | project1/src/App.tsx:87 | The geolocation guard holds exactly when both coordinates are present and non-zero. A latitude or longitude of exactly 0 starts no fetch. |
| `App.CitySearchError` | project1/src/App.tsx:70 | The city-search error message starts with the fixed prefix, which ends in a `"`. The searched city follows verbatim, then a closing `"`. |
| `App.PanelsAgree` | project1/src/App.tsx:133-191 | In a valid state the weather and forecast panels are shown together. The welcome panel never shows beside them or beside the spinner, and the spinner never shows beside an error. |
| `App.AlertsPanelAlwaysEmpty` | project1/src/App.tsx:186 | The alerts card beside the forecast always renders the "no active alerts" panel. |
| `SearchBar.LeadingSpace` | project1/src/components/SearchBar.tsx:16 | Counts the whitespace prefix: every character before the count is whitespace, and the character at the count is not. |
| `SearchBar.TrailingSpaceStart` | project1/src/components/SearchBar.tsx:16 | Finds where the whitespace suffix starts: every character from there is whitespace, and the one before is not. |
| `SearchBar.Trim` | project1/src/components/SearchBar.tsx:16-17 | The trimmed string is a contiguous part of the input. It is preceded and followed only by whitespace, and it neither starts nor ends with whitespace. |
| `SearchBar.TrimIdempotent` | project1/src/components/SearchBar.tsx:17 | Trimming the trimmed query again changes nothing. |
| `SearchBar.TrimBlankIffAllWhitespace` | project1/src/components/SearchBar.tsx:16 | A query trims to the empty string exactly when it is all whitespace. |
| `SearchBar.SearchBox.constructor` | project1/src/components/SearchBar.tsx:12 | The query starts empty. |
| `SearchBar.SearchBox.OnChange` | project1/src/components/SearchBar.tsx:29 | Typing stores the input value verbatim, untrimmed. |
| `SearchBar.SearchBox.Submit` | project1/src/components/SearchBar.tsx:14-19 | Submit searches exactly when the trimmed query is non-empty. It passes the trimmed query, which is non-empty, has no whitespace at either end and is unchanged by trimming again. |
| `SearchBar.ButtonsDisabled` | project1/src/components/SearchBar.tsx:37-51 | The search button is disabled exactly when loading or when the query is all whitespace. The location button is disabled exactly when loading, whatever the query. |
| `WeatherAlerts.IconFor` | project1/src/components/WeatherAlerts.tsx:32-43 | extreme gives red Zap, high gives orange AlertTriangle, and medium gives yellow AlertCircle. Every other string, including "low", gives blue Info. Each glyph is given exactly for its severities. |
| `WeatherAlerts.ColorFor` | project1/src/components/WeatherAlerts.tsx:45-56 | The card classes use the same partition: red for extreme, orange for high, yellow for medium, and blue otherwise, each exactly for its severities. |
| `WeatherAlerts.IconAndBorderShareHue` | project1/src/components/WeatherAlerts.tsx:32-56 | For every severity, the card's border classes are those of the icon's colour family. |
| `WeatherAlerts.Render` | project1/src/components/WeatherAlerts.tsx:20-87 | An empty list renders only the "no active alerts" panel. Otherwise the badge shows the number of alerts, and there is one card per alert in input order. Each card is keyed by the alert's id and carries its severity's icon and colour, title and description. |

## Left out

- The provider client (`weatherApi.ts`) is not part of this model. Its replies are the `Reply` parameters of the completion steps. HTTP, URLs, the API key and the logging in its error handlers are out of scope.
- `console.error` logging in the page's error handlers is I/O and is not modelled.
- Concurrency: two triggers whose requests are in flight at once can race, and the last completion wins. The model runs each trigger as an atomic begin-then-complete, so these interleavings are not modelled.
- The `useGeolocation` hook and the `types/weather` definitions are not part of this model. `handleLocationRequest` (App.tsx:77-79) only calls into the hook, and the hook's own error banner (App.tsx:141-146) shows a value the hook owns. Neither is modelled. The geolocation effect takes the hook's coordinates as parameters.
- The unused demo alert list (App.tsx:23-33) is not modelled.
- Dates: the local-time `yyyy-MM-dd` formatting of a timestamp is the parameter `dayKey`. The weekday name shown for a day (ForecastCard.tsx:69) and the alert times' `toLocaleString` are not modelled.
- Display rounding (`Math.round` of temperatures and percentages) and floating point are not modelled. Numbers are exact reals, so no `NaN` or infinities arise. A `NaN` coordinate, which JavaScript also treats as falsy, has no counterpart.
- `ForecastCard.IconFor`: the lookup `iconMap[iconCode] || Cloud` would also find keys that every JavaScript object inherits, such as `constructor`. The model treats only the sixteen listed codes as table entries.
- `ForecastCard.Summarize`: it requires a non-empty bucket. The panel only summarises buckets of the grouping, which are never empty (`BucketsNonEmpty`). `Math.max` of an empty list (`-Infinity`) is therefore not modelled.
- The weather card, the map, the header, the footer and CSS classes other than the alert colours are rendering only and are not modelled.
- `handleSubmit` itself does not look at `loading`. While a fetch runs, the disabled submit button is all that keeps a search from starting, and the browser's form-submission rules are not modelled.
- `App.Dashboard.OnMount`: the effect's guard reads the first render's values, so at mount the default fetch is unconditional. The model requires the first-render state. It does not model a geolocation fetch that starts earlier in the same commit. Such a fetch would race with the default fetch, as described under concurrency above.
