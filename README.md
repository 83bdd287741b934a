# Weather and quote of the day — a Dafny model

A small Next.js application shows the current weather of a city together
with a quote that suits it. Its core has two halves, both modelled here.

- The server route `src/app/api/weather-quote/route.js`:
  - `GET` looks up the weather, by city or by coordinates.
  - It sorts the first condition into one of seven quote categories, using a
    case-insensitive substring classifier in which the first match wins.
  - It fetches a quote for that category. The chain is the Quotable API, then
    ZenQuotes, then a built-in table.
  - It answers the combined record with a message that depends on the
    condition.
  - `POST` returns a fresh quote for a category. A missing or empty category
    gets status 400.
  - With no API key, or when the weather provider fails, it falls back to a
    placeholder reading.
- The page component `src/app/components/WeatherQuote.js`:
  - It maps the condition to an icon, a Korean label and a background
    gradient. The gradient comes from a second substring classifier that
    differs from the server's.
  - It labels the quote's source.
  - It chooses the query parameters.
  - It maintains the state `data`, `loading`, `error`, `city` and
    `useCurrentLocation` through three fetch operations. One of them is the
    refresh that replaces only the quote.

Files:

- `wrappers.dfy`: `Option`, which stands for a JavaScript null or undefined.
- `jstext.dfy`: JavaScript string truthiness, `||` defaults, `toLowerCase`
  and `includes`. Also the first-match rule chain that both classifiers
  instantiate, with its general lemmas.
- `route.dfy`: the server route, as pure functions. Every network call is an
  abstract outcome `Fetch<T> = Ok(value) | Fail`. The URLs that would be
  requested are separate functions.
- `route_scenarios.dfy`: concrete conditions and requests worked through the
  server model.
- `component.dfy`:
  - the page's pure display helpers and its query;
  - the browser's `URLSearchParams`, modelled as a class that is appended to
    in place;
  - the component itself, the class `WeatherQuote`, with one method per
    state-changing handler.
- `component_scenarios.dfy`: concrete conditions and state sequences worked
  through the page model.

Modelling choices:

- Strings that JavaScript may see as null are `Option<string>`. "Truthy"
  means present and not empty.
- Temperatures are reals. `Math.round` is the nearest integer with ties going
  up, which on reals equals `floor(x + 1/2)`.
- Timestamps are opaque string parameters.
- The page's fetch results are a parameter `Reply<T>`, with three cases:
  - `Answered(body)`: a decoded body;
  - `NotOk`: a non-success status;
  - `Thrown(message)`: a thrown error.
- Geolocation is an optional pair of coordinates, already rendered with
  `toString()`.
- `fetchWeatherAndQuote` is split into `BeginFetch`, which runs up to the
  request, and `CompleteFetch`, which runs after it. This makes the
  intermediate loading state visible.

Behaviour the proofs make explicit:

- The page's background classifier tests the same rules in the same order as
  the server's category classifier, with two exceptions:
  - it has no "storm" test, so a bare "Storm" is a thunderstorm for the server
    but gets the default gradient on the page;
  - it has no "haze" test, so "Haze" keeps its fog icon but gets the default
    gradient.
- The icon and the description are exact lookups, so "Light rain" gets the
  rain background but the default icon.
- "Drizzle" is in the rain category but gets the generic message, not the
  rain message.
- The location error of `fetchCurrentLocationWeather` never survives. The
  fallback fetch clears `error` before it queries Seoul, so the page only
  ever shows that fetch's own outcome.
- The page shows temperatures through `|| 20` and `|| 22`. A reading that
  rounds to 0 °C is therefore shown as 20 °C.

## Model

| member | source | states |
|---|---|---|
| JsText.Or | src/app/api/weather-quote/route.js:53 | `x \|\| fallback` is the value when it is a non-empty string and the fallback otherwise |
| JsText.ToLower | src/app/api/weather-quote/route.js:5 | lower-casing keeps the length and lower-cases each ASCII capital in place |
| JsText.ToLowerIdempotent | src/app/components/WeatherQuote.js:26 | lower-casing twice is lower-casing once |
| JsText.IncludesTransitive | src/app/api/weather-quote/route.js:19 | a string that includes "thunderstorm" includes everything that "thunderstorm" includes |
| JsText.FirstMatchWins | src/app/api/weather-quote/route.js:7-26 | in a chain of tests, the first rule that matches decides the answer, whatever later rules say |
| JsText.FirstMatchNone | src/app/api/weather-quote/route.js:26 | when no rule matches, the chain gives its default |
| JsText.WinnerExists | src/app/api/weather-quote/route.js:7-24 | when some rule matches, there is a first one that matches |
| WeatherQuoteRoute.Name | src/app/api/weather-quote/route.js:8-26 | each category maps to the key string the classifier returns for it, one of the seven category names |
| WeatherQuoteRoute.NameBijective | src/app/api/weather-quote/route.js:8-26 | the seven categories have seven distinct names, and every name belongs to a category |
| WeatherQuoteRoute.Classify | src/app/api/weather-quote/route.js:4-27 | a null condition is `default`; a condition whose lower-case form contains "rain" or "drizzle" is `rain` |
| WeatherQuoteRoute.ClassifyIsFirstMatch | src/app/api/weather-quote/route.js:4-27 | the classifier is the first-match evaluation of rain/drizzle, snow, clear, cloud, thunderstorm/storm, fog/mist/haze, on the lower-cased condition, with `default` as the default |
| WeatherQuoteRoute.ClassifyFirstRuleWins | src/app/api/weather-quote/route.js:7-24 | the first matching rule gives the category |
| WeatherQuoteRoute.ClassifyDefaultIff | src/app/api/weather-quote/route.js:26 | the category is `default` exactly when no rule's keyword occurs in the condition |
| WeatherQuoteRoute.ClassifyRainOrDrizzle | src/app/api/weather-quote/route.js:5-9 | any condition containing "rain" or "drizzle", in any case, is `rain`, whatever else it contains |
| WeatherQuoteRoute.ClassifyIgnoresCase | src/app/api/weather-quote/route.js:5 | a condition and its lower-case form have the same category |
| WeatherQuoteRoute.ThunderstormTestSubsumed | src/app/api/weather-quote/route.js:19 | the thunderstorm rule matches exactly when the condition includes "storm" |
| WeatherQuoteRoute.QuoteTags | src/app/api/weather-quote/route.js:30-42 | the tags of a table key, and the `default` tags for any other key |
| WeatherQuoteRoute.TagTableCoversCategories | src/app/api/weather-quote/route.js:31-39 | the tag table's keys are exactly the seven category names |
| WeatherQuoteRoute.SourceName | src/app/api/weather-quote/route.js:93-157 | each stage of the chain has its own source tag: "quotable" exactly for the primary, "zenquotes" exactly for the secondary, "fallback" exactly for the built-in table |
| WeatherQuoteRoute.FallbackQuote | src/app/api/weather-quote/route.js:122-160 | the built-in quote of a table key, or the `default` one, always tagged `fallback` |
| WeatherQuoteRoute.FallbackTableCoversCategories | src/app/api/weather-quote/route.js:122-158 | the built-in table's keys are exactly the seven category names |
| WeatherQuoteRoute.QuotableUrl | src/app/api/weather-quote/route.js:85-89 | the primary provider's URL carries the category's tags |
| WeatherQuoteRoute.QuoteFromApi | src/app/api/weather-quote/route.js:84-160 | the source is `quotable` exactly when the primary succeeds, with its content and author; otherwise it is `zenquotes` exactly when the secondary answers a non-empty list, with its first entry; otherwise the quote is the built-in one for the category |
| WeatherQuoteRoute.PrimaryShortCircuits | src/app/api/weather-quote/route.js:87-98 | once the primary succeeds, the secondary's outcome does not matter |
| WeatherQuoteRoute.BothProvidersFail | src/app/api/weather-quote/route.js:103-160 | a failed primary and a failed or empty secondary give the category's entry of the built-in table |
| WeatherQuoteRoute.Placeholder | src/app/api/weather-quote/route.js:50-54 | a placeholder reading (the no-key one here, the failure one at lines 75-79) has the given single condition, 20 °C, feels-like 22 °C, and the city, or '서울' when the city is falsy |
| WeatherQuoteRoute.WeatherQueryFor | src/app/api/weather-quote/route.js:58-63 | coordinate mode exactly when both `lat` and `lon` are truthy; otherwise the city, or Seoul when it is falsy |
| WeatherQuoteRoute.WeatherUrl | src/app/api/weather-quote/route.js:59-63 | the coordinate form carries `?lat=<lat>&lon=<lon>&appid=<key>&`, the city form `?q=<city>&appid=<key>&`, so each value sits right after its own parameter name |
| WeatherQuoteRoute.WeatherRequest | src/app/api/weather-quote/route.js:45-65 | no request is made exactly when there is no key; a request carries the key, and `?lat=<lat>&lon=<lon>&appid=<key>&` when both coordinates are truthy, otherwise `?q=<city \|\| 'Seoul'>&appid=<key>&` |
| WeatherQuoteRoute.GetWeatherData | src/app/api/weather-quote/route.js:45-81 | without a key, a Rain placeholder for `city \|\| '서울'`; on a failed request, a Clear placeholder; otherwise the provider's reading |
| WeatherQuoteRoute.NoKeyNoFetch | src/app/api/weather-quote/route.js:48-55 | without a key, the provider's outcome does not matter and no URL is built |
| WeatherQuoteRoute.Round | src/app/api/weather-quote/route.js:184-185 | the rounded temperature lies within half a degree of the reading, with ties going up |
| WeatherQuoteRoute.Message | src/app/api/weather-quote/route.js:196 | the rain message exactly when the lower-cased condition includes "rain"; otherwise the condition followed by the generic suffix |
| WeatherQuoteRoute.Get | src/app/api/weather-quote/route.js:164-212 | a failure is always status 500; a success carries one of the seven category names and the given timestamp |
| WeatherQuoteRoute.GetAssembly | src/app/api/weather-quote/route.js:172-197 | a success happens exactly when the reading has a condition; it copies condition, description and location, rounds both temperatures, takes the condition's category, the chain's quote for it and the condition's message |
| WeatherQuoteRoute.GetWithoutKey | src/app/api/weather-quote/route.js:48-55 | without a key, GET answers a rainy 20/22 °C reading in the `rain` category with the rain message |
| WeatherQuoteRoute.GetWeatherFailure | src/app/api/weather-quote/route.js:72-80 | a failed weather request makes GET answer a clear 20/22 °C reading in the `clear` category with the generic message |
| WeatherQuoteRoute.ClassifyClearPlaceholder | src/app/api/weather-quote/route.js:13-15 | the failure placeholder's "Clear" is in the `clear` category |
| WeatherQuoteRoute.ClearPlaceholderMessage | src/app/api/weather-quote/route.js:196 | the failure placeholder gets the generic message |
| WeatherQuoteRoute.Post | src/app/api/weather-quote/route.js:215-248 | status 400 exactly for a readable body with a falsy category; an unreadable body is 500; a truthy category always succeeds, with exactly the chain's quote for it and the timestamp |
| WeatherQuoteRoute.PostRefusalSkipsLookup | src/app/api/weather-quote/route.js:219-224 | a refused request does not depend on either provider's outcome |
| WeatherQuoteRouteScenarios.RainAndSnowIsRain | src/app/api/weather-quote/route.js:7-9 | "Rain and snow" is `rain` |
| WeatherQuoteRouteScenarios.StormCloudsIsClouds | src/app/api/weather-quote/route.js:16-21 | "Storm clouds" is `clouds`, because "cloud" is tested before "storm" |
| WeatherQuoteRouteScenarios.HazeIsFog | src/app/api/weather-quote/route.js:22-24 | "Haze" is `fog` |
| WeatherQuoteRouteScenarios.StormIsThunderstorm | src/app/api/weather-quote/route.js:19-21 | "Storm" is `thunderstorm` |
| WeatherQuoteRouteScenarios.TornadoIsDefault | src/app/api/weather-quote/route.js:26 | a condition matching no rule is `default` |
| WeatherQuoteRouteScenarios.NullIsDefault | src/app/api/weather-quote/route.js:5-26 | a null condition is `default` |
| WeatherQuoteRouteScenarios.DrizzleRainWithoutRainMessage | src/app/api/weather-quote/route.js:196 | "Drizzle" is `rain` but gets the generic message |
| WeatherQuoteRouteScenarios.UnknownKeyGetsDefaults | src/app/api/weather-quote/route.js:41 | a key outside the tables gets the `default` tags and the `default` built-in quote |
| WeatherQuoteRouteScenarios.SeoulInTheRain | src/app/api/weather-quote/route.js:181-196 | a rainy Seoul reading of 17.6/16.4 °C with a working primary answers 18/16 °C, `rain`, that provider's quote and the rain message |
| WeatherQuoteRouteScenarios.SnowOutage | src/app/api/weather-quote/route.js:226-235 | a POST for snow with both providers down answers the snow entry of the built-in table |
| WeatherQuoteRouteScenarios.EmptyPostRefused | src/app/api/weather-quote/route.js:219-224 | a POST without a category, or with an empty one, is refused with 400 |
| WeatherQuoteComponent.WeatherIcon | src/app/components/WeatherQuote.js:13-27 | the icon of the lower-cased condition among the nine keys; the default icon exactly for null or any other string |
| WeatherQuoteComponent.WeatherDescription | src/app/components/WeatherQuote.js:56-70 | the Korean label of the lower-cased condition among the nine keys; any other input unchanged |
| WeatherQuoteComponent.IconAndDescriptionKeysAgree | src/app/components/WeatherQuote.js:14-67 | the icon and label tables know the same nine conditions |
| WeatherQuoteComponent.LookupsIgnoreCase | src/app/components/WeatherQuote.js:13-70 | a condition and its lower-case form get the same icon, and the same label when the lower-case form is one of the nine keys (an unknown condition is shown as itself, in its own case) |
| WeatherQuoteComponent.BackgroundClass | src/app/components/WeatherQuote.js:30-53 | a null condition gets the default gradient; "rain" or "drizzle" anywhere gives the rain gradient; the result is always one of the seven gradients |
| WeatherQuoteComponent.BackgroundIsFirstMatch | src/app/components/WeatherQuote.js:30-53 | the gradient is the first-match evaluation of rain/drizzle, snow, clear, cloud, thunderstorm, fog/mist |
| WeatherQuoteComponent.RuleListsDiffer | src/app/components/WeatherQuote.js:33-50 | the page's rules follow the server's in order and outcome; the server adds only "storm" to the thunderstorm rule and "haze" to the fog rule |
| WeatherQuoteComponent.BackgroundVersusClassifier | src/app/components/WeatherQuote.js:30-53 | the gradient is the server category's gradient for every category except thunderstorm and fog; there it depends only on "thunderstorm", "fog" and "mist" |
| WeatherQuoteComponent.BackgroundOfNull | src/app/components/WeatherQuote.js:31-52 | a null condition gets the default gradient |
| WeatherQuoteComponent.SourceLabel | src/app/components/WeatherQuote.js:264-266 | 'Quotable API' exactly for `quotable`, 'ZenQuotes API' exactly for `zenquotes`, '내장 명언' for anything else |
| WeatherQuoteComponent.PanelSourceLabel | src/app/components/WeatherQuote.js:284-286 | the same choice in the information panel, with '내장 명언 DB' for anything else, an absent quote included |
| WeatherQuoteComponent.SourceLabelNamesStage | src/app/components/WeatherQuote.js:264-266 | for the server chain's quote, each label names exactly the stage that produced the text |
| WeatherQuoteComponent.ParamValue | src/app/api/weather-quote/route.js:166-169 | a parameter is found exactly when some entry has its name, and the value found is that of the first such entry |
| WeatherQuoteComponent.QueryParams | src/app/components/WeatherQuote.js:101-108 | with coordinates, the entries `lat` then `lon`; without, the single entry `city = cityName \|\| city` |
| WeatherQuoteComponent.QueryParamsForms | src/app/components/WeatherQuote.js:101-108 | with coordinates, only `lat` and `lon`; without, only `city = cityName \|\| city` |
| WeatherQuoteComponent.ClientQueryReachesServer | src/app/components/WeatherQuote.js:103-107 | the page's coordinates put the server in coordinate mode with those coordinates; otherwise the server queries the chosen city, or Seoul when it is empty |
| WeatherQuoteComponent.SearchParams.constructor | src/app/components/WeatherQuote.js:101 | new parameters are empty |
| WeatherQuoteComponent.SearchParams.Append | src/app/components/WeatherQuote.js:104-107 | appending adds one entry at the end and keeps the others |
| WeatherQuoteComponent.FailureMessage | src/app/components/WeatherQuote.js:116-124 | a thrown message is shown when it is non-empty; a bad status or an empty message shows the generic load failure; the result is never empty |
| WeatherQuoteComponent.MergeQuote | src/app/components/WeatherQuote.js:166-170 | the merge takes the new quote and timestamp and keeps the weather and the message |
| WeatherQuoteComponent.MergeQuoteLastWins | src/app/components/WeatherQuote.js:166-170 | two merges in a row keep only the later one |
| WeatherQuoteComponent.RefreshRoundTrip | src/app/components/WeatherQuote.js:145-170 | a refresh for the shown category is accepted, and merging the answer keeps weather and message and shows the chain's quote for that category |
| WeatherQuoteComponent.OrNumber | src/app/components/WeatherQuote.js:241 | `n \|\| fallback` is the number unless it is zero |
| WeatherQuoteComponent.Decorate | src/app/components/WeatherQuote.js:212-246 | without data the defaults; with data the condition's gradient, icon and label, and location, temperatures and footer, each replaced when falsy by its fixed default '서울', 20, 22 or the default footer |
| WeatherQuoteComponent.PageFollowsCategory | src/app/components/WeatherQuote.js:212 | a page showing a GET answer has the answer's category gradient unless that category is thunderstorm or fog |
| WeatherQuoteComponent.WeatherQuote.View | src/app/components/WeatherQuote.js:183-216 | the spinner exactly while loading; the error page exactly when not loading, with a truthy error and no data, showing that error; otherwise the content page with the data |
| WeatherQuoteComponent.WeatherQuote.constructor | src/app/components/WeatherQuote.js:6-10 | no data, loading, no error, Seoul, no geolocation; the spinner is shown |
| WeatherQuoteComponent.WeatherQuote.SetCity | src/app/components/WeatherQuote.js:328 | the input replaces the city |
| WeatherQuoteComponent.WeatherQuote.BeginFetch | src/app/components/WeatherQuote.js:97-108 | loading is raised and the error cleared before the request; the parameters are the query for the arguments and the current city |
| WeatherQuoteComponent.WeatherQuote.CompleteFetch | src/app/components/WeatherQuote.js:114-128 | loading is always lowered; success stores the body; failure records the message, keeping earlier data on screen, or showing the error page when there was none |
| WeatherQuoteComponent.WeatherQuote.FetchWeatherAndQuote | src/app/components/WeatherQuote.js:95-129 | the query for the arguments; loading ends false; success stores the body with no error; failure keeps the data and records the message |
| WeatherQuoteComponent.WeatherQuote.FetchCurrentLocationWeather | src/app/components/WeatherQuote.js:132-142 | with a position, a coordinate query; without one, the geolocation flag drops and Seoul is queried; the location error is overwritten by that fetch's outcome |
| WeatherQuoteComponent.WeatherQuote.FetchNewQuote | src/app/components/WeatherQuote.js:145-176 | nothing is sent or changed without a category; otherwise the category is sent, success merges the quote, failure records the refresh error; loading is never touched |
| WeatherQuoteComponentScenarios.HazeDisplay | src/app/components/WeatherQuote.js:48-52 | "Haze" has the fog icon and '연무', but the default gradient |
| WeatherQuoteComponentScenarios.StormDisplay | src/app/components/WeatherQuote.js:45-52 | "Storm" has the default gradient, the default icon and no label of its own |
| WeatherQuoteComponentScenarios.LightRainDisplay | src/app/components/WeatherQuote.js:26-34 | "Light rain" has the rain gradient but the default icon |
| WeatherQuoteComponentScenarios.NullDisplay | src/app/components/WeatherQuote.js:26-31 | a null condition has the default gradient and icon, and no label |
| WeatherQuoteComponentScenarios.MountFetchesSeoul | src/app/components/WeatherQuote.js:178-181 | the first request after mounting asks for Seoul; its success shows the content, its failure the error page |
| WeatherQuoteComponentScenarios.FailedRefreshKeepsContent | src/app/components/WeatherQuote.js:172-175 | a failed refresh after a successful load records the refresh error but keeps the content on screen |
| WeatherQuoteComponentScenarios.FreezingShownAsTwenty | src/app/components/WeatherQuote.js:241 | a reading that rounds to 0 °C is shown as 20 °C |

## Left out

- HTTP itself is not modelled: `fetch`, `NextResponse`, response status codes other than the ones above, and JSON encoding and parsing. Every call's outcome is a parameter.
- URL encoding and `URLSearchParams.toString` are not modelled. The page's query is the list of its entries.
- `process.env` is not modelled; the API key is an optional parameter.
- Browser geolocation and its promise are not modelled; the position is an optional input.
- `toLowerCase` is modelled for the ASCII capitals only. The conditions and keys involved are ASCII.
- Floating-point temperatures are modelled as reals.
- Clock reads and `toLocaleString` are not modelled; timestamps are opaque strings.
- Console logging, JSX layout and styling, and async interleavings are not modelled. Each handler runs to completion.
- The detail `message` of the 500 answers is not modelled. It is the text of a JavaScript exception.
- POST bodies whose `weatherCategory` is a truthy non-string are not modelled. For example, a number would be looked up by its string form.
- JavaScript object-prototype keys are not modelled. In the source, a key such as `constructor` would find an inherited member in a lookup table; here the tables are finite maps with a default.
- WeatherQuoteRoute.QuotableUrl: states only that the URL carries the category's tags, not the full URL text.
- WeatherQuoteRoute.WeatherUrl: states the query part of the URL, each value after its own parameter name, but not the whole text with the endpoint and the units/language suffix.
- WeatherQuoteRoute.WeatherRequest: states the same query part as `WeatherUrl`, not the full URL text.
- The secondary provider's request is not modelled as a URL: it is one fixed, unfiltered random-quote request that does not depend on the category, so only its answer is a parameter.
