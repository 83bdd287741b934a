/**
 * The client page that shows the combined weather and quote: its display
 * mappings (icon, Korean description, background gradient, source label),
 * the query it sends, and the component state that its three fetch
 * operations update (`data`, `loading`, `error`, `city`,
 * `useCurrentLocation`).
 *
 * What the server answers is an abstract `Reply`; geolocation is an
 * optional pair of coordinates given by the caller.
 */
module WeatherQuoteComponent {
  import opened Wrappers
  import opened JsText
  import opened WeatherQuoteRoute

  // ---------------------------------------------------------------------
  // Icon and description: exact, case-insensitive table lookups
  // ---------------------------------------------------------------------

  const IconTable: map<string, string> := map[
    "clear" := "☀️",
    "clouds" := "☁️",
    "rain" := "🌧️",
    "drizzle" := "🌦️",
    "thunderstorm" := "⛈️",
    "snow" := "❄️",
    "fog" := "🌫️",
    "mist" := "🌫️",
    "haze" := "🌫️"
  ]

  const DefaultIcon := "🌤️"

  /** `getWeatherIcon`: the icon of the lower-cased condition, or the default icon for any other input or null. */
  function WeatherIcon(weatherMain: Option<string>): (icon: string)
    ensures weatherMain.Some? && ToLower(weatherMain.value) in IconTable ==>
      icon == IconTable[ToLower(weatherMain.value)]
    ensures icon == DefaultIcon <==> weatherMain.None? || ToLower(weatherMain.value) !in IconTable
  {
    if weatherMain.Some? && ToLower(weatherMain.value) in IconTable then
      IconTable[ToLower(weatherMain.value)]
    else
      DefaultIcon
  }

  const DescriptionTable: map<string, string> := map[
    "clear" := "맑음",
    "clouds" := "흐림",
    "rain" := "비",
    "drizzle" := "이슬비",
    "thunderstorm" := "뇌우",
    "snow" := "눈",
    "fog" := "안개",
    "mist" := "박무",
    "haze" := "연무"
  ]

  /**
   * `getWeatherDescription`: the Korean label of the lower-cased condition;
   * any other input, null included, comes back unchanged.
   */
  function WeatherDescription(weatherMain: Option<string>): (d: Option<string>)
    ensures weatherMain.Some? && ToLower(weatherMain.value) in DescriptionTable ==>
      d == Some(DescriptionTable[ToLower(weatherMain.value)])
    ensures weatherMain.None? || ToLower(weatherMain.value) !in DescriptionTable ==> d == weatherMain
  {
    if weatherMain.Some? && ToLower(weatherMain.value) in DescriptionTable then
      Some(DescriptionTable[ToLower(weatherMain.value)])
    else
      weatherMain
  }

  /** The icon and the description tables know the same nine conditions. */
  lemma IconAndDescriptionKeysAgree()
    ensures IconTable.Keys == DescriptionTable.Keys
    ensures |IconTable.Keys| == 9
  {
  }

  /**
   * Lookups ignore case: a condition and its lower-case form get the same
   * icon, and the same label when the lower-case form is one of the nine known
   * conditions (an unknown condition is its own label, so its case shows).
   */
  lemma LookupsIgnoreCase(s: string)
    ensures WeatherIcon(Some(s)) == WeatherIcon(Some(ToLower(s)))
    ensures ToLower(s) in DescriptionTable ==> WeatherDescription(Some(s)) == WeatherDescription(Some(ToLower(s)))
  {
    ToLowerIdempotent(s);
  }

  // ---------------------------------------------------------------------
  // Background gradient: the client's own substring classifier
  // ---------------------------------------------------------------------

  const RainGradient := "from-gray-600 to-blue-800"
  const SnowGradient := "from-blue-200 to-white"
  const ClearGradient := "from-yellow-400 to-orange-500"
  const CloudGradient := "from-gray-400 to-gray-600"
  const ThunderstormGradient := "from-gray-800 to-purple-900"
  const FogGradient := "from-gray-300 to-gray-500"
  const DefaultGradient := "from-blue-400 to-purple-600"

  /** `getBackgroundClass`: the server's chain of tests, but without "storm" and without "haze". */
  function BackgroundClass(weatherMain: Option<string>): (gradient: string)
    ensures weatherMain.None? ==> gradient == DefaultGradient
    ensures weatherMain.Some? ==>
              var w := ToLower(weatherMain.value);
              Includes(w, "rain") || Includes(w, "drizzle") ==> gradient == RainGradient
    ensures gradient in {RainGradient, SnowGradient, ClearGradient, CloudGradient,
                         ThunderstormGradient, FogGradient, DefaultGradient}
  {
    if weatherMain.None? then DefaultGradient
    else
      var w := ToLower(weatherMain.value);
      if Includes(w, "rain") || Includes(w, "drizzle") then RainGradient
      else if Includes(w, "snow") then SnowGradient
      else if Includes(w, "clear") then ClearGradient
      else if Includes(w, "cloud") then CloudGradient
      else if Includes(w, "thunderstorm") then ThunderstormGradient
      else if Includes(w, "fog") || Includes(w, "mist") then FogGradient
      else DefaultGradient
  }

  /** The background's tests as a priority list. */
  const BackgroundRules: seq<Rule<string>> := [
    Rule(["rain", "drizzle"], RainGradient),
    Rule(["snow"], SnowGradient),
    Rule(["clear"], ClearGradient),
    Rule(["cloud"], CloudGradient),
    Rule(["thunderstorm"], ThunderstormGradient),
    Rule(["fog", "mist"], FogGradient)
  ]

  /** The gradient each server category would get if the two classifiers agreed. */
  function CategoryGradient(c: Category): string
  {
    match c
    case Rain => RainGradient
    case Snow => SnowGradient
    case Clear => ClearGradient
    case Clouds => CloudGradient
    case Thunderstorm => ThunderstormGradient
    case Fog => FogGradient
    case Default => DefaultGradient
  }

  /** The background is the first-match evaluation of its priority list. */
  lemma BackgroundIsFirstMatch(s: string)
    ensures BackgroundClass(Some(s)) == FirstMatch(ToLower(s), BackgroundRules, DefaultGradient)
  {
    var w := ToLower(s);
    var rs := BackgroundRules;
    MatchesTwo(w, "rain", "drizzle", RainGradient);
    MatchesOne(w, "snow", SnowGradient);
    MatchesOne(w, "clear", ClearGradient);
    MatchesOne(w, "cloud", CloudGradient);
    MatchesOne(w, "thunderstorm", ThunderstormGradient);
    MatchesTwo(w, "fog", "mist", FogGradient);
    var t1 := rs[1..];
    var t2 := t1[1..];
    var t3 := t2[1..];
    var t4 := t3[1..];
    var t5 := t4[1..];
    assert t5[1..] == [];
    assert FirstMatch(w, t5, DefaultGradient) == if Matches(w, rs[5]) then FogGradient else DefaultGradient;
    assert FirstMatch(w, t4, DefaultGradient)
        == if Matches(w, rs[4]) then ThunderstormGradient else FirstMatch(w, t5, DefaultGradient);
    assert FirstMatch(w, t3, DefaultGradient)
        == if Matches(w, rs[3]) then CloudGradient else FirstMatch(w, t4, DefaultGradient);
    assert FirstMatch(w, t2, DefaultGradient)
        == if Matches(w, rs[2]) then ClearGradient else FirstMatch(w, t3, DefaultGradient);
    assert FirstMatch(w, t1, DefaultGradient)
        == if Matches(w, rs[1]) then SnowGradient else FirstMatch(w, t2, DefaultGradient);
    assert FirstMatch(w, rs, DefaultGradient)
        == if Matches(w, rs[0]) then RainGradient else FirstMatch(w, t1, DefaultGradient);
  }

  /**
   * The two priority lists agree rule by rule on order and outcome; they differ
   * only in the keywords of the thunderstorm rule (no "storm") and of the fog
   * rule (no "haze").
   */
  lemma RuleListsDiffer()
    ensures |BackgroundRules| == |ClassifierRules| == 6
    ensures forall i :: 0 <= i < 6 ==> BackgroundRules[i].result == CategoryGradient(ClassifierRules[i].result)
    ensures forall i :: 0 <= i < 4 ==> BackgroundRules[i].keywords == ClassifierRules[i].keywords
    ensures ClassifierRules[4].keywords == BackgroundRules[4].keywords + ["storm"]
    ensures ClassifierRules[5].keywords == BackgroundRules[5].keywords + ["haze"]
  {
  }

  /**
   * Where the background and the server's category part ways: they agree
   * except on thunderstorm and fog conditions, where the background sees only
   * "thunderstorm", "fog" and "mist".
   */
  lemma BackgroundVersusClassifier(s: string)
    ensures var c := Classify(Some(s));
            var w := ToLower(s);
            var fogOrMist := Includes(w, "fog") || Includes(w, "mist");
            (c != Thunderstorm && c != Fog ==> BackgroundClass(Some(s)) == CategoryGradient(c)) &&
            (c == Fog ==> BackgroundClass(Some(s)) == if fogOrMist then FogGradient else DefaultGradient) &&
            (c == Thunderstorm ==>
               BackgroundClass(Some(s)) ==
                 if Includes(w, "thunderstorm") then ThunderstormGradient
                 else if fogOrMist then FogGradient
                 else DefaultGradient)
  {
  }

  /** Null gets the default gradient, as it gets the `Default` category. */
  lemma BackgroundOfNull()
    ensures BackgroundClass(None) == DefaultGradient == CategoryGradient(Classify(None))
  {
  }

  // ---------------------------------------------------------------------
  // Source label
  // ---------------------------------------------------------------------

  /** The attribution under the quote: the provider's name, or "built-in quote" for anything else. */
  function SourceLabel(source: string): (text: string)
    ensures text == "Quotable API" <==> source == "quotable"
    ensures text == "ZenQuotes API" <==> source == "zenquotes"
    ensures source != "quotable" && source != "zenquotes" ==> text == "내장 명언"
  {
    if source == "quotable" then "Quotable API"
    else if source == "zenquotes" then "ZenQuotes API"
    else "내장 명언"
  }

  /** The same choice in the information panel, where the quote may be absent. */
  function PanelSourceLabel(source: Option<string>): (text: string)
    ensures text == "Quotable API" <==> source == Some("quotable")
    ensures text == "ZenQuotes API" <==> source == Some("zenquotes")
    ensures source != Some("quotable") && source != Some("zenquotes") ==> text == "내장 명언 DB"
  {
    if source == Some("quotable") then "Quotable API"
    else if source == Some("zenquotes") then "ZenQuotes API"
    else "내장 명언 DB"
  }

  /** For a quote from the server's chain, the label names the stage that produced the text. */
  lemma SourceLabelNamesStage(category: string, primary: Fetch<QuotablePayload>,
                              secondary: Fetch<seq<ZenPayload>>)
    ensures var text := SourceLabel(SourceName(QuoteFromApi(category, primary, secondary).source));
            (text == "Quotable API" <==> primary.Ok?) &&
            (text == "ZenQuotes API" <==> primary.Fail? && secondary.Ok? && |secondary.value| > 0) &&
            (text == "내장 명언" <==> QuoteFromApi(category, primary, secondary) == FallbackQuote(category))
  {
    var q := QuoteFromApi(category, primary, secondary);
    assert FallbackQuote(category).source == Fallback;
    assert SourceName(Quotable) == "quotable" && SourceName(ZenQuotes) == "zenquotes";
    assert SourceName(Fallback) == "fallback";
  }

  // ---------------------------------------------------------------------
  // Query parameters
  // ---------------------------------------------------------------------

  /** Geolocation coordinates, already rendered with `toString()`. */
  datatype Coords = Coords(lat: string, lon: string)

  /** What `fetchWeatherAndQuote` appends: the coordinates alone, or the city alone. */
  function QueryParams(cityName: Option<string>, coords: Option<Coords>, city: string): (params: seq<(string, string)>)
    ensures coords.Some? ==> |params| == 2 && params[0] == ("lat", coords.value.lat) && params[1] == ("lon", coords.value.lon)
    ensures coords.None? ==> |params| == 1 && params[0] == ("city", Or(cityName, city))
  {
    if coords.Some? then [("lat", coords.value.lat), ("lon", coords.value.lon)]
    else [("city", Or(cityName, city))]
  }

  /** `URLSearchParams.get`: the first value appended under `name`, or null. */
  function ParamValue(params: seq<(string, string)>, name: string): (v: Option<string>)
    ensures v.Some? <==> exists i :: 0 <= i < |params| && params[i].0 == name
    ensures v.Some? ==> (name, v.value) in params
    ensures v.Some? ==> exists i :: 0 <= i < |params| && params[i] == (name, v.value) &&
                                    forall j :: 0 <= j < i ==> params[j].0 != name
  {
    if params == [] then None
    else if params[0].0 == name then Some(params[0].1)
    else
      var v := ParamValue(params[1..], name);
      assert forall i :: 0 < i < |params| ==> params[i] == params[1..][i - 1];
      if v.Some? then
        var i :| 0 <= i < |params[1..]| && params[1..][i] == (name, v.value) &&
                 forall j :: 0 <= j < i ==> params[1..][j].0 != name;
        assert params[i + 1] == (name, v.value);
        assert forall j :: 0 <= j < i + 1 ==> params[j].0 != name;
        v
      else v
  }

  /**
   * The two query forms, as the server reads them: coordinates come without a
   * city, a city comes without coordinates.
   */
  lemma QueryParamsForms(cityName: Option<string>, coords: Option<Coords>, city: string)
    ensures var p := QueryParams(cityName, coords, city);
            (coords.Some? ==>
              ParamValue(p, "lat") == Some(coords.value.lat) &&
              ParamValue(p, "lon") == Some(coords.value.lon) &&
              ParamValue(p, "city") == None) &&
            (coords.None? ==>
              ParamValue(p, "city") == Some(Or(cityName, city)) &&
              ParamValue(p, "lat") == None && ParamValue(p, "lon") == None)
  {
  }

  /**
   * The weather query the server builds from the client's parameters: coordinate
   * mode for (non-empty) coordinates, otherwise the chosen city, or Seoul when
   * that is empty.
   */
  lemma ClientQueryReachesServer(cityName: Option<string>, coords: Option<Coords>, city: string)
    requires coords.Some? ==> coords.value.lat != "" && coords.value.lon != ""
    ensures var p := QueryParams(cityName, coords, city);
            var q := WeatherQueryFor(ParamValue(p, "city"), ParamValue(p, "lat"), ParamValue(p, "lon"));
            (coords.Some? ==> q == ByCoords(coords.value.lat, coords.value.lon)) &&
            (coords.None? ==> q == ByCity(if Or(cityName, city) != "" then Or(cityName, city) else "Seoul"))
  {
    QueryParamsForms(cityName, coords, city);
  }

  /** The browser's `URLSearchParams`, which `fetchWeatherAndQuote` fills by appending. */
  class SearchParams {
    var entries: seq<(string, string)>

    constructor ()
      ensures entries == []
    {
      entries := [];
    }

    method Append(name: string, value: string)
      modifies this
      ensures entries == old(entries) + [(name, value)]
    {
      entries := entries + [(name, value)];
    }
  }

  // ---------------------------------------------------------------------
  // Component state
  // ---------------------------------------------------------------------

  /** What the page's own `fetch` to the server yielded: the decoded body, a non-success status, or a thrown error. */
  datatype Reply<T> = Answered(body: T) | NotOk | Thrown(message: string)

  const LoadFailure := "데이터를 가져오는데 실패했습니다."
  const LocationFailure := "위치 정보를 가져올 수 없습니다. 서울 날씨를 표시합니다."
  const QuoteFailure := "새로운 명언을 가져오는데 실패했습니다."

  /** `err.message || LoadFailure`, where a non-success status throws with `LoadFailure` itself. */
  function FailureMessage<T>(reply: Reply<T>): (m: string)
    requires !reply.Answered?
    ensures m != ""
    ensures reply.Thrown? && reply.message != "" ==> m == reply.message
    ensures reply.NotOk? || reply.message == "" ==> m == LoadFailure
  {
    match reply
    case NotOk => LoadFailure
    case Thrown(message) => if message != "" then message else LoadFailure
  }

  /** The refresh's functional update: the new quote and timestamp over the previous data. */
  function MergeQuote(previous: CombinedResult, reply: QuoteReply): (merged: CombinedResult)
    ensures merged.quote == reply.quote && merged.timestamp == reply.timestamp
    ensures merged.weather == previous.weather && merged.message == previous.message
  {
    previous.(quote := reply.quote, timestamp := reply.timestamp)
  }

  /** Merging two refreshes in a row keeps only the later one. */
  lemma MergeQuoteLastWins(d: CombinedResult, r1: QuoteReply, r2: QuoteReply)
    ensures MergeQuote(MergeQuote(d, r1), r2) == MergeQuote(d, r2)
  {
  }

  /**
   * A refresh round trip: the category shown is sent, the server answers with
   * the chain's quote for it, and the merge leaves the weather half and the
   * message as they were.
   */
  lemma RefreshRoundTrip(d: CombinedResult, primary: Fetch<QuotablePayload>,
                         secondary: Fetch<seq<ZenPayload>>, now: string)
    requires d.weather.category != ""
    ensures var response := Post(Body(Some(d.weather.category)), primary, secondary, now);
            response.PostOk? &&
            var merged := MergeQuote(d, response.reply);
            merged.weather == d.weather && merged.message == d.message &&
            merged.quote == QuoteFromApi(d.weather.category, primary, secondary) &&
            merged.timestamp == now
  {
  }

  /**
   * What the content page shows around the data: background, icon and
   * description of the condition, and the location, temperatures and footer
   * message with their `||` defaults (so a 0 °C reading, being falsy, is shown
   * as the default 20 °C).
   */
  datatype Decoration = Decoration(background: string, icon: string, description: string,
                                   location: string, temperature: int, feelsLike: int, footer: string)

  const DefaultFooter := "🌤️ 날씨에 어울리는 명언이에요"

  /** `n || fallback` for a number. */
  function OrNumber(n: int, fallback: int): (r: int)
    ensures n != 0 ==> r == n
    ensures n == 0 ==> r == fallback
  {
    if n != 0 then n else fallback
  }

  function Decorate(data: Option<CombinedResult>): (d: Decoration)
    ensures data.None? ==> d == Decoration(DefaultGradient, DefaultIcon, "", "서울", 20, 22, DefaultFooter)
    ensures data.Some? ==>
      var condition := Some(data.value.weather.condition);
      d.background == BackgroundClass(condition) && d.icon == WeatherIcon(condition) &&
      d.description == WeatherDescription(condition).value
    ensures data.Some? && data.value.weather.location != "" ==> d.location == data.value.weather.location
    ensures data.Some? && data.value.weather.temperature != 0 ==> d.temperature == data.value.weather.temperature
    ensures data.Some? && data.value.weather.feelsLike != 0 ==> d.feelsLike == data.value.weather.feelsLike
    ensures data.Some? && data.value.message != "" ==> d.footer == data.value.message
    ensures data.Some? && data.value.weather.location == "" ==> d.location == "서울"
    ensures data.Some? && data.value.weather.temperature == 0 ==> d.temperature == 20
    ensures data.Some? && data.value.weather.feelsLike == 0 ==> d.feelsLike == 22
    ensures data.Some? && data.value.message == "" ==> d.footer == DefaultFooter
    ensures d.location != "" && d.temperature != 0 && d.feelsLike != 0 && d.footer != ""
  {
    if data.None? then Decoration(DefaultGradient, DefaultIcon, "", "서울", 20, 22, DefaultFooter)
    else
      var v := data.value.weather;
      var condition := Some(v.condition);
      Decoration(BackgroundClass(condition), WeatherIcon(condition), WeatherDescription(condition).value,
                 Or(Some(v.location), "서울"), OrNumber(v.temperature, 20), OrNumber(v.feelsLike, 22),
                 Or(Some(data.value.message), DefaultFooter))
  }

  /**
   * A page showing a server answer is painted by the answer's category, except
   * for the thunderstorm and fog categories, where the background's own tests
   * may disagree.
   */
  lemma PageFollowsCategory(city: Option<string>, lat: Option<string>, lon: Option<string>,
                            apiKey: Option<string>, weather: Fetch<WeatherData>,
                            primary: Fetch<QuotablePayload>, secondary: Fetch<seq<ZenPayload>>, now: string)
    requires Get(city, lat, lon, apiKey, weather, primary, secondary, now).GetOk?
    ensures var body := Get(city, lat, lon, apiKey, weather, primary, secondary, now).body;
            var c := Classify(Some(body.weather.condition));
            body.weather.category == Name(c) &&
            (c != Thunderstorm && c != Fog ==> Decorate(Some(body)).background == CategoryGradient(c))
  {
    GetAssembly(city, lat, lon, apiKey, weather, primary, secondary, now);
    var body := Get(city, lat, lon, apiKey, weather, primary, secondary, now).body;
    BackgroundVersusClassifier(body.weather.condition);
  }

  /** Which of the three renderings the page shows. */
  datatype Screen = LoadingScreen | ErrorScreen(message: string) | ContentScreen(data: Option<CombinedResult>)

  class WeatherQuote {
    var data: Option<CombinedResult>
    var loading: bool
    var error: Option<string>
    var city: string
    var useCurrentLocation: bool

    /** The spinner while loading; the error page only when there is an error and no data yet. */
    function View(): (v: Screen)
      reads this
      ensures v == LoadingScreen <==> loading
      ensures v.ErrorScreen? <==> !loading && Truthy(error) && data.None?
      ensures v.ErrorScreen? ==> error == Some(v.message)
      ensures v.ContentScreen? ==> v.data == data
    {
      if loading then LoadingScreen
      else if Truthy(error) && data.None? then ErrorScreen(error.value)
      else ContentScreen(data)
    }

    /** The initial state: no data, loading, no error, Seoul, no geolocation. */
    constructor ()
      ensures data == None && loading && error == None
      ensures city == "Seoul" && !useCurrentLocation
      ensures View() == LoadingScreen
    {
      data := None;
      loading := true;
      error := None;
      city := "Seoul";
      useCurrentLocation := false;
    }

    /** The city input's change handler. */
    method SetCity(name: string)
      modifies this`city
      ensures city == name
    {
      city := name;
    }

    /**
     * The first half of `fetchWeatherAndQuote`, up to its request: raise the
     * loading flag, clear the error and build the query.
     */
    method BeginFetch(cityName: Option<string>, coords: Option<Coords>) returns (params: SearchParams)
      modifies this`loading, this`error
      ensures loading && error == None
      ensures fresh(params) && params.entries == QueryParams(cityName, coords, city)
      ensures View() == LoadingScreen
    {
      loading := true;
      error := None;
      params := new SearchParams();
      if coords.Some? {
        params.Append("lat", coords.value.lat);
        params.Append("lon", coords.value.lon);
      } else {
        params.Append("city", Or(cityName, city));
      }
    }

    /**
     * The second half: store the result on success, or record the error and
     * keep the previous data; in either case lower the loading flag.
     */
    method CompleteFetch(reply: Reply<CombinedResult>)
      modifies this`data, this`error, this`loading
      ensures !loading
      ensures reply.Answered? ==> data == Some(reply.body) && error == old(error)
      ensures !reply.Answered? ==> data == old(data) && error == Some(FailureMessage(reply))
      ensures reply.Answered? ==> View() == ContentScreen(Some(reply.body))
      ensures !reply.Answered? && old(data).Some? ==> View() == ContentScreen(old(data))
      ensures !reply.Answered? && old(data).None? ==> View() == ErrorScreen(FailureMessage(reply))
    {
      if reply.Answered? {
        data := Some(reply.body);
      } else {
        error := Some(FailureMessage(reply));
      }
      loading := false;
    }

    /** `fetchWeatherAndQuote`: both halves, with nothing happening in between. */
    method FetchWeatherAndQuote(cityName: Option<string>, coords: Option<Coords>, reply: Reply<CombinedResult>)
      returns (query: seq<(string, string)>)
      modifies this`data, this`error, this`loading
      ensures query == QueryParams(cityName, coords, city)
      ensures !loading
      ensures reply.Answered? ==> data == Some(reply.body) && error == None
      ensures !reply.Answered? ==> data == old(data) && error == Some(FailureMessage(reply))
    {
      var params := BeginFetch(cityName, coords);
      query := params.entries;
      CompleteFetch(reply);
    }

    /**
     * `fetchCurrentLocationWeather`: with a position, fetch by coordinates;
     * without one, record the location error, drop the geolocation flag and
     * fetch Seoul. That fetch clears the error as it starts, so the location
     * message does not survive it.
     */
    method FetchCurrentLocationWeather(position: Option<Coords>, reply: Reply<CombinedResult>)
      returns (query: seq<(string, string)>)
      modifies this`data, this`error, this`loading, this`useCurrentLocation
      ensures useCurrentLocation == position.Some?
      ensures position.Some? ==> query == [("lat", position.value.lat), ("lon", position.value.lon)]
      ensures position.None? ==> query == [("city", "Seoul")]
      ensures !loading
      ensures reply.Answered? ==> data == Some(reply.body) && error == None
      ensures !reply.Answered? ==> data == old(data) && error == Some(FailureMessage(reply))
    {
      useCurrentLocation := true;
      if position.Some? {
        query := FetchWeatherAndQuote(None, position, reply);
      } else {
        error := Some(LocationFailure);
        useCurrentLocation := false;
        query := FetchWeatherAndQuote(Some("Seoul"), None, reply);
      }
    }

    /**
     * `fetchNewQuote`: nothing at all without a category to send; otherwise
     * send it, and on success replace only the quote and the timestamp.
     * The loading flag is never touched.
     */
    method FetchNewQuote(reply: Reply<QuoteReply>) returns (sent: Option<string>)
      modifies this`data, this`error
      ensures sent.None? <==> old(data).None? || old(data).value.weather.category == ""
      ensures sent.Some? ==> sent.value == old(data).value.weather.category
      ensures sent.None? ==> data == old(data) && error == old(error)
      ensures sent.Some? && reply.Answered? ==>
        data == Some(MergeQuote(old(data).value, reply.body)) && error == old(error)
      ensures sent.Some? && !reply.Answered? ==> data == old(data) && error == Some(QuoteFailure)
    {
      if data.None? || data.value.weather.category == "" {
        return None;
      }
      sent := Some(data.value.weather.category);
      if reply.Answered? {
        data := Some(MergeQuote(data.value, reply.body));
      } else {
        error := Some(QuoteFailure);
      }
    }
  }
}
