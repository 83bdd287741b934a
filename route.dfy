/**
 * The server side of the weather/quote service: the weather classifier, the
 * tag and fallback tables, the quote provider chain, the weather lookup with
 * its placeholder readings, and the two request handlers (GET assembles the
 * combined result, POST refreshes only the quote).
 *
 * Every network call is replaced by the outcome it produced (`Fetch<T>`); the
 * URL that would have been requested is given by a separate function. The
 * current time is a parameter.
 */
module WeatherQuoteRoute {
  import opened Wrappers
  import opened JsText

  // ---------------------------------------------------------------------
  // Categories and the classifier
  // ---------------------------------------------------------------------

  datatype Category = Rain | Snow | Clear | Clouds | Thunderstorm | Fog | Default

  const CategoryNames: set<string> :=
    {"rain", "snow", "clear", "clouds", "thunderstorm", "fog", "default"}

  /** The string the server sends as `weather.category` and uses as a table key. */
  function Name(c: Category): (r: string)
    ensures r in CategoryNames
  {
    match c
    case Rain => "rain"
    case Snow => "snow"
    case Clear => "clear"
    case Clouds => "clouds"
    case Thunderstorm => "thunderstorm"
    case Fog => "fog"
    case Default => "default"
  }

  /** Distinct categories have distinct names, and every name in the set names a category. */
  lemma NameBijective()
    ensures forall c1: Category, c2: Category :: Name(c1) == Name(c2) ==> c1 == c2
    ensures forall n :: n in CategoryNames ==> exists c: Category :: Name(c) == n
  {
    assert Name(Rain) == "rain" && Name(Snow) == "snow" && Name(Clear) == "clear";
    assert Name(Clouds) == "clouds" && Name(Thunderstorm) == "thunderstorm";
    assert Name(Fog) == "fog" && Name(Default) == "default";
  }

  /**
   * `getQuoteCategory`: lower-case the condition, then test its substrings in a
   * fixed order; the first test that passes decides, and null falls through
   * every test.
   */
  function Classify(weatherMain: Option<string>): (c: Category)
    ensures weatherMain.None? ==> c == Default
    ensures weatherMain.Some? ==>
              var w := ToLower(weatherMain.value);
              Includes(w, "rain") || Includes(w, "drizzle") ==> c == Rain
  {
    if weatherMain.None? then Default
    else
      var w := ToLower(weatherMain.value);
      if Includes(w, "rain") || Includes(w, "drizzle") then Rain
      else if Includes(w, "snow") then Snow
      else if Includes(w, "clear") then Clear
      else if Includes(w, "cloud") then Clouds
      else if Includes(w, "thunderstorm") || Includes(w, "storm") then Thunderstorm
      else if Includes(w, "fog") || Includes(w, "mist") || Includes(w, "haze") then Fog
      else Default
  }

  /** The classifier's tests as a priority list, highest priority first. */
  const ClassifierRules: seq<Rule<Category>> := [
    Rule(["rain", "drizzle"], Rain),
    Rule(["snow"], Snow),
    Rule(["clear"], Clear),
    Rule(["cloud"], Clouds),
    Rule(["thunderstorm", "storm"], Thunderstorm),
    Rule(["fog", "mist", "haze"], Fog)
  ]

  lemma MatchesTwo<T>(w: string, a: string, b: string, t: T)
    ensures Matches(w, Rule([a, b], t)) <==> Includes(w, a) || Includes(w, b)
  {
    if Includes(w, a) { assert a in [a, b]; }
    if Includes(w, b) { assert b in [a, b]; }
  }

  lemma MatchesOne<T>(w: string, a: string, t: T)
    ensures Matches(w, Rule([a], t)) <==> Includes(w, a)
  {
    if Includes(w, a) { assert a in [a]; }
  }

  lemma MatchesThree<T>(w: string, a: string, b: string, c: string, t: T)
    ensures Matches(w, Rule([a, b, c], t)) <==> Includes(w, a) || Includes(w, b) || Includes(w, c)
  {
    if Includes(w, a) { assert a in [a, b, c]; }
    if Includes(w, b) { assert b in [a, b, c]; }
    if Includes(w, c) { assert c in [a, b, c]; }
  }

  /** The classifier is the first-match evaluation of its priority list, defaulting to `Default`. */
  lemma ClassifyIsFirstMatch(s: string)
    ensures Classify(Some(s)) == FirstMatch(ToLower(s), ClassifierRules, Default)
  {
    var w := ToLower(s);
    var rs := ClassifierRules;
    MatchesTwo(w, "rain", "drizzle", Rain);
    MatchesOne(w, "snow", Snow);
    MatchesOne(w, "clear", Clear);
    MatchesOne(w, "cloud", Clouds);
    MatchesTwo(w, "thunderstorm", "storm", Thunderstorm);
    MatchesThree(w, "fog", "mist", "haze", Fog);
    var t1 := rs[1..];
    var t2 := t1[1..];
    var t3 := t2[1..];
    var t4 := t3[1..];
    var t5 := t4[1..];
    assert t5[1..] == [];
    assert FirstMatch(w, t5, Default) == if Matches(w, rs[5]) then Fog else Default;
    assert FirstMatch(w, t4, Default) == if Matches(w, rs[4]) then Thunderstorm else FirstMatch(w, t5, Default);
    assert FirstMatch(w, t3, Default) == if Matches(w, rs[3]) then Clouds else FirstMatch(w, t4, Default);
    assert FirstMatch(w, t2, Default) == if Matches(w, rs[2]) then Clear else FirstMatch(w, t3, Default);
    assert FirstMatch(w, t1, Default) == if Matches(w, rs[1]) then Snow else FirstMatch(w, t2, Default);
    assert FirstMatch(w, rs, Default) == if Matches(w, rs[0]) then Rain else FirstMatch(w, t1, Default);
  }

  /**
   * First match wins: when rule `i` of the priority list is the first whose
   * keywords occur in the lower-cased condition, the condition is in rule `i`'s
   * category, whatever later keywords it also contains.
   */
  lemma ClassifyFirstRuleWins(s: string, i: int)
    requires Wins(ToLower(s), ClassifierRules, i)
    ensures Classify(Some(s)) == ClassifierRules[i].result
  {
    ClassifyIsFirstMatch(s);
    FirstMatchWins(ToLower(s), ClassifierRules, Default, i);
  }

  /** A condition is `Default` exactly when none of the six rules' keywords occurs in it. */
  lemma ClassifyDefaultIff(s: string)
    ensures Classify(Some(s)) == Default <==> NoneMatch(ToLower(s), ClassifierRules)
  {
    ClassifyIsFirstMatch(s);
    var w := ToLower(s);
    if NoneMatch(w, ClassifierRules) {
      FirstMatchNone(w, ClassifierRules, Default);
    } else {
      WinnerExists(w, ClassifierRules);
      var i :| Wins(w, ClassifierRules, i);
      FirstMatchWins(w, ClassifierRules, Default, i);
      assert ClassifierRules[i].result != Default;
    }
  }

  /** Any condition mentioning rain or drizzle, in any case and at any position, is `Rain`. */
  lemma ClassifyRainOrDrizzle(s: string)
    requires Includes(ToLower(s), "rain") || Includes(ToLower(s), "drizzle")
    ensures Classify(Some(s)) == Rain
  {
    MatchesTwo(ToLower(s), "rain", "drizzle", Rain);
    assert Wins(ToLower(s), ClassifierRules, 0);
    ClassifyFirstRuleWins(s, 0);
  }

  /** The classifier ignores case. */
  lemma ClassifyIgnoresCase(s: string)
    ensures Classify(Some(s)) == Classify(Some(ToLower(s)))
  {
    ToLowerIdempotent(s);
  }

  /**
   * The `thunderstorm` test of the fifth rule is subsumed by its `storm` test:
   * the fifth rule matches exactly the conditions that include "storm".
   */
  lemma ThunderstormTestSubsumed(w: string)
    ensures Matches(w, ClassifierRules[4]) <==> Includes(w, "storm")
  {
    MatchesTwo(w, "thunderstorm", "storm", Thunderstorm);
    if Includes(w, "thunderstorm") {
      assert "thunderstorm"[7..12] == "storm";
      IncludesAt("thunderstorm", "storm", 7);
      IncludesTransitive(w, "thunderstorm", "storm");
    }
  }

  // ---------------------------------------------------------------------
  // Tag table
  // ---------------------------------------------------------------------

  const TagMapping: map<string, string> := map[
    "rain" := "wisdom,life,inspirational",
    "snow" := "nature,peace,wisdom",
    "clear" := "happiness,success,motivational",
    "clouds" := "wisdom,life,philosophy",
    "thunderstorm" := "courage,strength,motivational",
    "fog" := "philosophy,wisdom,mystery",
    "default" := "inspirational,wisdom,life"
  ]

  /** `getQuoteTags`: the table's entry for the key, the `default` entry for any other key. */
  function QuoteTags(category: string): (tags: string)
    ensures category in TagMapping ==> tags == TagMapping[category]
    ensures category !in TagMapping ==> tags == "inspirational,wisdom,life"
  {
    if category in TagMapping then TagMapping[category] else TagMapping["default"]
  }

  /**
   * The tag table has exactly one entry per category, so the `default` entry
   * stands in only for keys that name no category.
   */
  lemma TagTableCoversCategories()
    ensures TagMapping.Keys == CategoryNames
    ensures forall c: Category :: Name(c) in TagMapping
  {
  }

  // ---------------------------------------------------------------------
  // Quotes and the provider chain
  // ---------------------------------------------------------------------

  /** Which stage of the chain produced a quote. */
  datatype Source = Quotable | ZenQuotes | Fallback

  /** The `source` string sent to the client. */
  function SourceName(s: Source): (r: string)
    ensures r in {"quotable", "zenquotes", "fallback"}
    ensures r == "quotable" <==> s == Quotable
    ensures r == "zenquotes" <==> s == ZenQuotes
    ensures r == "fallback" <==> s == Fallback
  {
    match s
    case Quotable => "quotable"
    case ZenQuotes => "zenquotes"
    case Fallback => "fallback"
  }

  datatype Quote = Quote(text: string, author: string, source: Source)

  /** What the primary provider answers: `{content, author}`. */
  datatype QuotablePayload = QuotablePayload(content: string, author: string)

  /** One element of the secondary provider's answer: `{q, a}`. */
  datatype ZenPayload = ZenPayload(q: string, a: string)

  /**
   * The result of one outbound request: its decoded body, or a failure
   * (a thrown network error, a non-success status or an unreadable body).
   */
  datatype Fetch<T> = Ok(value: T) | Fail

  const FallbackQuotes: map<string, Quote> := map[
    "rain" := Quote("비는 하늘이 우리에게 주는 선물이다. 그 속에서 새로운 시작을 찾으라.", "루미", Fallback),
    "snow" := Quote("눈송이 하나하나가 모여 겨울의 기적을 만든다.", "익명", Fallback),
    "clear" := Quote("맑은 하늘은 무한한 가능성을 상징한다.", "익명", Fallback),
    "clouds" := Quote("구름은 하늘의 생각이다.", "랄프 왈도 에머슨", Fallback),
    "thunderstorm" := Quote("폭풍 속에서도 춤출 수 있는 사람이 되어라.", "니체", Fallback),
    "fog" := Quote("안개는 신비로움을 선사하는 자연의 마법이다.", "익명", Fallback),
    "default" := Quote("오늘은 어제와 다른 새로운 하루다.", "익명", Fallback)
  ]

  /** The fallback table's entry for the key, the `default` entry for any other key. */
  function FallbackQuote(category: string): (q: Quote)
    ensures q.source == Fallback
    ensures category in FallbackQuotes ==> q == FallbackQuotes[category]
    ensures category !in FallbackQuotes ==> q == FallbackQuotes["default"]
  {
    if category in FallbackQuotes then FallbackQuotes[category] else FallbackQuotes["default"]
  }

  /** The fallback table, like the tag table, has one entry per category. */
  lemma FallbackTableCoversCategories()
    ensures FallbackQuotes.Keys == CategoryNames
    ensures forall c: Category :: Name(c) in FallbackQuotes
  {
  }

  /** The primary provider's request: a random quote carrying the category's tags, 30 to 200 characters long. */
  function QuotableUrl(category: string): (url: string)
    ensures Includes(url, QuoteTags(category))
  {
    var tags := QuoteTags(category);
    IncludesMiddle("https://api.quotable.io/random?tags=", tags, "&minLength=30&maxLength=200");
    "https://api.quotable.io/random?tags=" + tags + "&minLength=30&maxLength=200"
  }

  /**
   * `getQuoteFromAPI`, given what the primary provider (asked for
   * `QuotableUrl(category)`) and the secondary provider (asked for one
   * random quote, whatever the category) answered. The source tag always names the stage whose
   * text is returned, and each stage is used only when every earlier one
   * failed.
   */
  function QuoteFromApi(category: string, primary: Fetch<QuotablePayload>,
                        secondary: Fetch<seq<ZenPayload>>): (r: Quote)
    ensures r.source == Quotable <==> primary.Ok?
    ensures r.source == Quotable ==>
      r.text == primary.value.content && r.author == primary.value.author
    ensures r.source == ZenQuotes <==> primary.Fail? && secondary.Ok? && |secondary.value| > 0
    ensures r.source == ZenQuotes ==>
      r.text == secondary.value[0].q && r.author == secondary.value[0].a
    ensures r.source == Fallback ==> r == FallbackQuote(category)
  {
    if primary.Ok? then
      Quote(primary.value.content, primary.value.author, Quotable)
    else if secondary.Ok? && |secondary.value| > 0 then
      Quote(secondary.value[0].q, secondary.value[0].a, ZenQuotes)
    else
      FallbackQuote(category)
  }

  /** A successful primary provider makes the secondary provider's answer irrelevant. */
  lemma PrimaryShortCircuits(category: string, primary: Fetch<QuotablePayload>,
                             s1: Fetch<seq<ZenPayload>>, s2: Fetch<seq<ZenPayload>>)
    requires primary.Ok?
    ensures QuoteFromApi(category, primary, s1) == QuoteFromApi(category, primary, s2)
  {
  }

  /** When both providers fail, the quote is exactly the category's fallback entry. */
  lemma BothProvidersFail(c: Category, secondary: Fetch<seq<ZenPayload>>)
    requires secondary.Fail? || secondary.value == []
    ensures QuoteFromApi(Name(c), Fail, secondary) == FallbackQuotes[Name(c)]
  {
  }

  // ---------------------------------------------------------------------
  // Weather lookup
  // ---------------------------------------------------------------------

  datatype Condition = Condition(main: string, description: string)

  /** The parts of the weather provider's answer the service reads. */
  datatype WeatherData = WeatherData(weather: seq<Condition>, temp: real, feelsLike: real, name: string)

  /** The reading used when no real one can be had: fixed temperatures, the given city or Seoul. */
  function Placeholder(main: string, description: string, city: Option<string>): (r: WeatherData)
    ensures r.weather == [Condition(main, description)]
    ensures r.temp == 20.0 && r.feelsLike == 22.0
    ensures Truthy(city) ==> r.name == city.value
    ensures !Truthy(city) ==> r.name == "서울"
  {
    WeatherData([Condition(main, description)], 20.0, 22.0, Or(city, "서울"))
  }

  datatype WeatherQuery = ByCoords(lat: string, lon: string) | ByCity(q: string)

  /** Coordinates are used only when both are truthy; otherwise the city, defaulting to Seoul. */
  function WeatherQueryFor(city: Option<string>, lat: Option<string>, lon: Option<string>): (q: WeatherQuery)
    ensures q.ByCoords? <==> Truthy(lat) && Truthy(lon)
    ensures q.ByCoords? ==> q.lat == lat.value && q.lon == lon.value
    ensures q.ByCity? && Truthy(city) ==> q.q == city.value
    ensures q.ByCity? && !Truthy(city) ==> q.q == "Seoul"
  {
    if Truthy(lat) && Truthy(lon) then ByCoords(lat.value, lon.value) else ByCity(Or(city, "Seoul"))
  }

  const WeatherEndpoint := "https://api.openweathermap.org/data/2.5/weather"
  const UnitsAndLanguage := "units=metric&lang=kr"

  /** Each value of a three-field query is included in it. */
  lemma ThreeFieldQuery(p1: string, x: string, p2: string, y: string, p3: string, z: string, p4: string)
    ensures var u := p1 + x + p2 + y + p3 + z + p4;
            Includes(u, x) && Includes(u, y) && Includes(u, z)
  {
    var u := p1 + x + p2 + y + p3 + z + p4;
    IncludesMiddle(p1 + x + p2 + y + p3, z, p4);
    assert u == p1 + x + p2 + y + (p3 + z + p4);
    IncludesMiddle(p1 + x + p2, y, p3 + z + p4);
    assert u == p1 + x + (p2 + y + p3 + z + p4);
    IncludesMiddle(p1, x, p2 + y + p3 + z + p4);
  }

  /** Each value of a two-field query is included in it. */
  lemma TwoFieldQuery(p1: string, x: string, p2: string, y: string, p3: string)
    ensures var u := p1 + x + p2 + y + p3;
            Includes(u, x) && Includes(u, y)
  {
    var u := p1 + x + p2 + y + p3;
    IncludesMiddle(p1 + x + p2, y, p3);
    assert u == p1 + x + (p2 + y + p3);
    IncludesMiddle(p1, x, p2 + y + p3);
  }

  /**
   * A URL `e + query + s` with a three-field query: the query, with each value
   * right after its own parameter name, is in it, and so is each value.
   */
  lemma ThreeFieldUrl(e: string, p1: string, x: string, p2: string, y: string, p3: string, z: string,
                      p4: string, s: string)
    ensures var u := e + p1 + x + p2 + y + p3 + z + p4 + s;
            Includes(u, p1 + x + p2 + y + p3 + z + p4) &&
            Includes(u, x) && Includes(u, y) && Includes(u, z)
  {
    var query := p1 + x + p2 + y + p3 + z + p4;
    var u := e + p1 + x + p2 + y + p3 + z + p4 + s;
    assert u == e + query + s;
    IncludesMiddle(e, query, s);
    ThreeFieldQuery(p1, x, p2, y, p3, z, p4);
    IncludesTransitive(u, query, x);
    IncludesTransitive(u, query, y);
    IncludesTransitive(u, query, z);
  }

  /** The same for a URL with a two-field query. */
  lemma TwoFieldUrl(e: string, p1: string, x: string, p2: string, y: string, p3: string, s: string)
    ensures var u := e + p1 + x + p2 + y + p3 + s;
            Includes(u, p1 + x + p2 + y + p3) && Includes(u, x) && Includes(u, y)
  {
    var query := p1 + x + p2 + y + p3;
    var u := e + p1 + x + p2 + y + p3 + s;
    assert u == e + query + s;
    IncludesMiddle(e, query, s);
    TwoFieldQuery(p1, x, p2, y, p3);
    IncludesTransitive(u, query, x);
    IncludesTransitive(u, query, y);
  }

  /**
   * The provider URL for a query: it carries the coordinates or the city, and
   * the key, each right after its own parameter name.
   */
  function WeatherUrl(q: WeatherQuery, apiKey: string): (url: string)
    ensures Includes(url, apiKey)
    ensures q.ByCity? ==> Includes(url, q.q) && Includes(url, "?q=" + q.q + "&appid=" + apiKey + "&")
    ensures q.ByCoords? ==>
              Includes(url, q.lat) && Includes(url, q.lon) &&
              Includes(url, "?lat=" + q.lat + "&lon=" + q.lon + "&appid=" + apiKey + "&")
  {
    match q
    case ByCoords(lat, lon) =>
      ThreeFieldUrl(WeatherEndpoint, "?lat=", lat, "&lon=", lon, "&appid=", apiKey, "&", UnitsAndLanguage);
      WeatherEndpoint + "?lat=" + lat + "&lon=" + lon + "&appid=" + apiKey + "&" + UnitsAndLanguage
    case ByCity(name) =>
      TwoFieldUrl(WeatherEndpoint, "?q=", name, "&appid=", apiKey, "&", UnitsAndLanguage);
      WeatherEndpoint + "?q=" + name + "&appid=" + apiKey + "&" + UnitsAndLanguage
  }

  /** The request `getWeatherData` sends, if any: none at all without a key. */
  function WeatherRequest(city: Option<string>, lat: Option<string>, lon: Option<string>,
                          apiKey: Option<string>): (url: Option<string>)
    ensures url.None? <==> !Truthy(apiKey)
    ensures url.Some? ==> Includes(url.value, apiKey.value)
    ensures url.Some? && Truthy(lat) && Truthy(lon) ==>
              Includes(url.value, "?lat=" + lat.value + "&lon=" + lon.value + "&appid=" + apiKey.value + "&")
    ensures url.Some? && !(Truthy(lat) && Truthy(lon)) ==>
              Includes(url.value, "?q=" + Or(city, "Seoul") + "&appid=" + apiKey.value + "&")
  {
    if !Truthy(apiKey) then None
    else
      var q := WeatherQueryFor(city, lat, lon);
      Some(WeatherUrl(q, apiKey.value))
  }

  /**
   * `getWeatherData`, given the outcome of `WeatherRequest`. It never fails:
   * no key gives a rainy placeholder, a failed request a clear one.
   */
  function GetWeatherData(city: Option<string>, lat: Option<string>, lon: Option<string>,
                          apiKey: Option<string>, response: Fetch<WeatherData>): (r: WeatherData)
    ensures !Truthy(apiKey) ==> r == Placeholder("Rain", "비", city)
    ensures Truthy(apiKey) && response.Fail? ==> r == Placeholder("Clear", "맑음", city)
    ensures Truthy(apiKey) && response.Ok? ==> r == response.value
  {
    if !Truthy(apiKey) then Placeholder("Rain", "비", city)
    else if response.Fail? then Placeholder("Clear", "맑음", city)
    else response.value
  }

  /** Without a key nothing is fetched: the reading does not depend on any provider answer. */
  lemma NoKeyNoFetch(city: Option<string>, lat: Option<string>, lon: Option<string>,
                     apiKey: Option<string>, r1: Fetch<WeatherData>, r2: Fetch<WeatherData>)
    requires !Truthy(apiKey)
    ensures GetWeatherData(city, lat, lon, apiKey, r1) == GetWeatherData(city, lat, lon, apiKey, r2)
    ensures WeatherRequest(city, lat, lon, apiKey) == None
  {
  }

  // ---------------------------------------------------------------------
  // GET: the combined result
  // ---------------------------------------------------------------------

  /** JavaScript's `Math.round`: the nearest integer, halves rounded up. */
  function Round(x: real): (n: int)
    ensures n as real - 0.5 <= x < n as real + 0.5
  {
    (x + 0.5).Floor
  }

  datatype WeatherView = WeatherView(location: string, temperature: int, feelsLike: int,
                                     condition: string, description: string, category: string)

  datatype CombinedResult = CombinedResult(weather: WeatherView, quote: Quote,
                                           timestamp: string, message: string)

  datatype GetResponse =
    | GetOk(body: CombinedResult)
    | GetError(status: int, error: string)

  const RainMessage := "🌧️ 비오는 날엔 이런 명언이 어울려요"
  const GenericMessageSuffix := " 날씨에 어울리는 명언이에요"

  /** The rain message is chosen exactly when the lower-cased condition includes "rain". */
  function Message(main: string): (m: string)
    ensures m == RainMessage <==> Includes(ToLower(main), "rain")
    ensures m != RainMessage ==> m == main + GenericMessageSuffix
  {
    if Includes(ToLower(main), "rain") then RainMessage
    else
      var m := main + GenericMessageSuffix;
      assert m[|m| - 2] == '에' != RainMessage[|RainMessage| - 2];
      m
  }

  /**
   * `GET`: look up the weather, classify its first condition, fetch a quote for
   * that category and assemble the answer. A reading with no condition makes
   * the handler throw, which is answered with status 500.
   */
  function Get(city: Option<string>, lat: Option<string>, lon: Option<string>,
               apiKey: Option<string>, weather: Fetch<WeatherData>,
               primary: Fetch<QuotablePayload>, secondary: Fetch<seq<ZenPayload>>,
               now: string): (r: GetResponse)
    ensures r.GetError? ==> r.status == 500
    ensures r.GetOk? ==> r.body.weather.category in CategoryNames && r.body.timestamp == now
  {
    var data := GetWeatherData(city, lat, lon, apiKey, weather);
    if |data.weather| == 0 then GetError(500, "서버 오류가 발생했습니다.")
    else
      var main := data.weather[0].main;
      var category := Classify(Some(main));
      var quote := QuoteFromApi(Name(category), primary, secondary);
      GetOk(CombinedResult(
        WeatherView(data.name, Round(data.temp), Round(data.feelsLike), main,
                    data.weather[0].description, Name(category)),
        Quote(quote.text, quote.author, quote.source),
        now,
        Message(main)))
  }

  /**
   * What a successful GET answers: the reading's first condition, copied with
   * its description and location, its category, the chain's quote for that
   * category and the message for that condition.
   */
  lemma GetAssembly(city: Option<string>, lat: Option<string>, lon: Option<string>,
                    apiKey: Option<string>, weather: Fetch<WeatherData>,
                    primary: Fetch<QuotablePayload>, secondary: Fetch<seq<ZenPayload>>, now: string)
    ensures var data := GetWeatherData(city, lat, lon, apiKey, weather);
            var r := Get(city, lat, lon, apiKey, weather, primary, secondary, now);
            (r.GetOk? <==> |data.weather| > 0) &&
            (r.GetOk? ==>
              var main := data.weather[0].main;
              var v := r.body.weather;
              v.condition == main && v.description == data.weather[0].description &&
              v.location == data.name &&
              v.temperature == Round(data.temp) && v.feelsLike == Round(data.feelsLike) &&
              v.category == Name(Classify(Some(main))) &&
              r.body.quote == QuoteFromApi(v.category, primary, secondary) &&
              r.body.message == Message(main))
  {
  }

  /** Without a key the answer is a rainy 20 °C reading with the rain message. */
  lemma GetWithoutKey(city: Option<string>, lat: Option<string>, lon: Option<string>,
                      apiKey: Option<string>, weather: Fetch<WeatherData>,
                      primary: Fetch<QuotablePayload>, secondary: Fetch<seq<ZenPayload>>, now: string)
    requires !Truthy(apiKey)
    ensures var r := Get(city, lat, lon, apiKey, weather, primary, secondary, now);
            r.GetOk? &&
            r.body.weather == WeatherView(Or(city, "서울"), 20, 22, "Rain", "비", "rain") &&
            r.body.quote == QuoteFromApi("rain", primary, secondary) &&
            r.body.message == RainMessage
  {
    assert ToLower("Rain") == "rain";
    IncludesSelf("rain");
  }

  /** When the weather request fails the answer is a clear 20 °C reading with the generic message. */
  lemma GetWeatherFailure(city: Option<string>, lat: Option<string>, lon: Option<string>,
                          apiKey: Option<string>,
                          primary: Fetch<QuotablePayload>, secondary: Fetch<seq<ZenPayload>>, now: string)
    requires Truthy(apiKey)
    ensures var r := Get(city, lat, lon, apiKey, Fail, primary, secondary, now);
            r.GetOk? &&
            r.body.weather == WeatherView(Or(city, "서울"), 20, 22, "Clear", "맑음", "clear") &&
            r.body.quote == QuoteFromApi("clear", primary, secondary) &&
            r.body.message == "Clear 날씨에 어울리는 명언이에요"
  {
    ClassifyClearPlaceholder();
    ClearPlaceholderMessage();
  }

  /** The condition of the failure placeholder is in the `Clear` category. */
  lemma ClassifyClearPlaceholder()
    ensures Classify(Some("Clear")) == Clear
  {
    var w := ToLower("Clear");
    assert w == "clear";
    MissingCharExcludes(w, "rain", 2);
    MissingCharExcludes(w, "drizzle", 0);
    MissingCharExcludes(w, "snow", 0);
    IncludesSelf(w);
  }

  /** The condition of the failure placeholder gets the generic message. */
  lemma ClearPlaceholderMessage()
    ensures Message("Clear") == "Clear 날씨에 어울리는 명언이에요"
  {
    var w := ToLower("Clear");
    assert w == "clear";
    MissingCharExcludes(w, "rain", 2);
  }

  // ---------------------------------------------------------------------
  // POST: the quote-only refresh
  // ---------------------------------------------------------------------

  /** The POST body: unreadable JSON, or an object with an optional `weatherCategory`. */
  datatype PostRequest = Unreadable | Body(weatherCategory: Option<string>)

  datatype QuoteReply = QuoteReply(quote: Quote, timestamp: string)

  datatype PostResponse =
    | PostOk(reply: QuoteReply)
    | PostError(status: int, error: string)

  /**
   * `POST`: a missing or empty category is refused with status 400 before any
   * quote is looked up; an unreadable body is a 500; otherwise the answer is
   * the chain's quote for that category and the time.
   */
  function Post(request: PostRequest, primary: Fetch<QuotablePayload>,
                secondary: Fetch<seq<ZenPayload>>, now: string): (r: PostResponse)
    ensures r.PostError? && r.status == 400 <==> request.Body? && !Truthy(request.weatherCategory)
    ensures r.PostError? ==> r.status in {400, 500}
    ensures request.Unreadable? ==> r.PostError? && r.status == 500
    ensures request.Body? && Truthy(request.weatherCategory) ==> r.PostOk?
    ensures r.PostOk? ==>
      request.Body? && r.reply == QuoteReply(QuoteFromApi(request.weatherCategory.value, primary, secondary), now)
  {
    match request
    case Unreadable => PostError(500, "명언을 가져오는 중 오류가 발생했습니다.")
    case Body(category) =>
      if !Truthy(category) then PostError(400, "날씨 카테고리가 필요합니다.")
      else
        var quote := QuoteFromApi(category.value, primary, secondary);
        PostOk(QuoteReply(Quote(quote.text, quote.author, quote.source), now))
  }

  /** A refused POST does not depend on the providers: no quote was looked up. */
  lemma PostRefusalSkipsLookup(request: PostRequest, p1: Fetch<QuotablePayload>, p2: Fetch<QuotablePayload>,
                               s1: Fetch<seq<ZenPayload>>, s2: Fetch<seq<ZenPayload>>, now: string)
    requires request.Body? && !Truthy(request.weatherCategory)
    ensures Post(request, p1, s1, now) == Post(request, p2, s2, now)
    ensures Post(request, p1, s1, now).PostError?
  {
  }
}
