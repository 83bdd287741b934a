/**
 * Concrete conditions and requests worked through the server model: the
 * priority examples of the classifier, the drizzle/rain message split, and
 * the end-to-end scenarios of a rainy request and a total provider outage.
 */
module WeatherQuoteRouteScenarios {
  import opened Wrappers
  import opened JsText
  import opened WeatherQuoteRoute

  /** Rain outranks snow. */
  lemma RainAndSnowIsRain(s: string)
    requires s == "Rain and snow"
    ensures Classify(Some(s)) == Rain
  {
    var w := ToLower(s);
    assert w == "rain and snow";
    assert w[0..4] == "rain";
    IncludesAt(w, "rain", 0);
    ClassifyRainOrDrizzle(s);
  }

  lemma StormCloudsLacks(w: string)
    requires w == "storm clouds"
    ensures !Includes(w, "rain") && !Includes(w, "drizzle") && !Includes(w, "snow") && !Includes(w, "clear")
  {
    MissingCharExcludes(w, "rain", 1);
    MissingCharExcludes(w, "drizzle", 2);
    MissingCharExcludes(w, "snow", 1);
    MissingCharExcludes(w, "clear", 2);
  }

  /** Clouds outrank storms: "cloud" is tested before "storm". */
  lemma StormCloudsIsClouds(s: string)
    requires s == "Storm clouds"
    ensures Classify(Some(s)) == Clouds
  {
    var w := ToLower(s);
    assert w == "storm clouds";
    StormCloudsLacks(w);
    assert w[6..11] == "cloud";
    IncludesAt(w, "cloud", 6);
  }

  lemma HazeLacks(w: string)
    requires w == "haze"
    ensures !Includes(w, "rain") && !Includes(w, "drizzle") && !Includes(w, "snow")
    ensures !Includes(w, "clear") && !Includes(w, "cloud")
    ensures !Includes(w, "thunderstorm") && !Includes(w, "storm")
    ensures !Includes(w, "fog") && !Includes(w, "mist")
  {
    MissingCharExcludes(w, "rain", 0);
    MissingCharExcludes(w, "drizzle", 0);
    MissingCharExcludes(w, "snow", 0);
    MissingCharExcludes(w, "clear", 0);
    MissingCharExcludes(w, "cloud", 0);
    MissingCharExcludes(w, "thunderstorm", 0);
    MissingCharExcludes(w, "storm", 0);
    MissingCharExcludes(w, "fog", 0);
    MissingCharExcludes(w, "mist", 0);
  }

  /** Haze belongs to the fog rule, through its third keyword. */
  lemma HazeIsFog(s: string)
    requires s == "Haze"
    ensures Classify(Some(s)) == Fog
  {
    var w := ToLower(s);
    assert w == "haze";
    HazeLacks(w);
    IncludesSelf(w);
  }

  lemma StormLacks(w: string)
    requires w == "storm"
    ensures !Includes(w, "rain") && !Includes(w, "drizzle") && !Includes(w, "snow")
    ensures !Includes(w, "clear") && !Includes(w, "cloud") && !Includes(w, "thunderstorm")
    ensures !Includes(w, "fog") && !Includes(w, "mist")
  {
    MissingCharExcludes(w, "rain", 1);
    MissingCharExcludes(w, "drizzle", 2);
    MissingCharExcludes(w, "snow", 1);
    MissingCharExcludes(w, "clear", 0);
    MissingCharExcludes(w, "cloud", 0);
    MissingCharExcludes(w, "thunderstorm", 1);
    MissingCharExcludes(w, "fog", 0);
    MissingCharExcludes(w, "mist", 1);
  }

  /** A bare storm is a thunderstorm through the "storm" test alone. */
  lemma StormIsThunderstorm(s: string)
    requires s == "Storm"
    ensures Classify(Some(s)) == Thunderstorm
  {
    var w := ToLower(s);
    assert w == "storm";
    StormLacks(w);
    IncludesSelf(w);
  }

  lemma TornadoLacks(w: string)
    requires w == "tornado"
    ensures !Includes(w, "rain") && !Includes(w, "drizzle") && !Includes(w, "snow")
    ensures !Includes(w, "clear") && !Includes(w, "cloud")
    ensures !Includes(w, "thunderstorm") && !Includes(w, "storm")
    ensures !Includes(w, "fog") && !Includes(w, "mist") && !Includes(w, "haze")
  {
    MissingCharExcludes(w, "rain", 2);
    MissingCharExcludes(w, "drizzle", 2);
    MissingCharExcludes(w, "snow", 0);
    MissingCharExcludes(w, "clear", 0);
    MissingCharExcludes(w, "cloud", 0);
    MissingCharExcludes(w, "thunderstorm", 1);
    MissingCharExcludes(w, "storm", 0);
    MissingCharExcludes(w, "fog", 0);
    MissingCharExcludes(w, "mist", 0);
    MissingCharExcludes(w, "haze", 0);
  }

  /** A condition matching no rule, such as "Tornado", is `Default`. */
  lemma TornadoIsDefault(s: string)
    requires s == "Tornado"
    ensures Classify(Some(s)) == Default
  {
    var w := ToLower(s);
    assert w == "tornado";
    TornadoLacks(w);
  }

  /** A null condition is `Default`. */
  lemma NullIsDefault()
    ensures Classify(None) == Default
  {
  }

  /** "Drizzle" is filed under rain, yet gets the generic message: the message tests for "rain" only. */
  lemma DrizzleRainWithoutRainMessage(s: string)
    requires s == "Drizzle"
    ensures Classify(Some(s)) == Rain
    ensures Message(s) == "Drizzle 날씨에 어울리는 명언이에요"
  {
    var w := ToLower(s);
    assert w == "drizzle";
    IncludesSelf(w);
    MissingCharExcludes(w, "rain", 1);
  }

  /** Unknown keys, such as a category the client made up, get the `default` tags and quote. */
  lemma UnknownKeyGetsDefaults(key: string)
    requires key !in CategoryNames
    ensures QuoteTags(key) == "inspirational,wisdom,life"
    ensures FallbackQuote(key) == Quote("오늘은 어제와 다른 새로운 하루다.", "익명", Fallback)
  {
  }

  /**
   * A request for Seoul whose weather answer is rain, with a working primary
   * provider: category `rain`, the primary provider's quote and the rain
   * message.
   */
  lemma SeoulInTheRain(apiKey: string, secondary: Fetch<seq<ZenPayload>>, now: string)
    requires apiKey != ""
    ensures var weather := WeatherData([Condition("Rain", "비")], 17.6, 16.4, "Seoul");
            var r := Get(Some("Seoul"), None, None, Some(apiKey), Ok(weather),
                         Ok(QuotablePayload("X", "Y")), secondary, now);
            r.GetOk? &&
            r.body.weather == WeatherView("Seoul", 18, 16, "Rain", "비", "rain") &&
            r.body.quote == Quote("X", "Y", Quotable) &&
            r.body.message == RainMessage
  {
    assert ToLower("Rain") == "rain";
    IncludesSelf("rain");
  }

  /** With both providers down, a refresh for snow answers the snow entry of the fallback table. */
  lemma SnowOutage(now: string)
    ensures Post(Body(Some("snow")), Fail, Fail, now)
         == PostOk(QuoteReply(Quote("눈송이 하나하나가 모여 겨울의 기적을 만든다.", "익명", Fallback), now))
  {
  }

  /** A refresh request without a category is refused with status 400. */
  lemma EmptyPostRefused(primary: Fetch<QuotablePayload>, secondary: Fetch<seq<ZenPayload>>, now: string)
    ensures Post(Body(None), primary, secondary, now) == PostError(400, "날씨 카테고리가 필요합니다.")
    ensures Post(Body(Some("")), primary, secondary, now) == PostError(400, "날씨 카테고리가 필요합니다.")
  {
  }
}
