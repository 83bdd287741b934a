/**
 * Concrete conditions worked through the page's display mappings, where they
 * part ways with the server's classifier or with each other.
 */
module WeatherQuoteComponentScenarios {
  import opened Wrappers
  import opened JsText
  import opened WeatherQuoteRoute
  import opened WeatherQuoteComponent
  import opened WeatherQuoteRouteScenarios

  /** Haze has a fog icon and a Korean label, but the default background: the background has no "haze" test. */
  lemma HazeDisplay(s: string)
    requires s == "Haze"
    ensures BackgroundClass(Some(s)) == DefaultGradient
    ensures WeatherIcon(Some(s)) == "🌫️"
    ensures WeatherDescription(Some(s)) == Some("연무")
  {
    var w := ToLower(s);
    assert w == "haze";
    HazeLacks(w);
  }

  /** A bare storm: a thunderstorm for the server, the default background on the page. */
  lemma StormDisplay(s: string)
    requires s == "Storm"
    ensures BackgroundClass(Some(s)) == DefaultGradient
    ensures WeatherIcon(Some(s)) == DefaultIcon
    ensures WeatherDescription(Some(s)) == Some(s)
  {
    var w := ToLower(s);
    assert w == "storm";
    StormLacks(w);
  }

  /** "Light rain" gets the rain background by substring, but the default icon: the icon lookup is exact. */
  lemma LightRainDisplay(s: string)
    requires s == "Light rain"
    ensures BackgroundClass(Some(s)) == RainGradient
    ensures WeatherIcon(Some(s)) == DefaultIcon
    ensures WeatherDescription(Some(s)) == Some(s)
  {
    var w := ToLower(s);
    assert w == "light rain";
    assert w[6..10] == "rain";
    IncludesAt(w, "rain", 6);
  }

  /** A missing condition gets the default background and icon, and no label. */
  lemma NullDisplay()
    ensures BackgroundClass(None) == DefaultGradient
    ensures WeatherIcon(None) == DefaultIcon
    ensures WeatherDescription(None) == None
  {
  }

  /** The first request after mounting asks for Seoul. */
  method MountFetchesSeoul(reply: Reply<CombinedResult>) returns (page: WeatherQuote, query: seq<(string, string)>)
    ensures query == [("city", "Seoul")]
    ensures !page.loading
    ensures reply.Answered? ==> page.View() == ContentScreen(Some(reply.body))
    ensures !reply.Answered? ==> page.View() == ErrorScreen(FailureMessage(reply))
  {
    page := new WeatherQuote();
    query := page.FetchWeatherAndQuote(None, None, reply);
  }

  /** A failed refresh after a successful load keeps the page on its content. */
  method FailedRefreshKeepsContent(body: CombinedResult, reply: Reply<QuoteReply>)
    returns (page: WeatherQuote)
    requires body.weather.category != "" && !reply.Answered?
    ensures page.View() == ContentScreen(Some(body))
    ensures page.error == Some(QuoteFailure)
  {
    page := new WeatherQuote();
    var _ := page.FetchWeatherAndQuote(None, None, Answered(body));
    var sent := page.FetchNewQuote(reply);
  }

  /** A reading that rounds to 0 °C is shown as 20 °C: zero is falsy for the `|| 20` default. */
  lemma FreezingShownAsTwenty(body: CombinedResult, t: real)
    requires -0.5 <= t < 0.5 && body.weather.temperature == Round(t)
    ensures Decorate(Some(body)).temperature == 20
  {
  }
}
