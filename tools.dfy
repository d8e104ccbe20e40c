/**
 The two local tools the chat loop can run on the model's behalf. Both are
 pure string formatters: `get_weather` reports a sunny day for any location and
 `get_joke` builds a fixed joke around a weather word.

 Each formatter has a partner that reads its argument back out of a reply, so
 that "the reply is exactly this sentence around the argument" is stated as a
 round trip rather than as a copy of the formatting expression.
 */
module Tools {

  datatype Option<T> = None | Some(value: T)

  const WeatherPrefix: string := "The weather in "
  const WeatherSuffix: string := " is sunny."
  const JokePrefix: string := "Why don't "
  const JokeSuffix: string := " clouds ever break up? Because they always stick together!"

  /** The text strictly between `prefix` and `suffix`, when `r` has that shape. */
  function Unframe(prefix: string, suffix: string, r: string): (x: Option<string>)
    ensures x.Some? ==> r == prefix + x.value + suffix
  {
    if |prefix| + |suffix| <= |r| && r[..|prefix|] == prefix && r[|r| - |suffix|..] == suffix
    then
      var inner := r[|prefix|..|r| - |suffix|];
      assert r == r[..|prefix|] + inner + r[|r| - |suffix|..];
      Some(inner)
    else None
  }

  /** Framing any text and then unframing it gives the text back. */
  lemma UnframeFramed(prefix: string, suffix: string, x: string)
    ensures Unframe(prefix, suffix, prefix + x + suffix) == Some(x)
  {
  }

  /** The location a `get_weather` reply talks about, if the text is such a reply. */
  function ReportedLocation(report: string): (location: Option<string>)
  {
    Unframe(WeatherPrefix, WeatherSuffix, report)
  }

  /** The weather word a `get_joke` reply is built around, if the text is such a reply. */
  function JokeSubject(joke: string): (weather: Option<string>)
  {
    Unframe(JokePrefix, JokeSuffix, joke)
  }

  /** The `get_weather` tool: a sunny report naming the location it was given. */
  function GetWeather(location: string): (r: string)
    ensures ReportedLocation(r) == Some(location)
    ensures |r| == |location| + 25
  {
    UnframeFramed(WeatherPrefix, WeatherSuffix, location);
    WeatherPrefix + location + WeatherSuffix
  }

  /** The `get_joke` tool: the cloud joke built around the weather word it was given. */
  function GetJoke(weather: string): (r: string)
    ensures JokeSubject(r) == Some(weather)
    ensures |r| == |weather| + 68
  {
    UnframeFramed(JokePrefix, JokeSuffix, weather);
    JokePrefix + weather + JokeSuffix
  }

  /** A text is a weather report about `location` exactly when it is what `get_weather` returns for it. */
  lemma WeatherReportIff(location: string, report: string)
    ensures ReportedLocation(report) == Some(location) <==> report == GetWeather(location)
  {
  }

  /** A text is a joke about `weather` exactly when it is what `get_joke` returns for it. */
  lemma JokeIff(weather: string, joke: string)
    ensures JokeSubject(joke) == Some(weather) <==> joke == GetJoke(weather)
  {
  }

  /** Different locations never get the same weather report. */
  lemma GetWeatherInjective(a: string, b: string)
    ensures GetWeather(a) == GetWeather(b) ==> a == b
  {
  }

  /** Different weather words never get the same joke. */
  lemma GetJokeInjective(a: string, b: string)
    ensures GetJoke(a) == GetJoke(b) ==> a == b
  {
  }
}
