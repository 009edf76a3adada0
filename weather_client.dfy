/** The request URL `get_weather_info` builds; the HTTP call itself is not modelled. */
module WeatherClient {

  const Endpoint: string := "https://api.openweathermap.org/data/2.5/weather?q="
  const UnitsAndKey: string := "&units=metric&appid="

  /** The compiled-in placeholder key. */
  const ApiKey: string := "*"

  /** The URL of the query: city and country are pasted in verbatim, with no escaping. */
  function RequestUrl(city: string, country: string, key: string): (url: string)
    ensures |url| == |Endpoint| + |city| + 1 + |country| + |UnitsAndKey| + |key|
    ensures url[..|Endpoint|] == Endpoint
    ensures url[|Endpoint|..|Endpoint| + |city|] == city
    ensures url[|Endpoint| + |city|] == ','
    ensures url[|Endpoint| + |city| + 1..|Endpoint| + |city| + 1 + |country|] == country
    ensures url[|url| - |key| - |UnitsAndKey|..|url| - |key|] == UnitsAndKey
    ensures url[|url| - |key|..] == key
  {
    Endpoint + city + "," + country + UnitsAndKey + key
  }

  /** The `city,country` part of a URL, between the endpoint and the units/key suffix. */
  function Query(url: string, key: string): string
    requires |Endpoint| + |UnitsAndKey| + |key| <= |url|
  {
    url[|Endpoint|..|url| - |UnitsAndKey| - |key|]
  }

  lemma QueryOfRequestUrl(city: string, country: string, key: string)
    ensures Query(RequestUrl(city, country, key), key) == city + "," + country
  {
    var url := RequestUrl(city, country, key);
    assert url == Endpoint + (city + "," + country) + (UnitsAndKey + key);
  }

  /**
   * For the same key, the URL determines city and country as long as the city has
   * no comma.
   */
  lemma RequestUrlInjective(c1: string, k1: string, c2: string, k2: string, key: string)
    requires ',' !in c1 && ',' !in c2
    requires RequestUrl(c1, k1, key) == RequestUrl(c2, k2, key)
    ensures c1 == c2 && k1 == k2
  {
    QueryOfRequestUrl(c1, k1, key);
    QueryOfRequestUrl(c2, k2, key);
    var q1, q2 := c1 + "," + k1, c2 + "," + k2;
    assert q1 == q2;
    assert c1 == q1[..|c1|] && c2 == q2[..|c2|];
    assert k1 == q1[|c1| + 1..] && k2 == q2[|c2| + 1..];
  }

  /** Without escaping, a comma in the city cannot be told from the separator. */
  lemma RequestUrlCommaCollision(key: string)
    ensures RequestUrl("a,b", "c", key) == RequestUrl("a", "b,c", key)
  {
  }
}
