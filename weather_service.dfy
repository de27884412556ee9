/**
 * `WeatherService`: the guard and query construction of `searchWeather`, the
 * URL of `getForecast`, and the classification `handleError` applies to every
 * failed request. The HTTP client is not modelled: what the provider answers
 * to a request is an input (`HttpReply`).
 */
module WeatherService {
  import opened Wrappers
  import opened JsString

  const ForecastBaseUrl := "https://open-weather13.p.rapidapi.com/city/fivedaysforcast"

  const EmptyCityMessage := "City name cannot be empty"
  const NetworkErrorMessage := "Network error. Please check your connection."
  const NotFoundMessage := "City not found. Please try another location."
  const UnauthorizedMessage := "Invalid API key. Please check your configuration."
  const RateLimitedMessage := "Too many requests. Please wait and try again later."
  const DefaultErrorMessage := "Failed to fetch weather data"

  /** The statuses `handleError` recognises, each with its fixed message; any
      other status defers to the body of the response. */
  const StatusMessages: map<int, string> := map[
    0 := NetworkErrorMessage,
    404 := NotFoundMessage,
    401 := UnauthorizedMessage,
    429 := RateLimitedMessage
  ]

  /** The provider's current-weather payload. Numbers are copied, never computed with. */
  datatype WeatherApiResponse = WeatherApiResponse(
    location: string,
    temperature: real,
    description: string,
    humidity: real,
    windSpeed: real,
    units: string)

  /** The query parameters of a current-weather request. */
  datatype SearchParams = SearchParams(units: string, location: string)

  /** A failed HTTP exchange: its status (0 when no response arrived) and the
      `message` field of its body, `None` when the body is absent or has none. */
  datatype HttpErrorResponse = HttpErrorResponse(status: int, bodyMessage: Option<string>)

  /** What the provider does with a request. */
  datatype HttpReply = Delivered(body: WeatherApiResponse) | Rejected(error: HttpErrorResponse)

  /** The guard and query of `searchWeather`: a blank city fails before any
      request exists; otherwise the request asks for metric units at the trimmed city. */
  function SearchWeather(city: string): (r: Result<SearchParams>)
    ensures r.Err? <==> AllWhitespace(city)
    ensures r.Err? ==> r.message == EmptyCityMessage
    ensures r.Ok? ==> r.value.units == "metric"
    ensures r.Ok? ==> r.value == SearchParams("metric", Trim(city))
    ensures r.Ok? ==> r.value.location != [] && IsTrimmed(r.value.location)
  {
    BlankIffAllWhitespace(city);
    if city == [] || IsBlank(city) then
      Err(EmptyCityMessage)
    else
      Ok(SearchParams("metric", Trim(city)))
  }

  /** Whitespace added around a city never changes the request built for it. */
  lemma PaddingDoesNotChangeRequest(lead: string, city: string, trail: string)
    requires AllWhitespace(lead) && AllWhitespace(trail)
    ensures SearchWeather(lead + city + trail) == SearchWeather(city)
  {
    TrimIgnoresPadding(lead, city, trail);
  }

  /** A location the service has built passes its guard again and builds the
      same request. */
  lemma SearchWeatherStable(city: string)
    requires SearchWeather(city).Ok?
    ensures SearchWeather(SearchWeather(city).value.location) == SearchWeather(city)
  {
    TrimIdempotent(city);
  }

  /** The URL of `getForecast(lat, lon)`; the coordinates are taken as the
      strings JavaScript formats them to. */
  function ForecastUrl(lat: string, lon: string): (url: string)
    ensures |url| == |ForecastBaseUrl| + |lat| + |lon| + 2
    ensures url[..|ForecastBaseUrl| + 1] == ForecastBaseUrl + "/"
    ensures url[|ForecastBaseUrl| + 1..] == lat + "/" + lon
  {
    ForecastBaseUrl + "/" + lat + "/" + lon
  }

  /** In `a + "/" + b` with no '/' in `a`, the first '/' stands right after `a`. */
  lemma SlashAfter(a: string, b: string)
    requires '/' !in a
    ensures (a + "/" + b)[|a|] == '/'
    ensures forall i :: 0 <= i < |a| ==> (a + "/" + b)[i] != '/'
  {
  }

  /** A formatted number never contains '/', so the URL determines both coordinates. */
  lemma ForecastUrlInjective(lat: string, lon: string, lat': string, lon': string)
    requires '/' !in lat && '/' !in lat'
    requires ForecastUrl(lat, lon) == ForecastUrl(lat', lon')
    ensures lat == lat' && lon == lon'
  {
    var n := |ForecastBaseUrl| + 1;
    var tail, tail' := lat + "/" + lon, lat' + "/" + lon';
    assert tail == ForecastUrl(lat, lon)[n..] == tail';
    SlashAfter(lat, lon);
    SlashAfter(lat', lon');
    assert |lat| == |lat'|;
    assert lat == tail[..|lat|] == lat';
    assert lon == tail[|lat| + 1..] == lon';
  }

  /** The body of a failed response carries a usable message (JavaScript truthiness). */
  predicate HasBodyMessage(e: HttpErrorResponse) {
    e.bodyMessage.Some? && e.bodyMessage.value != ""
  }

  /** `handleError`: one message per failure, chosen by the first of these
      that applies: a recognised status, a message in the body, the default. */
  function HandleError(e: HttpErrorResponse): (message: string)
    ensures message != ""
    ensures e.status in StatusMessages ==> message == StatusMessages[e.status]
    ensures e.status !in StatusMessages && HasBodyMessage(e) ==> message == e.bodyMessage.value
    ensures e.status !in StatusMessages && !HasBodyMessage(e) ==> message == DefaultErrorMessage
  {
    if e.status == 0 then NetworkErrorMessage
    else if e.status == 404 then NotFoundMessage
    else if e.status == 401 then UnauthorizedMessage
    else if e.status == 429 then RateLimitedMessage
    else if HasBodyMessage(e) then e.bodyMessage.value
    else DefaultErrorMessage
  }

  /** The status decides before the body does: for a recognised status, no body changes the message. */
  lemma StatusOverridesBody(status: int, body: Option<string>, body': Option<string>)
    requires status in StatusMessages
    ensures HandleError(HttpErrorResponse(status, body)) == HandleError(HttpErrorResponse(status, body'))
  {
  }

  /** The fixed messages are pairwise distinct, so when the body does not
      itself repeat a fixed message, the message tells which status was seen. */
  lemma MessageIdentifiesStatus(e: HttpErrorResponse, status: int)
    requires status in StatusMessages
    requires HandleError(e) == StatusMessages[status]
    requires e.bodyMessage != Some(StatusMessages[status])
    ensures e.status == status
  {
  }

  /** `searchWeather(city)` end to end, with the provider's reply as an input:
      a blank city fails without a request; otherwise the reply's payload is
      passed on, or its failure is classified by `handleError`. */
  function SearchOutcome(city: string, reply: HttpReply): (r: Result<WeatherApiResponse>)
    ensures r.Err? ==> r.message != ""
    ensures AllWhitespace(city) ==> r == Err(EmptyCityMessage)
    ensures !AllWhitespace(city) && reply.Delivered? ==> r == Ok(reply.body)
    ensures !AllWhitespace(city) && reply.Rejected? ==> r == Err(HandleError(reply.error))
  {
    match SearchWeather(city)
    case Err(m) => Err(m)
    case Ok(_) =>
      match reply
      case Delivered(body) => Ok(body)
      case Rejected(error) => Err(HandleError(error))
  }
}
