/**
 * `WeatherappComponent`: the view-model behind the search form. Its five
 * fields are updated in place by the search guard and dispatch, by the
 * success handler and by the failure handler; the asynchronous subscription
 * is split into the methods that run when the request is sent and when it
 * settles. The icon lookup and the debounce guard are pure functions.
 */
module WeatherApp {
  import opened Wrappers
  import opened JsString
  import WeatherService

  const BlankInputMessage := "Please enter a city name"
  /** The component's own fallback for an error without a message. */
  const FallbackErrorMessage := "Failed to fetch weather data"

  /** The reading the view renders. */
  datatype WeatherData = WeatherData(
    location: string,
    temperature: real,
    description: string,
    humidity: real,
    windSpeed: real,
    units: string)

  /** One day of the forecast list. */
  datatype ForecastItem = ForecastItem(day: string, date: string, icon: string, temp: string, description: string)

  /** The view-model after the last search has settled: no request in flight
      and exactly one of a reading and an error message on display. */
  ghost predicate SettledState(data: Option<WeatherData>, errorMessage: string, isLoading: bool) {
    !isLoading && (data.Some? <==> errorMessage == "")
  }

  class WeatherappComponent {
    var data: Option<WeatherData>
    var forecast: seq<ForecastItem>
    var errorMessage: string
    var isLoading: bool
    var lastUpdated: string

    /** The forecast list is never filled: every assignment to it is the empty list. */
    ghost predicate Valid()
      reads this
    {
      forecast == []
    }

    /** A search has been dispatched and has not settled yet. */
    ghost predicate Pending()
      reads this
    {
      isLoading && errorMessage == "" && data == None && forecast == []
    }

    ghost predicate Settled()
      reads this
    {
      SettledState(data, errorMessage, isLoading)
    }

    constructor ()
      ensures Valid()
      ensures data == None && forecast == [] && errorMessage == ""
      ensures !isLoading && lastUpdated == ""
    {
      data := None;
      forecast := [];
      errorMessage := "";
      isLoading := false;
      lastUpdated := "";
    }

    /** `searchWeather` up to the subscription: a blank field only shows an
        error; otherwise the view-model is reset to pending and the trimmed
        city is handed to the service, which is returned as `request`. */
    method Dispatch(fieldValue: string) returns (request: Option<string>)
      requires Valid()
      modifies this
      ensures Valid()
      ensures request.None? <==> AllWhitespace(fieldValue)
      ensures request.None? ==>
        errorMessage == BlankInputMessage &&
        data == old(data) && forecast == old(forecast) &&
        isLoading == old(isLoading) && lastUpdated == old(lastUpdated)
      ensures request.Some? ==>
        Pending() && lastUpdated == old(lastUpdated) &&
        request.value == Trim(fieldValue) &&
        WeatherService.SearchWeather(request.value) == WeatherService.SearchWeather(fieldValue)
      ensures request.Some? ==> WeatherService.SearchWeather(request.value).Ok?
    {
      var city := Trim(fieldValue);
      BlankIffAllWhitespace(fieldValue);
      if city == [] {
        errorMessage := BlankInputMessage;
        return None;
      }
      isLoading := true;
      errorMessage := "";
      data := None;
      forecast := [];
      TrimIdempotent(fieldValue);
      return Some(city);
    }

    /** `processWeatherData`: the reading is the response copied field for
        field, stamped with the caller-supplied time. */
    method ProcessWeatherData(response: WeatherService.WeatherApiResponse, stamp: string)
      modifies this
      ensures data == Some(FromResponse(response))
      ensures lastUpdated == stamp
      ensures forecast == old(forecast) && errorMessage == old(errorMessage) && isLoading == old(isLoading)
    {
      data := Some(FromResponse(response));
      lastUpdated := stamp;
    }

    /** The subscription's success callback: store the reading, then stop loading.
        Settling a pending search leaves the reading on display and no error. */
    method OnSuccess(response: WeatherService.WeatherApiResponse, stamp: string)
      requires Valid()
      modifies this
      ensures Valid()
      ensures data.Some?
      ensures data.value.location == response.location && data.value.temperature == response.temperature
      ensures data.value.description == response.description && data.value.humidity == response.humidity
      ensures data.value.windSpeed == response.windSpeed && data.value.units == response.units
      ensures lastUpdated == stamp && !isLoading && errorMessage == old(errorMessage)
      ensures old(Pending()) ==> Settled() && errorMessage == ""
    {
      ProcessWeatherData(response, stamp);
      isLoading := false;
    }

    /** `handleWeatherError`, the subscription's failure callback: the error
        message replaces any reading and forecast. */
    method HandleWeatherError(message: string)
      requires Valid()
      modifies this
      ensures Valid()
      ensures !isLoading && data == None && forecast == []
      ensures errorMessage == (if message == "" then FallbackErrorMessage else message)
      ensures lastUpdated == old(lastUpdated)
      ensures Settled() && errorMessage != ""
    {
      isLoading := false;
      errorMessage := if message != "" then message else FallbackErrorMessage;
      data := None;
      forecast := [];
    }

    /** One search from the form value to a settled view-model, with the
        provider's reply as an input: the dispatch, the service, and the callback
        the service's outcome selects. */
    method Search(fieldValue: string, reply: WeatherService.HttpReply, stamp: string)
      requires Valid()
      modifies this
      ensures Valid()
      ensures AllWhitespace(fieldValue) ==>
        errorMessage == BlankInputMessage &&
        data == old(data) && isLoading == old(isLoading) && lastUpdated == old(lastUpdated)
      ensures !AllWhitespace(fieldValue) ==> Settled()
      ensures !AllWhitespace(fieldValue) && reply.Delivered? ==>
        data == Some(FromResponse(reply.body)) && errorMessage == "" && lastUpdated == stamp
      ensures !AllWhitespace(fieldValue) && reply.Rejected? ==>
        data == None && errorMessage == WeatherService.HandleError(reply.error) &&
        lastUpdated == old(lastUpdated)
    {
      var request := Dispatch(fieldValue);
      if request.Some? {
        match WeatherService.SearchOutcome(request.value, reply)
        case Ok(response) => OnSuccess(response, stamp);
        case Err(message) => HandleWeatherError(message);
      }
    }

    /** The debounced `valueChanges` subscriber of `ngOnInit`: a value the
        trigger accepts runs a search; any other value changes nothing. */
    method OnDebouncedValue(cityName: string, reply: WeatherService.HttpReply, stamp: string)
      requires Valid()
      modifies this
      ensures Valid()
      ensures !TriggersSearch(cityName) ==> unchanged(this)
      ensures TriggersSearch(cityName) && AllWhitespace(cityName) ==>
        errorMessage == BlankInputMessage && data == old(data) && isLoading == old(isLoading) &&
        lastUpdated == old(lastUpdated)
      ensures TriggersSearch(cityName) && !AllWhitespace(cityName) ==> Settled()
      ensures TriggersSearch(cityName) && !AllWhitespace(cityName) && reply.Delivered? ==>
        data == Some(FromResponse(reply.body)) && errorMessage == "" && lastUpdated == stamp
      ensures TriggersSearch(cityName) && !AllWhitespace(cityName) && reply.Rejected? ==>
        data == None && errorMessage == WeatherService.HandleError(reply.error) &&
        lastUpdated == old(lastUpdated)
    {
      if TriggersSearch(cityName) {
        Search(cityName, reply, stamp);
      }
    }
  }

  /** The reading `processWeatherData` builds from a response. */
  function FromResponse(response: WeatherService.WeatherApiResponse): WeatherData {
    WeatherData(response.location, response.temperature, response.description,
                response.humidity, response.windSpeed, response.units)
  }

  /** Searches whose replies arrive out of order: nothing ties a reply to the
      search that sent it, so the failure of an earlier search followed by the
      success of a later one leaves a reading and an error message on display
      together. */
  method OverlappingSearches() returns (dataShown: bool, errorShown: bool)
    ensures dataShown && errorShown
  {
    var view := new WeatherappComponent();
    var first := view.Dispatch("London");
    var second := view.Dispatch("Berlin");
    view.HandleWeatherError(WeatherService.HandleError(WeatherService.HttpErrorResponse(404, None)));
    view.OnSuccess(WeatherService.WeatherApiResponse("Berlin", 18.0, "clear sky", 60.0, 3.1, "metric"), "12:00:00");
    dataShown, errorShown := view.data.Some?, view.errorMessage != "";
  }

  /** The debounced `valueChanges` subscriber: a value fires a search when it
      is truthy and its `length` (in UTF-16 code units) is at least 2. */
  function TriggersSearch(value: string): (fires: bool)
    ensures fires <==> Utf16Length(value) >= 2
    ensures |value| >= 2 ==> fires
  {
    value != "" && Utf16Length(value) >= 2
  }

  /** The guard looks at the untrimmed value: two spaces fire a search, which
      then stops at the blank-input check. */
  lemma BlankValueTriggers()
    ensures TriggersSearch("  ") && AllWhitespace("  ")
  {
  }

  /** A city that trims to one character still fires a search. */
  lemma ShortCityTriggers()
    ensures TriggersSearch(" a") && Trim(" a") == "a"
  {
  }

  /** A single character outside the Basic Multilingual Plane is two code
      units long, so it fires a search on its own. */
  lemma AstralCharacterTriggers()
    ensures |"\U{1F3D9}"| == 1 && TriggersSearch("\U{1F3D9}")
  {
  }

  const IconUrlPrefix := "https://openweathermap.org/img/wn/"
  const IconUrlSuffix := "@2x.png"
  const DefaultIconCode := "01d"

  /** The closed table of `getWeatherIcon`, keyed by lower-case description. */
  const IconMap: map<string, string> := map[
    "clear sky" := "01d",
    "few clouds" := "02d",
    "scattered clouds" := "03d",
    "broken clouds" := "04d",
    "shower rain" := "09d",
    "rain" := "10d",
    "thunderstorm" := "11d",
    "snow" := "13d",
    "mist" := "50d"
  ]

  /** The icon code of a description: its table entry, matched without regard
      to case, or the clear-sky code for a description the table lacks. */
  function IconCode(description: string): (code: string)
    ensures code in IconMap.Values
  {
    var key := ToLowerCase(description);
    assert IconMap["clear sky"] == DefaultIconCode;
    if key in IconMap then IconMap[key] else DefaultIconCode
  }

  /** `getWeatherIcon`: the provider's icon URL for a description. */
  function GetWeatherIcon(description: string): (url: string)
    ensures |url| == |IconUrlPrefix| + 3 + |IconUrlSuffix|
    ensures url[..|IconUrlPrefix|] == IconUrlPrefix
    ensures url[|url| - |IconUrlSuffix|..] == IconUrlSuffix
    ensures url[|IconUrlPrefix|..|url| - |IconUrlSuffix|] == IconCode(description)
  {
    var code := IconCode(description);
    assert |code| == 3;
    IconUrlPrefix + code + IconUrlSuffix
  }

  /** Every description whose lower-case form is a key of the table gets that
      key's icon, whatever its case; every other description gets the default. */
  lemma IconLookup(description: string)
    ensures ToLowerCase(description) in IconMap ==>
      GetWeatherIcon(description) == IconUrlPrefix + IconMap[ToLowerCase(description)] + IconUrlSuffix
    ensures ToLowerCase(description) !in IconMap ==>
      GetWeatherIcon(description) == IconUrlPrefix + DefaultIconCode + IconUrlSuffix
  {
  }

  /** The lookup ignores case: a description and its lower-case form share their icon. */
  lemma IconIgnoresCase(description: string)
    ensures GetWeatherIcon(ToLowerCase(description)) == GetWeatherIcon(description)
  {
    ToLowerCaseIdempotent(description);
  }

  lemma RainIcon()
    ensures GetWeatherIcon("Rain") == IconUrlPrefix + "10d" + IconUrlSuffix
    ensures GetWeatherIcon("tornado") == IconUrlPrefix + "01d" + IconUrlSuffix
  {
    assert ToLowerCase("Rain") == "rain";
    assert ToLowerCase("tornado") == "tornado";
  }

  /** What `${value}` gives for each property every plain JavaScript object
      inherits from `Object.prototype`. */
  const ObjectPrototypeMembers: map<string, string> := map[
    "constructor" := "function Object() { [native code] }",
    "__proto__" := "[object Object]",
    "toString" := "function toString() { [native code] }",
    "toLocaleString" := "function toLocaleString() { [native code] }",
    "valueOf" := "function valueOf() { [native code] }",
    "hasOwnProperty" := "function hasOwnProperty() { [native code] }",
    "isPrototypeOf" := "function isPrototypeOf() { [native code] }",
    "propertyIsEnumerable" := "function propertyIsEnumerable() { [native code] }",
    "__defineGetter__" := "function __defineGetter__() { [native code] }",
    "__defineSetter__" := "function __defineSetter__() { [native code] }",
    "__lookupGetter__" := "function __lookupGetter__() { [native code] }",
    "__lookupSetter__" := "function __lookupSetter__() { [native code] }"
  ]

  /** The icon code as the source computes it: `iconMap[key] || '01d'` reads
      a plain object, so a key missing from the table is looked up along the
      prototype chain, and an inherited member is truthy. */
  function IconCodeAsWritten(description: string): (code: string)
    ensures code in IconMap.Values || code in ObjectPrototypeMembers.Values
    ensures ToLowerCase(description) !in ObjectPrototypeMembers ==> code == IconCode(description)
    ensures ToLowerCase(description) !in IconMap && ToLowerCase(description) in ObjectPrototypeMembers ==>
      code == ObjectPrototypeMembers[ToLowerCase(description)]
  {
    var key := ToLowerCase(description);
    assert IconMap["clear sky"] == DefaultIconCode;
    if key in IconMap then IconMap[key]
    else if key in ObjectPrototypeMembers then ObjectPrototypeMembers[key]
    else DefaultIconCode
  }

  /** Only the two inherited names without an upper-case letter survive
      lower-casing, so exactly those two descriptions leave the table. */
  lemma ReachableInheritedMembers(description: string)
    ensures ToLowerCase(description) in ObjectPrototypeMembers <==>
      ToLowerCase(description) in {"constructor", "__proto__"}
  {
    var key := ToLowerCase(description);
    if key in ObjectPrototypeMembers {
      assert forall i :: 0 <= i < |key| ==> !('A' <= key[i] <= 'Z');
      assert "toString"[2] == 'S' && "toLocaleString"[2] == 'L' && "valueOf"[5] == 'O';
      assert "hasOwnProperty"[3] == 'O' && "isPrototypeOf"[2] == 'P';
      assert "propertyIsEnumerable"[8] == 'I' && "__defineGetter__"[8] == 'G';
      assert "__defineSetter__"[8] == 'S' && "__lookupGetter__"[8] == 'G';
      assert "__lookupSetter__"[8] == 'S';
    }
  }

  /** The source's lookup turns "Constructor" into an icon URL built from the
      source text of the `Object` function, and "__proto__" into one built from
      "[object Object]", instead of the default code. */
  lemma IconAsWrittenLeaksPrototype()
    ensures IconCodeAsWritten("Constructor") == "function Object() { [native code] }"
    ensures IconCodeAsWritten("Constructor") !in IconMap.Values
    ensures IconCode("Constructor") == DefaultIconCode
    ensures IconCodeAsWritten("__proto__") == "[object Object]"
  {
    assert ToLowerCase("Constructor") == "constructor";
    assert "constructor" !in IconMap;
    assert ToLowerCase("__proto__") == "__proto__";
    assert "__proto__" !in IconMap;
  }
}
