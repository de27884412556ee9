# Weather1 search core, modelled in Dafny

This project models the logic of a small Angular weather front end:

- `WeatherService` (module `WeatherService`, file `weather_service.dfy`).
  - It refuses a blank city before building a request.
  - It builds the query parameters `units = "metric"` and `location = trim(city)`.
  - It forms the forecast URL from the coordinates.
  - `handleError` turns every failed HTTP exchange into one user-facing message: a recognised status (0, 404, 401, 429) first, then a non-empty `message` in the response body, then the default text.
- `WeatherappComponent` (module `WeatherApp`, file `weatherapp_component.dfy`).
  - A Dafny class holds the five view-model fields the component updates in place: `data`, `forecast`, `errorMessage`, `isLoading` and `lastUpdated`.
  - The asynchronous subscription is split into the method that runs when a search is dispatched (`Dispatch`) and the callbacks that run when it settles (`OnSuccess`, `HandleWeatherError`).
  - `Search` chains the three with the service. `OnDebouncedValue` is the debounced form subscriber.
  - `getWeatherIcon` and the debounce guard are pure functions.
- The JavaScript string primitives the code relies on (module `JsString`, file `js_string.dfy`): `trim`, `toLowerCase` as far as the icon table can observe it, and `length`, counted in UTF-16 code units.

The provider's answer to a request is an input of the model (`HttpReply`). The time stamp of a successful search is also an input (`stamp`).

The main invariants:

- The forecast list is never filled: `Valid()` holds after every method.
- A blank field value never reaches the service, and what the component does hand over is never refused by the service's own guard.
- A search that settles right after its own dispatch leaves exactly one of a reading and an error message on display, with loading off.

Facts about the code that the model makes explicit:

- The debounce guard tests the untrimmed `length`. So "  " fires a search that then stops at the blank check, and " a" fires a search for "a".
- No sequence number ties a reply to its search. `OverlappingSearches` shows the result: a late failure of one search followed by the success of the next leaves a reading and an error message on display together.

## Model

| member | source | states |
|---|---|---|
| `JsString.Trim` | weather.service.ts:53 | The result of `trim` starts and ends with a non-whitespace character (or is empty) and is no longer than its input. |
| `JsString.BlankIffAllWhitespace` | weather.service.ts:47 | `trim` yields the empty string exactly when every character is ECMAScript whitespace or a line terminator. |
| `JsString.TrimOfPadded` | weather.service.ts:53 | `trim` is characterised by its result: a trimmed string surrounded by any whitespace trims back to itself. |
| `JsString.TrimSplit` | weatherapp/weatherapp.component.ts:59 | Every string is its trimmed form with only whitespace before and after it. |
| `JsString.TrimIgnoresPadding` | weatherapp/weatherapp.component.ts:59 | Adding whitespace around a string does not change its trimmed form. |
| `JsString.TrimIdempotent` | weather.service.ts:53 | Trimming an already-trimmed string changes nothing. |
| `JsString.StartIndexAt` | weather.service.ts:53 | The scan for the start of the trimmed text stops at the first non-whitespace character and nowhere else. |
| `JsString.EndIndexAt` | weather.service.ts:53 | The scan for the end of the trimmed text stops after the last non-whitespace character and nowhere else. |
| `JsString.LowerChar` | weatherapp/weatherapp.component.ts:116 | Lower-casing maps `A`-`Z` to `a`-`z` and KELVIN SIGN to `k`, keeps every other character, and never yields an upper-case ASCII letter. |
| `JsString.ToLowerCase` | weatherapp/weatherapp.component.ts:116 | `toLowerCase` keeps the length and lower-cases each character independently. |
| `JsString.ToLowerCaseIdempotent` | weatherapp/weatherapp.component.ts:116 | Lower-casing twice equals lower-casing once. |
| `JsString.Utf16Length` | weatherapp/weatherapp.component.ts:51 | `length` counts UTF-16 code units: between `n` and `2n` for `n` characters, and exactly `n` when no character lies outside the Basic Multilingual Plane. |
| `WeatherService.SearchWeather` | weather.service.ts:46-54 | A city fails with "City name cannot be empty" exactly when it is empty or whitespace only. Otherwise the request is exactly `units = "metric"` and `location = trim(city)`, a non-empty trimmed location. |
| `WeatherService.PaddingDoesNotChangeRequest` | weather.service.ts:51-54 | Whitespace around a city never changes the request or the refusal it gets. |
| `WeatherService.SearchWeatherStable` | weather.service.ts:51-54 | Searching again at the location of a built request builds the same request. |
| `WeatherService.ForecastUrl` | weather.service.ts:64-65 | The forecast URL is the forecast base, a `/`, the latitude, a `/` and the longitude. |
| `WeatherService.SlashAfter` | weather.service.ts:65 | In the path after the base, the first `/` stands right after the latitude. |
| `WeatherService.ForecastUrlInjective` | weather.service.ts:65 | Coordinates without `/` are recovered from their URL: different coordinates give different URLs. |
| `WeatherService.HandleError` | weather.service.ts:73-89 | Every failure yields one non-empty message. Status 0, 404, 401 and 429 give their fixed texts whatever the body says. Any other status passes a non-empty body message through verbatim, and falls back to "Failed to fetch weather data" when the body message is missing or empty. |
| `WeatherService.StatusOverridesBody` | weather.service.ts:76-86 | For a recognised status, no body changes the message. |
| `WeatherService.MessageIdentifiesStatus` | weather.service.ts:74-86 | The fixed texts are pairwise distinct. A fixed text the body does not itself carry tells which status was seen. |
| `WeatherService.SearchOutcome` | weather.service.ts:46-89 | End to end: a blank city fails with the empty-city text and sends nothing. Otherwise a delivered payload is passed on, and a failure is classified by `handleError`. Every error message is non-empty. |
| `WeatherApp.WeatherappComponent.constructor` | weatherapp/weatherapp.component.ts:30-34 | The view-model starts with no reading, an empty forecast, no error, loading off and no stamp. |
| `WeatherApp.WeatherappComponent.Dispatch` | weatherapp/weatherapp.component.ts:58-71 | A blank field value only sets "Please enter a city name" and sends nothing. Any other value resets to the pending state: loading on, no error, no reading, empty forecast, stamp kept. The trimmed value goes to the service, whose guard accepts it and builds the same request the untrimmed value would. |
| `WeatherApp.WeatherappComponent.ProcessWeatherData` | weatherapp/weatherapp.component.ts:83-93 | The reading becomes the response copied field for field, and the stamp is recorded. Nothing else changes. |
| `WeatherApp.WeatherappComponent.OnSuccess` | weatherapp/weatherapp.component.ts:72-76 | After success the reading equals the response field for field (location, temperature, description, humidity, wind speed, units), the stamp is set and loading is off. Settling a pending search leaves no error on display. |
| `WeatherApp.WeatherappComponent.HandleWeatherError` | weatherapp/weatherapp.component.ts:95-101 | After failure loading is off and the reading and forecast are cleared. The error message is the given one, or "Failed to fetch weather data" when it is empty, so the view is settled with an error on display. |
| `WeatherApp.WeatherappComponent.Search` | weatherapp/weatherapp.component.ts:58-81 | One search from field value to settled view-model. A blank value only sets the blank-input error. Otherwise exactly one of reading and error is on display with loading off: the payload on delivery, or `handleError`'s message on failure. |
| `WeatherApp.WeatherappComponent.OnDebouncedValue` | weatherapp/weatherapp.component.ts:45-56 | A value the trigger rejects changes nothing. A blank value that passes the trigger only sets the blank-input error. Any other value that passes runs the search to a settled view-model: the delivered payload with the new stamp, or `handleError`'s message with the reading cleared and the stamp kept. |
| `WeatherApp.OverlappingSearches` | weatherapp/weatherapp.component.ts:58-101 | With two searches in flight, a late failure followed by a success leaves a reading and an error message on display together. |
| `WeatherApp.TriggersSearch` | weatherapp/weatherapp.component.ts:51 | A value fires a search exactly when its UTF-16 length is at least 2. The truthiness test adds nothing, and any two characters suffice. |
| `WeatherApp.BlankValueTriggers` | weatherapp/weatherapp.component.ts:51-62 | Two spaces pass the trigger although they are blank. |
| `WeatherApp.ShortCityTriggers` | weatherapp/weatherapp.component.ts:51-59 | " a" passes the trigger and trims to the one-character city "a". |
| `WeatherApp.AstralCharacterTriggers` | weatherapp/weatherapp.component.ts:51 | One character outside the Basic Multilingual Plane passes the trigger on its own. |
| `WeatherApp.IconCode` | weatherapp/weatherapp.component.ts:105-116 | The icon code is always one of the nine codes of the table. |
| `WeatherApp.GetWeatherIcon` | weatherapp/weatherapp.component.ts:103-118 | The icon URL is `https://openweathermap.org/img/wn/`, the icon code, then `@2x.png`, and the code can be read back from it. |
| `WeatherApp.IconLookup` | weatherapp/weatherapp.component.ts:105-117 | A description whose lower-case form is one of the nine keys gets that key's icon. Every other description gets the default "01d" icon. |
| `WeatherApp.IconIgnoresCase` | weatherapp/weatherapp.component.ts:116 | A description and its lower-case form get the same icon. |
| `WeatherApp.RainIcon` | weatherapp/weatherapp.component.ts:105-117 | "Rain" gives the "10d" icon and "tornado" gives the default "01d" icon. |
| `WeatherApp.IconCodeAsWritten` | weatherapp/weatherapp.component.ts:116 | The lookup as written: a key missing from the table that names a member every object inherits yields that member's string form. Away from those names it agrees with `IconCode`. |
| `WeatherApp.ReachableInheritedMembers` | weatherapp/weatherapp.component.ts:116 | A lower-cased description reaches an inherited member exactly when it is "constructor" or "__proto__". |
| `WeatherApp.IconAsWrittenLeaksPrototype` | weatherapp/weatherapp.component.ts:116 | "Constructor" yields the source text of the `Object` function and "__proto__" yields "[object Object]" as the icon code, where the corrected lookup gives "01d". |

## Findings

| source | as written | input that shows it | evidently intended | confidence | as-written member | corrected member |
|---|---|---|---|---|---|---|
| weatherapp/weatherapp.component.ts:116 | The icon table is a plain object literal, and the lookup falls back to "01d" only when the looked-up value is falsy. A lower-cased description that names a member inherited from `Object.prototype` finds that member, which is truthy. Its string form becomes the icon code. | "Constructor" (icon code "function Object() { [native code] }"), or "__proto__" (icon code "[object Object]") | every description outside the nine keys gets the default "01d" icon | high, not executed | `WeatherApp.IconAsWrittenLeaksPrototype` | `WeatherApp.IconCode` |

The rest of the model (`GetWeatherIcon` and its lemmas) uses the corrected `IconCode`, which consults only the table's own nine entries.

## Left out

- The HTTP client, the request headers and API keys, and the `Observable` / `throwError` / `catchError` plumbing are foreign I/O. The provider's answer is the input `HttpReply`, and a failed observable is an `Err` result.
- `console.error` logging in the service and in the component has no observable state.
- Debounce timing (`debounceTime(1000)` and the scheduler) is timer behaviour. Only the guard that the debounced value must pass is modelled, in `TriggersSearch` and `OnDebouncedValue`.
- `new Date().toLocaleTimeString()` depends on the clock and locale. The stamp is a caller-supplied string.
- The coordinates of the forecast URL are the strings JavaScript formats the numbers to. Number-to-string formatting is not modelled.
- Numeric payload fields are copied verbatim and never computed with. They are `real` values here.
- The form group, its validators, dependency injection and `cityErrors` are framework wiring. The field value is a parameter of the component's methods. A `null` form value is not modelled. It would behave exactly like `""`: `null && …` is falsy, so the debounce guard fires no search, and `null?.trim()` is `undefined`, so `searchWeather` takes the blank-input branch.
- `app.module.ts`, `app-routing.module.ts` and the component's test file hold no logic. The commented-out earlier variants of the service are dead code.
- The forecast list is only ever assigned the empty list, so there is no grouping of forecast entries to model.
- The service passes the provider's payload on untouched, and `processWeatherData` copies its fields without checking them. There is no parse step and no "malformed response" error to model.
- `WeatherService.HandleError`: a body `message` that is truthy but not a string is not modelled. The body message is a string or absent.
- `JsString.LowerChar` and `JsString.ToLowerCase`: full Unicode case mapping is not modelled. Characters other than `A`-`Z` and KELVIN SIGN (U+212A, which lower-cases to `k`) are kept as they are. Every other character lower-cases to itself or to a string containing a non-ASCII character (U+0130, for one, becomes `i` followed by U+0307). So whether the result is one of the table's ASCII keys, and hence the icon, is the same as in JavaScript.
- `WeatherApp.WeatherappComponent.OnSuccess`: "exactly one of reading and error" is promised only when the success settles a pending search. With overlapping searches it does not hold, as `OverlappingSearches` shows, because the code has no request supersession.
