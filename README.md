# weather-mcp-ts in Dafny

A model of the weather MCP server of `bobbyyng/weather-mcp-ts`, with proofs
about it. The model covers three layers.

- **The weather service** (`src/weather-service.ts`):
  - location normalisation: lower-case and trim, resolve through the alias table, or fall back to a slug;
  - the current-weather lookup, with its random fallback record;
  - the forecast lookup, with `slice(0, days)`, and the generated forecast for unknown places;
  - the four-way, case-insensitive alert filter;
  - the statistics: the condition tally and the choice of the most common condition.
- **The mock data** (`src/mock-data.ts`):
  - the four constant tables, with their consistency facts;
  - `getRandomWeatherData`, as a choice of index;
  - the two-pass location search, written as the loops it is.
- **The HTTP server** (`src/http-server.ts`):
  - the tool catalogue;
  - the tool router, with its `try`/`catch` envelope and the five handlers over loosely typed JSON arguments;
  - the JSON-RPC dispatcher (`initialize`, `tools/list`, `tools/call`) and its error responses;
  - the routing of HTTP method, URL and parse outcome to a status and a reply.

Modules:

| module | file | contents |
|---|---|---|
| `Wrappers` | `wrappers.dfy` | `Option` |
| `Text` | `text.dfy` | ASCII `toLowerCase`, `trim`, the two `replace` passes of the slug, `includes` and `String(n)` |
| `Entries` | `entries.dfy` | a JavaScript object with string keys that are not integer-like, as a list of (key, value) pairs in insertion order: own-key read, assignment |
| `Seqs` | `seqs.dfy` | duplicate-freedom, the first-occurrence list, occurrence counts |
| `WeatherTypes` | `types.dfy` | the records of `src/types.ts`; instants and days relative to load time or call time; `Math.floor(r * n)` |
| `MockData`, `MockTables`, `MockSearch` | `mock_data.dfy` | the dataset, `getRandomWeatherData`, the literal tables and their invariants, the search over them |
| `LocationSearch` | `location_search.dfy` | `searchLocationsByQuery` over arbitrary tables: the specification functions, the loop method, and its properties |
| `WeatherService` | `weather_service.dfy` | the five service operations |
| `Json` | `json.dfy` | request JSON values, truthiness, `String(v)` and `Number(v)` with the `TypeError` of a value that has no primitive form |
| `HttpServer` | `http_server.dfy` | catalogue, handlers, router, JSON-RPC dispatcher, HTTP routing |
| `Spellings`, `MockFacts` | `mock_facts.dfy` | the service applied to the literal tables |
| `PrototypeLookup`, `PrototypeCounterexamples` | `findings.dfy` | the service as written, where `table[key]` also sees `Object.prototype` members |

Every table is modelled with own-key lookup. That is what the lookups are evidently
meant to do; the difference with the code as written is under "## Findings".

How the model reads the source in a few places:

- A handler that throws gives an `Outcome.Fault` carrying the `TypeError` message JavaScript would give. The router's `catch` turns it into an `isError: true` result. A fault comes from three places:
  - destructuring `undefined` or `null` arguments;
  - calling `toLowerCase` on a required `location` or `query` that is missing or not a string;
  - converting to a primitive a value that cannot be converted, as `days` or as the tool name printed in the unknown-tool message.

  The alerts tool does not fault on a missing location: a falsy location gives every alert.
- `days` reaches the service as `Number(days)`, and `slice` and the `i <= days` loop bound both read that number.
  - Integers, `null` and the booleans have their JavaScript value.
  - A blank string is 0, and a string holding a decimal integer with an optional sign has that value. The model makes every other string NaN, which is wrong for non-integer numerals such as "2.5" (see "## Left out").
  - An array converts through its joined text, so `[5]` is 5.
  - An object is NaN, unless it has an own `toString` member. Then the conversion throws "Cannot convert object to primitive value", and so does an array holding such an object.
- The request body is given as a parse outcome. The only request that reaches the 400 branch after a successful parse is the JSON literal `null`: `mcpRequest.method` throws inside the `try`, and `mcpRequest.id` throws again in its `catch`. So "a parsed request is always answered with 200" holds for every parsed body except `null`. `HttpServer.EndpointStatus` states both halves.

## Model

| member | source | states |
|---|---|---|
| Text.TrimStart | src/weather-service.ts:111 | the result is a suffix of the input that does not start with whitespace, and everything dropped is whitespace |
| Text.TrimEnd | src/weather-service.ts:111 | the result is a prefix of the input that does not end with whitespace, and everything dropped is whitespace |
| Text.TrimIdempotent | src/weather-service.ts:111 | trimming twice is trimming once |
| Text.TrimIgnoresSurroundingSpaces | src/weather-service.ts:111 | whitespace around a string does not change its trim |
| Text.LowerIdempotent | src/weather-service.ts:111 | lower-casing twice is lower-casing once |
| Text.LowerTrim | src/weather-service.ts:111 | lower-casing and trimming commute |
| Text.SlugOnlySlugChars | src/weather-service.ts:119-121 | the fallback key holds only characters of `[a-z0-9-]` |
| Text.SlugOfSlugChars | src/weather-service.ts:119-121 | a string made of `[a-z0-9-]` passes both replacements unchanged |
| Text.SlugDropsTrailing | src/weather-service.ts:119-121 | a trailing character that is neither whitespace nor `[a-z0-9-]` is removed and nothing else changes |
| Text.ContainsWindow | src/weather-service.ts:59-62 | `includes` holds exactly when the needle occurs at some position of the haystack |
| Text.NotContained | src/weather-service.ts:59-62 | a needle longer than the haystack, or whose first character the haystack lacks, is not included |
| Entries.Lookup | src/weather-service.ts:12 | an own key is found exactly when it is a key, and the value found is stored under it |
| Entries.LookupAt | src/weather-service.ts:12 | with distinct keys, reading the key of entry i gives entry i's value |
| Entries.Assign | src/weather-service.ts:90 | assigning keeps an existing key in place, or appends a new key at the end |
| Entries.AssignLookup | src/weather-service.ts:90 | after the assignment the key reads the new value and every other key reads as before |
| Entries.AssignDistinct | src/weather-service.ts:90 | assignment keeps the keys distinct |
| WeatherTypes.ScaledIndex | src/mock-data.ts:430 | `Math.floor(r * n)` is a valid index for every draw in [0, 1) |
| MockData.GetRandomWeatherData | src/mock-data.ts:428-432 | the result is one of the records of the table |
| MockData.RandomRecordAtIndex | src/mock-data.ts:428-432 | the result is, unchanged, the record at the drawn index |
| MockTables.WeatherKeysDistinct | src/mock-data.ts:3-134 | the ten weather keys are distinct |
| MockTables.ForecastKeysDistinct | src/mock-data.ts:136-337 | the four forecast keys are distinct |
| MockTables.AliasKeysDistinct | src/mock-data.ts:403-426 | the twenty-two alias keys are distinct |
| MockTables.AliasTargetsNonEmpty | src/mock-data.ts:403-426 | no alias maps to the empty string, so the truthiness test of the normaliser always passes for an alias |
| MockTables.AliasTargetsAreKeys | src/mock-data.ts:3-426 | every alias value is a key of the weather table |
| MockTables.AliasTargetsAreValid | src/mock-data.ts:3-426 | every alias value is a non-empty key of the weather table |
| MockTables.ForecastsMatch | src/mock-data.ts:3-337 | every forecast key is a weather key, and its forecast names the same location as the record |
| MockTables.ForecastMatches | src/mock-data.ts:136-337 | the weather record behind forecast i, and the shared location name |
| MockTables.DisplayNamesAreValid | src/mock-data.ts:3-134 | the ten display names are non-empty and distinct |
| MockTables.AlertsHaveAreas | src/mock-data.ts:339-400 | every alert lists at least one area |
| MockTables.TablesAreConsistent | src/mock-data.ts:3-426 | the tables satisfy all of the above together |
| MockTables.AliasesAllResolve | src/mock-data.ts:403-441 | for every alias, `mockWeatherData[locationMapping[key]]?.location` is a non-empty name |
| LocationSearch.SearchTables | src/mock-data.ts:434-457 | the two `forEach` loops, with their `includes`-guarded pushes, compute the specification `Search` |
| LocationSearch.AliasPassIsFirstHits | src/mock-data.ts:439-446 | the first loop keeps the first occurrence of each alias hit, in alias-key order |
| LocationSearch.NamePassAppends | src/mock-data.ts:449-454 | the second loop appends, in table order, the first occurrence of each new name hit |
| LocationSearch.AliasPassNoDup | src/mock-data.ts:442 | the first loop never pushes a name twice |
| LocationSearch.NamePassNoDup | src/mock-data.ts:451 | the second loop keeps a duplicate-free list duplicate-free |
| LocationSearch.AliasPassMembers | src/mock-data.ts:439-446 | a name is in the first pass exactly when some alias hit gives it |
| LocationSearch.NamePassMembers | src/mock-data.ts:449-454 | a name is in the second pass exactly when it came from the first, or is a record's name containing the query |
| LocationSearch.SearchNoDup | src/mock-data.ts:442-451 | the result has no duplicates |
| LocationSearch.SearchMembers | src/mock-data.ts:439-454 | a name is returned if and only if an alias key containing the lower-cased query leads to it, or it is a record's name whose lower-cased form contains the query |
| LocationSearch.KeysResolve | src/mock-data.ts:441 | aliases that point at keys of records with non-empty names all resolve |
| LocationSearch.SearchMembersResolved | src/mock-data.ts:439-454 | when every alias resolves, the alias condition is "the key contains the query and the target's name is x" |
| LocationSearch.SearchFindsRecordNames | src/mock-data.ts:441-452 | every returned string is the `location` of some record |
| LocationSearch.SearchEmptyFindsAll | src/mock-data.ts:440-450 | the empty query returns exactly the display names of the records |
| LocationSearch.SearchOrdered | src/mock-data.ts:439-456 | the result is the alias hits in alias order, each at its first hit, followed by the names found only by display name, in table order |
| MockSearch.SearchLocationsByQuery | src/mock-data.ts:434-457 | over the constant tables, the loops compute `SearchLocations` |
| MockSearch.SearchNoDuplicates | src/mock-data.ts:442-451 | the search of the constant tables never lists a location twice |
| MockSearch.SearchOfLowerCase | src/mock-data.ts:435 | the result depends only on the lower-cased query |
| MockSearch.SearchMembership | src/mock-data.ts:439-454 | the if-and-only-if membership condition, over the constant tables |
| MockSearch.SearchReturnsDisplayNames | src/mock-data.ts:441-452 | every returned string is a display name of `mockWeatherData` |
| MockSearch.SearchOrder | src/mock-data.ts:439-456 | alias hits come first, then display-name hits, over the constant tables |
| MockSearch.SearchEmptyQuery | src/mock-data.ts:440-450 | the empty query returns every display name of the table, and nothing else |
| WeatherService.NormalizeLocation | src/weather-service.ts:110-122 | the key is either a non-empty alias value stored under the lower-cased, trimmed input, or the slug of that string, made only of `[a-z0-9-]`; without an alias it is the slug |
| WeatherService.NormalizeAlias | src/weather-service.ts:111-116 | an input whose lower-cased, trimmed form is alias i normalises to alias i's value |
| WeatherService.NormalizeThroughAlias | src/weather-service.ts:111-116 | an input whose lower-cased, trimmed form maps to a non-empty target normalises to the target |
| WeatherService.NormalizeThroughSlug | src/weather-service.ts:111-121 | an input that is no alias normalises to the slug of its lower-cased, trimmed form |
| WeatherService.NormalizeIgnoresCaseAndSpaces | src/weather-service.ts:111 | surrounding whitespace and case do not change the normalised key |
| WeatherService.NormalizeKeepsSlugs | src/weather-service.ts:119-121 | a slug that is no alias normalises to itself |
| WeatherService.GetCurrentWeather | src/weather-service.ts:8-26 | a known key gives that record with only `timestamp` replaced; an unknown one gives some record of the table with `location` set to the caller's string verbatim and a fresh timestamp |
| WeatherService.CurrentWeatherKnown | src/weather-service.ts:12-17 | with distinct keys, a location normalising to key i gives exactly record i with the call's timestamp |
| WeatherService.SliceEnd | src/weather-service.ts:38 | the end index `slice` uses lies within the array |
| WeatherService.SliceTo | src/weather-service.ts:38 | `slice(0, days)` is a prefix of the days |
| WeatherService.SliceNonNegative | src/weather-service.ts:38 | for days ≥ 0 the slice is the prefix of length min(days, length) |
| WeatherService.SliceNegative | src/weather-service.ts:38 | a negative `days` drops that many days from the end |
| WeatherService.MockDay | src/weather-service.ts:139-151 | day i is dated i days after the call, has one of the seven conditions, and carries the drawn temperatures, chance of rain and humidity |
| WeatherService.MockDays | src/weather-service.ts:138-152 | n generated days, the k-th dated k+1 days after the call, each with the k+1-th draw |
| WeatherService.MockForecast | src/weather-service.ts:124-158 | the generated forecast carries the caller's location and one entry per loop step, i.e. `days` entries for days ≥ 0 |
| WeatherService.GenerateMockForecast | src/weather-service.ts:124-158 | the `for` loop with its pushes builds `MockForecast` |
| WeatherService.GetWeatherForecast | src/weather-service.ts:31-44 | a known key gives the stored location and `slice(0, days)` of the stored days; an unknown one gives the generated forecast for the caller's string |
| WeatherService.ForecastKnown | src/weather-service.ts:34-40 | known location, days ≥ 0: the stored location and the prefix of length min(days, stored length); no clamping to 1–7 |
| WeatherService.ForecastUnknown | src/weather-service.ts:124-157 | unknown location, days ≥ 0: exactly `days` entries under the caller's string |
| WeatherService.MatchingAlerts | src/weather-service.ts:57-64 | the filter returns no more alerts than it is given |
| WeatherService.MatchingAlertsCount | src/weather-service.ts:57-64 | each alert occurs in the result as often as in the input when it matches, and not at all otherwise |
| WeatherService.MatchingAlertsConcat | src/weather-service.ts:57-64 | the filter distributes over concatenation, so order is kept |
| WeatherService.MatchingAlertsAll | src/weather-service.ts:57-64 | when every alert matches, the filter returns the list unchanged |
| WeatherService.LocationName | src/weather-service.ts:55 | the name the tests use is the caller's string or a display name of the table |
| WeatherService.GetWeatherAlerts | src/weather-service.ts:49-65 | an absent or empty location gives the whole alert list; any result is no longer than the list |
| WeatherService.AlertsSelected | src/weather-service.ts:54-64 | for a non-empty location, an alert is in the result exactly when it is in the list and one of its areas passes one of the four lower-cased containment tests, with its multiplicity kept |
| WeatherService.AlertsEmptyKeyMatchesAll | src/weather-service.ts:54-64 | a location normalising to the empty key matches every alert that has an area |
| WeatherService.ConditionCounts | src/weather-service.ts:88-91 | the tally's keys are the conditions in first-occurrence order, and each count is the number of occurrences |
| WeatherService.CountsDistinct | src/weather-service.ts:88-91 | the tally has one entry per condition |
| WeatherService.CountStep | src/weather-service.ts:90 | one `conditionCounts[c] = (conditionCounts[c] \|\| 0) + 1` step turns the tally of s into the tally of s + [c] |
| WeatherService.CountConditions | src/weather-service.ts:88-91 | the `forEach` loop builds exactly the tally of the records' conditions |
| WeatherService.MostCommonEntry | src/weather-service.ts:93-94 | the `reduce` picks one of the entries |
| WeatherService.MostCommonIndex | src/weather-service.ts:93-94 | the picked entry has a maximal count, and every later entry has a strictly smaller one |
| WeatherService.MostCommonIsLastMaximum | src/weather-service.ts:93-94 | the reduce returns the last entry among those of maximal count |
| WeatherService.StatsOf | src/weather-service.ts:78-108 | `totalLocations` is the number of records; the breakdown has one entry per record, in order, copying location, temperature and condition; the most common condition is one of the conditions |
| WeatherService.MostCommonCondition | src/weather-service.ts:88-94 | the most common condition occurs at least as often as any condition, and a different condition with the same count first appears earlier |
| WeatherService.GetWeatherStats | src/weather-service.ts:78-108 | the method computes `StatsOf` over the values of the weather table |
| Json.Get | src/http-server.ts:218 | a property read is defined exactly for present keys |
| Json.StringOf | src/http-server.ts:200 | `String(undefined)` is "undefined", and a string prints as itself |
| Json.JsStringFails | src/http-server.ts:200 | printing a value throws exactly when it is an object with an own `toString`, or an array holding such a value at any depth |
| Json.ToNumberFails | src/http-server.ts:234-237 | converting a value to a number throws on exactly the same values |
| Json.NatToStringDigits | src/http-server.ts:234-237 | a printed natural number is a digit string whose value is the number |
| Json.IntToStringRoundTrip | src/http-server.ts:234-237 | `Number(String(n)) == n` for every integer |
| Json.NegativeText | src/http-server.ts:234-237 | a negative integer prints as a minus sign before its magnitude's digits, with nothing to trim |
| Json.MinusDigits | src/http-server.ts:234-237 | a minus sign before the digits of m converts to -m |
| Json.SingletonText | src/http-server.ts:234-237 | a one-element array prints as its element, unless that is `null` |
| Json.NegativeRoundTrip | src/http-server.ts:234-237 | the round trip for negative integers |
| Json.NumericStringsConvert | src/http-server.ts:234-237 | `days: "5"` and `days: [5]` both convert to 5 |
| HttpServer.AvailableTools | src/http-server.ts:109-181 | the five tool names, in their fixed order |
| HttpServer.CatalogueShape | src/http-server.ts:109-181 | five tools with distinct names; `location` is required by the first two and `query` by `search_locations`; nothing is required by the other two; required names are declared properties; `days` ranges over 1–7 |
| HttpServer.Destructure | src/http-server.ts:217-273 | destructuring throws exactly on `undefined` and `null`, and an object yields its members |
| HttpServer.Receiver | src/weather-service.ts:111 | `toLowerCase` is available exactly on a string |
| HttpServer.DaysArgument | src/http-server.ts:234 | the default 3 applies exactly when `days` is absent; otherwise its value is converted unchanged, and the conversion may throw |
| HttpServer.Envelope | src/http-server.ts:202-227 | one text item: a value is serialised without `isError`, and a fault becomes "Error: " + message with `isError: true` |
| HttpServer.ExecuteWeatherTool | src/http-server.ts:186-214 | every call answers with one text item; `isError` is absent or true, and absent exactly when the item is a serialised value |
| HttpServer.UnknownToolMessageCases | src/http-server.ts:199-200 | the thrown message is "Unknown tool: " + the printed name; when the name cannot be printed it is "Cannot convert object to primitive value" |
| HttpServer.UnknownTool | src/http-server.ts:199-214 | a name that is no catalogue tool gives `isError: true` and the text "Error: Unknown tool: <printed name>"; a name that cannot be printed gives "Error: Cannot convert object to primitive value" |
| HttpServer.AbsentArgumentsAreReported | src/http-server.ts:186-273 | with no `args`, every tool that reads them reports the destructuring `TypeError`; the stats tool answers normally |
| HttpServer.MissingLocationIsReported | src/http-server.ts:217-238 | a missing `location` makes `toLowerCase` throw, and the message comes back as an error result |
| HttpServer.DispatchCurrentWeather | src/http-server.ts:189-190 | the switch sends `get_current_weather` to its handler |
| HttpServer.DispatchForecast | src/http-server.ts:191-192 | the switch sends `get_weather_forecast` to its handler |
| HttpServer.DispatchAlerts | src/http-server.ts:193-194 | the switch sends `get_weather_alerts` to its handler |
| HttpServer.DispatchSearch | src/http-server.ts:195-196 | the switch sends `search_locations` to its handler |
| HttpServer.CurrentWeatherCallSucceeds | src/http-server.ts:217-228 | a string location gives one serialised current-weather item, without `isError` |
| HttpServer.ForecastCallSucceeds | src/http-server.ts:230-247 | a string location without `days` gives the three-day forecast, serialised |
| HttpServer.SearchCallSucceeds | src/http-server.ts:262-273 | a string query gives the serialised search result |
| HttpServer.AlertsCallSucceeds | src/http-server.ts:249-260 | no location gives every alert, serialised |
| HttpServer.DaysPassThrough | src/http-server.ts:234-237 | a supplied `days` reaches the service as its number, including 0 and values outside 1–7; a `days` that cannot be converted makes the call fault with "Cannot convert object to primitive value" |
| HttpServer.FalsyLocationGivesAllAlerts | src/http-server.ts:250-251 | a falsy location gives every alert |
| HttpServer.CreateErrorResponse | src/http-server.ts:357-372 | "2.0", the given id, no `result`, the given code and message; `data` is kept exactly when truthy |
| HttpServer.HandleMCPRequest | src/http-server.ts:289-315 | every answer carries "2.0" and echoes the request id, and has exactly one of `result` and `error`; only a `null` request throws out of it |
| HttpServer.InitializeAnswer | src/http-server.ts:294-332 | `initialize` answers protocol version "2025-03-26", the capability `tools: {}` and the server info "weather-mcp-http" "1.0.0" |
| HttpServer.UnknownMethod | src/http-server.ts:300-305 | any other method gives -32601 "Unsupported method", without `data` |
| HttpServer.ToolsCallWithoutParams | src/http-server.ts:298-347 | `tools/call` without `params` gives -32603 "Internal error" with the destructuring message as `data` |
| HttpServer.ToolsCallAnswers | src/http-server.ts:344-355 | `tools/call` with object `params` answers with the tool result, whatever the tool does |
| HttpServer.HandleMCPEndpoint | src/http-server.ts:441-459 | the endpoint answers 200 or 400 with a JSON-RPC body; a 400 carries code -32700 and `id` null |
| HttpServer.Routing | src/http-server.ts:380-429 | OPTIONS answers 200 with no body; the RPC endpoint is reached exactly by POST to "/" or "/mcp"; GET "/" is the documentation page; everything else is 404 |
| HttpServer.EndpointStatus | src/http-server.ts:441-459 | an unparseable body or a `null` request gives 400 with -32700 and `id` null; any other parsed request gives 200 with the JSON-RPC answer |
| MockFacts.HongKongSpellings | src/weather-service.ts:111-116 | "Hong Kong", "HONG KONG", " hong kong " and "hk" all normalise to "hong-kong" |
| MockFacts.AliasedLocationsAreKnown | src/weather-service.ts:111-116 | an input spelled as an alias key normalises to a key of the weather table |
| MockFacts.PunctuationNormalizesToEmpty | src/weather-service.ts:110-122 | "!!!" normalises to the empty key |
| MockFacts.PunctuationGetsAllAlerts | src/weather-service.ts:54-64 | "!!!" receives every alert of the table |
| PrototypeLookup.Index | src/weather-service.ts:12-55 | `table[key]` is an own entry exactly for own keys, and an inherited member exactly for an `Object.prototype` name that is no own key |
| PrototypeLookup.InheritedText | src/weather-service.ts:61-62 | `String(member)` of an inherited member is at least 15 characters long |
| PrototypeLookup.NormalizeAsWritten | src/weather-service.ts:110-122 | as written, an inherited name among the aliases returns that member, not a string; otherwise the result is the string key |
| PrototypeLookup.NormalizeToInherited | src/weather-service.ts:114-115 | an input naming an inherited member and no alias normalises to that member |
| PrototypeLookup.InheritedAreaTest | src/weather-service.ts:58-62 | with an inherited member as the key, the test either passes through one of the three text tests or throws at `includes` |
| PrototypeLookup.SomeAreaAsWritten | src/weather-service.ts:58 | over a non-empty area list the test passes or throws |
| PrototypeLookup.FilterAsWritten | src/weather-service.ts:57 | the filter as written, when it completes, returns no more alerts than it is given |
| PrototypeLookup.AlertsAgreeOnOwnKeys | src/weather-service.ts:49-65 | off the inherited names the alerts as written equal the corrected model |
| PrototypeLookup.InheritedAlertsFault | src/weather-service.ts:54-64 | a location naming an inherited member throws when the first area fails the three text tests |
| PrototypeLookup.ForecastAgreesOnOwnKeys | src/weather-service.ts:31-44 | off the inherited names the forecast as written equals the corrected model |
| PrototypeLookup.InheritedForecastFault | src/weather-service.ts:34-38 | a key naming an inherited member throws when `slice` is read |
| PrototypeCounterexamples.ConstructorNormalizesToObject | src/weather-service.ts:114-115 | as written, "constructor" normalises to the `Object` constructor |
| PrototypeCounterexamples.FirstAreaFailsForObject | src/weather-service.ts:58-62 | "Hong Kong Island" fails the three text tests against `Object`, so the fourth throws |
| PrototypeCounterexamples.ConstructorAlertsFault | src/weather-service.ts:49-65 | `getWeatherAlerts("constructor")` as written throws; with own-key lookup the key is "constructor" |
| PrototypeCounterexamples.ConstructorBangForecastFault | src/weather-service.ts:31-44 | `getWeatherForecast("constructor!")` as written throws; with own-key lookup it is the generated forecast |

## Left out

- The MCP SDK, the stdio and SSE transports, `http.createServer`, listen and close, CORS headers, chunked body accumulation, the port and signal handling: these are I/O and foreign calls.
- The dispatch switches of `src/index.ts` and `src/sse-server.ts`: they repeat the router. The SSE copy throws on absent `args`, defaults `days` with `|| 3` (so 0 becomes 3) and has no `catch`; none of this is modelled.
- The HTML documentation page: it is static text, and the model keeps only that GET "/" serves it.
- The HTTP 500 path of the request listener: in the model every branch of the endpoint is handled, so it is unreachable.
- `JSON.stringify` appears only as the `Serialized` value that it prints. `JSON.parse` is its outcome, given as input.
- Timestamps and dates depend on the clock. They are the call's ISO string (`now`), or days and hours counted from load time or call time.
- `Math.random()` draws are parameters: one draw picks the record, and a function gives the draw for each generated day.
- Floating point is left out:
  - the ranges of `baseTemp`, `tempVariation`, `chanceOfRain` and `humidity`;
  - `averageTemperature` and its rounding.

  The drawn temperatures, chance of rain and humidity are taken as integers.
- Text is ASCII: lower-casing and the `\s` class cover ASCII only.
- Only integer JSON numbers are modelled.
- HttpServer.DaysArgument, HttpServer.DaysPassThrough: `Number(s)` accepts only decimal integers with an optional sign. In JavaScript "2.5" is 2.5 and "5.0" is 5, and hexadecimal, exponents and `Infinity` have numeric values too; the model gives NaN for all of these.
- JSON object keys that look like integers are not modelled. `Object.keys` would list them first, in numeric order, and not in insertion order. The constant tables have no such keys.
- The `console.error` logging of a failed HTTP request and of a failed JSON-RPC request is output only, and is left out.
- `getCurrentWeather("constructor!")` is not modelled as written. There the slug "constructor" finds the inherited `Object` constructor, and the spread returns only a timestamp. The model gives the random fallback record instead, consistent with the corrected lookup under "## Findings".
- WeatherService.GetCurrentWeather, WeatherService.GetWeatherStats, HttpServer.ExecuteWeatherTool, HttpServer.HandleMCPRequest, HttpServer.HandleMCPEndpoint and the call lemmas require a non-empty weather table.
  - The source's table is the constant ten-record table, and the constant dataset satisfies this.
  - With an empty table, the source's `reduce` in `getWeatherStats` would throw, and its random fallback would return only `location` and `timestamp`. Neither is modelled.
- LocationSearch.SearchTables requires distinct alias keys. The keys of a JavaScript object are distinct by construction.

## Findings

| source | as written | input that shows it | evidently intended | confidence | as-written member | corrected member |
|---|---|---|---|---|---|---|
| src/weather-service.ts:54-62 | `locationMapping[lowerLocation]` and `mockWeatherData[normalizedLocation]` also read `Object.prototype`. For "constructor" the normalised location is the `Object` function. The fourth area test calls `normalizedLocation.includes`, which a function lacks, so the call throws a `TypeError` | `getWeatherAlerts("constructor")` | alerts filtered with "constructor" as an ordinary string key, as for any unknown place | not executed | PrototypeLookup.GetWeatherAlertsAsWritten, PrototypeCounterexamples.ConstructorAlertsFault | WeatherService.GetWeatherAlerts |
| src/weather-service.ts:32-38 | the slug "constructor" finds the inherited `Object` function in `mockForecastData`. It is truthy, so `forecast.forecast.slice` reads `slice` of `undefined` and throws | `getWeatherForecast("constructor!")` | a generated forecast for the unknown location "constructor!" | not executed | PrototypeLookup.GetWeatherForecastAsWritten, PrototypeCounterexamples.ConstructorBangForecastFault | WeatherService.GetWeatherForecast |
