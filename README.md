# flight_tracker: the geographic and normalisation core, in Dafny

flight_tracker is a web map of live aircraft. The browser asks a flight
provider for the aircraft inside the visible rectangle of the map. The
provider is either the OpenSky Network's state-vector feed or the Aviation
Edge flights API. It normalises the answer into one `FlightState` record per
aircraft, collapses duplicates by their `icao24` transponder address, and the
map keeps only the flights inside the box. A small server proxy forwards
Aviation Edge requests with the server's API key, and a details panel turns
a selected flight's optional fields into display text.

This project models that core and proves what it promises. The modules are:

- `Types`: the records of `src/lib/types.ts`.
- `Filter`: the viewport filter, including its rule for boxes that wrap
  around the antimeridian.
- `Bounds` and `Viewport`: building a box from map bounds, including the
  longitude normaliser `wrapLng`.
- `Dedup`: the last-wins collapse by `icao24` that both clients perform.
  `new Map(...).values()` is modelled next to an independent description of
  its result, and the two are proved to agree.
- `OpenSky`: the OpenSky client. It is a class whose fields are the closure
  state `lastKey`, `lastFetchedAt` and `lastResult`. Its `GetStates` method
  covers the cache window, the 5-second soft rate limit, the split of a
  wrapping box into two requests, and the positional mapping of state
  vectors.
- `AviationEdge`: the Aviation Edge client. This covers its error guards, the
  centre-and-radius request, the nested null-coalescing mapping and the same
  dedup.
- `FlightProviders`: the provider facade that dispatches on the configured
  type.
- `Proxy`: the proxy route, modelled as a function from the query, the
  configured key and the upstream outcome to the status, the body and the
  forwarded address.
- `DetailsPanel` and `Airports`: the details-panel formatters and the
  airport lookup.
- Shared modules:
  - `Wrappers` holds `Option` and `Result`.
  - `JsText` models JavaScript's `trim`, `includes` and string truthiness.
  - `SearchParams` models the `set`/`get` behaviour of `URLSearchParams`.

JavaScript values are modelled as follows:

- `x ?? null` and optional properties become `Option`. `undefined` and
  `null` are the same value here.
- A thrown error becomes `Err(message)`.
- Coordinates are `real`.
- The clock (`Date.now()`) and `fetch` are parameters. The network is an
  oracle from the requested address to a response.
- Haversine distance is an uninterpreted function `dist`.
- The JavaScript `Number(text)` of the proxy is an uninterpreted
  `parse: string -> Option<real>`, where None stands for NaN.

## Where the code and its tests disagree

The model follows the code in each of these places.

- **Dateline-crossing views.** `src/lib/bbox.ts:5` rejects `west > east`, so
  `emitBbox` throws for a view whose wrapped west edge is east of its
  wrapped east edge, and nothing is emitted. The test at
  `src/components/ViewportObserver.test.tsx:52-71` expects a
  `wrapsDateline: true` box for such a view. See `Viewport.EmitExamples`
  and `Viewport.CrossingViewIsRejected`. The `wrapsDateline` branches of
  the filter and of the OpenSky client are modelled and proved all the
  same. No caller in the repository builds a wrapping box: `emitBbox` is the
  only producer of boxes, and it never emits one. In the app these branches
  are therefore unreachable.
- **Proxy mocks without headers.** `server/proxy.ts:71` reads
  `response.headers` before checking `ok`. The mocked responses in
  `server/proxy.test.ts:23-27` and `169-173` have no `headers`. Against
  this code they fall into the catch and get 502 "Failed to fetch flight
  data". See `Proxy.MockedAnswerWithoutHeaders`.
- **The range of `wrapLng`.** The comment at
  `src/components/ViewportObserver.tsx:25` says "-180 to 180". The formula
  gives the half-open range [-180, 180), so 180 maps to -180.
- **The distance message.** The proxy's distance message says "between 1
  and 500", but `isValidDistance` (`server/proxy.ts:22`) accepts any number
  in (0, 500]. For example, 0.5 passes.

## Model

| member | source | states |
|---|---|---|
| Filter.InBbox | src/lib/filter.ts:5-12 | The per-flight test of the filter, as a definition without a contract of its own. Missing coordinates exclude a flight, and the latitude range is closed. The longitude test is either-side when `wrapsDateline` is set or `minLon > maxLon`, and a closed range otherwise. `Filter.KeptIff` states each case as an iff. |
| Filter.FilterFlightsByBbox | src/lib/filter.ts:3-14 | The result is no longer than the input. Every kept flight is from the input and satisfies the box predicate. Every input flight that satisfies it is kept. |
| Filter.FilterAppend | src/lib/filter.ts:4-13 | Filtering distributes over concatenation. With the singleton case, this fixes the result as the in-order subsequence of matching flights. |
| Filter.FilterSingleton | src/lib/filter.ts:4-13 | A one-flight list keeps its flight exactly when that flight satisfies the predicate. |
| Filter.FilterKeepsAllInside | src/lib/filter.ts:4-13 | A list whose every flight is inside the box comes back unchanged. |
| Filter.FilterIdempotent | src/lib/filter.ts:4-13 | Filtering twice by the same box equals filtering once. |
| Filter.KeptIff | src/lib/filter.ts:5-12 | Case by case, when a flight is kept: <br>• a flight missing latitude or longitude never is; <br>• the latitude range is closed; <br>• a non-wrapping box keeps a flight iff both coordinates are in closed ranges; <br>• a wrapping box keeps it with `lon >= minLon` or `lon <= maxLon`; <br>• `wrapsDateline` with `minLon <= maxLon` filters by latitude only. |
| Filter.Examples | src/lib/filter.test.ts:21-39 | The unit tests' inside, outside, missing-latitude and on-edge flights, plus a flight inside and a flight outside a box wrapping from 170 to -170. |
| Bounds.BboxFromBounds | src/lib/bbox.ts:3-9 | Succeeds iff `south <= north` and `west <= east`. Otherwise the error is "Invalid bounds". On success the box has the four edges in place and no `wrapsDateline` or `viewCenterLng`. |
| Bounds.BuiltBoxesNeverWrap | src/lib/bbox.ts:5-8 | Every built box is ordered on both axes and is not treated as wrapping. The filter then keeps exactly the flights inside the closed intervals of the bounds. |
| Bounds.Examples | src/lib/bbox.test.ts:5-14 | The unit tests' conversion and inverted-latitude rejection, plus the rejection of inverted longitudes. |
| Viewport.Rem360 | src/components/ViewportObserver.tsx:26 | JavaScript's `% 360`: the remainder lies in (-360, 360), has the sign of the dividend, and differs from it by whole turns. |
| Viewport.WrapLng | src/components/ViewportObserver.tsx:26 | `wrapLng(x)` lies in [-180, 180) and `wrapLng(x) - x` is a whole number of turns. |
| Viewport.WrapLngIdentity | src/components/ViewportObserver.tsx:26 | On [-180, 180) the normaliser is the identity. |
| Viewport.WrapLngIdempotent | src/components/ViewportObserver.tsx:26 | Normalising twice equals normalising once. |
| Viewport.WrapLngExamples | src/components/ViewportObserver.test.tsx:18-67 | 20, 40 and 170 pass through unchanged; 190 becomes -170; 180 becomes -180. |
| Viewport.EmitBbox | src/components/ViewportObserver.tsx:20-45 | A box is emitted iff `sw.lat <= ne.lat` and the wrapped west edge is at most the wrapped east edge. It is the box of the wrapped corners with the raw centre longitude as `viewCenterLng`. Otherwise the result is the "Invalid bounds" error. |
| Viewport.CrossingViewIsRejected | src/components/ViewportObserver.tsx:34-39 | A view whose wrapped west edge is east of its wrapped east edge is always rejected. |
| Viewport.EmitExamples | src/components/ViewportObserver.test.tsx:17-71 | The mount test's view gives the expected box with `viewCenterLng` 30. The dateline test's view (170 to 190, centre 180) is rejected, not emitted as a wrapping box. |
| Dedup.Upsert | src/lib/opensky.ts:96 | One `map.set(f.icao24, f)` on the Map's entry list, as a definition. `Dedup.UpsertKeys` and `Dedup.UpsertAt` state its effect. |
| Dedup.ByIcao24 | src/lib/opensky.ts:96 | `new Map(fs.map(f => [f.icao24, f])).values()` as a fold of `map.set` over the list, as a definition. `Dedup.ByIcao24Matches` and `Dedup.DedupSpec` state its result against an independent description. |
| Dedup.UpsertKeys | src/lib/opensky.ts:96 | `map.set` keeps the key order when the key is present and appends the key when it is new. |
| Dedup.UpsertAt | src/lib/opensky.ts:96 | With distinct keys, `map.set` replaces the entry with the same key in place, or appends a new one. |
| Dedup.FirstKeysSpec | src/lib/opensky.ts:96 | The reference key list is no longer than the input and is duplicate-free. It holds exactly the input's keys, ordered by first occurrence. |
| Dedup.ByIcao24Matches | src/lib/opensky.ts:96 | The Map's keys are the distinct input keys in first-occurrence order, and each value is the last input flight with its key. |
| Dedup.DedupSpec | src/lib/aviationEdge.ts:140 | The deduplicated list is no longer than the input and has distinct keys: exactly the input's keys. Each entry is the last occurrence with its key, and entries are ordered by first occurrence. |
| Dedup.SameKeyCollapses | src/lib/opensky.ts:96 | Two records with the same key collapse to the later one. |
| Dedup.SameKeyPairCollapses | src/lib/opensky.ts:96 | Any two-element list with one key collapses to its second element. |
| JsText.Trim | src/lib/opensky.ts:41 | JavaScript's `trim`, defined as `trimEnd` after `trimStart`. The lemmas below state its properties. |
| JsText.TrimStartSpec | src/lib/opensky.ts:41 | `trimStart` keeps a suffix, drops only white space, and what it keeps does not start with white space. |
| JsText.TrimEndSpec | src/lib/opensky.ts:41 | `trimEnd` keeps a prefix, drops only white space, and what it keeps does not end with white space. |
| JsText.TrimSpec | src/lib/opensky.ts:41 | `trim` never lengthens the text. What it keeps neither starts nor ends with white space. |
| JsText.TrimIsSlice | src/lib/opensky.ts:41 | The trimmed text is a contiguous slice of the input with only white space on either side. |
| JsText.TrimEmptyIffAllSpace | src/components/FlightDetailsPanel.tsx:78 | `trim` gives the empty string iff the text is all white space. |
| JsText.TrimKeepsTidyText | src/lib/opensky.ts:41 | Text with no white space at either end is its own trim. |
| JsText.TrimIdempotent | src/lib/opensky.ts:41 | Trimming twice equals trimming once. |
| JsText.TrimDropsTrailingBlank | src/lib/opensky.ts:42 | A blank after a tidy text is removed, as for OpenSky's padded callsigns. |
| JsText.TrimTrailingBlankExample | src/lib/opensky.test.ts:13 | "TEST123 " trims to "TEST123". |
| JsText.MissingLetterExcludes | server/proxy.ts:80 | `includes` finds no word one of whose letters the text lacks. |
| SearchParams.Lookup | src/lib/aviationEdge.ts:89-96 | `URLSearchParams.get`: the value of the first pair with the name, as a definition. `SearchParams.LookupNone` and `SearchParams.SetGet` state its behaviour. |
| SearchParams.Set | src/lib/opensky.ts:26-30 | `URLSearchParams.set`: the first pair with the name takes the new value and later pairs with it are removed, else the pair is appended. `SearchParams.SetGet` and `SearchParams.SetAppends` state its effect. |
| SearchParams.SetGet | server/proxy.ts:61-68 | After `set(name, v)`, `get(name)` is `v`, every other name reads as before, and the base is unchanged. |
| SearchParams.SetAppends | src/lib/opensky.ts:26-30 | Setting a name not yet present appends it after the existing pairs. |
| SearchParams.LookupNone | src/lib/aviationEdge.ts:94-96 | `get` finds nothing iff no pair carries the name. |
| OpenSky.MapState | src/lib/opensky.ts:40-58 | The positional mapping of one state vector, as a definition. `OpenSky.MapStateSlots` states which slot feeds which field. |
| OpenSky.MapStateSlots | src/lib/opensky.ts:40-58 | Which slot feeds which property: <br>• `icao24` is slot 0's text trimmed, empty for null, never edged with white space; <br>• `callsign` is None iff slot 1 is falsy, else slot 1 trimmed; <br>• longitude, latitude, velocity, heading and altitude are None iff slots 5, 6, 9, 10 and 13 are null, else those numbers; <br>• all sixteen other fields are null: the record is the basic record of those seven values. |
| OpenSky.MapStates | src/lib/opensky.ts:38-40 | A null `states` gives an empty list. Otherwise there is one mapped record per state vector, in order. |
| OpenSky.TypicalStateMaps | src/lib/opensky.ts:40-58 | A vector with a tidy `icao24` and a tidy callsign padded by a blank maps to those texts and the five numbers of their slots. |
| OpenSky.SampleStateMaps | src/lib/opensky.test.ts:50-69 | The unit test's 17-slot state vector maps to the expected record. |
| OpenSky.OpenSkyClient.constructor | src/lib/opensky.ts:16-23 | The options default to the OpenSky address and a 10 000 ms cache. The state starts as no key, time 0 and an empty list. |
| OpenSky.OpenSkyClient.FetchStates | src/lib/opensky.ts:25-59 | The request carries `lamin`, `lomin`, `lamax`, `lomax` in that order, from the box's edges. A rejected fetch or `response.json()` fails with its own message. A non-ok response is "OpenSky request failed". Otherwise the result is the mapping of `states`. |
| OpenSky.OpenSkyClient.GetStates | src/lib/opensky.ts:61-103 | In each case, what is returned, what is requested and the new state: <br>• **cached:** the same box within the cache window, or any box within 5 s of the last fetch, returns the cached list with no request and no state change; <br>• **plain box:** one request for the box; <br>• **wrapping box:** the west half up to 180, then the east half from -180 unless the first failed, joined west first; <br>• **failure:** a rejected request passes on its own message, a non-ok one gives "OpenSky request failed", and either leaves the state unchanged; <br>• **success:** returns and remembers the deduplicated list with the box and `now`; <br>• the cached list always has distinct keys. |
| OpenSky.CacheWindowScenario | src/lib/opensky.test.ts:82-99 | Two calls for one box at one instant make one request and return the same list. A call 10 001 ms later makes a new request. |
| OpenSky.RateLimitScenario | src/lib/opensky.ts:72-75 | A different box asked for within 5 s of a fetch gets the previous list and no request. |
| AviationEdge.BboxToSearchParams | src/lib/aviationEdge.ts:68-78 | The request centre (the plain averages of the edges) and the rounded-up distance to the north-east corner, as a definition. `AviationEdge.RadiusCoversCorner`, `AviationEdge.OrderedBoxHoldsCentre` and `AviationEdge.InvertedBoxMissesCentre` state what it covers. |
| AviationEdge.RequestUrl | src/lib/aviationEdge.ts:88-96 | The request address, as a definition. `AviationEdge.RequestUrlReads` states what each parameter reads, and `AviationEdge.BuildRequest` is proved to build it. |
| AviationEdge.Ceil | src/lib/aviationEdge.ts:76 | `Math.ceil`: the least integer not below its argument. |
| AviationEdge.RadiusCoversCorner | src/lib/aviationEdge.ts:68-78 | The radius covers the distance from the centre to the north-east corner and exceeds it by less than 1 km. |
| AviationEdge.RadiusNotClamped | src/lib/aviationEdge.ts:76 | Nothing caps the radius: a corner 999.5 km away gives 1000. |
| AviationEdge.OrderedBoxHoldsCentre | src/lib/aviationEdge.ts:69-70 | For an ordered box, a flight at the request centre is inside the box. |
| AviationEdge.InvertedBoxMissesCentre | src/lib/aviationEdge.ts:69-70 | For a box with inverted longitudes, the averaged centre falls in the gap the box leaves out, so a flight there is filtered away. |
| AviationEdge.RequestUrlReads | src/lib/aviationEdge.ts:89-96 | The request reads `key` = the API key, `lat` and `lng` = the plain averages of the edges, and `distance` = the rounded-up corner distance. `limit` is present iff the limit is truthy, and then equals it. |
| AviationEdge.BuildRequest | src/lib/aviationEdge.ts:89-96 | The sequence of `set` calls yields the address with `key`, `lat`, `lng`, `distance`, then `limit` when set. |
| AviationEdge.MapFlight | src/lib/aviationEdge.ts:109-137 | The nested null-coalescing mapping of one flight, as a definition. `AviationEdge.PresentLevelsCopied`, `AviationEdge.GeographyCopied`, `AviationEdge.CallsignPrefersIcao` and `AviationEdge.Icao24Trimmed` state its result field by field for present levels, and `AviationEdge.MissingLevelsGiveNull` for missing ones. |
| AviationEdge.CallsignPrefersIcao | src/lib/aviationEdge.ts:115-117 | The callsign is the ICAO flight number whenever there is one, else the IATA number. It is null iff both are. |
| AviationEdge.Icao24Trimmed | src/lib/aviationEdge.ts:114 | `icao24` is the trimmed `aircraft.icao24`, or empty when either level is missing. It never starts or ends with white space. |
| AviationEdge.MissingLevelsGiveNull | src/lib/aviationEdge.ts:109-137 | A missing level makes each field drawn from it null, and the record is still produced: <br>• a missing `aircraft` gives an empty `icao24` and null aircraft codes and registration; <br>• a missing `airline` gives null airline codes; <br>• a missing `flight` gives a null callsign and null flight numbers; <br>• a missing `geography`, `speed`, `system`, `departure`, `arrival` or `status` nulls the fields drawn from it. |
| AviationEdge.PresentLevelsCopied | src/lib/aviationEdge.ts:116-136 | Where `aircraft`, `airline`, `flight`, `speed`, `system`, `departure` or `arrival` is present, each field drawn from it is that level's value, unchanged. `status` is always copied. |
| AviationEdge.GeographyCopied | src/lib/aviationEdge.ts:110-131 | A present `geography`'s leaves are copied unchanged into latitude, longitude, altitude and heading. |
| AviationEdge.MapFlights | src/lib/aviationEdge.ts:109 | One record per flight, in order, none dropped. |
| AviationEdge.GetStates | src/lib/aviationEdge.ts:83-141 | The outcomes of one call: <br>• a missing or empty key rejects with "Aviation Edge API key missing" and sends nothing; <br>• otherwise exactly the request above is sent; <br>• a rejected fetch or `response.json()` fails with its own message; <br>• a non-ok response is "Aviation Edge request failed"; <br>• a non-array body rejects with its string `error`, else "Aviation Edge request failed"; <br>• an array gives the deduplicated mapped flights, with distinct keys. |
| AviationEdge.DuplicateCollapses | src/lib/aviationEdge.ts:140 | Two flights of one aircraft collapse to the later record. |
| AviationEdge.DuplicateAnswerScenario | src/lib/aviationEdge.ts:140 | An ok answer that lists the same aircraft twice yields it once. |
| FlightProviders.CreateFlightProvider | src/lib/flightProviders.ts:13-39 | The outcome for each configured type: <br>• **OpenSky:** a fresh client on the configured address with the default cache and empty state; <br>• **Aviation Edge:** a client on the configured address and `params.limit` with no key; <br>• **any other type:** "Unsupported provider type: <type>"; <br>• `id`, `name` and `attribution` are always copied. |
| FlightProviders.AviationEdgeProviderRejects | src/lib/flightProviders.ts:24-28 | An Aviation Edge provider's `getStates` always rejects with "Aviation Edge API key missing" and sends no request. |
| FlightProviders.ProvidersDoNotShareClients | src/lib/flightProviders.ts:15 | Two OpenSky providers get distinct client objects, so they share no cache state. |
| Proxy.IsValidLat | server/proxy.ts:10-13 | `Number(val)` is a number in [-90, 90], as a definition. `Proxy.RangeBounds` and `Proxy.GuardOrder` state its bounds and its place among the guards. |
| Proxy.IsValidLng | server/proxy.ts:15-18 | `Number(val)` is a number in [-180, 180], as a definition. `Proxy.RangeBounds` and `Proxy.GuardOrder` state its bounds and its place among the guards. |
| Proxy.IsValidDistance | server/proxy.ts:20-23 | `Number(val)` is a number in (0, 500], as a definition. `Proxy.RangeBounds` and `Proxy.GuardOrder` state its bounds and its place among the guards. |
| Proxy.QueryIsValid | server/proxy.ts:33-52 | All of `lat`, `lng` and `distance` are present, non-empty and in range, as a definition. `Proxy.GuardOrder` states how it splits into the four 400 replies. |
| Proxy.UpstreamUrl | server/proxy.ts:61-68 | The upstream address, as a definition. `Proxy.UpstreamUrlReads` states what each parameter reads. |
| Proxy.Relay | server/proxy.ts:70-92 | The reply for one upstream outcome. Every error it gives is 'Aviation Edge API error', 'Invalid response from Aviation Edge' or 'Failed to fetch flight data'. A relayed body comes with 200, from an ok answer, and is the answer's parsed JSON. |
| Proxy.Handle | server/proxy.ts:29-93 | The whole route: <br>• the request is forwarded iff the query is valid and the key is truthy, and then to the upstream address of the key and the query, with the reply that `Proxy.Relay` gives; <br>• an invalid query gets 400 and an error body; <br>• a valid query without a key gets exactly 500 'Server configuration error' and no forwarding; <br>• every error body is one of the route's fixed messages. |
| Proxy.MissingComesFirst | server/proxy.ts:33-36 | A missing or empty `lat`, `lng` or `distance` gives 400 and the missing-parameters message, whatever the key, with nothing forwarded. |
| Proxy.GuardOrder | server/proxy.ts:33-58 | Each range message is given iff the checks before it pass and it fails. Any invalid query is 400 and is not forwarded. The configuration error is given iff the query is valid and the key is missing. |
| Proxy.RangeBounds | server/proxy.ts:10-23 | Non-numbers fail every check. ±90 are valid latitudes; 90.5 is not. -180 is a valid longitude; 180.5 is not. The distance excludes 0 and includes 0.5 and 500; 501 is rejected. |
| Proxy.NoKeyNoForward | server/proxy.ts:55-58 | A valid query with no key, or an empty key, gets 500 "Server configuration error" and nothing is forwarded. |
| Proxy.UpstreamUrlReads | server/proxy.ts:61-68 | The upstream address carries the server's key and `lat`, `lng`, `distance` verbatim. It carries `limit` iff one was given, and then verbatim. |
| Proxy.ValidRequestForwarded | server/proxy.ts:60-70 | A request passing every guard is forwarded to that address, whatever the upstream does. |
| Proxy.RelayMessages | server/proxy.ts:70-92 | How the upstream outcome maps to the reply: <br>• the body is relayed with 200 iff the answer is ok, has headers, has a JSON content type and parses; <br>• a throw, missing headers, or a JSON-typed ok answer whose body does not parse gives 502 "Failed to fetch flight data"; <br>• not ok gives the upstream status and "Aviation Edge API error"; <br>• a non-JSON type gives 502 "Invalid response from Aviation Edge"; <br>• every error is one of those three. |
| Proxy.MockedAnswerWithoutHeaders | server/proxy.ts:71 | A response without `headers`, ok or not, ends in 502 "Failed to fetch flight data". |
| Proxy.ErrorBodiesAreFixed | server/proxy.ts:29-93 | Every error body of the route is one of its eight fixed messages. |
| Proxy.ReplyIgnoresSecrets | server/proxy.ts:88-92 | Neither the status nor the body depends on which non-empty key is configured, on the reason of a throw, or on the reason a body fails to parse. |
| Proxy.ConfigErrorHidesKey | server/proxy.test.ts:155-166 | The serialised configuration error contains neither "key" nor "api". |
| Proxy.ThrownKeyNotEchoed | server/proxy.test.ts:196-207 | A throw whose message quotes the key gives a reply containing neither the key nor "test-api-key". |
| DetailsPanel.FormatText | src/components/FlightDetailsPanel.tsx:77-79 | `formatText`, as a definition. `DetailsPanel.FormatTextCases` states its cases. |
| DetailsPanel.FormatAirline | src/components/FlightDetailsPanel.tsx:81-83 | `airlineIata \|\| airlineIcao \|\| null`, as a definition. `DetailsPanel.FallbackChains` states the chain. |
| DetailsPanel.FormatAircraft | src/components/FlightDetailsPanel.tsx:85-87 | `aircraftReg \|\| aircraftIcao \|\| aircraftIata \|\| null`, as a definition. `DetailsPanel.FallbackChains` states the chain. |
| DetailsPanel.FormatTextCases | src/components/FlightDetailsPanel.tsx:77-79 | A null or all-white-space value gives "N/A". Any other value is returned unchanged, untrimmed. |
| DetailsPanel.FirstTruthy | src/components/FlightDetailsPanel.tsx:81-87 | The chain `a`, or else `b`, …, or else null: None iff no element is truthy. Otherwise it is the first truthy element. |
| DetailsPanel.FallbackChains | src/components/FlightDetailsPanel.tsx:81-87 | Airline is IATA code, else ICAO code, else null. Aircraft is registration, else ICAO type, else IATA type, else null. Empty strings are skipped. |
| DetailsPanel.RouteEnd | src/components/FlightDetailsPanel.tsx:90-99 | One `??` chain of the route, as a definition. `DetailsPanel.RouteEndChoice` states which code it picks. |
| DetailsPanel.RouteEndChoice | src/components/FlightDetailsPanel.tsx:90-99 | Each route end is the details' airport code when present, else the IATA code, else the ICAO code. The chain stops at an empty string. |
| DetailsPanel.FormatRoute | src/components/FlightDetailsPanel.tsx:89-102 | `formatRoute`, as a definition. `DetailsPanel.RouteText` states the text in each case. |
| DetailsPanel.RouteText | src/components/FlightDetailsPanel.tsx:100-101 | The route text in each case: <br>• neither end truthy: "??? → ???"; <br>• both ends known: both are shown; <br>• a null origin or a null destination: shown as "???" beside the other end; <br>• an empty end beside a truthy one: shown as empty. |
| DetailsPanel.Title | src/components/FlightDetailsPanel.tsx:40 | The title is the callsign when present, else the `icao24`. |
| DetailsPanel.RenderPanel | src/components/FlightDetailsPanel.tsx:22-51 | What the panel shows: <br>• loading gives the loading view; <br>• otherwise an error gives the error view; <br>• otherwise the content view: the title, then the status, squawk, airline and aircraft, each through formatText, then the route text. |
| DetailsPanel.ViewPrecedence | src/components/FlightDetailsPanel.tsx:22-36 | Loading wins over an error, and an error wins over the details, whatever the details are. |
| DetailsPanel.SamplePanel | src/components/FlightDetailsPanel.test.tsx:34-50 | The unit test's flight and details give the title "TEST123" and the route "KSFO → KDEN". |
| Airports.GetAirportCoords | src/lib/airports.ts:7-9 | Gives an entry iff the code is in the table, and that entry is the table's. |
| Airports.LookupAirport | src/lib/airports.ts:11-24 | A non-empty known IATA code wins. Otherwise a non-empty known ICAO code is used. Otherwise the result is null. |
| Airports.LookupFromTable | src/lib/airports.ts:11-24 | A found entry is one of the table's values, stored under the given IATA or ICAO code. |
| Airports.UnknownIataFallsBack | src/lib/airports.ts:15-22 | An unknown IATA code falls through to a known ICAO code. |

## Left out

- Haversine distance and `toRadians` (`src/lib/aviationEdge.ts:53-66`) are floating-point trigonometry. The distance is the parameter `dist`.
- `formatValue` (`src/components/FlightDetailsPanel.tsx:72-75`) rounds floats. The content view lists only the text lines.
- NaN, infinities and floating-point rounding are not modelled: numbers are exact reals. Proxy.Handle leaves `Number()` to the parameter `parse`, with None standing for NaN.
- Network I/O (`fetch`, `response.json()`, `headers.get`) and `Date.now()` are not modelled.
  - Each fetch is an oracle from the address to an outcome, and the time is a parameter.
  - A rejection of `fetch` or of `response.json()` is one such outcome, carrying its message. The clients pass it on unchanged.
  - JSON bodies are reduced to what the code distinguishes: for OpenSky, the `states` member; for Aviation Edge, array versus other with a string `error`; for the proxy, parsed or not.
- Promise interleaving is not modelled. Two overlapping `getStates` calls of one OpenSky client are out of scope; calls run one after another.
- OpenSky.OpenSkyClient.GetStates: compares boxes by structural equality of the record, where the code compares `JSON.stringify` texts. These agree except when two boxes hold the same values with their properties in a different order.
- OpenSky.MapState: `String()` of a number and `Number()` of a string are left abstract in `JsConversions`. `toString` of the query numbers is left to the `Number` value of `SearchParams`.
- AviationEdge.RequestUrlReads, Proxy.UpstreamUrlReads and OpenSky.OpenSkyClient.FetchStates: the base address, including the configurable OpenSky `baseUrl`, is taken as having no query of its own. `new URL(base)` with an existing query is not parsed.
- The proxy's query values are modelled as single strings. Repeated query parameters, which Express turns into arrays, are not modelled.
- The bundled `airports.json` data is not modelled: the table is a parameter. Prototype-key lookups on a plain object are also not modelled.
- React components and hooks are not modelled: `MapView.tsx`, `App.tsx`, `useFlights.ts`, `useFlightDetails.ts`, the effect wiring of `ViewportObserver.tsx` and the JSX of the details panel. These concern rendering and the interleaving of effects.
- `runtimeConfig.ts`, `server/index.ts`, the scripts under `scripts/`, `mockFlightDetailsProvider.ts` and `marker.ts` are not part of this model. They are fetch, Express, CLI and Leaflet plumbing, or fixtures.
- `console.error` logging is not modelled.
