/** The OpenSky client (src/lib/opensky.ts): a bulk state-vector feed queried
    by rectangle, behind a one-entry cache and a soft rate limit. */
module OpenSky {
  import opened Wrappers
  import opened Types
  import opened JsText
  import opened SearchParams
  import Dedup

  const DefaultBaseUrl := "https://opensky-network.org/api/states/all"
  const DefaultCacheMs := 10000
  /** The relaxed refetch interval: no two network fetches closer than this. */
  const RefetchIntervalMs := 5000
  const RequestFailed := "OpenSky request failed"

  /** One slot of a state vector: the JSON values `string | number | boolean | null`.
      A slot past the end of the tuple reads as `undefined`, which every use
      below treats like `null`. */
  datatype Slot = SNull | SText(s: string) | SNumber(n: real) | SBool(b: bool)

  type StateTuple = seq<Slot>

  /** `String(n)` of a number and `Number(s)` of a string, which the model
      leaves abstract. */
  datatype JsConversions = JsConversions(numberToString: real -> string, stringToNumber: string -> real)

  /** What one fetch gives: a rejection of `fetch` or of `response.json()`
      with its own error message, a non-ok response, or the `states` member of
      the JSON body (None for `null`). */
  datatype Response = Rejected(reason: string) | NotOk | OkJson(states: Option<seq<StateTuple>>)

  function SlotAt(t: StateTuple, i: nat): Slot {
    if i < |t| then t[i] else SNull
  }

  /** `String(v)`. */
  function ToText(c: JsConversions, v: Slot): string {
    match v
    case SNull => "null"
    case SText(s) => s
    case SNumber(n) => c.numberToString(n)
    case SBool(b) => if b then "true" else "false"
  }

  /** `Number(v)`. */
  function ToNumber(c: JsConversions, v: Slot): real {
    match v
    case SNull => 0.0
    case SText(s) => c.stringToNumber(s)
    case SNumber(n) => n
    case SBool(b) => if b then 1.0 else 0.0
  }

  predicate Truthy(v: Slot) {
    match v
    case SNull => false
    case SText(s) => s != ""
    case SNumber(n) => n != 0.0
    case SBool(b) => b
  }

  /** `state[i] == null ? null : Number(state[i])`. */
  function NumberOrNull(c: JsConversions, v: Slot): Option<real> {
    if v == SNull then None else Some(ToNumber(c, v))
  }

  /** The positional mapping of one state vector. */
  function MapState(c: JsConversions, t: StateTuple): FlightState {
    var first := SlotAt(t, 0);
    var second := SlotAt(t, 1);
    BasicFlight(
      Trim(if first == SNull then "" else ToText(c, first)),
      if Truthy(second) then Some(Trim(ToText(c, second))) else None,
      NumberOrNull(c, SlotAt(t, 6)),
      NumberOrNull(c, SlotAt(t, 5)),
      NumberOrNull(c, SlotAt(t, 13)),
      NumberOrNull(c, SlotAt(t, 9)),
      NumberOrNull(c, SlotAt(t, 10)))
  }

  /** Which slot feeds which property. */
  lemma MapStateSlots(c: JsConversions, t: StateTuple)
    ensures var f := MapState(c, t);
      && (SlotAt(t, 0) == SNull ==> f.icao24 == "")
      && (forall s :: SlotAt(t, 0) == SText(s) ==> f.icao24 == Trim(s))
      && (f.icao24 == [] || (!IsJsSpace(f.icao24[0]) && !IsJsSpace(f.icao24[|f.icao24| - 1])))
      && (f.callsign.None? <==> !Truthy(SlotAt(t, 1)))
      && (forall s :: SlotAt(t, 1) == SText(s) && s != "" ==> f.callsign == Some(Trim(s)))
      && (f.longitude.None? <==> SlotAt(t, 5) == SNull)
      && (f.latitude.None? <==> SlotAt(t, 6) == SNull)
      && (f.velocity.None? <==> SlotAt(t, 9) == SNull)
      && (f.heading.None? <==> SlotAt(t, 10) == SNull)
      && (f.altitude.None? <==> SlotAt(t, 13) == SNull)
      && (forall n :: SlotAt(t, 5) == SNumber(n) ==> f.longitude == Some(n))
      && (forall n :: SlotAt(t, 6) == SNumber(n) ==> f.latitude == Some(n))
      && (forall n :: SlotAt(t, 9) == SNumber(n) ==> f.velocity == Some(n))
      && (forall n :: SlotAt(t, 10) == SNumber(n) ==> f.heading == Some(n))
      && (forall n :: SlotAt(t, 13) == SNumber(n) ==> f.altitude == Some(n))
      && f == BasicFlight(f.icao24, f.callsign, f.latitude, f.longitude, f.altitude, f.velocity, f.heading)
  {
    var first := SlotAt(t, 0);
    TrimSpec(if first == SNull then "" else ToText(c, first));
  }

  /** `(data.states ?? []).map(...)`: one flight per state vector, in order. */
  function MapStates(c: JsConversions, states: Option<seq<StateTuple>>): (r: seq<FlightState>)
    ensures states.None? ==> r == []
    ensures states.Some? ==>
      |r| == |states.value| && forall i :: 0 <= i < |r| ==> r[i] == MapState(c, states.value[i])
  {
    match states
    case None => []
    case Some(ss) => seq(|ss|, i requires 0 <= i < |ss| => MapState(c, ss[i]))
  }

  /** A state vector with a tidy identifier and a tidy callsign followed by a
      blank, as OpenSky pads callsigns, maps to those two texts and the five
      numbers in their slots. */
  lemma TypicalStateMaps(c: JsConversions, t: StateTuple, id: string, cs: string,
                         lon: real, lat: real, vel: real, hdg: real, alt: real)
    requires id == [] || (!IsJsSpace(id[0]) && !IsJsSpace(id[|id| - 1]))
    requires cs != [] && !IsJsSpace(cs[0]) && !IsJsSpace(cs[|cs| - 1])
    requires |t| == 17 && t[0] == SText(id) && t[1] == SText(cs + " ")
    requires t[5] == SNumber(lon) && t[6] == SNumber(lat) && t[9] == SNumber(vel)
    requires t[10] == SNumber(hdg) && t[13] == SNumber(alt)
    ensures MapState(c, t) == BasicFlight(id, Some(cs), Some(lat), Some(lon), Some(alt), Some(vel), Some(hdg))
  {
    TrimKeepsTidyText(id);
    TrimDropsTrailingBlank(cs);
    var f := MapState(c, t);
    assert f.icao24 == id && f.callsign == Some(cs);
    assert f.latitude == Some(lat) && f.longitude == Some(lon);
    assert f.altitude == Some(alt) && f.velocity == Some(vel) && f.heading == Some(hdg);
  }

  /** The 17-slot state vector of the unit test maps to the expected record;
      only the slots that feed a property are pinned down, the rest may hold
      anything (the test has a country, timestamps and a squawk there). */
  lemma SampleStateMaps(c: JsConversions, t: StateTuple)
    requires |t| == 17 && t[0] == SText("abc123") && t[1] == SText("TEST123 ")
    requires t[5] == SNumber(12.34) && t[6] == SNumber(56.78) && t[9] == SNumber(200.0)
    requires t[10] == SNumber(90.0) && t[13] == SNumber(1200.0)
    ensures MapState(c, t)
         == BasicFlight("abc123", Some("TEST123"), Some(56.78), Some(12.34), Some(1200.0), Some(200.0), Some(90.0))
  {
    assert "TEST123" + " " == "TEST123 ";
    TypicalStateMaps(c, t, "abc123", "TEST123", 12.34, 56.78, 200.0, 90.0, 1200.0);
  }

  /** The request for one rectangle: the base address with `lamin`, `lomin`,
      `lamax`, `lomax` set, in that order, to the box's edges. */
  predicate QueriesBox(u: Url, base: string, b: Bbox) {
    && u.base == base
    && u.params == [(Lamin, Number(b.minLat)), (Lomin, Number(b.minLon)),
                    (Lamax, Number(b.maxLat)), (Lomax, Number(b.maxLon))]
  }

  /** The two halves a wrapping box is split into: up to the antimeridian, and
      from it. */
  function WestHalf(b: Bbox): Bbox { Bbox(b.minLat, b.minLon, b.maxLat, 180.0, None, None) }
  function EastHalf(b: Bbox): Bbox { Bbox(b.minLat, -180.0, b.maxLat, b.maxLon, None, None) }

  /** The object `createOpenSkyClient` returns, with its closure state as fields. */
  class OpenSkyClient {
    const baseUrl: string
    const cacheMs: int
    const conv: JsConversions
    /** The last box fetched over the network (compared as `JSON.stringify` would). */
    var lastKey: Option<Bbox>
    var lastFetchedAt: int
    var lastResult: seq<FlightState>

    /** The cached list never holds two flights with the same `icao24`. */
    ghost predicate Valid()
      reads this
    {
      Dedup.Distinct(Dedup.Keys(lastResult))
    }

    ghost predicate Remembers(b: Bbox, at: int, result: seq<FlightState>)
      reads this
    {
      lastKey == Some(b) && lastFetchedAt == at && lastResult == result
    }

    constructor (baseUrlOption: Option<string>, cacheMsOption: Option<int>, conv: JsConversions)
      ensures Valid()
      ensures baseUrl == baseUrlOption.GetOr(DefaultBaseUrl)
      ensures cacheMs == cacheMsOption.GetOr(DefaultCacheMs)
      ensures this.conv == conv
      ensures lastKey == None && lastFetchedAt == 0 && lastResult == []
    {
      baseUrl := baseUrlOption.GetOr(DefaultBaseUrl);
      cacheMs := cacheMsOption.GetOr(DefaultCacheMs);
      this.conv := conv;
      lastKey := None;
      lastFetchedAt := 0;
      lastResult := [];
    }

    /** `fetchStates`: one request for the rectangle, rejected unless ok. */
    method FetchStates(bounds: Bbox, fetch: Url -> Response) returns (r: Result<seq<FlightState>>, url: Url)
      ensures QueriesBox(url, baseUrl, bounds)
      ensures fetch(url).Rejected? ==> r == Err(fetch(url).reason)
      ensures fetch(url).NotOk? ==> r == Err(RequestFailed)
      ensures fetch(url).OkJson? ==> r == Ok(MapStates(conv, fetch(url).states))
    {
      url := Url(baseUrl, []);
      SetAppends(url, Lamin, Number(bounds.minLat));
      url := Set(url, Lamin, Number(bounds.minLat));
      SetAppends(url, Lomin, Number(bounds.minLon));
      url := Set(url, Lomin, Number(bounds.minLon));
      SetAppends(url, Lamax, Number(bounds.maxLat));
      url := Set(url, Lamax, Number(bounds.maxLat));
      SetAppends(url, Lomax, Number(bounds.maxLon));
      url := Set(url, Lomax, Number(bounds.maxLon));
      var response := fetch(url);
      match response
      case Rejected(reason) => r := Err(reason);
      case NotOk => r := Err(RequestFailed);
      case OkJson(states) => r := Ok(MapStates(conv, states));
    }

    /** `getStates` at time `now`; `sent` lists the requests issued, in order. */
    method GetStates(bbox: Bbox, now: int, fetch: Url -> Response)
      returns (r: Result<seq<FlightState>>, sent: seq<Url>)
      requires Valid()
      modifies this
      ensures Valid()
      ensures r.Ok? ==> Dedup.Distinct(Dedup.Keys(r.value))
      // Served from memory: the same box within the cache window, or any box
      // within the refetch interval of the last network fetch.
      ensures (old(lastKey) == Some(bbox) && now - old(lastFetchedAt) < cacheMs)
              || now - old(lastFetchedAt) < RefetchIntervalMs
        ==> r == Ok(old(lastResult)) && sent == [] && unchanged(this)
      // A network round for a box that does not wrap: one request.
      ensures !(old(lastKey) == Some(bbox) && now - old(lastFetchedAt) < cacheMs)
              && now - old(lastFetchedAt) >= RefetchIntervalMs && !TreatedAsWrapping(bbox)
        ==> && |sent| == 1 && QueriesBox(sent[0], baseUrl, bbox)
            && (fetch(sent[0]).Rejected? ==> r == Err(fetch(sent[0]).reason) && unchanged(this))
            && (fetch(sent[0]).NotOk? ==> r == Err(RequestFailed) && unchanged(this))
            && (fetch(sent[0]).OkJson? ==>
                  && r == Ok(Dedup.ByIcao24(MapStates(conv, fetch(sent[0]).states)))
                  && Remembers(bbox, now, r.value))
      // A network round for a wrapping box: west half, then east half unless
      // the west request failed; the two lists are joined west first.
      ensures !(old(lastKey) == Some(bbox) && now - old(lastFetchedAt) < cacheMs)
              && now - old(lastFetchedAt) >= RefetchIntervalMs && TreatedAsWrapping(bbox)
        ==> && 1 <= |sent| <= 2 && QueriesBox(sent[0], baseUrl, WestHalf(bbox))
            && (!fetch(sent[0]).OkJson? ==> |sent| == 1 && unchanged(this))
            && (fetch(sent[0]).Rejected? ==> r == Err(fetch(sent[0]).reason))
            && (fetch(sent[0]).NotOk? ==> r == Err(RequestFailed))
            && (fetch(sent[0]).OkJson? ==>
                  && |sent| == 2 && QueriesBox(sent[1], baseUrl, EastHalf(bbox))
                  && (fetch(sent[1]).Rejected? ==> r == Err(fetch(sent[1]).reason) && unchanged(this))
                  && (fetch(sent[1]).NotOk? ==> r == Err(RequestFailed) && unchanged(this))
                  && (fetch(sent[1]).OkJson? ==>
                        && r == Ok(Dedup.ByIcao24(MapStates(conv, fetch(sent[0]).states)
                                                  + MapStates(conv, fetch(sent[1]).states)))
                        && Remembers(bbox, now, r.value)))
    {
      if lastKey == Some(bbox) && now - lastFetchedAt < cacheMs {
        return Ok(lastResult), [];
      }
      if now - lastFetchedAt < RefetchIntervalMs {
        return Ok(lastResult), [];
      }
      var mapped: seq<FlightState>;
      if TreatedAsWrapping(bbox) {
        var left, westUrl := FetchStates(WestHalf(bbox), fetch);
        if left.Err? {
          return Err(left.error), [westUrl];
        }
        var right, eastUrl := FetchStates(EastHalf(bbox), fetch);
        sent := [westUrl, eastUrl];
        if right.Err? {
          return Err(right.error), sent;
        }
        mapped := left.value + right.value;
      } else {
        var all, url := FetchStates(bbox, fetch);
        sent := [url];
        if all.Err? {
          return Err(all.error), sent;
        }
        mapped := all.value;
      }
      var unique := Dedup.ByIcao24(mapped);
      Dedup.DedupSpec(mapped);
      lastKey := Some(bbox);
      lastFetchedAt := now;
      lastResult := unique;
      r := Ok(unique);
    }
  }

  /** The cache test: two calls for one box at the same instant make one request
      and return the same list; a call after the window has passed makes a
      second request. */
  method CacheWindowScenario(bbox: Bbox, t: int, fetch: Url -> Response, conv: JsConversions)
    returns (firstCalls: nat, secondCalls: nat, laterCalls: nat, sameResult: bool)
    requires !TreatedAsWrapping(bbox)
    requires t >= RefetchIntervalMs
    requires forall u :: fetch(u).OkJson?
    ensures firstCalls == 1 && secondCalls == 0 && laterCalls == 1 && sameResult
  {
    var client := new OpenSkyClient(None, Some(10000), conv);
    var r1, s1 := client.GetStates(bbox, t, fetch);
    var r2, s2 := client.GetStates(bbox, t, fetch);
    var r3, s3 := client.GetStates(bbox, t + 10001, fetch);
    firstCalls, secondCalls, laterCalls := |s1|, |s2|, |s3|;
    sameResult := r1 == r2;
  }

  /** The soft rate limit: a different box asked for less than five seconds
      after a network fetch gets the previous list and no request. */
  method RateLimitScenario(a: Bbox, b: Bbox, t: int, wait: int, fetch: Url -> Response, conv: JsConversions)
    returns (secondCalls: nat, sameResult: bool)
    requires t >= RefetchIntervalMs && 0 <= wait < RefetchIntervalMs
    requires forall u :: fetch(u).OkJson?
    ensures secondCalls == 0 && sameResult
  {
    var client := new OpenSkyClient(None, None, conv);
    var r1, s1 := client.GetStates(a, t, fetch);
    var r2, s2 := client.GetStates(b, t + wait, fetch);
    secondCalls := |s2|;
    sameResult := r1 == r2;
  }
}
