/** The Aviation Edge client (src/lib/aviationEdge.ts): one request for the
    circle around a box's centre, early rejections for a missing key, a failed
    request and an error body, then a record-by-record mapping of the nested
    JSON and the same last-wins collapse by `icao24` as the OpenSky client. */
module AviationEdge {
  import opened Wrappers
  import opened Types
  import opened JsText
  import opened SearchParams
  import Dedup
  import Filter

  const KeyMissing := "Aviation Edge API key missing"
  const RequestFailed := "Aviation Edge request failed"

  // ---- The nested record of one flight; every level and every leaf may be
  // absent or null ----

  datatype AeAircraft = AeAircraft(
    icao24: Option<string>, iataCode: Option<string>, icaoCode: Option<string>, regNumber: Option<string>)
  datatype AeAirline = AeAirline(iataCode: Option<string>, icaoCode: Option<string>, name: Option<string>)
  /** The shape of both `departure` and `arrival`. */
  datatype AeEndpoint = AeEndpoint(iataCode: Option<string>, icaoCode: Option<string>)
  datatype AeFlightNumber = AeFlightNumber(
    icaoNumber: Option<string>, iataNumber: Option<string>, number: Option<string>)
  datatype AeGeography = AeGeography(
    latitude: Option<real>, longitude: Option<real>, altitude: Option<real>, direction: Option<real>)
  datatype AeSpeed = AeSpeed(horizontal: Option<real>, vspeed: Option<real>, isGround: Option<real>)
  datatype AeSystem = AeSystem(squawk: Option<string>, updated: Option<real>)

  datatype AeFlight = AeFlight(
    aircraft: Option<AeAircraft>, airline: Option<AeAirline>,
    departure: Option<AeEndpoint>, arrival: Option<AeEndpoint>,
    flight: Option<AeFlightNumber>, geography: Option<AeGeography>,
    speed: Option<AeSpeed>, system: Option<AeSystem>, status: Option<string>)

  /** The parsed body of an ok response: an array of flights, or any other JSON
      value, with its `error` member when that is a string. */
  datatype Body = FlightArray(flights: seq<AeFlight>) | NotAnArray(errorText: Option<string>)

  /** What the request gives: a rejection of `fetch` or of `response.json()`
      with its own error message, a non-ok response, or the parsed body. */
  datatype Response = Rejected(reason: string) | NotOk | Received(body: Body)

  /** The options object the client closes over. */
  datatype AviationEdgeClient = AviationEdgeClient(baseUrl: string, apiKey: Option<string>, limit: Option<real>)

  /** `if (options.limit)`: a number is truthy unless it is zero (NaN is not
      modelled). */
  predicate LimitIsSet(limit: Option<real>) {
    limit.Some? && limit.value != 0.0
  }

  // ---- bboxToSearchParams ----

  /** `Math.ceil`. */
  function Ceil(x: real): (r: int)
    ensures x <= r as real < x + 1.0
  {
    -((-x).Floor)
  }

  datatype SearchCentre = SearchCentre(lat: real, lon: real, distanceKm: int)

  /** The centre is the plain average of the edges and the radius the rounded-up
      distance from it to the north-east corner; `dist` stands for the haversine
      `distanceKm`. */
  function BboxToSearchParams(b: Bbox, dist: (real, real, real, real) -> real): SearchCentre {
    var lat := (b.minLat + b.maxLat) / 2.0;
    var lon := (b.minLon + b.maxLon) / 2.0;
    SearchCentre(lat, lon, Ceil(dist(lat, lon, b.maxLat, b.maxLon)))
  }

  /** The radius covers the corner distance and exceeds it by less than one
      kilometre; nothing caps it. */
  lemma RadiusCoversCorner(b: Bbox, dist: (real, real, real, real) -> real)
    ensures var c := BboxToSearchParams(b, dist);
      var d := dist(c.lat, c.lon, b.maxLat, b.maxLon);
      d <= c.distanceKm as real < d + 1.0
  {
  }

  /** The radius is not clamped: a corner 999.5 km away asks for 1000 km. */
  lemma RadiusNotClamped(b: Bbox)
    ensures BboxToSearchParams(b, (a: real, o: real, x: real, y: real) => 999.5).distanceKm == 1000
  {
  }

  /** For an ordered box the centre lies inside it, so the filter keeps a
      flight sitting there. */
  lemma OrderedBoxHoldsCentre(b: Bbox, dist: (real, real, real, real) -> real, f: FlightState)
    requires b.minLat <= b.maxLat && b.minLon <= b.maxLon
    requires var c := BboxToSearchParams(b, dist);
      f.latitude == Some(c.lat) && f.longitude == Some(c.lon)
    ensures Filter.InBbox(f, b)
  {
  }

  /** The average takes no account of the antimeridian: for a box with inverted
      longitudes the centre falls in the gap the box leaves out, so a flight
      sitting at the centre of the request is outside the box. */
  lemma InvertedBoxMissesCentre(b: Bbox, dist: (real, real, real, real) -> real, f: FlightState)
    requires b.minLon > b.maxLon
    requires var c := BboxToSearchParams(b, dist);
      f.latitude == Some(c.lat) && f.longitude == Some(c.lon)
    ensures var c := BboxToSearchParams(b, dist);
      b.maxLon < c.lon < b.minLon && !Filter.InBbox(f, b)
  {
  }

  /** The address `getStates` requests: `key`, `lat`, `lng`, `distance` in that
      order, and `limit` last when it is set. */
  function RequestUrl(client: AviationEdgeClient, key: string, b: Bbox, dist: (real, real, real, real) -> real): Url {
    var c := BboxToSearchParams(b, dist);
    Url(client.baseUrl,
      [(Key, Text(key)), (Lat, Number(c.lat)), (Lng, Number(c.lon)), (Distance, Number(c.distanceKm as real))]
      + (if LimitIsSet(client.limit) then [(Limit, Number(client.limit.value))] else []))
  }

  /** What the upstream service reads from that address. */
  lemma RequestUrlReads(client: AviationEdgeClient, key: string, b: Bbox, dist: (real, real, real, real) -> real)
    ensures var u := RequestUrl(client, key, b, dist);
      && u.base == client.baseUrl
      && Get(u, Key) == Some(Text(key))
      && Get(u, Lat) == Some(Number((b.minLat + b.maxLat) / 2.0))
      && Get(u, Lng) == Some(Number((b.minLon + b.maxLon) / 2.0))
      && Get(u, Distance) == Some(Number(BboxToSearchParams(b, dist).distanceKm as real))
      && (Get(u, Limit).Some? <==> LimitIsSet(client.limit))
      && (LimitIsSet(client.limit) ==> Get(u, Limit) == Some(Number(client.limit.value)))
  {
    var c := BboxToSearchParams(b, dist);
    var ps := RequestUrl(client, key, b, dist).params;
    var tail := if LimitIsSet(client.limit) then [(Limit, Number(client.limit.value))] else [];
    assert ps[1..] == [(Lat, Number(c.lat)), (Lng, Number(c.lon)), (Distance, Number(c.distanceKm as real))] + tail;
    assert ps[2..] == [(Lng, Number(c.lon)), (Distance, Number(c.distanceKm as real))] + tail;
    assert ps[3..] == [(Distance, Number(c.distanceKm as real))] + tail;
    assert ps[4..] == tail;
    assert Lookup(ps, Lat) == Lookup(ps[1..], Lat);
    assert Lookup(ps, Lng) == Lookup(ps[1..], Lng) == Lookup(ps[2..], Lng);
    assert Lookup(ps, Distance) == Lookup(ps[1..], Distance) == Lookup(ps[2..], Distance) == Lookup(ps[3..], Distance);
    assert Lookup(ps, Limit) == Lookup(ps[1..], Limit) == Lookup(ps[2..], Limit)
        == Lookup(ps[3..], Limit) == Lookup(tail, Limit);
  }

  // ---- The per-record mapping ----

  /** One flight of the body as a FlightState; `a?.b ?? null` is spelled out as
      "the leaf if its level is present, else null". */
  function MapFlight(f: AeFlight): FlightState {
    var ac, al, fl, geo, sp, sys := f.aircraft, f.airline, f.flight, f.geography, f.speed, f.system;
    var icaoNumber := if fl.Some? then fl.value.icaoNumber else None;
    var iataNumber := if fl.Some? then fl.value.iataNumber else None;
    FlightState(
      icao24 := Trim(if ac.Some? then ac.value.icao24.GetOr("") else ""),
      callsign := icaoNumber.OrElse(iataNumber),
      latitude := if geo.Some? then geo.value.latitude else None,
      longitude := if geo.Some? then geo.value.longitude else None,
      altitude := if geo.Some? then geo.value.altitude else None,
      velocity := if sp.Some? then sp.value.horizontal else None,
      heading := if geo.Some? then geo.value.direction else None,
      verticalSpeed := if sp.Some? then sp.value.vspeed else None,
      isGround := if sp.Some? then sp.value.isGround else None,
      status := f.status,
      squawk := if sys.Some? then sys.value.squawk else None,
      updated := if sys.Some? then sys.value.updated else None,
      airlineIata := if al.Some? then al.value.iataCode else None,
      airlineIcao := if al.Some? then al.value.icaoCode else None,
      flightIata := iataNumber,
      flightIcao := icaoNumber,
      aircraftIata := if ac.Some? then ac.value.iataCode else None,
      aircraftIcao := if ac.Some? then ac.value.icaoCode else None,
      aircraftReg := if ac.Some? then ac.value.regNumber else None,
      originIata := if f.departure.Some? then f.departure.value.iataCode else None,
      originIcao := if f.departure.Some? then f.departure.value.icaoCode else None,
      destinationIata := if f.arrival.Some? then f.arrival.value.iataCode else None,
      destinationIcao := if f.arrival.Some? then f.arrival.value.icaoCode else None)
  }

  /** The callsign is the ICAO flight number whenever there is one, and the IATA
      number otherwise; both numbers are also kept in their own fields. */
  lemma CallsignPrefersIcao(f: AeFlight)
    ensures var r := MapFlight(f);
      && (r.flightIcao.Some? ==> r.callsign == r.flightIcao)
      && (r.flightIcao.None? ==> r.callsign == r.flightIata)
      && (r.callsign.None? <==> r.flightIcao.None? && r.flightIata.None?)
      && (f.flight.Some? && f.flight.value.icaoNumber.Some? ==> r.callsign == f.flight.value.icaoNumber)
  {
  }

  /** The key is the trimmed `aircraft.icao24`, empty when either level is
      missing, and never starts or ends with white space. */
  lemma Icao24Trimmed(f: AeFlight)
    ensures var r := MapFlight(f);
      && (f.aircraft.None? || f.aircraft.value.icao24.None? ==> r.icao24 == "")
      && (f.aircraft.Some? && f.aircraft.value.icao24.Some? ==> r.icao24 == Trim(f.aircraft.value.icao24.value))
      && (r.icao24 == [] || (!IsJsSpace(r.icao24[0]) && !IsJsSpace(r.icao24[|r.icao24| - 1])))
  {
    var ac := f.aircraft;
    TrimSpec(if ac.Some? then ac.value.icao24.GetOr("") else "");
  }

  /** Every level that is missing makes each field drawn from it null, and the
      record is still produced: a flight with no `geography` maps with no
      position, altitude or heading, one with no `flight` has no callsign. */
  lemma MissingLevelsGiveNull(f: AeFlight)
    ensures var r := MapFlight(f);
      && (f.aircraft.None? ==>
            r.icao24 == "" && r.aircraftIata.None? && r.aircraftIcao.None? && r.aircraftReg.None?)
      && (f.airline.None? ==> r.airlineIata.None? && r.airlineIcao.None?)
      && (f.flight.None? ==> r.callsign.None? && r.flightIata.None? && r.flightIcao.None?)
      && (f.geography.None? ==>
            r.latitude.None? && r.longitude.None? && r.altitude.None? && r.heading.None?)
      && (f.speed.None? ==> r.velocity.None? && r.verticalSpeed.None? && r.isGround.None?)
      && (f.system.None? ==> r.squawk.None? && r.updated.None?)
      && (f.departure.None? ==> r.originIata.None? && r.originIcao.None?)
      && (f.arrival.None? ==> r.destinationIata.None? && r.destinationIcao.None?)
      && (f.status.None? ==> r.status.None?)
  {
  }

  /** Where the geography is present its leaves are copied as they are. */
  lemma GeographyCopied(f: AeFlight, g: AeGeography)
    requires f.geography == Some(g)
    ensures var r := MapFlight(f);
      r.latitude == g.latitude && r.longitude == g.longitude
      && r.altitude == g.altitude && r.heading == g.direction
  {
  }

  /** Where a level is present, each field drawn from it is that level's value,
      unchanged; `status` is always copied. */
  lemma PresentLevelsCopied(f: AeFlight)
    ensures var r := MapFlight(f);
      && (f.aircraft.Some? ==>
            && r.aircraftIata == f.aircraft.value.iataCode && r.aircraftIcao == f.aircraft.value.icaoCode
            && r.aircraftReg == f.aircraft.value.regNumber)
      && (f.airline.Some? ==>
            r.airlineIata == f.airline.value.iataCode && r.airlineIcao == f.airline.value.icaoCode)
      && (f.flight.Some? ==>
            r.flightIata == f.flight.value.iataNumber && r.flightIcao == f.flight.value.icaoNumber)
      && (f.speed.Some? ==>
            && r.velocity == f.speed.value.horizontal && r.verticalSpeed == f.speed.value.vspeed
            && r.isGround == f.speed.value.isGround)
      && (f.system.Some? ==>
            r.squawk == f.system.value.squawk && r.updated == f.system.value.updated)
      && (f.departure.Some? ==>
            r.originIata == f.departure.value.iataCode && r.originIcao == f.departure.value.icaoCode)
      && (f.arrival.Some? ==>
            r.destinationIata == f.arrival.value.iataCode && r.destinationIcao == f.arrival.value.icaoCode)
      && r.status == f.status
  {
  }

  /** `data.map(...)`: one record per flight, in order, none dropped. */
  function MapFlights(fs: seq<AeFlight>): (r: seq<FlightState>)
    ensures |r| == |fs|
    ensures forall i :: 0 <= i < |fs| ==> r[i] == MapFlight(fs[i])
  {
    seq(|fs|, i requires 0 <= i < |fs| => MapFlight(fs[i]))
  }

  // ---- getStates ----

  /** The `URLSearchParams` steps of `getStates`, one `set` per parameter. */
  method BuildRequest(client: AviationEdgeClient, key: string, bbox: Bbox, dist: (real, real, real, real) -> real)
    returns (url: Url)
    ensures url == RequestUrl(client, key, bbox, dist)
  {
    var c := BboxToSearchParams(bbox, dist);
    url := Url(client.baseUrl, []);
    SetAppends(url, Key, Text(key));
    url := Set(url, Key, Text(key));
    SetAppends(url, Lat, Number(c.lat));
    url := Set(url, Lat, Number(c.lat));
    SetAppends(url, Lng, Number(c.lon));
    url := Set(url, Lng, Number(c.lon));
    SetAppends(url, Distance, Number(c.distanceKm as real));
    url := Set(url, Distance, Number(c.distanceKm as real));
    if LimitIsSet(client.limit) {
      SetAppends(url, Limit, Number(client.limit.value));
      url := Set(url, Limit, Number(client.limit.value));
    }
  }

  /** `getStates`: `sent` is the request issued, if any. */
  method GetStates(client: AviationEdgeClient, bbox: Bbox, dist: (real, real, real, real) -> real,
                   fetch: Url -> Response)
    returns (r: Result<seq<FlightState>>, sent: Option<Url>)
    ensures !IsTruthy(client.apiKey) ==> r == Err(KeyMissing) && sent == None
    ensures IsTruthy(client.apiKey) ==> sent == Some(RequestUrl(client, client.apiKey.value, bbox, dist))
    ensures sent.Some? && fetch(sent.value).Rejected? ==> r == Err(fetch(sent.value).reason)
    ensures sent.Some? && fetch(sent.value).NotOk? ==> r == Err(RequestFailed)
    ensures sent.Some? && fetch(sent.value) == Received(NotAnArray(None)) ==> r == Err(RequestFailed)
    ensures forall msg :: sent.Some? && fetch(sent.value) == Received(NotAnArray(Some(msg))) ==> r == Err(msg)
    ensures forall fs :: sent.Some? && fetch(sent.value) == Received(FlightArray(fs)) ==>
      r == Ok(Dedup.ByIcao24(MapFlights(fs)))
    ensures r.Ok? ==> Dedup.Distinct(Dedup.Keys(r.value))
  {
    if !IsTruthy(client.apiKey) {
      return Err(KeyMissing), None;
    }
    var url := BuildRequest(client, client.apiKey.value, bbox, dist);
    sent := Some(url);
    match fetch(url)
    case Rejected(reason) =>
      r := Err(reason);
    case NotOk =>
      r := Err(RequestFailed);
    case Received(NotAnArray(errorText)) =>
      r := Err(errorText.GetOr(RequestFailed));
    case Received(FlightArray(flights)) =>
      var mapped := MapFlights(flights);
      Dedup.DedupSpec(mapped);
      r := Ok(Dedup.ByIcao24(mapped));
  }

  /** The same aircraft reported twice is kept once, with the later record. */
  lemma DuplicateCollapses(a: AeFlight, b: AeFlight)
    requires MapFlight(a).icao24 == MapFlight(b).icao24
    ensures Dedup.ByIcao24(MapFlights([a, b])) == [MapFlight(b)]
  {
    var m := MapFlights([a, b]);
    assert m[0] == MapFlight(a) && m[1] == MapFlight(b);
    Dedup.SameKeyPairCollapses(m);
  }

  /** An ok answer holding the same aircraft twice yields it once. */
  method DuplicateAnswerScenario(client: AviationEdgeClient, bbox: Bbox, dist: (real, real, real, real) -> real,
                                 a: AeFlight, b: AeFlight)
    returns (r: Result<seq<FlightState>>)
    requires IsTruthy(client.apiKey)
    requires MapFlight(a).icao24 == MapFlight(b).icao24
    ensures r == Ok([MapFlight(b)])
  {
    var fetch := (u: Url) => Received(FlightArray([a, b]));
    var sent;
    r, sent := GetStates(client, bbox, dist, fetch);
    assert fetch(sent.value) == Received(FlightArray([a, b]));
    DuplicateCollapses(a, b);
  }
}
