/** The records the core passes around (src/lib/types.ts). Every optional or
    nullable property becomes an Option: the code reads them only through
    `??`, `== null` and truthiness, which treat `undefined` and `null` alike. */
module Types {
  import opened Wrappers

  /** A viewport. `wrapsDateline` and `viewCenterLng` are optional properties,
      so an absent one (None) and an explicit `false` are different boxes. */
  datatype Bbox = Bbox(
    minLat: real, minLon: real, maxLat: real, maxLon: real,
    wrapsDateline: Option<bool>, viewCenterLng: Option<real>)

  /** The test both the filter and the OpenSky client use to decide that a box
      crosses the antimeridian: the flag is set, or the longitudes are inverted. */
  predicate TreatedAsWrapping(b: Bbox) {
    b.wrapsDateline == Some(true) || b.minLon > b.maxLon
  }

  /** The canonical per-aircraft record. */
  datatype FlightState = FlightState(
    icao24: string,
    callsign: Option<string>,
    latitude: Option<real>,
    longitude: Option<real>,
    altitude: Option<real>,
    velocity: Option<real>,
    heading: Option<real>,
    verticalSpeed: Option<real>,
    isGround: Option<real>,
    status: Option<string>,
    squawk: Option<string>,
    updated: Option<real>,
    airlineIata: Option<string>,
    airlineIcao: Option<string>,
    flightIata: Option<string>,
    flightIcao: Option<string>,
    aircraftIata: Option<string>,
    aircraftIcao: Option<string>,
    aircraftReg: Option<string>,
    originIata: Option<string>,
    originIcao: Option<string>,
    destinationIata: Option<string>,
    destinationIcao: Option<string>)

  /** A flight with only the seven required properties, every enrichment
      property absent. */
  function BasicFlight(
    icao24: string, callsign: Option<string>, latitude: Option<real>, longitude: Option<real>,
    altitude: Option<real>, velocity: Option<real>, heading: Option<real>): FlightState
  {
    FlightState(icao24, callsign, latitude, longitude, altitude, velocity, heading,
      None, None, None, None, None, None, None, None, None, None, None, None, None, None, None, None)
  }

  datatype LatLng = LatLng(lat: real, lon: real)

  datatype Airport = Airport(code: string, name: string, lat: real, lon: real)

  datatype FlightDetails = FlightDetails(
    icao24: string, callsign: Option<string>,
    origin: Option<Airport>, destination: Option<Airport>, path: seq<LatLng>)

  datatype BoundsLike = BoundsLike(south: real, west: real, north: real, east: real)
}
