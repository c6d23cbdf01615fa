/** Airport coordinates by code (src/lib/airports.ts). The bundled data file is
    not part of this model: the table is a parameter. */
module Airports {
  import opened Wrappers

  datatype AirportCoords = AirportCoords(lat: real, lon: real)

  type Table = map<string, AirportCoords>

  /** `getAirportCoords`: the entry for the code, or null. */
  function GetAirportCoords(table: Table, code: string): (r: Option<AirportCoords>)
    ensures r.Some? <==> code in table
    ensures r.Some? ==> r.value == table[code]
  {
    if code in table then Some(table[code]) else None
  }

  /** `lookupAirport`: the IATA code is tried first and the ICAO code second,
      each only when it is a non-empty string. */
  function LookupAirport(table: Table, iata: Option<string>, icao: Option<string>): (r: Option<AirportCoords>)
    ensures iata.Some? && iata.value != "" && iata.value in table ==> r == Some(table[iata.value])
    ensures (&& !(iata.Some? && iata.value != "" && iata.value in table)
             && icao.Some? && icao.value != "" && icao.value in table)
        ==> r == Some(table[icao.value])
    ensures (&& !(iata.Some? && iata.value != "" && iata.value in table)
             && !(icao.Some? && icao.value != "" && icao.value in table))
        ==> r.None?
  {
    if iata.Some? && iata.value != "" && GetAirportCoords(table, iata.value).Some? then
      GetAirportCoords(table, iata.value)
    else if icao.Some? && icao.value != "" && GetAirportCoords(table, icao.value).Some? then
      GetAirportCoords(table, icao.value)
    else None
  }

  /** The lookup never invents coordinates: it gives an entry of the table
      stored under one of the two codes, or null. */
  lemma LookupFromTable(table: Table, iata: Option<string>, icao: Option<string>)
    ensures var r := LookupAirport(table, iata, icao);
      r.Some? ==> && r.value in table.Values
                  && ((iata.Some? && iata.value in table && table[iata.value] == r.value)
                      || (icao.Some? && icao.value in table && table[icao.value] == r.value))
  {
  }

  /** An unknown IATA code falls through to the ICAO code. */
  lemma UnknownIataFallsBack(table: Table, iata: string, icao: string)
    requires iata !in table && icao != "" && icao in table
    ensures LookupAirport(table, Some(iata), Some(icao)) == Some(table[icao])
  {
  }
}
