/** The provider facade (src/lib/flightProviders.ts): the configured provider
    type picks the client behind `getStates`. */
module FlightProviders {
  import opened Wrappers
  import opened Types
  import opened SearchParams
  import OpenSky
  import AviationEdge

  datatype ProviderParams = ProviderParams(limit: Option<real>)

  /** A provider entry of the configuration (src/lib/providerConfig.ts). The
      type is kept as text because the dispatch also handles values outside
      the two the declaration names. */
  datatype ProviderConfig = ProviderConfig(
    id: string, name: string, providerType: string, baseUrl: string, attribution: string,
    apiKeyEnv: Option<string>, params: Option<ProviderParams>)

  /** The client whose `getStates` the provider hands out. */
  datatype Backend =
    | OpenSkyBackend(openSky: OpenSky.OpenSkyClient)
    | AviationEdgeBackend(aviationEdge: AviationEdge.AviationEdgeClient)

  datatype FlightProvider = FlightProvider(id: string, name: string, attribution: string, backend: Backend)

  function UnsupportedType(t: string): string {
    "Unsupported provider type: " + t
  }

  /** `config.params?.limit`. */
  function ConfiguredLimit(config: ProviderConfig): Option<real> {
    if config.params.Some? then config.params.value.limit else None
  }

  /** `createFlightProvider`: a new OpenSky client on the configured address
      with the default cache window, or an Aviation Edge client on the
      configured address and limit and with no API key, or a rejection. */
  method CreateFlightProvider(config: ProviderConfig, conv: OpenSky.JsConversions)
    returns (r: Result<FlightProvider>)
    ensures r.Ok? ==> r.value.id == config.id && r.value.name == config.name
                      && r.value.attribution == config.attribution
    ensures config.providerType == "opensky" ==>
      && r.Ok? && r.value.backend.OpenSkyBackend?
      && var c := r.value.backend.openSky;
         && fresh(c) && c.Valid()
         && c.baseUrl == config.baseUrl && c.cacheMs == OpenSky.DefaultCacheMs && c.conv == conv
         && c.lastKey == None && c.lastFetchedAt == 0 && c.lastResult == []
    ensures config.providerType == "aviation-edge" ==>
      r == Ok(FlightProvider(config.id, config.name, config.attribution,
                AviationEdgeBackend(AviationEdge.AviationEdgeClient(config.baseUrl, None, ConfiguredLimit(config)))))
    ensures config.providerType != "opensky" && config.providerType != "aviation-edge" ==>
      r == Err(UnsupportedType(config.providerType))
  {
    if config.providerType == "opensky" {
      var client := new OpenSky.OpenSkyClient(Some(config.baseUrl), None, conv);
      return Ok(FlightProvider(config.id, config.name, config.attribution, OpenSkyBackend(client)));
    }
    if config.providerType == "aviation-edge" {
      var client := AviationEdge.AviationEdgeClient(config.baseUrl, None, ConfiguredLimit(config));
      return Ok(FlightProvider(config.id, config.name, config.attribution, AviationEdgeBackend(client)));
    }
    return Err(UnsupportedType(config.providerType));
  }

  /** Since the facade never passes a key, every `getStates` of an Aviation Edge
      provider rejects with the missing-key error and sends nothing. */
  method AviationEdgeProviderRejects(config: ProviderConfig, conv: OpenSky.JsConversions, bbox: Bbox,
                                     dist: (real, real, real, real) -> real, fetch: Url -> AviationEdge.Response)
    returns (r: Result<seq<FlightState>>, sent: Option<Url>)
    requires config.providerType == "aviation-edge"
    ensures r == Err(AviationEdge.KeyMissing) && sent == None
  {
    var p := CreateFlightProvider(config, conv);
    r, sent := AviationEdge.GetStates(p.value.backend.aviationEdge, bbox, dist, fetch);
  }

  /** Two OpenSky providers made from configurations get two distinct clients,
      so neither sees the other's cache. */
  method ProvidersDoNotShareClients(a: ProviderConfig, b: ProviderConfig, conv: OpenSky.JsConversions)
    returns (separate: bool)
    requires a.providerType == "opensky" && b.providerType == "opensky"
    ensures separate
  {
    var p := CreateFlightProvider(a, conv);
    var q := CreateFlightProvider(b, conv);
    separate := p.value.backend.openSky != q.value.backend.openSky;
  }
}
