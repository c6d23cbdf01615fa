/** The server proxy route `/aviation-edge/flights` (server/proxy.ts): query
    validation in a fixed order, injection of the server's key, and a relay of
    the upstream answer in which every failure has a fixed status and a fixed
    message. */
module Proxy {
  import opened Wrappers
  import opened JsText
  import opened SearchParams

  const AviationEdgeBaseUrl := "https://aviation-edge.com/v2/public/flights"

  const MissingParams := "Missing required parameters: lat, lng, distance"
  const InvalidLat := "Invalid lat: must be between -90 and 90"
  const InvalidLng := "Invalid lng: must be between -180 and 180"
  const InvalidDistance := "Invalid distance: must be between 1 and 500"
  const ConfigError := "Server configuration error"
  const UpstreamError := "Aviation Edge API error"
  const NotJsonError := "Invalid response from Aviation Edge"
  const FetchFailed := "Failed to fetch flight data"

  /** `Number(text)`: None stands for NaN. */
  type Parse = string -> Option<real>

  /** The query-string values of a request (absent ones are None). */
  datatype Query = Query(lat: Option<string>, lng: Option<string>, distance: Option<string>, limit: Option<string>)

  /** `response.headers`: an object whose `get('content-type')` may give null,
      or missing altogether, in which case reading it throws. */
  datatype Headers = HeadersMissing | ContentType(value: Option<string>)

  /** `response.json()`: a parsed value, shown here as its text, or a throw. */
  datatype BodyRead = BodyNotJson(reason: string) | BodyJson(data: string)

  /** What the call to the upstream service does: it throws, or it resolves to
      a response. */
  datatype Upstream =
    | FetchThrew(reason: string)
    | Answered(ok: bool, status: int, headers: Headers, body: BodyRead)

  datatype Body = ErrorBody(error: string) | Relayed(data: string)

  /** The reply to the client, and the upstream address if one was called. */
  datatype Reply = Reply(status: int, body: Body, forwarded: Option<Url>)

  predicate IsValidLat(parse: Parse, v: string) {
    parse(v).Some? && -90.0 <= parse(v).value <= 90.0
  }

  predicate IsValidLng(parse: Parse, v: string) {
    parse(v).Some? && -180.0 <= parse(v).value <= 180.0
  }

  predicate IsValidDistance(parse: Parse, v: string) {
    parse(v).Some? && 0.0 < parse(v).value <= 500.0
  }

  /** The upstream address: the key, then the three values exactly as received,
      then `limit` when one was given, each set in turn. */
  function UpstreamUrl(key: string, lat: string, lng: string, distance: string, limit: Option<string>): Url {
    var u := Set(Set(Set(Set(Url(AviationEdgeBaseUrl, []), Key, Text(key)), Lat, Text(lat)), Lng, Text(lng)),
                 Distance, Text(distance));
    if IsTruthy(limit) then Set(u, Limit, Text(limit.value)) else u
  }

  /** The upstream outcome, after the request has been sent. The content type
      is read before `ok` is looked at, so a response without headers ends in
      the catch-all 502. */
  function Relay(up: Upstream): (r: (int, Body))
    ensures r.1.ErrorBody? ==> r.1.error in {UpstreamError, NotJsonError, FetchFailed}
    ensures r.1.Relayed? ==> r.0 == 200 && up.Answered? && up.ok && up.body == BodyJson(r.1.data)
  {
    match up
    case FetchThrew(_) => (502, ErrorBody(FetchFailed))
    case Answered(ok, status, headers, body) =>
      if headers.HeadersMissing? then (502, ErrorBody(FetchFailed))
      else
        var contentType := if IsTruthy(headers.value) then headers.value.value else "";
        if !ok then (status, ErrorBody(UpstreamError))
        else if !Contains(contentType, "application/json") then (502, ErrorBody(NotJsonError))
        else if body.BodyNotJson? then (502, ErrorBody(FetchFailed))
        else (200, Relayed(body.data))
  }

  /** The route handler: the first failing guard decides the reply; only a
      request that passes them all is forwarded. */
  function Handle(q: Query, parse: Parse, apiKey: Option<string>, up: Upstream): (r: Reply)
    ensures r.forwarded.Some? <==> QueryIsValid(q, parse) && IsTruthy(apiKey)
    ensures r.forwarded.Some? ==>
      && r.forwarded.value == UpstreamUrl(apiKey.value, q.lat.value, q.lng.value, q.distance.value, q.limit)
      && (r.status, r.body) == Relay(up)
    ensures !QueryIsValid(q, parse) ==> r.status == 400 && r.body.ErrorBody?
    ensures QueryIsValid(q, parse) && !IsTruthy(apiKey) ==> r == Reply(500, ErrorBody(ConfigError), None)
    ensures r.body.ErrorBody? ==> IsRouteMessage(r.body.error)
  {
    if !IsTruthy(q.lat) || !IsTruthy(q.lng) || !IsTruthy(q.distance) then Reply(400, ErrorBody(MissingParams), None)
    else if !IsValidLat(parse, q.lat.value) then Reply(400, ErrorBody(InvalidLat), None)
    else if !IsValidLng(parse, q.lng.value) then Reply(400, ErrorBody(InvalidLng), None)
    else if !IsValidDistance(parse, q.distance.value) then Reply(400, ErrorBody(InvalidDistance), None)
    else if !IsTruthy(apiKey) then Reply(500, ErrorBody(ConfigError), None)
    else
      var url := UpstreamUrl(apiKey.value, q.lat.value, q.lng.value, q.distance.value, q.limit);
      var outcome := Relay(up);
      Reply(outcome.0, outcome.1, Some(url))
  }

  /** Whether a query passes all three range checks. */
  predicate QueryIsValid(q: Query, parse: Parse) {
    && IsTruthy(q.lat) && IsTruthy(q.lng) && IsTruthy(q.distance)
    && IsValidLat(parse, q.lat.value) && IsValidLng(parse, q.lng.value) && IsValidDistance(parse, q.distance.value)
  }

  // ---- The guard chain ----

  /** A missing or empty value is reported before anything else, with or
      without a key, and nothing is forwarded. */
  lemma MissingComesFirst(q: Query, parse: Parse, apiKey: Option<string>, up: Upstream)
    requires !IsTruthy(q.lat) || !IsTruthy(q.lng) || !IsTruthy(q.distance)
    ensures Handle(q, parse, apiKey, up) == Reply(400, ErrorBody(MissingParams), None)
  {
  }

  /** Each range check rejects with 400 and its own message exactly when the
      checks before it pass and it fails; the key is looked at only after all
      of them. */
  lemma GuardOrder(q: Query, parse: Parse, apiKey: Option<string>, up: Upstream)
    requires IsTruthy(q.lat) && IsTruthy(q.lng) && IsTruthy(q.distance)
    ensures var r := Handle(q, parse, apiKey, up);
      && (r.body == ErrorBody(InvalidLat) <==> !IsValidLat(parse, q.lat.value))
      && (r.body == ErrorBody(InvalidLng) <==> IsValidLat(parse, q.lat.value) && !IsValidLng(parse, q.lng.value))
      && (r.body == ErrorBody(InvalidDistance) <==>
            IsValidLat(parse, q.lat.value) && IsValidLng(parse, q.lng.value)
            && !IsValidDistance(parse, q.distance.value))
      && (!QueryIsValid(q, parse) ==> r.status == 400 && r.forwarded.None?)
      && (r.body == ErrorBody(ConfigError) <==> QueryIsValid(q, parse) && !IsTruthy(apiKey))
  {
    var r := Handle(q, parse, apiKey, up);
    if QueryIsValid(q, parse) && IsTruthy(apiKey) {
      RelayMessages(up);
    }
  }

  /** The range checks, stated on numbers: a latitude in [-90, 90], a longitude
      in [-180, 180], a distance in (0, 500], each end included or not as
      written, and text that is not a number is rejected. */
  lemma RangeBounds(parse: Parse, v: string)
    ensures parse(v).None? ==> !IsValidLat(parse, v) && !IsValidLng(parse, v) && !IsValidDistance(parse, v)
    ensures parse(v) == Some(90.0) ==> IsValidLat(parse, v)
    ensures parse(v) == Some(-90.0) ==> IsValidLat(parse, v)
    ensures parse(v) == Some(90.5) ==> !IsValidLat(parse, v) && IsValidLng(parse, v)
    ensures parse(v) == Some(-180.0) ==> IsValidLng(parse, v)
    ensures parse(v) == Some(180.5) ==> !IsValidLng(parse, v)
    ensures parse(v) == Some(0.0) ==> !IsValidDistance(parse, v)
    ensures parse(v) == Some(0.5) ==> IsValidDistance(parse, v)
    ensures parse(v) == Some(500.0) ==> IsValidDistance(parse, v)
    ensures parse(v) == Some(501.0) ==> !IsValidDistance(parse, v)
  {
  }

  /** A valid request with no key configured gets 500 and is not forwarded. */
  lemma NoKeyNoForward(q: Query, parse: Parse, up: Upstream)
    requires QueryIsValid(q, parse)
    ensures Handle(q, parse, None, up) == Reply(500, ErrorBody(ConfigError), None)
    ensures Handle(q, parse, Some(""), up) == Reply(500, ErrorBody(ConfigError), None)
  {
  }

  // ---- The forwarded request ----

  /** The upstream address carries the server's key and the three values
      verbatim, and `limit` exactly when a non-empty one was given. */
  lemma UpstreamUrlReads(key: string, lat: string, lng: string, distance: string, limit: Option<string>)
    ensures var u := UpstreamUrl(key, lat, lng, distance, limit);
      && u.base == AviationEdgeBaseUrl
      && Get(u, Key) == Some(Text(key))
      && Get(u, Lat) == Some(Text(lat))
      && Get(u, Lng) == Some(Text(lng))
      && Get(u, Distance) == Some(Text(distance))
      && (Get(u, Limit).Some? <==> IsTruthy(limit))
      && (IsTruthy(limit) ==> Get(u, Limit) == Some(Text(limit.value)))
  {
    var u0 := Url(AviationEdgeBaseUrl, []);
    var u1 := Set(u0, Key, Text(key));
    var u2 := Set(u1, Lat, Text(lat));
    var u3 := Set(u2, Lng, Text(lng));
    var u4 := Set(u3, Distance, Text(distance));
    SetGet(u0, Key, Text(key), Lat);
    SetGet(u1, Lat, Text(lat), Key);
    SetGet(u2, Lng, Text(lng), Key);
    SetGet(u2, Lng, Text(lng), Lat);
    SetGet(u3, Distance, Text(distance), Key);
    SetGet(u3, Distance, Text(distance), Lat);
    SetGet(u3, Distance, Text(distance), Lng);
    SetGet(u0, Key, Text(key), Limit);
    SetGet(u1, Lat, Text(lat), Limit);
    SetGet(u2, Lng, Text(lng), Limit);
    SetGet(u3, Distance, Text(distance), Limit);
    if IsTruthy(limit) {
      var v := Text(limit.value);
      SetGet(u4, Limit, v, Key);
      SetGet(u4, Limit, v, Lat);
      SetGet(u4, Limit, v, Lng);
      SetGet(u4, Limit, v, Distance);
    }
  }

  /** A request that passes every guard is forwarded to that address whatever
      the upstream does. */
  lemma ValidRequestForwarded(q: Query, parse: Parse, key: string, up: Upstream)
    requires QueryIsValid(q, parse) && key != ""
    ensures Handle(q, parse, Some(key), up).forwarded
         == Some(UpstreamUrl(key, q.lat.value, q.lng.value, q.distance.value, q.limit))
  {
  }

  // ---- The upstream outcome ----

  /** Every upstream outcome except a JSON answer with a JSON content type ends
      in one of the fixed error messages, with the status the code gives it. A
      JSON-typed ok answer whose body does not parse is caught like a throw. */
  lemma RelayMessages(up: Upstream)
    ensures Relay(up).1.Relayed? <==>
      up.Answered? && up.ok && up.headers.ContentType? && up.body.BodyJson?
      && IsTruthy(up.headers.value) && Contains(up.headers.value.value, "application/json")
    ensures Relay(up).1.Relayed? ==> Relay(up) == (200, Relayed(up.body.data))
    ensures up.FetchThrew? || up.headers.HeadersMissing? ==> Relay(up) == (502, ErrorBody(FetchFailed))
    ensures up.Answered? && !up.ok && up.headers.ContentType? ==> Relay(up) == (up.status, ErrorBody(UpstreamError))
    ensures up.Answered? && up.ok && up.headers.ContentType?
            && !(IsTruthy(up.headers.value) && Contains(up.headers.value.value, "application/json"))
        ==> Relay(up) == (502, ErrorBody(NotJsonError))
    ensures up.Answered? && up.ok && up.headers.ContentType?
            && IsTruthy(up.headers.value) && Contains(up.headers.value.value, "application/json")
            && up.body.BodyNotJson?
        ==> Relay(up) == (502, ErrorBody(FetchFailed))
    ensures Relay(up).1.ErrorBody? ==>
      Relay(up).1.error in {UpstreamError, NotJsonError, FetchFailed}
  {
    if up.Answered? && up.headers.ContentType? && !IsTruthy(up.headers.value) {
      assert !Contains("", "application/json") by {
        MissingLetterExcludes("", "application/json", 0);
      }
    }
  }

  /** The answers the unit tests mock have no `headers`; against this code each
      of them, a success as much as an upstream 401, ends in the catch-all 502. */
  lemma MockedAnswerWithoutHeaders(q: Query, parse: Parse, key: string, ok: bool, status: int, body: BodyRead)
    requires QueryIsValid(q, parse) && key != ""
    ensures var r := Handle(q, parse, Some(key), Answered(ok, status, HeadersMissing, body));
      r.status == 502 && r.body == ErrorBody(FetchFailed)
  {
  }

  // ---- Secrecy ----

  /** The fixed set of error messages of the route. */
  predicate IsRouteMessage(m: string) {
    m in {MissingParams, InvalidLat, InvalidLng, InvalidDistance, ConfigError, UpstreamError, NotJsonError, FetchFailed}
  }

  /** Every error body is one of the fixed messages: neither the key nor the
      text of a thrown error can reach it. */
  lemma ErrorBodiesAreFixed(q: Query, parse: Parse, apiKey: Option<string>, up: Upstream)
    ensures Handle(q, parse, apiKey, up).body.ErrorBody? ==> IsRouteMessage(Handle(q, parse, apiKey, up).body.error)
  {
    RelayMessages(up);
  }

  /** The status and body do not depend on which key is configured, nor on the
      reason of a throw. */
  lemma ReplyIgnoresSecrets(q: Query, parse: Parse, k1: string, k2: string, up: Upstream,
                            why1: string, why2: string, data: string)
    requires k1 != "" && k2 != ""
    ensures Handle(q, parse, Some(k1), up).status == Handle(q, parse, Some(k2), up).status
    ensures Handle(q, parse, Some(k1), up).body == Handle(q, parse, Some(k2), up).body
    ensures Handle(q, parse, Some(k1), FetchThrew(why1)) == Handle(q, parse, Some(k1), FetchThrew(why2))
    ensures forall ok, status, h ::
      Handle(q, parse, Some(k1), Answered(ok, status, h, BodyNotJson(why1)))
      == Handle(q, parse, Some(k1), Answered(ok, status, h, BodyNotJson(why2)))
  {
  }

  /** `JSON.stringify` of an error body (none of the messages needs escaping). */
  function ErrorJson(m: string): string {
    "{\"error\":\"" + m + "\"}"
  }

  /** The missing-key reply mentions neither `key` nor `api`. */
  lemma ConfigErrorHidesKey()
    ensures !Contains(ErrorJson(ConfigError), "key")
    ensures !Contains(ErrorJson(ConfigError), "api")
  {
    var s := ErrorJson(ConfigError);
    assert 'k' !in s by { assert forall i :: 0 <= i < |s| ==> s[i] != 'k'; }
    assert 'p' !in s by { assert forall i :: 0 <= i < |s| ==> s[i] != 'p'; }
    MissingLetterExcludes(s, "key", 0);
    MissingLetterExcludes(s, "api", 1);
  }

  /** A throw whose message quotes the key yields a reply that does not contain
      the key: the unit test's key has a `k`, the reply has none. */
  lemma ThrownKeyNotEchoed(q: Query, parse: Parse)
    requires QueryIsValid(q, parse)
    ensures var key := "test-api-key-12345";
      var r := Handle(q, parse, Some(key), FetchThrew("Request failed with key " + key));
      && r.body == ErrorBody(FetchFailed)
      && !Contains(ErrorJson(r.body.error), key) && !Contains(ErrorJson(r.body.error), "test-api-key")
  {
    var s := ErrorJson(FetchFailed);
    assert 'k' !in s by { assert forall i :: 0 <= i < |s| ==> s[i] != 'k'; }
    MissingLetterExcludes(s, "test-api-key-12345", 9);
    MissingLetterExcludes(s, "test-api-key", 9);
  }
}
