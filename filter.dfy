/** The viewport filter (src/lib/filter.ts). */
module Filter {
  import opened Wrappers
  import opened Types

  /** The predicate handed to `Array.prototype.filter`: both coordinates set,
      latitude in the closed range, and longitude in the closed range, or on
      either side of the antimeridian when the box wraps. */
  predicate InBbox(f: FlightState, b: Bbox) {
    && f.latitude.Some? && f.longitude.Some?
    && b.minLat <= f.latitude.value <= b.maxLat
    && if TreatedAsWrapping(b) then
         f.longitude.value >= b.minLon || f.longitude.value <= b.maxLon
       else
         b.minLon <= f.longitude.value <= b.maxLon
  }

  /** `filterFlightsByBbox`: the flights that satisfy InBbox, in input order. */
  function FilterFlightsByBbox(flights: seq<FlightState>, b: Bbox): (r: seq<FlightState>)
    ensures |r| <= |flights|
    ensures forall f :: f in r ==> f in flights && InBbox(f, b)
    ensures forall f :: f in flights && InBbox(f, b) ==> f in r
  {
    if flights == [] then []
    else (if InBbox(flights[0], b) then [flights[0]] else []) + FilterFlightsByBbox(flights[1..], b)
  }

  /** Filtering distributes over concatenation, so the result keeps the input's
      order: with the singleton case it pins the result down completely. */
  lemma {:induction false} FilterAppend(xs: seq<FlightState>, ys: seq<FlightState>, b: Bbox)
    ensures FilterFlightsByBbox(xs + ys, b) == FilterFlightsByBbox(xs, b) + FilterFlightsByBbox(ys, b)
  {
    if xs == [] {
      assert xs + ys == ys;
    } else {
      assert (xs + ys)[1..] == xs[1..] + ys;
      FilterAppend(xs[1..], ys, b);
    }
  }

  lemma FilterSingleton(f: FlightState, b: Bbox)
    ensures FilterFlightsByBbox([f], b) == if InBbox(f, b) then [f] else []
  {
    assert [f][1..] == [];
  }

  /** A list whose every flight is in the box comes back unchanged. */
  lemma {:induction false} FilterKeepsAllInside(xs: seq<FlightState>, b: Bbox)
    requires forall f :: f in xs ==> InBbox(f, b)
    ensures FilterFlightsByBbox(xs, b) == xs
  {
    if xs != [] {
      assert xs[0] in xs;
      FilterKeepsAllInside(xs[1..], b);
    }
  }

  /** Filtering is idempotent. */
  lemma FilterIdempotent(xs: seq<FlightState>, b: Bbox)
    ensures FilterFlightsByBbox(FilterFlightsByBbox(xs, b), b) == FilterFlightsByBbox(xs, b)
  {
    FilterKeepsAllInside(FilterFlightsByBbox(xs, b), b);
  }

  /** Which flights a box keeps, case by case. A flight without a latitude or a
      longitude is never kept; the latitude range is closed at both ends. */
  lemma KeptIff(f: FlightState, b: Bbox)
    ensures (f.latitude.None? || f.longitude.None?) ==> !InBbox(f, b)
    ensures InBbox(f, b) ==> b.minLat <= f.latitude.value <= b.maxLat
    ensures b.wrapsDateline != Some(true) && b.minLon <= b.maxLon ==>
      (InBbox(f, b) <==> f.latitude.Some? && f.longitude.Some?
                         && b.minLat <= f.latitude.value <= b.maxLat
                         && b.minLon <= f.longitude.value <= b.maxLon)
    ensures TreatedAsWrapping(b) ==>
      (InBbox(f, b) <==> f.latitude.Some? && f.longitude.Some?
                         && b.minLat <= f.latitude.value <= b.maxLat
                         && (f.longitude.value >= b.minLon || f.longitude.value <= b.maxLon))
    ensures b.wrapsDateline == Some(true) && b.minLon <= b.maxLon ==>
      (InBbox(f, b) <==> f.latitude.Some? && f.longitude.Some?
                         && b.minLat <= f.latitude.value <= b.maxLat)
  {
  }

  function At(lat: Option<real>, lon: Option<real>): FlightState {
    BasicFlight("abc123", Some("TEST123"), lat, lon, Some(10000.0), Some(250.0), Some(90.0))
  }

  /** The unit-test cases: inside, outside, missing latitude, on the edge, and
      the dateline example of a wrapping box from 170 to -170. */
  lemma Examples()
    ensures var box := Bbox(10.0, 20.0, 30.0, 40.0, None, None);
      && |FilterFlightsByBbox([At(Some(12.0), Some(22.0))], box)| == 1
      && |FilterFlightsByBbox([At(Some(50.0), Some(22.0))], box)| == 0
      && |FilterFlightsByBbox([At(None, Some(22.0))], box)| == 0
      && |FilterFlightsByBbox([At(Some(10.0), Some(40.0))], box)| == 1
    ensures var wrap := Bbox(30.0, 170.0, 50.0, -170.0, Some(true), None);
      && FilterFlightsByBbox([At(Some(40.0), Some(175.0))], wrap) == [At(Some(40.0), Some(175.0))]
      && FilterFlightsByBbox([At(Some(40.0), Some(0.0))], wrap) == []
  {
    var box := Bbox(10.0, 20.0, 30.0, 40.0, None, None);
    var wrap := Bbox(30.0, 170.0, 50.0, -170.0, Some(true), None);
    FilterSingleton(At(Some(12.0), Some(22.0)), box);
    FilterSingleton(At(Some(50.0), Some(22.0)), box);
    FilterSingleton(At(None, Some(22.0)), box);
    FilterSingleton(At(Some(10.0), Some(40.0)), box);
    FilterSingleton(At(Some(40.0), Some(175.0)), wrap);
    FilterSingleton(At(Some(40.0), Some(0.0)), wrap);
  }
}
