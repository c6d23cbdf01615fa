/** Construction of a viewport box from map bounds (src/lib/bbox.ts). */
module Bounds {
  import opened Wrappers
  import opened Types
  import Filter

  const InvalidBounds := "Invalid bounds"

  /** `bboxFromBounds`: rejects inverted latitudes AND inverted longitudes, so
      it can never produce a box that crosses the antimeridian. */
  function BboxFromBounds(bounds: BoundsLike): (r: Result<Bbox>)
    ensures r.Ok? <==> bounds.south <= bounds.north && bounds.west <= bounds.east
    ensures r.Err? ==> r.error == InvalidBounds
    ensures r.Ok? ==> && r.value.minLat == bounds.south && r.value.minLon == bounds.west
                      && r.value.maxLat == bounds.north && r.value.maxLon == bounds.east
                      && r.value.wrapsDateline.None? && r.value.viewCenterLng.None?
  {
    if bounds.south > bounds.north || bounds.west > bounds.east then Err(InvalidBounds)
    else Ok(Bbox(bounds.south, bounds.west, bounds.north, bounds.east, None, None))
  }

  /** Every box it builds is ordered on both axes and not wrapping, so the filter
      applies plain closed intervals to it. */
  lemma BuiltBoxesNeverWrap(bounds: BoundsLike, f: FlightState)
    requires BboxFromBounds(bounds).Ok?
    ensures var b := BboxFromBounds(bounds).value;
      && b.minLat <= b.maxLat && b.minLon <= b.maxLon && !TreatedAsWrapping(b)
      && (Filter.InBbox(f, b) <==>
            && f.latitude.Some? && f.longitude.Some?
            && bounds.south <= f.latitude.value <= bounds.north
            && bounds.west <= f.longitude.value <= bounds.east)
  {
  }

  /** The unit-test cases. */
  lemma Examples()
    ensures BboxFromBounds(BoundsLike(10.0, 20.0, 30.0, 40.0)) == Ok(Bbox(10.0, 20.0, 30.0, 40.0, None, None))
    ensures BboxFromBounds(BoundsLike(30.0, 20.0, 10.0, 40.0)) == Err(InvalidBounds)
    ensures BboxFromBounds(BoundsLike(30.0, 170.0, 50.0, -170.0)) == Err(InvalidBounds)
  {
  }
}
