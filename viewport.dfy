/** The box assembly of the viewport observer
    (src/components/ViewportObserver.tsx): longitude normalisation, then
    `bboxFromBounds`, then the raw map-centre longitude attached. */
module Viewport {
  import opened Wrappers
  import opened Types
  import Bounds

  /** A Leaflet `LatLng`, as returned by `getSouthWest` and `getNorthEast`. */
  datatype MapPoint = MapPoint(lat: real, lng: real)

  /** Rounding toward zero. */
  function Trunc(x: real): (t: int)
    ensures x >= 0.0 ==> 0.0 <= t as real <= x < t as real + 1.0
    ensures x < 0.0 ==> t as real - 1.0 < x <= t as real <= 0.0
  {
    if x >= 0.0 then x.Floor else -((-x).Floor)
  }

  /** `d` is a whole number of turns. */
  predicate IsWholeTurn(d: real) {
    (d / 360.0).Floor as real == d / 360.0
  }

  /** JavaScript's `a % 360`: the remainder of truncating division, which has
      the sign of the dividend (unlike Dafny's Euclidean `%`). */
  function Rem360(a: real): (r: real)
    ensures -360.0 < r < 360.0
    ensures a >= 0.0 ==> r >= 0.0
    ensures a <= 0.0 ==> r <= 0.0
    ensures IsWholeTurn(a - r)
  {
    var q := Trunc(a / 360.0);
    assert (a - (a - 360.0 * q as real)) / 360.0 == q as real;
    a - 360.0 * q as real
  }

  /** `wrapLng(lng) = (((lng % 360) + 540) % 360) - 180`. It yields a value in
      [-180, 180) that differs from its argument by whole turns. */
  function WrapLng(lng: real): (r: real)
    ensures -180.0 <= r < 180.0
    ensures IsWholeTurn(r - lng)
  {
    var a := Rem360(lng);
    var b := Rem360(a + 540.0);
    assert IsWholeTurn(b - 180.0 - lng) by { WholeTurnsCombine(lng - a, a + 540.0 - b); }
    b - 180.0
  }

  lemma WholeTurnsCombine(d: real, e: real)
    requires IsWholeTurn(d) && IsWholeTurn(e)
    ensures IsWholeTurn(360.0 - d - e)
  {
    var m, n := (d / 360.0).Floor, (e / 360.0).Floor;
    var k := 1 - m - n;
    assert (360.0 - d - e) / 360.0 == k as real;
    assert (k as real).Floor == k;
  }

  /** On [-180, 180) the normalisation changes nothing. */
  lemma WrapLngIdentity(lng: real)
    requires -180.0 <= lng < 180.0
    ensures WrapLng(lng) == lng
  {
    assert Trunc(lng / 360.0) == 0;
    assert Rem360(lng) == lng;
    assert Trunc((lng + 540.0) / 360.0) == 1;
  }

  /** Normalising twice is normalising once. */
  lemma WrapLngIdempotent(lng: real)
    ensures WrapLng(WrapLng(lng)) == WrapLng(lng)
  {
    WrapLngIdentity(WrapLng(lng));
  }

  /** Values from the unit tests: interior longitudes pass through, 190 and the
      antimeridian itself map to the western side. */
  lemma WrapLngExamples()
    ensures WrapLng(20.0) == 20.0 && WrapLng(40.0) == 40.0 && WrapLng(170.0) == 170.0
    ensures WrapLng(190.0) == -170.0
    ensures WrapLng(180.0) == -180.0
  {
    WrapLngIdentity(20.0);
    WrapLngIdentity(40.0);
    WrapLngIdentity(170.0);
    assert Trunc(190.0 / 360.0) == 0;
    assert Trunc(730.0 / 360.0) == 2;
    assert Trunc(180.0 / 360.0) == 0;
    assert Trunc(720.0 / 360.0) == 2;
  }

  /** What `emitBbox` hands to `onBboxChange`: the box built from the wrapped
      corner longitudes, with the unwrapped centre longitude attached; Err is the
      exception `bboxFromBounds` throws, in which case nothing is emitted. */
  function EmitBbox(sw: MapPoint, ne: MapPoint, centerLng: real): (r: Result<Bbox>)
    ensures r.Ok? <==> sw.lat <= ne.lat && WrapLng(sw.lng) <= WrapLng(ne.lng)
    ensures r.Err? ==> r.error == Bounds.InvalidBounds
    ensures r.Ok? ==> r.value == Bbox(sw.lat, WrapLng(sw.lng), ne.lat, WrapLng(ne.lng), None, Some(centerLng))
  {
    match Bounds.BboxFromBounds(BoundsLike(sw.lat, WrapLng(sw.lng), ne.lat, WrapLng(ne.lng)))
    case Err(e) => Err(e)
    case Ok(bbox) => Ok(bbox.(viewCenterLng := Some(centerLng)))
  }

  /** A view whose wrapped west edge lies east of its wrapped east edge is
      rejected: nothing that crosses the antimeridian is ever emitted. */
  lemma CrossingViewIsRejected(sw: MapPoint, ne: MapPoint, centerLng: real)
    requires WrapLng(sw.lng) > WrapLng(ne.lng)
    ensures EmitBbox(sw, ne, centerLng) == Err(Bounds.InvalidBounds)
  {
  }

  /** The mount test's view, and the dateline test's view (corners at 170 and
      190, centre 180), for which the code throws instead of emitting a
      wrapping box. */
  lemma EmitExamples()
    ensures EmitBbox(MapPoint(10.0, 20.0), MapPoint(30.0, 40.0), 30.0)
         == Ok(Bbox(10.0, 20.0, 30.0, 40.0, None, Some(30.0)))
    ensures EmitBbox(MapPoint(30.0, 170.0), MapPoint(50.0, 190.0), 180.0) == Err(Bounds.InvalidBounds)
  {
    WrapLngExamples();
  }
}
