/** The geodesic helpers of `ViewController`: a linear local earth radius, and the
    conversions between a ground coordinate and the aim (theta, phi) that points at it
    from a given height. */
module Geodesy {
  import opened Numerics
  import opened Angles

  const EQUATORIAL_RADIUS: real := 6378137.0
  const RADIUS_DIFFERENCE_POLE_EQUATOR: real := 21385.0

  /** A source coordinate tuple `(longitude, latitude)` in degrees. */
  datatype Coordinate = Coordinate(lon: real, lat: real)

  /** An aim in degrees: theta from straight down, phi the bearing from north. */
  datatype Angular = Angular(theta: real, phi: real)

  /** `earth_radius_at_lat`: interpolates linearly from the equatorial radius by `lat / 90`. */
  function EarthRadiusAtLat(lat: real): (r: real)
    ensures -90.0 <= lat <= 90.0 ==>
      EQUATORIAL_RADIUS - RADIUS_DIFFERENCE_POLE_EQUATOR <= r <= EQUATORIAL_RADIUS + RADIUS_DIFFERENCE_POLE_EQUATOR
  {
    EQUATORIAL_RADIUS - (lat / 90.0) * RADIUS_DIFFERENCE_POLE_EQUATOR
  }

  lemma EarthRadiusEndpoints()
    ensures EarthRadiusAtLat(0.0) == 6378137.0
    ensures EarthRadiusAtLat(90.0) == 6378137.0 - 21385.0
  {
  }

  lemma EarthRadiusDecreasing(lat1: real, lat2: real)
    ensures lat1 < lat2 <==> EarthRadiusAtLat(lat1) > EarthRadiusAtLat(lat2)
  {
  }

  /** The only latitude at which the radius, a divisor in `PointToCoordinate`, vanishes. */
  const DEGENERATE_LAT: real := 90.0 * EQUATORIAL_RADIUS / RADIUS_DIFFERENCE_POLE_EQUATOR

  lemma EarthRadiusZero(lat: real)
    ensures EarthRadiusAtLat(lat) == 0.0 <==> lat == DEGENERATE_LAT
  {
  }

  /** The local tangent-plane offsets (east, north) from `origin` to `target`. */
  function PlanarOffset(lib: MathLib, origin: Coordinate, target: Coordinate): (r: (real, real))
    // a target due north has no east offset, one due east no north offset
    ensures lib.tan(0.0) == 0.0 && target.lon == origin.lon ==> r.0 == 0.0
    ensures lib.tan(0.0) == 0.0 && target.lat == origin.lat ==> r.1 == 0.0
  {
    var radius := EarthRadiusAtLat(origin.lat);
    (lib.tan(Deg2Rad(target.lon - origin.lon)) * radius,
     lib.tan(Deg2Rad(target.lat - origin.lat)) * radius)
  }

  /** `coordinate_to_point`: where to look from `origin`, at `height`, to see `target`.
      Division by the height raises when it is zero; a zero offset gives bearing 0. */
  function CoordinateToPoint(lib: MathLib, origin: Coordinate, target: Coordinate, height: real): (r: Outcome<Angular>)
    ensures r.ZeroDivision? <==> height == 0.0
    ensures r.Value? ==> 0.0 <= r.value.phi < 360.0
    ensures r.Value? && PlanarOffset(lib, origin, target) == (0.0, 0.0) ==> r.value.phi == 0.0
  {
    var (xDiff, yDiff) := PlanarOffset(lib, origin, target);
    var phi := if xDiff == 0.0 && yDiff == 0.0 then 0.0 else lib.arctan2(xDiff, yDiff);
    if height == 0.0 then ZeroDivision
    else
      var theta := lib.arctan(lib.sqrt(xDiff * xDiff + yDiff * yDiff) / height);
      Value(Angular(Rad2Deg(theta), Mod360(Rad2Deg(phi))))
  }

  /** Looking at one's own coordinate gives bearing 0, whatever `arctan2` would say. */
  lemma DegenerateBearing(lib: MathLib, origin: Coordinate, height: real)
    requires lib.tan(0.0) == 0.0
    requires height != 0.0
    ensures CoordinateToPoint(lib, origin, origin, height).Value?
    ensures CoordinateToPoint(lib, origin, origin, height).value.phi == 0.0
  {
    assert PlanarOffset(lib, origin, origin) == (0.0, 0.0);
  }

  /** The arctan offsets (north, east) in radians that `point_to_coordinate` adds. */
  function GroundOffset(lib: MathLib, theta: real, phi: real, height: real, radius: real): (r: (real, real))
    requires radius != 0.0
    // looking straight down, or from the ground, there is no offset
    ensures lib.tan(0.0) == 0.0 && lib.arctan(0.0) == 0.0 && (theta == 0.0 || height == 0.0) ==> r == (0.0, 0.0)
  {
    var reach := height * lib.tan(Deg2Rad(theta));
    assert theta == 0.0 ==> Deg2Rad(theta) == 0.0;
    assert reach == 0.0 ==> reach * lib.cos(Deg2Rad(phi)) / radius == 0.0 && reach * lib.sin(Deg2Rad(phi)) / radius == 0.0;
    (lib.arctan(reach * lib.cos(Deg2Rad(phi)) / radius),
     lib.arctan(reach * lib.sin(Deg2Rad(phi)) / radius))
  }

  /** `point_to_coordinate`: the ground coordinate at the centre of the view. Division by
      the earth radius at the drone's latitude raises when that radius is zero. */
  function PointToCoordinate(lib: MathLib, theta: real, phi: real, height: real, drone: Coordinate): (r: Outcome<Coordinate>)
    ensures r.ZeroDivision? <==> drone.lat == DEGENERATE_LAT
    ensures r.Value? ==>
      var (north, east) := GroundOffset(lib, theta, phi, height, EarthRadiusAtLat(drone.lat));
      r.value == Coordinate(drone.lon + Rad2Deg(east), drone.lat + Rad2Deg(north))
  {
    var radius := EarthRadiusAtLat(drone.lat);
    EarthRadiusZero(drone.lat);
    if radius == 0.0 then ZeroDivision
    else
      var (north, east) := GroundOffset(lib, theta, phi, height, radius);
      var pLat := Deg2Rad(drone.lat) + north;
      var pLong := Deg2Rad(drone.lon) + east;
      Rad2DegAdditive(Deg2Rad(drone.lat), north);
      Rad2DegAdditive(Deg2Rad(drone.lon), east);
      RadDegRoundTrip(drone.lat);
      RadDegRoundTrip(drone.lon);
      Value(Coordinate(Rad2Deg(pLong), Rad2Deg(pLat)))
  }

  /** The straight-down case of the coordinate round trip: the coordinate saved for an
      aim straight down, looked at again from the same place, is straight down. */
  lemma StraightDownRoundTrip(lib: MathLib, phi: real, height: real, drone: Coordinate)
    requires lib.tan(0.0) == 0.0 && lib.arctan(0.0) == 0.0 && lib.sqrt(0.0) == 0.0
    requires height != 0.0 && drone.lat != DEGENERATE_LAT
    ensures PointToCoordinate(lib, 0.0, phi, height, drone).Value?
    ensures CoordinateToPoint(lib, drone, PointToCoordinate(lib, 0.0, phi, height, drone).value, height)
         == Value(Angular(0.0, 0.0))
  {
    StraightDownIsBelow(lib, phi, height, drone);
    assert PlanarOffset(lib, drone, drone) == (0.0, 0.0);
  }

  /** Looking straight down (theta 0) captures the drone's own coordinate. */
  lemma StraightDownIsBelow(lib: MathLib, phi: real, height: real, drone: Coordinate)
    requires lib.tan(0.0) == 0.0 && lib.arctan(0.0) == 0.0
    requires drone.lat != DEGENERATE_LAT
    ensures PointToCoordinate(lib, 0.0, phi, height, drone) == Value(drone)
  {
    EarthRadiusZero(drone.lat);
    assert GroundOffset(lib, 0.0, phi, height, EarthRadiusAtLat(drone.lat)) == (0.0, 0.0);
  }
}
