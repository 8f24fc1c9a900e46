/**
 * The route helpers of iCUrHealth/WorkoutMapView.swift: the region a map
 * of a route is centred on, the path drawn over it, and the view model
 * that keeps a route's coordinates published beside the route.
 */
module WorkoutMap {
  import opened Optional

  /** `CLLocationCoordinate2D`. */
  datatype Coordinate = Coordinate(latitude: real, longitude: real)

  /** `MKCoordinateSpan`. */
  datatype Span = Span(latitudeDelta: real, longitudeDelta: real)

  /** `MKCoordinateRegion`. */
  datatype Region = Region(center: Coordinate, span: Span)

  /** `MKCoordinateRegion()`: every component zero. */
  const DefaultRegion: Region := Region(Coordinate(0.0, 0.0), Span(0.0, 0.0))

  /** The span `regionForRoute` always uses. */
  const RouteSpan: Span := Span(0.01, 0.01)

  datatype WorkoutRoute = WorkoutRoute(coordinates: seq<Coordinate>)

  /** `s.last`. */
  function Last<T>(s: seq<T>): Option<T>
  {
    if s == [] then None else Some(s[|s| - 1])
  }

  /**
   * `MapView.regionForRoute` (lines 103-114): the last coordinate of the
   * first `n / 2`, which exists only when there are at least two.
   */
  function RegionForRoute(route: WorkoutRoute): (region: Region)
    ensures |route.coordinates| < 2 ==> region == DefaultRegion
    ensures |route.coordinates| >= 2 ==>
      var centre := |route.coordinates| / 2 - 1;
      && 0 <= centre < |route.coordinates| - centre - 1
      && region.center == route.coordinates[centre]
      && region.span == RouteSpan
  {
    var count := |route.coordinates| / 2;
    match Last(route.coordinates[..count])
    case None => DefaultRegion
    case Some(firstCoordinate) => Region(firstCoordinate, RouteSpan)
  }

  /** The region depends on the route's length and its first half only. */
  lemma RegionIgnoresSecondHalf(route1: WorkoutRoute, route2: WorkoutRoute)
    requires |route1.coordinates| == |route2.coordinates|
    requires route1.coordinates[..|route1.coordinates| / 2] == route2.coordinates[..|route2.coordinates| / 2]
    ensures RegionForRoute(route1) == RegionForRoute(route2)
  {
    var n := |route1.coordinates|;
    if n >= 2 {
      assert route1.coordinates[n / 2 - 1] == route1.coordinates[..n / 2][n / 2 - 1];
      assert route2.coordinates[n / 2 - 1] == route2.coordinates[..n / 2][n / 2 - 1];
    }
  }

  /** A `CGPoint` of the overlay. */
  datatype Point = Point(x: real, y: real)

  /** The two `Path` operations the overlay uses. */
  datatype PathElement = MoveTo(to: Point) | AddLine(to: Point)

  /**
   * `MapOverlay.path(in:)` (lines 120-139) as the list of path operations.
   * `project` stands for the projection of a coordinate onto the drawing
   * rectangle.
   */
  method OverlayPath(coordinates: seq<Coordinate>, project: Coordinate -> Point) returns (path: seq<PathElement>)
    ensures coordinates == [] ==> path == []
    ensures |path| == |coordinates|
    ensures forall k :: 0 <= k < |path| ==> (path[k].MoveTo? <==> k == 0)
    ensures forall k :: 0 <= k < |path| ==> path[k].to == project(coordinates[k])
  {
    path := [];
    if coordinates == [] {
      return;
    }
    var firstCoordinate := coordinates[0];
    path := path + [MoveTo(project(firstCoordinate))];
    var rest := coordinates[1..];
    for k := 0 to |rest|
      invariant |path| == k + 1
      invariant path[0] == MoveTo(project(firstCoordinate))
      invariant forall i :: 1 <= i < |path| ==> path[i] == AddLine(project(coordinates[i]))
    {
      var coordinate := rest[k];
      path := path + [AddLine(project(coordinate))];
    }
  }

  /** `workoutRoute?.coordinates ?? []`. */
  function CoordinatesOf(route: Option<WorkoutRoute>): seq<Coordinate>
  {
    match route
    case Some(r) => r.coordinates
    case None => []
  }

  /** `WorkoutViewModel` (lines 17-24), without its `workout` and health store. */
  class WorkoutViewModel {
    var workoutRoute: Option<WorkoutRoute>
    var workoutRouteCoordinates: seq<Coordinate>

    /** The published coordinates are those of the published route. */
    predicate Synced()
      reads this
    {
      workoutRouteCoordinates == CoordinatesOf(workoutRoute)
    }

    constructor ()
      ensures workoutRoute == None && workoutRouteCoordinates == []
      ensures Synced()
    {
      workoutRoute := None;
      workoutRouteCoordinates := [];
    }

    /** Assigning `workoutRoute`, followed by its `didSet`. */
    method SetWorkoutRoute(route: Option<WorkoutRoute>)
      modifies this
      ensures workoutRoute == route
      ensures route.Some? ==> workoutRouteCoordinates == route.value.coordinates
      ensures route.None? ==> workoutRouteCoordinates == []
      ensures Synced()
    {
      workoutRoute := route;
      workoutRouteCoordinates := CoordinatesOf(workoutRoute);
    }
  }

}
