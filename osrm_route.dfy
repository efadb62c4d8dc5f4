/**
 * The OSRM route endpoint (`GET /api/route`): parse two points from the
 * query string, ask an OSRM server for a driving route between them, and
 * answer with the route's totals, its end points and its geometry.
 *
 * The OSRM server is an input: a function from the request URL to its
 * answer.
 */
module OsrmRoute {
  import opened Common

  /** The parts of an OSRM route response that are read. */
  datatype OsrmRouteData = OsrmRouteData(distance: Num, duration: Num, geometry: string)

  /** A waypoint's `location`, a list that OSRM fills as [longitude, latitude]. */
  datatype OsrmWaypoint = OsrmWaypoint(location: seq<Num>)

  /** `routes` and `waypoints` are `None` when the key is absent. */
  datatype OsrmResponse = OsrmResponse(routes: Option<seq<OsrmRouteData>>, waypoints: Option<seq<OsrmWaypoint>>)

  datatype Location = Location(longitude: Num, latitude: Num)

  datatype RouteBody = RouteBody(
    message: string,
    distanceMeters: Num,
    durationSeconds: Num,
    startLocation: Location,
    endLocation: Location,
    geometry: string)

  /** Everything the handler depends on besides the query string. */
  datatype Backend = Backend(
    parse: string -> Option<Num>,
    fmt: Num -> string,
    osrm: string -> Fetch<OsrmResponse>)

  /** The reply, and the URL requested from OSRM if a request was made. */
  datatype Handled = Handled(reply: Reply<RouteBody>, requested: Option<string>)

  const OsrmBase := "http://router.project-osrm.org/route/v1/driving/"
  const OsrmQuery := "?overview=full"
  const InvalidCoordinates := "Invalid coordinates. Please provide numeric values."
  const NoRoute := "No route found"
  const RouteFetched := "Route fetched successfully"

  /** `float(request.args.get(name))`: an absent parameter is `None`, and `float(None)` raises `TypeError`. */
  function FloatArg(args: map<string, string>, name: string, parse: string -> Option<Num>): (r: FloatOutcome)
    ensures name !in args ==> r == TypeError
    ensures name in args ==> r == FloatOfText(args[name], parse)
    ensures r.Float? <==> name in args && parse(args[name]).Some?
    ensures r.Float? ==> r.value == parse(args[name]).value
  {
    match Get(args, name)
    case None => TypeError
    case Some(s) => FloatOfText(s, parse)
  }

  /** The coordinate part of the request URL: each point longitude first. */
  function Coordinates(start: Location, end: Location, fmt: Num -> string): string
  {
    fmt(start.longitude) + "," + fmt(start.latitude) + ";" + fmt(end.longitude) + "," + fmt(end.latitude)
  }

  /** The request URL. */
  function OsrmUrl(start: Location, end: Location, fmt: Num -> string): string
  {
    OsrmBase + Coordinates(start, end, fmt) + OsrmQuery
  }

  /**
   * Reading the coordinates back: the first point comes before the `;`, the
   * second after it, each as longitude then latitude, provided the number
   * texts contain no `,` or `;`.
   */
  lemma CoordinatesLongitudeFirst(start: Location, end: Location, fmt: Num -> string)
    requires ',' !in fmt(start.longitude) && ';' !in fmt(start.longitude) && ';' !in fmt(start.latitude)
    requires ',' !in fmt(end.longitude)
    ensures var halves := SplitAt(Coordinates(start, end, fmt), ';');
      && SplitAt(halves.0, ',') == (fmt(start.longitude), fmt(start.latitude))
      && SplitAt(halves.1, ',') == (fmt(end.longitude), fmt(end.latitude))
  {
    var first := fmt(start.longitude) + "," + fmt(start.latitude);
    var second := fmt(end.longitude) + "," + fmt(end.latitude);
    assert Coordinates(start, end, fmt) == first + [';'] + second;
    assert ';' !in first;
    SplitAtJoin(first, second, ';');
    SplitAtJoin(fmt(start.longitude), fmt(start.latitude), ',');
    SplitAtJoin(fmt(end.longitude), fmt(end.latitude), ',');
  }

  /** `[longitude, latitude]` read from a waypoint, or `None` where indexing raises. */
  function WaypointLocation(waypoints: seq<OsrmWaypoint>, k: nat): (r: Option<Location>)
    ensures r.Some? <==> k < |waypoints| && |waypoints[k].location| >= 2
    ensures r.Some? ==> r.value == Location(waypoints[k].location[0], waypoints[k].location[1])
  {
    if k < |waypoints| && |waypoints[k].location| >= 2 then
      Some(Location(waypoints[k].location[0], waypoints[k].location[1]))
    else None
  }

  /**
   * `get_route`. Any of the four parameters missing or not a number: 400.
   * A `RequestException`: 500 with its text. No route: 404. Otherwise the
   * first route's totals and geometry and the first two waypoints. A
   * response without two usable waypoints raises outside the handler's
   * `except`, and Flask answers 500 with its own error page.
   */
  function GetRoute(args: map<string, string>, env: Backend): (h: Handled)
    // 400 exactly when some coordinate does not convert, and then nothing is requested.
    ensures h.reply == Reply(400, Error(InvalidCoordinates)) <==>
      !(&& FloatArg(args, "start_lon", env.parse).Float? && FloatArg(args, "start_lat", env.parse).Float?
        && FloatArg(args, "end_lon", env.parse).Float? && FloatArg(args, "end_lat", env.parse).Float?)
    ensures h.requested.None? <==> h.reply.status == 400
    // Once all four convert, the request is made.
    ensures h.requested.Some? <==>
      && FloatArg(args, "start_lon", env.parse).Float? && FloatArg(args, "start_lat", env.parse).Float?
      && FloatArg(args, "end_lon", env.parse).Float? && FloatArg(args, "end_lat", env.parse).Float?
    // The request names both points, longitude first.
    ensures h.requested.Some? ==>
      h.requested.value == OsrmUrl(Location(env.parse(args["start_lon"]).value, env.parse(args["start_lat"]).value),
                                   Location(env.parse(args["end_lon"]).value, env.parse(args["end_lat"]).value),
                                   env.fmt)
    ensures h.requested.Some? && env.osrm(h.requested.value).RequestFailed? ==>
      h.reply == Reply(500, Error("Failed to fetch route: " + env.osrm(h.requested.value).detail))
    ensures h.requested.Some? && env.osrm(h.requested.value).Got? ==>
      var data := env.osrm(h.requested.value).value;
      (data.routes.None? || data.routes.value == []) <==> h.reply == Reply(404, Error(NoRoute))
    // A route without two usable waypoints escapes the handler's `except`.
    ensures h.reply == Reply(500, Unhandled) <==>
      && h.requested.Some? && env.osrm(h.requested.value).Got?
      && var data := env.osrm(h.requested.value).value;
      && data.routes.Some? && data.routes.value != []
      && (|| data.waypoints.None?
          || WaypointLocation(data.waypoints.value, 0).None?
          || WaypointLocation(data.waypoints.value, 1).None?)
    ensures h.reply.status in {200, 400, 404, 500}
    // A route with two usable waypoints is always a success.
    ensures h.requested.Some? && env.osrm(h.requested.value).Got? ==>
      var data := env.osrm(h.requested.value).value;
      data.routes.Some? && data.routes.value != [] && data.waypoints.Some?
      && WaypointLocation(data.waypoints.value, 0).Some? && WaypointLocation(data.waypoints.value, 1).Some? ==>
      h.reply.status == 200
    // Success: totals from the first route, end points from the first two waypoints, geometry unchanged.
    ensures h.reply.status == 200 ==>
      && h.requested.Some?
      && env.osrm(h.requested.value).Got?
      && var data := env.osrm(h.requested.value).value;
      && data.routes.Some? && data.routes.value != [] && data.waypoints.Some?
      && var route := data.routes.value[0];
      && h.reply.body.Data?
      && var b := h.reply.body.value;
      && b.message == RouteFetched
      && b.distanceMeters == route.distance
      && b.durationSeconds == route.duration
      && b.geometry == route.geometry
      && Some(b.startLocation) == WaypointLocation(data.waypoints.value, 0)
      && Some(b.endLocation) == WaypointLocation(data.waypoints.value, 1)
  {
    var startLon, startLat := FloatArg(args, "start_lon", env.parse), FloatArg(args, "start_lat", env.parse);
    var endLon, endLat := FloatArg(args, "end_lon", env.parse), FloatArg(args, "end_lat", env.parse);
    if !(startLon.Float? && startLat.Float? && endLon.Float? && endLat.Float?) then
      Handled(Reply(400, Error(InvalidCoordinates)), None)
    else
      var url := OsrmUrl(Location(startLon.value, startLat.value), Location(endLon.value, endLat.value), env.fmt);
      var reply :=
        match env.osrm(url)
        case RequestFailed(detail) => Reply(500, Error("Failed to fetch route: " + detail))
        case Got(data) =>
          if data.routes.None? || data.routes.value == [] then Reply(404, Error(NoRoute))
          else
            var route := data.routes.value[0];
            match data.waypoints
            case None => Reply(500, Unhandled)
            case Some(waypoints) =>
              match (WaypointLocation(waypoints, 0), WaypointLocation(waypoints, 1))
              case (Some(start), Some(end)) =>
                Reply(200, Data(RouteBody(RouteFetched, route.distance, route.duration, start, end, route.geometry)))
              case _ => Reply(500, Unhandled);
      Handled(reply, Some(url))
  }
}
