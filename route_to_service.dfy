/**
 * The route-to-nearest-service endpoint (`GET /api/route-to-service`): find
 * the emergency service nearest to the user, ask the Google Directions API
 * for a driving route to it, and answer with both.
 *
 * The database and the directions provider are inputs: the table contents
 * (or the error the driver raises), an abstract distance function standing
 * for `ST_Distance`, and a function from request parameters to the
 * provider's answer. The handler reports the external calls it made, so
 * that "no lookup is made" can be stated.
 */
module RouteToService {
  import opened Common

  /** The record `get_nearest_service` builds from the row it selects. */
  datatype NearestService = NearestService(
    id: nat,
    name: Json,
    kind: Json,
    address: Json,
    contactInfo: Json,
    longitude: Num,
    latitude: Num,
    distanceMeters: int)

  /**
   * A row of minimal distance from `user`, or `None` for an empty table: the
   * query `ORDER BY distance ASC LIMIT 1`. Which of several equidistant rows
   * the database returns is left open by the query; this picks the first.
   */
  function Nearest(rows: seq<ServiceRow>, user: Point, dist: (Point, Point) -> int): (r: Option<ServiceRow>)
    ensures r.None? <==> rows == []
    ensures r.Some? ==> r.value in rows
    ensures r.Some? ==> forall i :: 0 <= i < |rows| ==> dist(r.value.location, user) <= dist(rows[i].location, user)
  {
    if rows == [] then None
    else
      match Nearest(rows[1..], user, dist)
      case None => Some(rows[0])
      case Some(best) =>
        if dist(rows[0].location, user) <= dist(best.location, user) then Some(rows[0]) else Some(best)
  }

  /** The record returned for a selected row, with its distance from `user`. */
  function Describe(row: ServiceRow, user: Point, dist: (Point, Point) -> int): NearestService
  {
    NearestService(row.id, row.name, row.kind, row.address, row.contactInfo,
                   row.location.x, row.location.y, dist(row.location, user))
  }

  /**
   * `get_nearest_service(user_lon, user_lat)`. A database error (`dbError`
   * holds its text) is swallowed and answers `None`, like an empty table.
   */
  function GetNearestService(table: seq<ServiceRow>, dbError: Option<string>, userLon: Num, userLat: Num,
                             dist: (Point, Point) -> int): (r: Option<NearestService>)
    ensures r.None? <==> dbError.Some? || table == []
    ensures r.Some? ==> exists row :: row in table && r.value == Describe(row, Point(userLon, userLat), dist)
    ensures r.Some? ==> forall row :: row in table ==> r.value.distanceMeters <= dist(row.location, Point(userLon, userLat))
  {
    if dbError.Some? then None
    else
      var user := Point(userLon, userLat);
      match Nearest(table, user, dist)
      case None => None
      case Some(row) => Some(Describe(row, user, dist))
  }

  /** Squared planar distance: one concrete choice of distance function, for the example below. */
  function SquaredDistance(p: Point, q: Point): int
  {
    (p.x - q.x) * (p.x - q.x) + (p.y - q.y) * (p.y - q.y)
  }

  /**
   * A worked example in hundredths of a degree: services A at (-9.23, 38.70)
   * and B at (-9.10, 38.75), user at (-9.20, 38.71). The lookup answers A.
   * The assertions only show the reader the two distances; Dafny needs none of them.
   */
  lemma NearestExample()
    ensures var a := ServiceRow(1, JStr("A"), JStr("hospital"), Point(-923, 3870), JStr(""), JStr(""));
      var b := ServiceRow(2, JStr("B"), JStr("police"), Point(-910, 3875), JStr(""), JStr(""));
      var r := GetNearestService([a, b], None, -920, 3871, SquaredDistance);
      r.Some? && r.value.id == 1 && r.value.longitude == -923 && r.value.latitude == 3870
  {
    var a := ServiceRow(1, JStr("A"), JStr("hospital"), Point(-923, 3870), JStr(""), JStr(""));
    var b := ServiceRow(2, JStr("B"), JStr("police"), Point(-910, 3875), JStr(""), JStr(""));
    var user := Point(-920, 3871);
    assert SquaredDistance(a.location, user) == 10;
    assert SquaredDistance(b.location, user) == 116;
    assert [a, b][1..] == [b];
    assert Nearest([b], user, SquaredDistance) == Some(b);
  }

  /** The query parameters of a Google Directions request. */
  datatype DirectionsParams = DirectionsParams(origin: string, destination: string, mode: string, key: Option<string>)

  /**
   * The parameters `get_route_from_google` sends: origin and destination as
   * "latitude,longitude" text, driving mode, and the API key (`None` when the
   * environment variable is unset). `fmt` is Python's number-to-text
   * conversion in f-strings.
   */
  function GoogleParams(userLon: Num, userLat: Num, serviceLon: Num, serviceLat: Num,
                        apiKey: Option<string>, fmt: Num -> string): DirectionsParams
  {
    DirectionsParams(fmt(userLat) + "," + fmt(userLon), fmt(serviceLat) + "," + fmt(serviceLon), "driving", apiKey)
  }

  /**
   * Reading the parameters back: the origin names the user's latitude then
   * longitude, the destination the service's, provided the number texts
   * contain no comma.
   */
  lemma GoogleParamsLatitudeFirst(userLon: Num, userLat: Num, serviceLon: Num, serviceLat: Num,
                                  apiKey: Option<string>, fmt: Num -> string)
    requires ',' !in fmt(userLat) && ',' !in fmt(serviceLat)
    ensures var p := GoogleParams(userLon, userLat, serviceLon, serviceLat, apiKey, fmt);
      && SplitAt(p.origin, ',') == (fmt(userLat), fmt(userLon))
      && SplitAt(p.destination, ',') == (fmt(serviceLat), fmt(serviceLon))
      && p.mode == "driving"
      && p.key == apiKey
  {
    SplitAtJoin(fmt(userLat), fmt(userLon), ',');
    SplitAtJoin(fmt(serviceLat), fmt(serviceLon), ',');
  }

  /** A `{"lat": ..., "lng": ...}` location, passed through as it is. */
  datatype LatLng = LatLng(lat: Num, lng: Num)

  /** The parts of a Google Directions response that are read. */
  datatype GoogleStep = GoogleStep(
    htmlInstructions: string,
    distance: Num,
    duration: Num,
    startLocation: LatLng,
    endLocation: LatLng)

  datatype GoogleLeg = GoogleLeg(
    distance: Num,
    duration: Num,
    startAddress: string,
    endAddress: string,
    steps: seq<GoogleStep>)

  datatype GoogleRoute = GoogleRoute(legs: seq<GoogleLeg>, overviewPolyline: string)

  /** `routes` is `None` when the response has no "routes" key. */
  datatype GoogleResponse = GoogleResponse(routes: Option<seq<GoogleRoute>>)

  /** The route record the endpoint answers with. */
  datatype RouteStep = RouteStep(
    instruction: string,
    distanceMeters: Num,
    durationSeconds: Num,
    startLocation: LatLng,
    endLocation: LatLng)

  datatype FormattedRoute = FormattedRoute(
    distanceMeters: Num,
    durationSeconds: Num,
    startAddress: string,
    endAddress: string,
    steps: seq<RouteStep>,
    polyline: string)

  /**
   * The normalisation in `get_route_from_google`: no route when "routes" is
   * absent or empty; otherwise the first leg of the first route, with its
   * own totals (the steps are not summed), its steps copied one for one in
   * order, and the polyline unchanged. A route without legs makes `[0]`
   * raise `IndexError`, which escapes the function.
   */
  function NormalizeGoogle(data: GoogleResponse): (r: Call<Option<FormattedRoute>>)
    ensures (data.routes.None? || data.routes.value == []) <==> r == Returned(None)
    ensures r.Raised? <==> data.routes.Some? && data.routes.value != [] && data.routes.value[0].legs == []
    ensures r.Returned? && r.value.Some? ==>
      var route := data.routes.value[0];
      var leg := route.legs[0];
      var f := r.value.value;
      && f.distanceMeters == leg.distance
      && f.durationSeconds == leg.duration
      && f.startAddress == leg.startAddress
      && f.endAddress == leg.endAddress
      && f.polyline == route.overviewPolyline
      && |f.steps| == |leg.steps|
      && forall i :: 0 <= i < |leg.steps| ==>
           && f.steps[i].instruction == leg.steps[i].htmlInstructions
           && f.steps[i].distanceMeters == leg.steps[i].distance
           && f.steps[i].durationSeconds == leg.steps[i].duration
           && f.steps[i].startLocation == leg.steps[i].startLocation
           && f.steps[i].endLocation == leg.steps[i].endLocation
  {
    match data.routes
    case None => Returned(None)
    case Some(routes) =>
      if routes == [] then Returned(None)
      else if routes[0].legs == [] then Raised
      else
        var route := routes[0];
        var leg := route.legs[0];
        var steps := seq(|leg.steps|, i requires 0 <= i < |leg.steps| =>
          RouteStep(leg.steps[i].htmlInstructions, leg.steps[i].distance, leg.steps[i].duration,
                    leg.steps[i].startLocation, leg.steps[i].endLocation));
        Returned(Some(FormattedRoute(leg.distance, leg.duration, leg.startAddress, leg.endAddress,
                                     steps, route.overviewPolyline)))
  }

  /**
   * `get_route_from_google`: a `RequestException` gives `None`; any other
   * outcome is that of the normalisation.
   */
  function GetRouteFromGoogle(params: DirectionsParams, directions: DirectionsParams -> Fetch<GoogleResponse>)
    : (r: Call<Option<FormattedRoute>>)
    ensures directions(params).RequestFailed? ==> r == Returned(None)
    ensures directions(params).Got? ==> r == NormalizeGoogle(directions(params).value)
  {
    match directions(params)
    case RequestFailed(_) => Returned(None)
    case Got(data) => NormalizeGoogle(data)
  }

  /** Everything the handler depends on besides the query string. */
  datatype Backend = Backend(
    table: seq<ServiceRow>,
    dbError: Option<string>,
    dist: (Point, Point) -> int,
    parse: string -> Option<Num>,
    fmt: Num -> string,
    apiKey: Option<string>,
    directions: DirectionsParams -> Fetch<GoogleResponse>)

  /** An external call the handler makes. */
  datatype ExternalCall = NearestLookup(lon: Num, lat: Num) | DirectionsRequest(params: DirectionsParams)

  datatype UserLocation = UserLocation(longitude: Num, latitude: Num)

  datatype RouteToServiceBody = RouteToServiceBody(
    message: string,
    userLocation: UserLocation,
    nearestService: NearestService,
    route: FormattedRoute)

  /** The reply, and the external calls made while producing it, in order. */
  datatype Handled = Handled(reply: Reply<RouteToServiceBody>, calls: seq<ExternalCall>)

  /** `if not x`: a query parameter that is absent or empty. */
  predicate Blank(arg: Option<string>)
  {
    arg.None? || arg.value == ""
  }

  const MissingParameters := "Missing required parameters: latitude, longitude"
  const InvalidNumbers := "Latitude and Longitude must be valid numbers"
  const NoServices := "No emergency services found"
  const NoRoute := "No route found"
  const InternalError := "Internal server error"
  const RouteFetched := "Route fetched successfully"

  /**
   * `get_route_to_service`, a chain of early returns: missing parameter 400,
   * unparsable number 400, no nearest service 404, no route 404, success 200,
   * and an exception escaping the route fetch 500.
   */
  function GetRouteToService(args: map<string, string>, env: Backend): (h: Handled)
    // Missing or empty parameters: 400, before any lookup.
    ensures Blank(Get(args, "longitude")) || Blank(Get(args, "latitude")) <==>
      h == Handled(Reply(400, Error(MissingParameters)), [])
    // Unparsable parameters: 400, before any lookup.
    ensures h.reply == Reply(400, Error(InvalidNumbers)) <==>
      && !Blank(Get(args, "longitude")) && !Blank(Get(args, "latitude"))
      && (env.parse(args["longitude"]).None? || env.parse(args["latitude"]).None?)
    ensures h.reply.status == 400 <==> h.calls == []
    // Once both numbers parse, the nearest lookup is made with them.
    ensures h.calls != [] <==>
      && !Blank(Get(args, "longitude")) && !Blank(Get(args, "latitude"))
      && env.parse(args["longitude"]).Some? && env.parse(args["latitude"]).Some?
    ensures h.calls != [] ==>
      h.calls[0] == NearestLookup(env.parse(args["longitude"]).value, env.parse(args["latitude"]).value)
    // A database error or an empty table ends in 404, never 500, and no route is requested.
    ensures h.calls != [] && (env.dbError.Some? || env.table == []) ==>
      h == Handled(Reply(404, Error(NoServices)), h.calls[..1])
    // Otherwise the directions provider is asked for a driving route to the service the lookup chose.
    ensures |h.calls| == 2 <==> h.calls != [] && env.dbError.None? && env.table != []
    ensures |h.calls| == 2 ==>
      && GetNearestService(env.table, env.dbError, h.calls[0].lon, h.calls[0].lat, env.dist).Some?
      && var s := GetNearestService(env.table, env.dbError, h.calls[0].lon, h.calls[0].lat, env.dist).value;
      && h.calls[1] == DirectionsRequest(GoogleParams(h.calls[0].lon, h.calls[0].lat, s.longitude, s.latitude,
                                                      env.apiKey, env.fmt))
    ensures h.reply.status in {200, 400, 404, 500}
    // The outcome of the route fetch decides the reply: raised 500, no route 404, a route 200.
    ensures h.reply.status == 500 <==>
      |h.calls| == 2 && env.directions(h.calls[1].params).Got?
      && NormalizeGoogle(env.directions(h.calls[1].params).value).Raised?
    ensures |h.calls| == 2 && GetRouteFromGoogle(h.calls[1].params, env.directions).Raised? ==>
      h.reply == Reply(500, Error(InternalError))
    ensures |h.calls| == 2 && GetRouteFromGoogle(h.calls[1].params, env.directions) == Returned(None) ==>
      h.reply == Reply(404, Error(NoRoute))
    ensures (&& |h.calls| == 2 && GetRouteFromGoogle(h.calls[1].params, env.directions).Returned?
             && GetRouteFromGoogle(h.calls[1].params, env.directions).value.Some?) ==>
      h.reply.status == 200
    // Success: the parsed location is echoed, the nearest service and the route are included unchanged.
    ensures h.reply.status == 200 ==>
      && |h.calls| == 2
      && h.reply.body.Data?
      && var b := h.reply.body.value;
      && b.message == RouteFetched
      && b.userLocation == UserLocation(h.calls[0].lon, h.calls[0].lat)
      && Some(b.nearestService) == GetNearestService(env.table, env.dbError, h.calls[0].lon, h.calls[0].lat, env.dist)
      && GetRouteFromGoogle(h.calls[1].params, env.directions) == Returned(Some(b.route))
  {
    var lonArg, latArg := Get(args, "longitude"), Get(args, "latitude");
    if Blank(lonArg) || Blank(latArg) then
      Handled(Reply(400, Error(MissingParameters)), [])
    else if env.parse(lonArg.value).None? || env.parse(latArg.value).None? then
      Handled(Reply(400, Error(InvalidNumbers)), [])
    else
      var userLon, userLat := env.parse(lonArg.value).value, env.parse(latArg.value).value;
      var lookup := [NearestLookup(userLon, userLat)];
      match GetNearestService(env.table, env.dbError, userLon, userLat, env.dist)
      case None => Handled(Reply(404, Error(NoServices)), lookup)
      case Some(service) =>
        var params := GoogleParams(userLon, userLat, service.longitude, service.latitude, env.apiKey, env.fmt);
        var calls := lookup + [DirectionsRequest(params)];
        match GetRouteFromGoogle(params, env.directions)
        case Raised => Handled(Reply(500, Error(InternalError)), calls)
        case Returned(None) => Handled(Reply(404, Error(NoRoute)), calls)
        case Returned(Some(route)) =>
          var body := RouteToServiceBody(RouteFetched, UserLocation(userLon, userLat), service, route);
          Handled(Reply(200, Data(body)), calls)
  }
}
