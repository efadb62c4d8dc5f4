# Emergency services locator: a Dafny model of its request handlers

The system answers four kinds of request about emergency services (hospitals,
police stations, fire stations) stored in a PostGIS table:

- **route to the nearest service** (`GET /api/route-to-service`, `api/routing.py`):
  validate the user's coordinates, pick the service row of least distance
  (`ORDER BY distance ASC LIMIT 1`), ask the Google Directions API for a
  driving route to it, and flatten the first leg of the first route into the
  reply;
- **route between two points** (`GET /api/route`, `flask_api/routing.py`):
  the same validate / no-route / project chain against an OSRM server, which
  reports totals per route and end points as waypoints;
- **ingestion transform** (`transform_osm_data`, `ETL/etl.py`): turn each
  Overpass element into one service record, with defaults for missing tags;
- **service and review tables** (`api/services.py`, `api/reviews.py`): list,
  add and delete services; add reviews and list those of one service.

The model is in five modules over a shared `Common` module:

| file | module | source | form |
|---|---|---|---|
| `common.dfy` | `Common` | shared values | datatypes and functions |
| `route_to_service.dfy` | `RouteToService` | `api/routing.py` | pure functions |
| `osrm_route.dfy` | `OsrmRoute` | `flask_api/routing.py` | pure functions |
| `osm_transform.dfy` | `OsmTransform` | `ETL/etl.py` | a method with a loop |
| `services.dfy` | `Services` | `api/services.py` | class `ServicesTable` over `seq<ServiceRow>` |
| `reviews.dfy` | `Reviews` | `api/reviews.py` | class `ReviewsTable` over `seq<ReviewRow>` |

Everything outside the handlers becomes an input:

- the database is the table's rows, plus `dbError: Option<string>`, the text
  of the exception the driver raises during the request (`None` when it
  raises none);
- `ST_Distance` is an abstract integer-valued function `dist`;
- Python's `float()` on text is a caller-supplied `parse: string -> Option<Num>`,
  where `None` stands for `ValueError`;
- number-to-text conversion in f-strings is `fmt: Num -> string`;
- each HTTP provider is a function from the request (Google parameters, OSRM
  URL) to its answer or to a `RequestException` (`Fetch`).

The two routing handlers are pure. They return the reply together with the
external calls they made. So "400 before any lookup" is a statement about
that list being empty.

Some behaviours of the code worth knowing, all modelled as they are:

- the ingestion transform keeps elements without coordinates (their
  coordinates are `None`); it does not skip them;
- reviews are accepted whatever the rating and whether or not the service
  exists;
- no coordinate range check is made anywhere;
- a database failure in the nearest-service lookup answers 404 "No emergency
  services found", the same as an empty table;
- Google step instructions are copied as given, with no placeholder.

## Model

| member | source | states |
|---|---|---|
| `RouteToService.Nearest` | api/routing.py:19-30 | `None` exactly for an empty table; otherwise a row of the table whose distance from the user is at most that of every row |
| `RouteToService.GetNearestService` | api/routing.py:14-46 | `None` exactly when the database raises or the table is empty; otherwise the record of some table row, with the row's coordinates as longitude/latitude and a distance no greater than any row's |
| `RouteToService.NearestExample` | api/routing.py:19-40 | with services A at (-9.23, 38.70) and B at (-9.10, 38.75) and the user at (-9.20, 38.71), the lookup answers A with A's coordinates |
| `RouteToService.GoogleParamsLatitudeFirst` | api/routing.py:52-57 | the origin reads back as user latitude then longitude and the destination as service latitude then longitude; mode is "driving"; the key is passed on |
| `RouteToService.NormalizeGoogle` | api/routing.py:64-87 | no route exactly when "routes" is absent or empty; a route without legs raises; otherwise totals and addresses come from the first leg, steps are copied one for one in order, and the polyline is unchanged |
| `RouteToService.GetRouteFromGoogle` | api/routing.py:59-93 | a request exception yields no route; otherwise the outcome of the normalisation of the provider's answer |
| `RouteToService.GetRouteToService` | api/routing.py:96-137 | 400 with no external call for missing, empty or unparsable coordinates, and the lookup is made exactly when both parse, with the parsed numbers; a database error or empty table gives 404 and no route request; otherwise the directions request goes to the coordinates of the service the lookup chose; the fetch's outcome decides the rest: raised gives 500 "Internal server error", no route (request failure, absent or empty routes) gives 404 "No route found", a route gives 200; 200 echoes the parsed location and carries the looked-up service and the fetched route unchanged |
| `OsrmRoute.FloatArg` | flask_api/routing.py:11-21 | an absent parameter is a `TypeError`; a present one converts as `float()` on its text: a number when it parses, `ValueError` otherwise |
| `OsrmRoute.CoordinatesLongitudeFirst` | flask_api/routing.py:23 | the coordinate part of the URL reads back as start longitude, start latitude; end longitude, end latitude |
| `OsrmRoute.WaypointLocation` | flask_api/routing.py:43-44 | a location exists exactly when the waypoint and both list entries exist; index 0 is the longitude and index 1 the latitude |
| `OsrmRoute.GetRoute` | flask_api/routing.py:7-51 | 400 exactly when one of the four coordinates is missing or not numeric, and the request is made exactly when all four convert; the URL names both points longitude first; a request exception gives 500 with its text; no routes gives 404; a response without two usable waypoints escapes to Flask's 500; routes with two usable waypoints always give 200, which carries the first route's distance, duration and geometry and the first two waypoints |
| `OsmTransform.Tag` | ETL/etl.py:39-44 | the tag's value when the element has tags holding the key, the default otherwise |
| `OsmTransform.TransformElement` | ETL/etl.py:38-45 | name and type default to "Unknown", address and contact info to ""; coordinates are copied, `None` when absent |
| `OsmTransform.TransformOsmData` | ETL/etl.py:34-48 | exactly one record per element, the i-th record built from the i-th element, none skipped |
| `Services.ServicesTable.GetServices` | api/services.py:7-27 | 500 with the error text on a database error; 404 for an empty table; otherwise 200 with one listing per row (the model lists them in stored order), longitude and latitude read from the point |
| `Services.ValidateService` | api/services.py:33-53 | 400 for a missing required field; latitude is converted before longitude; `ValueError` gives 400; `TypeError` escapes to Flask's 500; an accepted request yields the row with point (longitude, latitude) and the other fields copied |
| `Services.ServicesTable.AddService` | api/services.py:31-58 | a rejected request changes nothing; a database error gives 500 and changes nothing; otherwise exactly the validated row is appended and the reply is 201 |
| `Services.WithoutId` | api/services.py:76 | keeps exactly the rows whose id differs, and everything when the id is absent |
| `Services.WithoutIdKeepsIds` | api/services.py:76 | deleting keeps ids distinct and below the next serial id |
| `Services.WithoutIdRemovesOne` | api/services.py:69-77 | with distinct ids, deleting a present id removes exactly one row |
| `Services.ServicesTable.DeleteService` | api/services.py:63-81 | a database error gives 500 and no change; an absent id gives 404 and no change; a present id removes its row, keeps all others in order, and answers 200 with the id in the message |
| `Common.NatToString` | api/services.py:79 | the id is written as decimal digits only, with no leading zero, and 0 as "0", as `str()` writes it |
| `Common.NatToStringValue` | api/services.py:79 | the decimal text of the id in the delete message denotes that id |
| `Common.FloatOfJson` | api/services.py:42 | `TypeError` exactly for null, lists and objects; numbers convert to themselves (numbers are unbounded, see "Left out"); booleans convert to 1 and 0; strings are parsed |
| `Reviews.AllFilled` | api/reviews.py:18-21 | true exactly when no field is empty |
| `Reviews.ReviewsTable.AddReview` | api/reviews.py:9-38 | an empty field gives 400 and writes nothing, even when the database would fail; a database error gives 500 and writes nothing; otherwise exactly one row (service_id, user_name, rating, review) is appended and the reply is 201 |
| `Reviews.ReviewsFor` | api/reviews.py:45-54 | lists a review exactly when some stored review with that service id has it as user_name, rating and review; empty exactly when no review has that id |
| `Reviews.ReviewsForOne` | api/reviews.py:45-54 | a single review is listed exactly when its service id matches |
| `Reviews.ReviewsForAppend` | api/reviews.py:45-54 | listing a concatenation concatenates the listings, so each matching review is listed as many times as it is stored (and, in the model, in stored order) |
| `Reviews.ReviewsTable.GetReviews` | api/reviews.py:42-61 | 500 with the error text on a database error; 404 when no review has the id; otherwise 200 with every review for that id and no other |

## Left out

- Database connections, HTTP transport, JSON encoding, logging and request timeouts: the handlers receive their outcomes as inputs.
- Geodesic distance (`ST_Distance` with SRID 4326) is the abstract function `dist`. Python's `float()` parsing and float-to-text formatting are the parameters `parse` and `fmt`. Numbers are integers, so rounding, NaN and infinities are not modelled.
- `RouteToService.Nearest`: states only that the chosen row has minimal distance, not which of several equidistant rows is chosen, because `LIMIT 1` leaves that to the database.
- `Common.FloatOfJson`, `Services.ValidateService`: `float()` of a JSON integer outside the double range raises `OverflowError`, which `except ValueError` does not catch, so `add_service` escapes to Flask's 500 and inserts nothing; the model's numbers are unbounded and always convert, so such a request is accepted.
- `Services.ServicesTable.GetServices`, `Reviews.ReviewsFor`: `get_services` and `get_reviews` select without `ORDER BY`, so the program promises the contents and multiplicity of a listing but not its order. The model's rows are a sequence listed in stored order, and `AddService` and `AddReview` append at the end; that order, and "a newly added row is listed last", are conventions of the model, not promises of the program.
- `extract_osm_data` and `load_data_to_db` (network fetch and batch insert) are not part of this model; neither are `api/db.py`, `app.py` and `flask_api/app.py` (connection setup and blueprint wiring).
- Keys missing inside provider answers are modelled only where the code tests or indexes them: "routes", Google's legs, OSRM's "waypoints" and their locations. Every other key read from a provider answer is assumed present.
- Request bodies are assumed to be JSON objects (`add_service`). A form missing one of the four review fields is not modelled; Flask answers 400 to it before the handler's own check.
- `get_reviews` passes `(data['service_id'])`, which is not a one-element tuple, to the driver. The model takes the intended filter by service id as its input.
- PostgreSQL coercion is not modelled: review service ids and ratings are kept as the submitted text, and service text columns keep the JSON value the request carried.
- A database error is one exception per request, raised before anything is committed. The serial id that PostgreSQL would use up on a failed insert is not modelled.
