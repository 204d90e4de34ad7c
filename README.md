# Petrol pumps along a route: a verified model

The service answers `GET /routes?start=…&destination=…` with an HTML map. The
map shows every route the OSRM routing engine proposes between the two places,
and the petrol pumps found along each route. The steps are:

1. The two inputs are resolved to coordinates. When both hold a comma they are
   read as literal `lat,lon` pairs. Otherwise both are looked up by the
   Nominatim place search.
2. The routing engine is asked for driving routes. Its waypoints are written
   longitude first.
3. Each route's geometry is simplified and cut into windows of 10 consecutive
   points.
4. One Overpass query per window asks for the fuel-station nodes inside the
   window's polygon. The queries run concurrently and are consumed in
   completion order.
5. Each returned node becomes a pump record: its name, its coordinates, and
   the road, city and state from Nominatim reverse geocoding, with "Unknown"
   for anything missing.
6. Any exception inside the handler is answered with status 500.

The model is written in Dafny, one module per concern:

| module | file | models |
|---|---|---|
| `Values` | values.dfy | decoded JSON values; the Python operations applied to them (`get`, `[key]`, `[0]`, `float`, truthiness, iteration); `raise_for_status` plus `json()` |
| `Text` | text.dfy | `str.split` and `str.join` for a one-character separator |
| `Segmenter` | segmenter.dfy | the segment comprehension of `find_petrol_pumps` |
| `Overpass` | overpass.dfy | the query text built by `query_overpass` |
| `Geocoding` | geocoding.dfy | `geocode_coordinates` and the place search inside `get_routes` |
| `PetrolPumps` | pumps.dfy | the element loop and the completion-order loop of `find_petrol_pumps` |
| `Routes` | routes.dfy | `get_routes`: input modes, routing URL, route loop, the 500 funnel |

The outside world is a parameter of the model, the datatype `Values.Services`.
It holds:

- the four HTTP endpoints, as functions from a request to an `HttpReply`, which
  is either no response or a status code and a body that may or may not be
  JSON;
- the route simplifier;
- Python's float-to-text and text-to-float conversions.

The completion order of the concurrent Overpass queries is also a parameter:
a sequence holding each segment index exactly once (`IsCompletionOrder`).

## Model

| member | source | states |
|---|---|---|
| `Values.Fetch` | map_view.py:34-36 | a call succeeds exactly when a response arrived, its status is outside 400–599 and its body is JSON; the result is that body |
| `Values.DictGet` | map_view.py:57 | `get(key, default)` succeeds exactly on a dictionary and gives the key's value or the default |
| `Values.Subscript` | map_view.py:76-77 | `v[key]` gives the value of a present key; a missing key raises KeyError and a non-dictionary raises TypeError |
| `Values.ToFloat` | map_view.py:111 | `float` returns a number unchanged, gives 1.0 or 0.0 for a boolean, succeeds on text exactly when the text is numeric and then gives its value, and fails on anything else |
| `Values.First` | map_view.py:111 | `data[0]` of a non-empty list is its first item, and succeeds only on a non-empty list or text |
| `Values.FalsyValues` | map_view.py:109 | `not data` holds exactly for null, false, zero, the empty text, the empty list and the empty dictionary |
| `Values.ItemsToSubscript` | map_view.py:75 | iterating a list visits its items; a non-empty dictionary or string fails as soon as its first key is subscripted |
| `Text.Split` | map_view.py:114 | `split` yields at least one piece, no piece holds the separator, and there are two or more pieces exactly when the text holds the separator |
| `Text.JoinSplit` | map_view.py:114 | joining the pieces of a split gives back the text |
| `Text.SplitJoin` | map_view.py:28 | splitting a join of non-empty pieces that do not hold the separator gives back the pieces |
| `Segmenter.Windows` | map_view.py:68 | the route is empty exactly when there are no windows; every window has 1 to n points, and every window but the last has exactly n |
| `Segmenter.SegmentRoute` | map_view.py:68 | a segment length of 0 raises ValueError (`range` step 0); a negative length gives no segments; a positive one gives the windows |
| `Segmenter.ConcatWindows` | map_view.py:68 | the windows concatenated in order are the route: no point is lost, duplicated or reordered |
| `Segmenter.WindowAt` | map_view.py:68 | window k starts at point k·n and is the slice `route[k*n:k*n+n]` |
| `Segmenter.WindowCount` | map_view.py:68 | there are ⌈len/n⌉ windows, one per value of `range(0, len, n)` |
| `Overpass.Components` | map_view.py:28 | two numbers per point, the point's second coordinate before its first |
| `Overpass.PolygonTokens` | map_view.py:28 | the `poly:` string split at spaces is exactly the components, two per point, swapped and in order |
| `Overpass.QueryQuotes` | map_view.py:29-33 | split at double quotes, the query is the `[out:json]` header, `amenity`, `=`, `fuel`, `](poly:`, the polygon and the `out body` tail |
| `Geocoding.AddressRecord` | map_view.py:56-60 | the record has exactly the keys address, city and state; each is the road, city or state of the "address" dictionary or "Unknown"; it fails exactly when the reply or its "address" is not a dictionary |
| `Geocoding.ReverseGeocode` | map_view.py:51-60 | status 403 raises the Nominatim 403 HTTPException; otherwise it succeeds exactly when the call and the address record succeed, giving that record |
| `Geocoding.Locate` | map_view.py:100-111 | a falsy decoded reply raises the 400 naming the location; a failed call raises something else; a reply whose first result is a dictionary with convertible "lat" and "lon" succeeds, and every success is the float lat and lon of the first result |
| `PetrolPumps.PumpOfSucceeds` | map_view.py:76-85 | a record is built exactly when the element is a dictionary with lat and lon, any "tags" is a dictionary and reverse geocoding succeeds |
| `PetrolPumps.PumpOfRecord` | map_view.py:76-85 | a record has exactly the six pump keys: the element's coordinates, its name tag or "Unknown", and the geocoded address, city and state |
| `PetrolPumps.UntilFailurePrefix` | map_view.py:73-89 | the records are those of the reply's first elements, in order, and the element after the last record is one that raised |
| `PetrolPumps.Elements` | map_view.py:75 | the elements are read only from a dictionary; a missing "elements" gives none, and a list gives its items |
| `PetrolPumps.SegmentPumps` | map_view.py:73-75 | a query that failed or was not JSON appends nothing; otherwise the records up to the first element that raises |
| `PetrolPumps.CompletionOrderInRange` | map_view.py:72 | a completion order only names submitted queries |
| `PetrolPumps.FindPumps` | map_view.py:63-91 | `find_petrol_pumps` fails exactly when the segment length is 0 |
| `PetrolPumps.FailedSegmentSkipped` | map_view.py:88-89 | a segment whose query failed adds nothing, and the segments completed before and after it still add theirs |
| `PetrolPumps.CollectAppend` | map_view.py:72-87 | each completed segment's records are appended as one block after the earlier ones |
| `PetrolPumps.CollectPermutation` | map_view.py:72 | two completion orders of the same queries gather the same records, up to order |
| `PetrolPumps.AnyCompletionOrder` | map_view.py:70-91 | whatever order `as_completed` yields, the result is a permutation of the result for route order |
| `PetrolPumps.SegmentPumpsBound` | map_view.py:73-87 | a segment adds at most one record per element, and none when its query failed |
| `PetrolPumps.GatheredBound` | map_view.py:67-91 | the result holds at most one record per element returned by Overpass |
| `PetrolPumps.FindPetrolPumps` | map_view.py:63-91 | the loop over completed queries returns exactly `FindPumps` for that completion order |
| `PetrolPumps.TrySegment` | map_view.py:73-89 | one pass of the `try` block appends exactly that segment's records |
| `PetrolPumps.AppendPumps` | map_view.py:75-87 | the element loop appends the records of the elements up to the first one that raises |
| `Routes.ParseAll` | map_view.py:114-115 | `map(float, …)` succeeds exactly when every part is numeric, giving one number per part in order; otherwise ValueError |
| `Routes.Resolve` | map_view.py:113-118 | both resolved coordinate tuples have at least two numbers |
| `Routes.LiteralModeSkipsSearch` | map_view.py:113-115 | when both inputs hold a comma the place search is never consulted |
| `Routes.PlaceNamesAreSearched` | map_view.py:116-118 | otherwise both inputs are searched, the start first; a start that is not found fails before the destination is searched, and a destination that is not found fails with its own error |
| `Routes.LiteralCoordinates` | map_view.py:113-120 | `lat,lon` inputs give the tuples of their converted parts, and the routing URL writes each tuple longitude first |
| `Routes.LiteralExample` | map_view.py:113-115 | "12.97,77.59" and "13.0,77.6" resolve to the pairs of their converted parts |
| `Routes.WaypointsOrder` | map_view.py:120 | split at ';' and then at ',', the waypoints give each endpoint's element [1] before its element [0] |
| `Routes.RouteList` | map_view.py:120-133 | a resolution failure is passed on; the route list is read exactly when the routing call succeeds with a dictionary whose "code" is "Ok" and whose "routes" is iterable, and it is those routes |
| `Routes.DrawnRoutesOk` | map_view.py:136-164 | when the route loop succeeds it draws one view per route, each the result of the loop body for that route |
| `Routes.UntilErrorOk` | map_view.py:136-164 | a loop over `enumerate(xs)` that completes yields one result per item, the body's result for that index and item |
| `Routes.UntilErrorErr` | map_view.py:136-164 | a loop over `enumerate(xs)` that fails does so with the error of the body for some index and item |
| `Routes.DrawnRoutesErr` | map_view.py:136-164 | when the route loop fails, some route's body raised that error |
| `Routes.Handle` | map_view.py:99-166 | a route-list failure or a route that raises is passed on; no route drawn raises AttributeError; otherwise the drawn routes |
| `Routes.Answer` | map_view.py:168-169 | every failure of the handler body is answered `Failed(500, e)` with its error, and every success is the page of the routes drawn, never empty |
| `Routes.PageContents` | map_view.py:133-166 | a page has one view per route of the routing reply, in order, each with the route's simplified geometry and the pumps found along it |
| `Routes.UnknownPlace` | map_view.py:109-110 | a start place the search does not find is answered with 500, caused by the 400 that names the start |
| `Routes.UnknownDestination` | map_view.py:109-110 | a destination the search does not find, after the start was found, is answered with 500, caused by the 400 that names the destination |
| `Routes.RouteNotFound` | map_view.py:130-131 | a routing reply whose "code" is missing or not "Ok" is answered with 500, caused by the 400 "Unable to find routes." |
| `Routes.MalformedLiteral` | map_view.py:113-114 | a literal start or destination with a part that is not a number is answered with 500, caused by ValueError |
| `Routes.RoutingCallFails` | map_view.py:126-128 | a routing call that raises is answered with 500 caused by that error |
| `Routes.NoRoutes` | map_view.py:134-166 | an empty route list leaves the map unset and is answered with 500 caused by AttributeError |
| `Routes.FailurePersists` | map_view.py:136-138 | once a route has raised, the loop over the routes fails with that error |
| `Routes.EmptyRoute` | map_view.py:142-144 | an empty simplified route raises IndexError when it is the first route; any later one is drawn empty with no pumps, provided folium accepts the empty line (see Left out) |
| `Routes.DrawRoute` | map_view.py:137-144 | one pass of the route loop returns exactly `DrawnRoute`: the simplified geometry with the pumps found along it, or the error raised |
| `Routes.GetRoutes` | map_view.py:95-169 | the handler, statement by statement, answers exactly `Answer` |

### Behaviour of the code worth noting

The model follows the code in each case.

- The 400 responses for an unknown place and for "Unable to find routes."
  are raised inside the handler's `try`. The `except Exception` at
  map_view.py:168 turns them into status 500. The 400 survives only as the
  cause (`Failed(500, HttpError(400, …))`).
- An element that cannot be enriched abandons the rest of its segment, not
  only itself. The `try` at map_view.py:73 encloses the whole element loop.
- The place search does not treat a 403 reply specially: `raise_for_status`
  raises like any other 4xx.
- When the routing engine returns no route, the map stays `None`, and
  rendering it raises AttributeError, which is answered with 500.
- When the first simplified route is empty, `simplified_route[0]` raises
  IndexError, which is answered with 500.

## Left out

- Network I/O, headers, query parameters and timeouts are outside the model.
  Every endpoint is a function in `Services` from the request text (or the
  coordinate pair) to a reply.
- Reverse geocoding is modelled as deterministic: the same coordinates always
  get the same reply.
- PetrolPumps.AnyCompletionOrder: holds because reverse geocoding is
  deterministic. Under rate limiting, which the Nominatim 403 message at
  map_view.py:53 mentions, the pumps that survive may depend on the completion
  order. This lemma does not cover that case.
- PetrolPumps.CollectPermutation: holds for a fixed contribution per segment,
  which again relies on deterministic reverse geocoding.
- `simplify_route` (the shapely Douglas–Peucker simplification) is not part
  of this model. It is the opaque function `Services.simplify`.
- Floating point is not modelled. Numbers are `real`. Python's `float(text)`
  and `f"{x}"` are the opaque functions `Services.parse` and `Services.show`,
  so the exact digits of the URL and of the polygon are not modelled.
- Threads are not modelled. The thread pool is reduced to the order in which
  its queries complete, one permutation of the segment indices. The `print`
  of a failed segment is output only and is left out.
- folium rendering is left out: the page is the list of routes drawn, each
  with its geometry and pumps. The colours, tooltips, markers and popup HTML
  are not modelled.
- The folium calls `Map`, `PolyLine`, `Marker` and `_repr_html_`
  (map_view.py:144-166) are assumed to succeed. folium is not part of this
  model. In the library, an empty location list or a non-numeric marker
  location raises, and the service would then answer 500. The model does not
  capture those failures.
- Routes.EmptyRoute: the half for a route after the first (drawn empty, with
  no pumps) holds only under the assumption that the folium calls succeed.
  folium may reject the empty line, and the service would then answer 500.
- FastAPI routing and the exact text of `str(e)` in the 500 detail are left
  out. The answer keeps the failure itself.
- Values.ItemsToSubscript: iterating a non-empty dictionary or string
  fails before any item is processed, whereas Python fails at the first item.
  Both loops that use it subscript every item first, so the outcome is the
  same.
- Routes.Resolve: only the length of the coordinate tuples is stated.
  `LiteralCoordinates` and `PlaceNamesAreSearched` state what the tuples
  hold.
