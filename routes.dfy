/** `get_routes`, the one HTTP endpoint: resolve the two inputs to coordinates
    (literal "lat,lon" pairs or place names), ask the routing engine for routes,
    then simplify each route and find the petrol pumps along it. Whatever raises
    inside the handler is answered with status 500. */
module Routes {

  import opened Values
  import Text
  import Geocoding
  import Segmenter
  import PetrolPumps

  const OsrmBaseUrl: string := "http://router.project-osrm.org"
  const NoRoutesDetail: string := "Unable to find routes."

  /** The segment length `get_routes` leaves at its default. */
  const SegmentLength: int := 10

  /** A route as the handler draws it: its simplified geometry and its pumps. */
  datatype RouteView = RouteView(geometry: seq<Point>, pumps: seq<Record>)

  /** The handler's answer: the rendered page, or an HTTPException. */
  datatype Response = Page(routes: seq<RouteView>) | Failed(status: int, cause: Failure)

  /** Both inputs are read as literal coordinates only when both hold a comma. */
  predicate IsLiteralPair(start: string, destination: string)
  {
    ',' in start && ',' in destination
  }

  /** `map(float, parts)` consumed by `tuple`: the first part that is not a
      number raises ValueError. */
  function ParseAll(parts: seq<string>, parse: string -> Option<real>): (r: Result<seq<real>>)
    ensures r.Ok? <==> forall i :: 0 <= i < |parts| ==> parse(parts[i]).Some?
    ensures r.Ok? ==> |r.value| == |parts| && forall i :: 0 <= i < |parts| ==> r.value[i] == parse(parts[i]).value
    ensures r.Err? ==> r.error == ValueError
  {
    if parts == [] then Ok([])
    else if parse(parts[0]).None? then Err(ValueError)
    else
      var rest :- ParseAll(parts[1..], parse);
      Ok([parse(parts[0]).value] + rest)
  }

  /** `tuple(map(float, text.split(",")))`. */
  function ParseLiteral(text: string, parse: string -> Option<real>): Result<seq<real>>
  {
    ParseAll(Text.Split(text, ','), parse)
  }

  /** The start and destination coordinate tuples, by input mode. */
  function Resolve(start: string, destination: string, svc: Services): (r: Result<(seq<real>, seq<real>)>)
    ensures r.Ok? ==> |r.value.0| >= 2 && |r.value.1| >= 2
  {
    if IsLiteralPair(start, destination) then
      var s :- ParseLiteral(start, svc.parse);
      var d :- ParseLiteral(destination, svc.parse);
      Ok((s, d))
    else
      var s :- Geocoding.Locate(start, svc);
      var d :- Geocoding.Locate(destination, svc);
      Ok((s, d))
  }

  /** The waypoint part of the routing URL: element [1] of each tuple, then
      element [0]. */
  function Waypoints(s: seq<real>, d: seq<real>, show: real -> string): string
    requires |s| >= 2 && |d| >= 2
  {
    show(s[1]) + "," + show(s[0]) + ";" + show(d[1]) + "," + show(d[0])
  }

  function RouteUrl(s: seq<real>, d: seq<real>, show: real -> string): string
    requires |s| >= 2 && |d| >= 2
  {
    OsrmBaseUrl + "/route/v1/driving/" + Waypoints(s, d, show)
  }

  /** From resolving the inputs to the list of routes: the routing reply must
      be a dictionary whose "code" is "Ok" and whose "routes" is a list. */
  function RouteList(start: string, destination: string, svc: Services): (r: Result<seq<Value>>)
    ensures Resolve(start, destination, svc).Err? ==> r == Err(Resolve(start, destination, svc).error)
    ensures r.Ok? <==>
      var coords := Resolve(start, destination, svc);
      && coords.Ok?
      && var data := Fetch(svc.routing(RouteUrl(coords.value.0, coords.value.1, svc.show)));
      && data.Ok? && data.value.Obj?
      && "code" in data.value.fields && data.value.fields["code"] == Str("Ok")
      && "routes" in data.value.fields && ItemsToSubscript(data.value.fields["routes"]).Ok?
    ensures r.Ok? ==>
      var coords := Resolve(start, destination, svc).value;
      var data := Fetch(svc.routing(RouteUrl(coords.0, coords.1, svc.show))).value;
      r.value == ItemsToSubscript(data.fields["routes"]).value
  {
    var coords :- Resolve(start, destination, svc);
    var data :- Fetch(svc.routing(RouteUrl(coords.0, coords.1, svc.show)));
    var code :- DictGet(data, "code", Null);
    if code != Str("Ok") then Err(HttpError(400, NoRoutesDetail))
    else
      var routes :- Subscript(data, "routes");
      ItemsToSubscript(routes)
  }

  /** `simplify_route(route["geometry"]["coordinates"])`. */
  function Simplified(route: Value, svc: Services): Result<seq<Point>>
  {
    var geometry :- Subscript(route, "geometry");
    var coordinates :- Subscript(geometry, "coordinates");
    svc.simplify(coordinates)
  }

  /** Schedules give, for the route with index i and a number of queries n, the
      order in which those queries complete. */
  ghost predicate ValidSchedule(schedule: (nat, nat) -> seq<nat>)
  {
    forall i, n :: PetrolPumps.IsCompletionOrder(schedule(i, n), n)
  }

  /** The loop body for the route with index `i`: simplify it, find its pumps,
      and, for the first route only, read its first point as the map centre. */
  function DrawnRoute(i: nat, route: Value, svc: Services, schedule: (nat, nat) -> seq<nat>): (r: Result<RouteView>)
  {
    var simplified :- Simplified(route, svc);
    var order := schedule(i, Segmenter.SegmentCount(simplified, SegmentLength));
    var pumps := PetrolPumps.FindPumps(simplified, SegmentLength, order, svc).value;
    if i == 0 && simplified == [] then Err(IndexError)
    else Ok(RouteView(simplified, pumps))
  }

  /** The loop body as a step of the loop over the routes. */
  function Draw(svc: Services, schedule: (nat, nat) -> seq<nat>): (nat, Value) -> Result<RouteView>
  {
    (i: nat, route: Value) => DrawnRoute(i, route, svc, schedule)
  }

  /** A `for i, x in enumerate(xs)` loop whose body `f(i, x)` may raise: the
      results in order, or the first error. */
  function UntilError<A, B>(f: (nat, A) -> Result<B>, xs: seq<A>): Result<seq<B>>
  {
    if xs == [] then Ok([])
    else
      var last := |xs| - 1;
      var ys :- UntilError(f, xs[..last]);
      var y :- f(last, xs[last]);
      Ok(ys + [y])
  }

  /** The loop over the routes, stopped by the first route that raises. */
  function DrawnRoutes(routes: seq<Value>, svc: Services, schedule: (nat, nat) -> seq<nat>): Result<seq<RouteView>>
  {
    UntilError(Draw(svc, schedule), routes)
  }

  lemma {:induction false} UntilErrorOk<A, B>(f: (nat, A) -> Result<B>, xs: seq<A>)
    requires UntilError(f, xs).Ok?
    ensures |UntilError(f, xs).value| == |xs|
    ensures forall i :: 0 <= i < |xs| ==> f(i, xs[i]) == Ok(UntilError(f, xs).value[i])
    decreases |xs|
  {
    if xs != [] {
      var last := |xs| - 1;
      var front := xs[..last];
      var ys := UntilError(f, front).value;
      var r := UntilError(f, xs).value;
      UntilErrorOk(f, front);
      assert r == ys + [f(last, xs[last]).value];
      forall i | 0 <= i < |xs| ensures f(i, xs[i]) == Ok(r[i]) {
        if i < last {
          assert xs[i] == front[i];
          assert r[i] == ys[i];
        }
      }
    }
  }

  lemma {:induction false} UntilErrorErr<A, B>(f: (nat, A) -> Result<B>, xs: seq<A>)
    requires UntilError(f, xs).Err?
    ensures exists i :: 0 <= i < |xs| && f(i, xs[i]) == Err(UntilError(f, xs).error)
    decreases |xs|
  {
    var last := |xs| - 1;
    var front := xs[..last];
    var ys := UntilError(f, front);
    if ys.Err? {
      UntilErrorErr(f, front);
      var i :| 0 <= i < |front| && f(i, front[i]) == Err(ys.error);
      assert xs[i] == front[i];
    } else {
      assert f(last, xs[last]) == Err(UntilError(f, xs).error);
    }
  }

  /** The loop draws one view per route, each the result of the loop body for
      that route. */
  lemma DrawnRoutesOk(routes: seq<Value>, svc: Services, schedule: (nat, nat) -> seq<nat>)
    requires DrawnRoutes(routes, svc, schedule).Ok?
    ensures |DrawnRoutes(routes, svc, schedule).value| == |routes|
    ensures forall i :: 0 <= i < |routes| ==> DrawnRoute(i, routes[i], svc, schedule) == Ok(DrawnRoutes(routes, svc, schedule).value[i])
  {
    UntilErrorOk(Draw(svc, schedule), routes);
  }

  /** When the loop fails, the failure is the one some route raised. */
  lemma DrawnRoutesErr(routes: seq<Value>, svc: Services, schedule: (nat, nat) -> seq<nat>)
    requires DrawnRoutes(routes, svc, schedule).Err?
    ensures exists i :: 0 <= i < |routes| && DrawnRoute(i, routes[i], svc, schedule) == Err(DrawnRoutes(routes, svc, schedule).error)
  {
    UntilErrorErr(Draw(svc, schedule), routes);
    var i :| 0 <= i < |routes| && Draw(svc, schedule)(i, routes[i]) == Err(DrawnRoutes(routes, svc, schedule).error);
  }

  /** The body of the `try` block. When no route is drawn the map is still
      `None`, and rendering it raises AttributeError. */
  function Handle(start: string, destination: string, svc: Services, schedule: (nat, nat) -> seq<nat>): (r: Result<seq<RouteView>>)
    ensures RouteList(start, destination, svc).Err? ==> r == Err(RouteList(start, destination, svc).error)
    ensures RouteList(start, destination, svc).Ok? ==>
      var drawn := DrawnRoutes(RouteList(start, destination, svc).value, svc, schedule);
      && (drawn.Err? ==> r == Err(drawn.error))
      && (drawn == Ok([]) ==> r == Err(AttributeError))
      && (drawn.Ok? && drawn.value != [] ==> r == drawn)
  {
    var routes :- RouteList(start, destination, svc);
    var views :- DrawnRoutes(routes, svc, schedule);
    if views == [] then Err(AttributeError) else Ok(views)
  }

  /** The endpoint: `except Exception` turns every failure into status 500. */
  function Answer(start: string, destination: string, svc: Services, schedule: (nat, nat) -> seq<nat>): (r: Response)
    ensures Handle(start, destination, svc, schedule).Err? ==> r == Failed(500, Handle(start, destination, svc, schedule).error)
    ensures Handle(start, destination, svc, schedule).Ok? ==> r == Page(Handle(start, destination, svc, schedule).value)
    ensures r.Failed? ==> r.status == 500
    ensures r.Page? ==> r.routes != []
  {
    match Handle(start, destination, svc, schedule)
    case Ok(views) => Page(views)
    case Err(e) => Failed(500, e)
  }

  /** `get_routes`, statement by statement. */
  method GetRoutes(start: string, destination: string, svc: Services, schedule: (nat, nat) -> seq<nat>)
    returns (response: Response)
    requires ValidSchedule(schedule)
    ensures response == Answer(start, destination, svc, schedule)
  {
    var routes := RouteList(start, destination, svc);
    if routes.Err? {
      return Failed(500, routes.error);
    }
    var views: seq<RouteView> := [];
    for i := 0 to |routes.value|
      invariant DrawnRoutes(routes.value[..i], svc, schedule) == Ok(views)
    {
      assert routes.value[..i + 1][..i] == routes.value[..i];
      var view := DrawRoute(i, routes.value[i], svc, schedule);
      if view.Err? {
        FailurePersists(routes.value, i + 1, svc, schedule);
        return Failed(500, view.error);
      }
      views := views + [view.value];
    }
    assert routes.value[..|routes.value|] == routes.value;
    if views == [] {
      return Failed(500, AttributeError);
    }
    response := Page(views);
  }

  /** One pass of the route loop: simplify the route, find its pumps, and for
      the first route read the map centre from its first point. */
  method DrawRoute(i: nat, route: Value, svc: Services, schedule: (nat, nat) -> seq<nat>) returns (r: Result<RouteView>)
    requires ValidSchedule(schedule)
    ensures r == DrawnRoute(i, route, svc, schedule)
  {
    var simplified := Simplified(route, svc);
    if simplified.Err? {
      return Err(simplified.error);
    }
    var count := Segmenter.SegmentCount(simplified.value, SegmentLength);
    var pumps := PetrolPumps.FindPetrolPumps(simplified.value, SegmentLength, schedule(i, count), svc);
    if i == 0 && simplified.value == [] {
      return Err(IndexError);
    }
    r := Ok(RouteView(simplified.value, pumps.value));
  }

  /** Once a route has raised, the loop over the routes fails with that error. */
  lemma FailurePersists(routes: seq<Value>, k: nat, svc: Services, schedule: (nat, nat) -> seq<nat>)
    requires k <= |routes|
    requires DrawnRoutes(routes[..k], svc, schedule).Err?
    ensures DrawnRoutes(routes, svc, schedule) == DrawnRoutes(routes[..k], svc, schedule)
  {
    UntilErrorPersists(Draw(svc, schedule), routes, k);
  }

  lemma {:induction false} UntilErrorPersists<A, B>(f: (nat, A) -> Result<B>, xs: seq<A>, k: nat)
    requires k <= |xs|
    requires UntilError(f, xs[..k]).Err?
    ensures UntilError(f, xs) == UntilError(f, xs[..k])
    decreases |xs| - k
  {
    if k < |xs| {
      var longer := xs[..k + 1];
      assert longer[..k] == xs[..k];
      UntilErrorPersists(f, xs, k + 1);
    } else {
      assert xs[..k] == xs;
    }
  }

  /** Literal coordinates never reach the place search: when both inputs hold a
      comma, the routes requested are the same whatever the search provider
      would answer. */
  lemma LiteralModeSkipsSearch(start: string, destination: string, svc: Services, other: string -> HttpReply)
    requires IsLiteralPair(start, destination)
    ensures Resolve(start, destination, svc.(search := other)) == Resolve(start, destination, svc)
    ensures RouteList(start, destination, svc.(search := other)) == RouteList(start, destination, svc)
  {
    var svc' := svc.(search := other);
    assert svc'.parse == svc.parse && svc'.routing == svc.routing && svc'.show == svc.show;
  }

  /** Otherwise both inputs are searched as place names, the start first: a
      start that cannot be located fails the request before the destination is
      searched, and the coordinates used are the two search results. */
  lemma PlaceNamesAreSearched(start: string, destination: string, svc: Services)
    requires !IsLiteralPair(start, destination)
    ensures Geocoding.Locate(start, svc).Err? ==> Resolve(start, destination, svc) == Err(Geocoding.Locate(start, svc).error)
    ensures Geocoding.Locate(start, svc).Ok? && Geocoding.Locate(destination, svc).Err? ==>
      Resolve(start, destination, svc) == Err(Geocoding.Locate(destination, svc).error)
    ensures Resolve(start, destination, svc).Ok? <==> Geocoding.Locate(start, svc).Ok? && Geocoding.Locate(destination, svc).Ok?
    ensures Resolve(start, destination, svc).Ok? ==>
      Resolve(start, destination, svc).value == (Geocoding.Locate(start, svc).value, Geocoding.Locate(destination, svc).value)
  {
  }

  /** Literal inputs "lat,lon" are split at their comma, each part converted,
      and sent to the routing engine longitude first. */
  lemma LiteralCoordinates(lat1: string, lon1: string, lat2: string, lon2: string, svc: Services)
    requires ',' !in lat1 && ',' !in lon1 && ',' !in lat2 && ',' !in lon2
    requires svc.parse(lat1).Some? && svc.parse(lon1).Some? && svc.parse(lat2).Some? && svc.parse(lon2).Some?
    ensures
      var s := [svc.parse(lat1).value, svc.parse(lon1).value];
      var d := [svc.parse(lat2).value, svc.parse(lon2).value];
      Resolve(lat1 + "," + lon1, lat2 + "," + lon2, svc) == Ok((s, d))
    ensures
      var s := [svc.parse(lat1).value, svc.parse(lon1).value];
      var d := [svc.parse(lat2).value, svc.parse(lon2).value];
      RouteUrl(s, d, svc.show) == OsrmBaseUrl + "/route/v1/driving/"
           + svc.show(svc.parse(lon1).value) + "," + svc.show(svc.parse(lat1).value) + ";"
           + svc.show(svc.parse(lon2).value) + "," + svc.show(svc.parse(lat2).value)
  {
    SplitPair(lat1, lon1);
    SplitPair(lat2, lon2);
    assert ',' in lat1 + "," + lon1 && ',' in lat2 + "," + lon2;
    assert ParseLiteral(lat1 + "," + lon1, svc.parse).value == [svc.parse(lat1).value, svc.parse(lon1).value];
    assert ParseLiteral(lat2 + "," + lon2, svc.parse).value == [svc.parse(lat2).value, svc.parse(lon2).value];
  }

  /** A literal example: "12.97,77.59" to "13.0,77.6". */
  lemma LiteralExample(svc: Services)
    requires svc.parse("12.97").Some? && svc.parse("77.59").Some?
    requires svc.parse("13.0").Some? && svc.parse("77.6").Some?
    ensures Resolve("12.97,77.59", "13.0,77.6", svc)
         == Ok(([svc.parse("12.97").value, svc.parse("77.59").value], [svc.parse("13.0").value, svc.parse("77.6").value]))
  {
    assert "12.97" + "," + "77.59" == "12.97,77.59";
    assert "13.0" + "," + "77.6" == "13.0,77.6";
    LiteralCoordinates("12.97", "77.59", "13.0", "77.6", svc);
  }

  /** Splitting `x,y` with comma-free `x` and `y` gives the two parts. */
  lemma SplitPair(x: string, y: string)
    requires ',' !in x && ',' !in y
    ensures Text.Split(x + "," + y, ',') == [x, y]
  {
    Text.SplitJoin([x, y], ',');
    Text.JoinCons(x, [y], ',');
  }

  /** A number's text holds neither waypoint separator. */
  predicate Plain(t: string)
  {
    ',' !in t && ';' !in t
  }

  /** Reading the waypoints back: split at the semicolon and then at the
      commas, they give each endpoint's element [1] before its element [0]. */
  lemma WaypointsOrder(s: seq<real>, d: seq<real>, show: real -> string)
    requires |s| >= 2 && |d| >= 2
    requires Plain(show(s[0])) && Plain(show(s[1])) && Plain(show(d[0])) && Plain(show(d[1]))
    ensures Text.Split(Waypoints(s, d, show), ';') == [show(s[1]) + "," + show(s[0]), show(d[1]) + "," + show(d[0])]
    ensures Text.Split(show(s[1]) + "," + show(s[0]), ',') == [show(s[1]), show(s[0])]
    ensures Text.Split(show(d[1]) + "," + show(d[0]), ',') == [show(d[1]), show(d[0])]
  {
    var a, b, c, e := show(s[1]), show(s[0]), show(d[1]), show(d[0]);
    var first, second := a + "," + b, c + "," + e;
    assert ';' !in first && ';' !in second;
    assert Waypoints(s, d, show) == first + ";" + second;
    Text.SplitJoin([first, second], ';');
    Text.JoinCons(first, [second], ';');
    SplitPair(a, b);
    SplitPair(c, e);
  }

  /** A place search with no result is answered with status 500, and the
      detail still names the place. */
  lemma UnknownPlace(start: string, destination: string, svc: Services, schedule: (nat, nat) -> seq<nat>)
    requires !IsLiteralPair(start, destination)
    requires Fetch(svc.search(start)) == Ok(Arr([]))
    ensures Answer(start, destination, svc, schedule) == Failed(500, HttpError(400, Geocoding.NotFoundDetail(start)))
  {
    PlaceNamesAreSearched(start, destination, svc);
  }

  /** A destination the search does not find, after the start was found, is
      answered with status 500, and the detail names the destination. */
  lemma UnknownDestination(start: string, destination: string, svc: Services, schedule: (nat, nat) -> seq<nat>)
    requires !IsLiteralPair(start, destination)
    requires Geocoding.Locate(start, svc).Ok?
    requires Fetch(svc.search(destination)) == Ok(Arr([]))
    ensures Answer(start, destination, svc, schedule) == Failed(500, HttpError(400, Geocoding.NotFoundDetail(destination)))
  {
    PlaceNamesAreSearched(start, destination, svc);
  }

  /** A routing reply whose "code" is missing or not "Ok" is answered with
      status 500 and the "no route" detail. */
  lemma RouteNotFound(start: string, destination: string, svc: Services, schedule: (nat, nat) -> seq<nat>)
    requires Resolve(start, destination, svc).Ok?
    requires
      var coords := Resolve(start, destination, svc).value;
      var data := Fetch(svc.routing(RouteUrl(coords.0, coords.1, svc.show)));
      data.Ok? && data.value.Obj? && ("code" !in data.value.fields || data.value.fields["code"] != Str("Ok"))
    ensures Answer(start, destination, svc, schedule) == Failed(500, HttpError(400, NoRoutesDetail))
  {
  }

  /** A page holds one drawn route per route of the routing reply, in the
      reply's order, each with its simplified geometry and the pumps found
      along it. */
  lemma PageContents(start: string, destination: string, svc: Services, schedule: (nat, nat) -> seq<nat>)
    requires Answer(start, destination, svc, schedule).Page?
    ensures RouteList(start, destination, svc).Ok?
    ensures
      var routes := RouteList(start, destination, svc).value;
      var views := Answer(start, destination, svc, schedule).routes;
      && |views| == |routes| > 0
      && forall i :: 0 <= i < |routes| ==>
           && Simplified(routes[i], svc).Ok?
           && views[i].geometry == Simplified(routes[i], svc).value
           && views[i].pumps == PetrolPumps.FindPumps(views[i].geometry, SegmentLength,
                                  schedule(i, Segmenter.SegmentCount(views[i].geometry, SegmentLength)), svc).value
  {
    var routes := RouteList(start, destination, svc).value;
    var views := Answer(start, destination, svc, schedule).routes;
    DrawnRoutesOk(routes, svc, schedule);
    forall i | 0 <= i < |routes|
      ensures Simplified(routes[i], svc).Ok? && views[i].geometry == Simplified(routes[i], svc).value
    {
      assert DrawnRoute(i, routes[i], svc, schedule) == Ok(views[i]);
    }
  }

  /** A literal input, start or destination, with a part that is not a number
      is answered with status 500 caused by the ValueError of `float`. */
  lemma MalformedLiteral(start: string, destination: string, svc: Services, schedule: (nat, nat) -> seq<nat>)
    requires IsLiteralPair(start, destination)
    requires ParseLiteral(start, svc.parse).Err? || ParseLiteral(destination, svc.parse).Err?
    ensures Answer(start, destination, svc, schedule) == Failed(500, ValueError)
  {
  }

  /** Only the first route is read for the map centre: an empty simplified
      route raises IndexError when it comes first, and is drawn empty, with no
      pumps, anywhere else. */
  lemma EmptyRoute(i: nat, route: Value, svc: Services, schedule: (nat, nat) -> seq<nat>)
    requires ValidSchedule(schedule)
    requires Simplified(route, svc) == Ok([])
    ensures i == 0 ==> DrawnRoute(i, route, svc, schedule) == Err(IndexError)
    ensures i > 0 ==> DrawnRoute(i, route, svc, schedule) == Ok(RouteView([], []))
  {
    var empty: seq<Point> := [];
    var order := schedule(i, Segmenter.SegmentCount(empty, SegmentLength));
    assert PetrolPumps.IsCompletionOrder(order, 0);
    assert |order| == |multiset(order)| == 0;
  }

  /** A routing call that raises (no response, an error status, a body that is
      not JSON) is answered with status 500 caused by that error. */
  lemma RoutingCallFails(start: string, destination: string, svc: Services, schedule: (nat, nat) -> seq<nat>)
    requires Resolve(start, destination, svc).Ok?
    requires
      var coords := Resolve(start, destination, svc).value;
      Fetch(svc.routing(RouteUrl(coords.0, coords.1, svc.show))).Err?
    ensures
      var coords := Resolve(start, destination, svc).value;
      Answer(start, destination, svc, schedule) == Failed(500, Fetch(svc.routing(RouteUrl(coords.0, coords.1, svc.show))).error)
  {
  }

  /** An empty route list leaves the map unset; rendering it raises
      AttributeError, answered with status 500. */
  lemma NoRoutes(start: string, destination: string, svc: Services, schedule: (nat, nat) -> seq<nat>)
    requires RouteList(start, destination, svc) == Ok([])
    ensures Answer(start, destination, svc, schedule) == Failed(500, AttributeError)
  {
  }
}
