/**
 Routes (the `route` endpoint group): a route's identity and colour, copied as bound,
 and its stations, which the document lists by name only and which become name-only
 station stubs in the same order.
 */
module Routes {
  import opened Results
  import opened Strconv
  import opened Stations
  import opened Requests
  import opened Schedules

  datatype Route = Route(
    name: string,
    abbreviation: string,
    id: string,
    number: int,
    color: string,
    holidays: int,
    stationCount: int,
    stations: seq<Station>)

  /** A `<route>` element as bound from the XML: the stations are bare names. */
  datatype IntermediateRoute = IntermediateRoute(
    name: string,
    abbreviation: string,
    id: string,
    number: int,
    color: string,
    holidays: int,
    stationCount: int,
    stations: seq<string>)

  /** One station holding nothing but its name, for each name, appended in order. */
  function NameStubs(names: seq<string>): (stubs: seq<Station>)
    ensures |stubs| == |names|
    ensures forall k :: 0 <= k < |names| ==> stubs[k] == Stub("", names[k])
    decreases |names|
  {
    if |names| == 0 then [] else NameStubs(names[..|names| - 1]) + [Stub("", names[|names| - 1])]
  }

  /** Reading the names back off the stubs gives the document's list. */
  lemma NameStubsNames(names: seq<string>)
    ensures Names(NameStubs(names)) == names
  {
  }

  /**
   `Route.UnmarshalXML`: once the element is bound, conversion cannot fail; the
   station count is copied and never compared with the number of stations.
   */
  function UnmarshalRoute(d: Option<IntermediateRoute>): (r: Result<Route>)
    ensures r.Success? <==> d.Some?
    ensures d.None? ==> r == Failure(Malformed)
    ensures r.Success? ==> && r.value.name == d.value.name
                           && r.value.abbreviation == d.value.abbreviation
                           && r.value.id == d.value.id
                           && r.value.number == d.value.number
                           && r.value.color == d.value.color
                           && r.value.holidays == d.value.holidays
                           && r.value.stationCount == d.value.stationCount
    ensures r.Success? ==> && |r.value.stations| == |d.value.stations|
                           && Names(r.value.stations) == d.value.stations
                           && forall k :: 0 <= k < |r.value.stations| ==>
                                IsStub(r.value.stations[k]) && r.value.stations[k].abbreviation == ""
  {
    match d
    case None => Failure(Malformed)
    case Some(i) =>
      NameStubsNames(i.stations);
      Success(Route(i.name, i.abbreviation, i.id, i.number, i.color, i.holidays, i.stationCount,
                    NameStubs(i.stations)))
  }

  /** Decoding of the `<routes><route>` elements of a routes document, in document order. */
  function RouteDecoder(bind: string -> Option<seq<Option<IntermediateRoute>>>): string -> Result<seq<Route>> {
    body => DecodeList(bind(body), UnmarshalRoute)
  }

  /** The routes the document lists, each converted by `UnmarshalRoute`, in order. */
  predicate DecodedRoutes(x: Exchange<seq<Route>>, transport: Transport,
                          bind: string -> Option<seq<Option<IntermediateRoute>>>)
  {
    && (x.result.Success? <==>
          && Delivered(transport, x.url)
          && bind(BodyOf(transport, x.url)).Some?
          && forall k :: 0 <= k < |bind(BodyOf(transport, x.url)).value| ==>
               bind(BodyOf(transport, x.url)).value[k].Some?)
    && (x.result.Success? ==>
          var elements := bind(BodyOf(transport, x.url)).value;
          && |x.result.value| == |elements|
          && forall k :: 0 <= k < |elements| ==> Success(x.result.value[k]) == UnmarshalRoute(elements[k]))
  }

  /** `GetCurrentRoutes`: command `routes` with no further parameters. */
  function GetCurrentRoutes(c: Client, transport: Transport, bind: string -> Option<seq<Option<IntermediateRoute>>>)
    : (x: Exchange<seq<Route>>)
    ensures Requested(x, RequestPath("route"), map["key" := [c.apiKey], "cmd" := ["routes"]])
    ensures DecodedRoutes(x, transport, bind)
  {
    var x := MakeRequest(c, "route", "routes", map[], transport, RouteDecoder(bind));
    assert x.params == map["key" := [c.apiKey], "cmd" := ["routes"]];
    x
  }

  /** `GetRoutesBySchedule`: command `routes` with the schedule number, in decimal, as `sched`. */
  function GetRoutesBySchedule(c: Client, schedule: Schedule, transport: Transport,
                               bind: string -> Option<seq<Option<IntermediateRoute>>>)
    : (x: Exchange<seq<Route>>)
    ensures Requested(x, RequestPath("route"),
                      map["sched" := [Itoa(schedule.number)], "key" := [c.apiKey], "cmd" := ["routes"]])
    ensures InIntRange(schedule.number) ==> CarriesNumber(x.url.query, "sched", schedule.number)
    ensures DecodedRoutes(x, transport, bind)
  {
    var x := MakeRequest(c, "route", "routes", map["sched" := [Itoa(schedule.number)]], transport, RouteDecoder(bind));
    assert "sched" != "key" && "sched" != "cmd";
    assert x.params == map["sched" := [Itoa(schedule.number)], "key" := [c.apiKey], "cmd" := ["routes"]];
    assert InIntRange(schedule.number) ==> Atoi(Itoa(schedule.number)) == Some(schedule.number) by {
      if InIntRange(schedule.number) { AtoiItoa(schedule.number); }
    }
    x
  }

  /** The round trip of command `routeinfo` for one route number. */
  function RouteInfoRequest(c: Client, routeNumber: int, transport: Transport,
                            bind: string -> Option<seq<Option<IntermediateRoute>>>)
    : (x: Exchange<seq<Route>>)
    ensures DecodedRoutes(x, transport, bind)
  {
    MakeRequest(c, "route", "routeinfo", map["route" := [Itoa(routeNumber)]], transport, RouteDecoder(bind))
  }

  /**
   `GetRouteInfoByNumber`: command `routeinfo` for one route; the first route of the
   document is the answer, so a successful document must list at least one.
   */
  function GetRouteInfoByNumber(c: Client, routeNumber: int, transport: Transport,
                                bind: string -> Option<seq<Option<IntermediateRoute>>>)
    : (x: Exchange<Route>)
    requires NonEmptyOnSuccess(RouteInfoRequest(c, routeNumber, transport, bind).result)
    ensures Requested(x, RequestPath("route"),
                      map["route" := [Itoa(routeNumber)], "key" := [c.apiKey], "cmd" := ["routeinfo"]])
    ensures InIntRange(routeNumber) ==> CarriesNumber(x.url.query, "route", routeNumber)
    ensures x.result.Success? <==> RouteInfoRequest(c, routeNumber, transport, bind).result.Success?
    ensures x.url == RouteInfoRequest(c, routeNumber, transport, bind).url
    ensures x.result.Success? ==> x.result.value == RouteInfoRequest(c, routeNumber, transport, bind).result.value[0]
  {
    var all := RouteInfoRequest(c, routeNumber, transport, bind);
    assert "route" != "key" && "route" != "cmd";
    assert all.params == map["route" := [Itoa(routeNumber)], "key" := [c.apiKey], "cmd" := ["routeinfo"]];
    assert InIntRange(routeNumber) ==> Atoi(Itoa(routeNumber)) == Some(routeNumber) by {
      if InIntRange(routeNumber) { AtoiItoa(routeNumber); }
    }
    Exchange(all.params, all.url,
             match all.result
             case Failure(e) => Failure(e)
             case Success(routes) => Success(routes[0]))
  }

  /** `GetAllRouteInfo`: command `routeinfo` with the route parameter `all`. */
  function GetAllRouteInfo(c: Client, transport: Transport, bind: string -> Option<seq<Option<IntermediateRoute>>>)
    : (x: Exchange<seq<Route>>)
    ensures Requested(x, RequestPath("route"), map["route" := ["all"], "key" := [c.apiKey], "cmd" := ["routeinfo"]])
    ensures DecodedRoutes(x, transport, bind)
  {
    var x := MakeRequest(c, "route", "routeinfo", map["route" := ["all"]], transport, RouteDecoder(bind));
    assert "route" != "key" && "route" != "cmd";
    assert x.params == map["route" := ["all"], "key" := [c.apiKey], "cmd" := ["routeinfo"]];
    x
  }
}
