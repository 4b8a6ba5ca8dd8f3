/**
 The aggregation of route schedules over a list of schedules: for each schedule, ask
 for its routes, then for each route ask for that route's schedule, and concatenate
 everything in that order. One failed lookup fails the whole aggregate.
 */
module RouteSchedules {
  import opened Results
  import opened Requests
  import opened Schedules
  import opened Routes

  /** Looking up the routes that run under a schedule. */
  type RoutesLookup = Schedule -> Result<seq<Route>>

  /** Looking up one route's schedule: route number, then schedule number. */
  type RouteScheduleLookup = (int, int) -> Result<RouteSchedule>

  /** The lookups of one schedule's routes, in route order. */
  function ForSchedule(s: Schedule, routes: seq<Route>, scheduleOf: RouteScheduleLookup)
    : Result<seq<RouteSchedule>>
  {
    MapAll(routes, (r: Route) => scheduleOf(r.number, s.number))
  }

  /**
   Reference definition of the aggregate, one schedule at a time from the front: the
   first failure, in lookup order, is the aggregate's failure.
   */
  function AllRouteSchedules(ss: seq<Schedule>, routesOf: RoutesLookup, scheduleOf: RouteScheduleLookup)
    : Result<seq<RouteSchedule>>
    decreases |ss|
  {
    if |ss| == 0 then Success([])
    else
      match AllRouteSchedules(ss[..|ss| - 1], routesOf, scheduleOf)
      case Failure(e) => Failure(e)
      case Success(acc) =>
        var s := ss[|ss| - 1];
        match routesOf(s)
        case Failure(e) => Failure(e)
        case Success(routes) =>
          match ForSchedule(s, routes, scheduleOf)
          case Failure(e) => Failure(e)
          case Success(found) => Success(acc + found)
  }

  /** Every routes lookup and every (schedule, route) lookup succeeds. */
  predicate Resolvable(ss: seq<Schedule>, routesOf: RoutesLookup, scheduleOf: RouteScheduleLookup) {
    forall i :: 0 <= i < |ss| ==>
      && routesOf(ss[i]).Success?
      && forall j :: 0 <= j < |routesOf(ss[i]).value| ==>
           scheduleOf(routesOf(ss[i]).value[j].number, ss[i].number).Success?
  }

  /** The (route number, schedule number) pairs looked up, by schedule and then by route. */
  function Pairs(ss: seq<Schedule>, routesOf: RoutesLookup): seq<(int, int)>
    requires forall i :: 0 <= i < |ss| ==> routesOf(ss[i]).Success?
    decreases |ss|
  {
    if |ss| == 0 then []
    else
      var s := ss[|ss| - 1];
      var routes := routesOf(s).value;
      Pairs(ss[..|ss| - 1], routesOf) + seq(|routes|, j requires 0 <= j < |routes| => (routes[j].number, s.number))
  }

  /** The aggregate succeeds exactly when every routes lookup and every route-schedule lookup does. */
  lemma {:induction false} AllRouteSchedulesSucceeds(ss: seq<Schedule>, routesOf: RoutesLookup,
                                                     scheduleOf: RouteScheduleLookup)
    ensures AllRouteSchedules(ss, routesOf, scheduleOf).Success? <==> Resolvable(ss, routesOf, scheduleOf)
    decreases |ss|
  {
    if |ss| > 0 {
      var init := ss[..|ss| - 1];
      var s := ss[|ss| - 1];
      AllRouteSchedulesSucceeds(init, routesOf, scheduleOf);
      assert forall i :: 0 <= i < |init| ==> init[i] == ss[i];
      if Resolvable(ss, routesOf, scheduleOf) {
        assert Resolvable(init, routesOf, scheduleOf);
        var routes := routesOf(s).value;
        var f := (r: Route) => scheduleOf(r.number, s.number);
        assert forall j :: 0 <= j < |routes| ==> f(routes[j]).Success?;
      } else if Resolvable(init, routesOf, scheduleOf) {
        var i :| 0 <= i < |ss| && !(&& routesOf(ss[i]).Success?
                                    && forall j :: 0 <= j < |routesOf(ss[i]).value| ==>
                                         scheduleOf(routesOf(ss[i]).value[j].number, ss[i].number).Success?);
        assert i == |ss| - 1;
        if routesOf(s).Success? {
          var routes := routesOf(s).value;
          var j :| 0 <= j < |routes| && !scheduleOf(routes[j].number, s.number).Success?;
          var f := (r: Route) => scheduleOf(r.number, s.number);
          assert !f(routes[j]).Success?;
        }
      } else {
        var i :| 0 <= i < |init| && !(&& routesOf(init[i]).Success?
                                      && forall j :: 0 <= j < |routesOf(init[i]).value| ==>
                                           scheduleOf(routesOf(init[i]).value[j].number, init[i].number).Success?);
        assert init[i] == ss[i];
      }
    }
  }

  /**
   A successful aggregate holds one route schedule per (schedule, route) pair, in
   schedule order and in route order within each schedule.
   */
  lemma {:induction false} AllRouteSchedulesOrder(ss: seq<Schedule>, routesOf: RoutesLookup,
                                                  scheduleOf: RouteScheduleLookup)
    requires AllRouteSchedules(ss, routesOf, scheduleOf).Success?
    ensures forall i :: 0 <= i < |ss| ==> routesOf(ss[i]).Success?
    ensures var all := AllRouteSchedules(ss, routesOf, scheduleOf).value;
            var pairs := Pairs(ss, routesOf);
            && |all| == |pairs|
            && forall k :: 0 <= k < |pairs| ==> Success(all[k]) == scheduleOf(pairs[k].0, pairs[k].1)
    decreases |ss|
  {
    if |ss| > 0 {
      var init := ss[..|ss| - 1];
      var s := ss[|ss| - 1];
      AllRouteSchedulesOrder(init, routesOf, scheduleOf);
      assert forall i :: 0 <= i < |init| ==> init[i] == ss[i];
      var routes := routesOf(s).value;
      var f := (r: Route) => scheduleOf(r.number, s.number);
      assert MapAll(routes, f).Success?;
    }
  }

  /** Once a prefix of the schedules fails, the whole list fails with the same error. */
  lemma {:induction false} FailureIsFinal(ss: seq<Schedule>, n: nat, routesOf: RoutesLookup,
                                          scheduleOf: RouteScheduleLookup)
    requires n <= |ss|
    requires AllRouteSchedules(ss[..n], routesOf, scheduleOf).Failure?
    ensures AllRouteSchedules(ss, routesOf, scheduleOf) == AllRouteSchedules(ss[..n], routesOf, scheduleOf)
    decreases |ss|
  {
    if n == |ss| {
      assert ss[..n] == ss;
    } else {
      var init := ss[..|ss| - 1];
      assert init[..n] == ss[..n];
      FailureIsFinal(init, n, routesOf, scheduleOf);
    }
  }

  /** The route and route-schedule lookups the client makes. */
  function RoutesOf(c: Client, transport: Transport, bind: string -> Option<seq<Option<IntermediateRoute>>>)
    : RoutesLookup
  {
    s => GetRoutesBySchedule(c, s, transport, bind).result
  }

  function RouteScheduleOf(c: Client, transport: Transport, bind: string -> Option<RouteSchedule>)
    : RouteScheduleLookup
  {
    (route, sched) => GetRouteScheduleBySchedule(c, route, sched, transport, bind).result
  }

  /** The inner loop: one schedule's routes, in order, stopping at the first failed lookup. */
  method CollectForSchedule(s: Schedule, routes: seq<Route>, scheduleOf: RouteScheduleLookup)
    returns (r: Result<seq<RouteSchedule>>)
    ensures r == ForSchedule(s, routes, scheduleOf)
  {
    var f := (route: Route) => scheduleOf(route.number, s.number);
    var found: seq<RouteSchedule> := [];
    var j := 0;
    while j < |routes|
      invariant 0 <= j <= |routes|
      invariant |found| == j
      invariant forall k :: 0 <= k < j ==> f(routes[k]).Success? && found[k] == f(routes[k]).value
    {
      var one := scheduleOf(routes[j].number, s.number);
      if one.Failure? {
        MapAllFirstFailure(routes, f, j);
        return Failure(one.error);
      }
      found := found + [one.value];
      j := j + 1;
    }
    var all := MapAll(routes, f);
    assert all.Success?;
    assert all.value == found;
    r := Success(found);
  }

  /**
   The outer loop over the schedules: look up a schedule's routes, collect their route
   schedules, append them, and give up at the first failure.
   */
  method CollectRouteSchedules(schedules: seq<Schedule>, routesOf: RoutesLookup, scheduleOf: RouteScheduleLookup)
    returns (r: Result<seq<RouteSchedule>>)
    ensures r == AllRouteSchedules(schedules, routesOf, scheduleOf)
  {
    var collected: seq<RouteSchedule> := [];
    var i := 0;
    while i < |schedules|
      invariant 0 <= i <= |schedules|
      invariant AllRouteSchedules(schedules[..i], routesOf, scheduleOf) == Success(collected)
    {
      var s := schedules[i];
      assert schedules[..i + 1][..i] == schedules[..i];
      var routes := routesOf(s);
      if routes.Failure? {
        FailureIsFinal(schedules, i + 1, routesOf, scheduleOf);
        return Failure(routes.error);
      }
      var found := CollectForSchedule(s, routes.value, scheduleOf);
      if found.Failure? {
        FailureIsFinal(schedules, i + 1, routesOf, scheduleOf);
        return Failure(found.error);
      }
      collected := collected + found.value;
      i := i + 1;
    }
    assert schedules[..i] == schedules;
    r := Success(collected);
  }

  /** `GetAllRouteSchedulesBySchedules`: the aggregate over the client's own lookups. */
  method GetAllRouteSchedulesBySchedules(c: Client, schedules: seq<Schedule>, transport: Transport,
                                         bindRoutes: string -> Option<seq<Option<IntermediateRoute>>>,
                                         bindRouteSchedule: string -> Option<RouteSchedule>)
    returns (r: Result<seq<RouteSchedule>>)
    ensures r.Success? <==> Resolvable(schedules, RoutesOf(c, transport, bindRoutes),
                                       RouteScheduleOf(c, transport, bindRouteSchedule))
    ensures r.Success? ==>
              (forall i :: 0 <= i < |schedules| ==> RoutesOf(c, transport, bindRoutes)(schedules[i]).Success?) &&
              var pairs := Pairs(schedules, RoutesOf(c, transport, bindRoutes));
              && |r.value| == |pairs|
              && forall k :: 0 <= k < |pairs| ==>
                   Success(r.value[k]) == GetRouteScheduleBySchedule(c, pairs[k].0, pairs[k].1, transport,
                                                                      bindRouteSchedule).result
  {
    var routesOf := RoutesOf(c, transport, bindRoutes);
    var scheduleOf := RouteScheduleOf(c, transport, bindRouteSchedule);
    r := CollectRouteSchedules(schedules, routesOf, scheduleOf);
    AllRouteSchedulesSucceeds(schedules, routesOf, scheduleOf);
    if r.Success? {
      AllRouteSchedulesOrder(schedules, routesOf, scheduleOf);
    }
  }
}
