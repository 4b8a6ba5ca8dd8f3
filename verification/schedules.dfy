/**
 Schedules (the `sched` endpoint group): the timetable versions the server publishes,
 and the route schedules that are bound straight from their XML.
 */
module Schedules {
  import opened Results
  import opened Strconv
  import opened Times
  import opened Requests

  /** One stop of a scheduled train, as the XML attributes give it. */
  datatype ScheduledStop = ScheduledStop(station: string, time: string, bikeFlag: string)

  datatype TrainSchedule = TrainSchedule(index: int, stops: seq<ScheduledStop>)

  /** A route's timetable under one schedule; bound directly, with no normalisation step. */
  datatype RouteSchedule = RouteSchedule(number: int, trains: seq<TrainSchedule>, message: string)

  datatype Schedule = Schedule(effectiveDate: Time, number: int)

  /** A `<schedule>` element as bound from its attributes. */
  datatype IntermediateSchedule = IntermediateSchedule(effectiveDate: string, number: int)

  const EffectiveDateLayout: string := "01/02/2006 03:04 PM"

  /** The named dates a route schedule may be asked for instead of a calendar date. */
  const Weekday: string := "wd"
  const Saturday: string := "sd"
  const Sunday: string := "su"
  const Today: string := "today"
  const Now: string := "now"

  /** `Schedule.UnmarshalXML`: the number is copied and the effective date must parse. */
  function UnmarshalSchedule(d: Option<IntermediateSchedule>, parse: TimeParser): (r: Result<Schedule>)
    ensures r.Success? <==> d.Some? && parse(EffectiveDateLayout, d.value.effectiveDate).Some?
    ensures d.None? ==> r == Failure(Malformed)
    ensures d.Some? && parse(EffectiveDateLayout, d.value.effectiveDate).None?
            ==> r == Failure(BadTime("effectivedate", d.value.effectiveDate))
    ensures r.Success? ==> && r.value.number == d.value.number
                           && Some(r.value.effectiveDate) == parse(EffectiveDateLayout, d.value.effectiveDate)
  {
    match d
    case None => Failure(Malformed)
    case Some(i) =>
      match parse(EffectiveDateLayout, i.effectiveDate)
      case None => Failure(BadTime("effectivedate", i.effectiveDate))
      case Some(t) => Success(Schedule(t, i.number))
  }

  /** Decoding of the `<schedules><schedule>` elements of a `scheds` document. */
  function ScheduleDecoder(bind: string -> Option<seq<Option<IntermediateSchedule>>>, parse: TimeParser)
    : string -> Result<seq<Schedule>>
  {
    body => DecodeList(bind(body), (d: Option<IntermediateSchedule>) => UnmarshalSchedule(d, parse))
  }

  /** A route-schedule document is bound in one step; `None` when that fails. */
  function RouteScheduleDecoder(bind: string -> Option<RouteSchedule>): string -> Result<RouteSchedule> {
    body => match bind(body) case None => Failure(Malformed) case Some(rs) => Success(rs)
  }

  /** `GetRouteScheduleByDate`: command `routesched` with the route number and the date. */
  function GetRouteScheduleByDate(c: Client, routeNumber: int, date: string, transport: Transport,
                                  bind: string -> Option<RouteSchedule>)
    : (x: Exchange<RouteSchedule>)
    ensures Requested(x, RequestPath("sched"),
                      map["route" := [Itoa(routeNumber)], "date" := [date],
                          "key" := [c.apiKey], "cmd" := ["routesched"]])
    ensures InIntRange(routeNumber) ==> CarriesNumber(x.url.query, "route", routeNumber)
    ensures x.result.Success? <==> Delivered(transport, x.url) && bind(BodyOf(transport, x.url)).Some?
    ensures x.result.Success? ==> Some(x.result.value) == bind(BodyOf(transport, x.url))
  {
    var params := map["route" := [Itoa(routeNumber)], "date" := [date], "cmd" := ["routesched"]];
    var x := MakeRequest(c, "sched", "routesched", params, transport, RouteScheduleDecoder(bind));
    assert "cmd" != "key";
    assert InIntRange(routeNumber) ==> Atoi(Itoa(routeNumber)) == Some(routeNumber) by {
      if InIntRange(routeNumber) { AtoiItoa(routeNumber); }
    }
    x
  }

  /** `GetRouteScheduleBySchedule`: command `routesched` with the route and schedule numbers. */
  function GetRouteScheduleBySchedule(c: Client, routeNumber: int, scheduleNumber: int, transport: Transport,
                                      bind: string -> Option<RouteSchedule>)
    : (x: Exchange<RouteSchedule>)
    ensures Requested(x, RequestPath("sched"),
                      map["route" := [Itoa(routeNumber)], "sched" := [Itoa(scheduleNumber)],
                          "key" := [c.apiKey], "cmd" := ["routesched"]])
    ensures InIntRange(routeNumber) ==> CarriesNumber(x.url.query, "route", routeNumber)
    ensures InIntRange(scheduleNumber) ==> CarriesNumber(x.url.query, "sched", scheduleNumber)
    ensures x.result.Success? <==> Delivered(transport, x.url) && bind(BodyOf(transport, x.url)).Some?
    ensures x.result.Success? ==> Some(x.result.value) == bind(BodyOf(transport, x.url))
  {
    var params := map["route" := [Itoa(routeNumber)], "sched" := [Itoa(scheduleNumber)], "cmd" := ["routesched"]];
    var x := MakeRequest(c, "sched", "routesched", params, transport, RouteScheduleDecoder(bind));
    assert "cmd" != "key";
    assert InIntRange(routeNumber) ==> Atoi(Itoa(routeNumber)) == Some(routeNumber) by {
      if InIntRange(routeNumber) { AtoiItoa(routeNumber); }
    }
    assert InIntRange(scheduleNumber) ==> Atoi(Itoa(scheduleNumber)) == Some(scheduleNumber) by {
      if InIntRange(scheduleNumber) { AtoiItoa(scheduleNumber); }
    }
    x
  }

  /** `GetCurrentSchedules`: command `scheds`; the schedules come back in document order. */
  function GetCurrentSchedules(c: Client, transport: Transport,
                               bind: string -> Option<seq<Option<IntermediateSchedule>>>, parse: TimeParser)
    : (x: Exchange<seq<Schedule>>)
    ensures Requested(x, RequestPath("sched"), map["key" := [c.apiKey], "cmd" := ["scheds"]])
    ensures x.result.Success? <==> Delivered(transport, x.url) && bind(BodyOf(transport, x.url)).Some?
                                   && forall k :: 0 <= k < |bind(BodyOf(transport, x.url)).value| ==>
                                        UnmarshalSchedule(bind(BodyOf(transport, x.url)).value[k], parse).Success?
    ensures x.result.Success? ==>
              var elements := bind(BodyOf(transport, x.url)).value;
              && |x.result.value| == |elements|
              && forall k :: 0 <= k < |elements| ==>
                   Success(x.result.value[k]) == UnmarshalSchedule(elements[k], parse)
  {
    var x := MakeRequest(c, "sched", "scheds", map[], transport, ScheduleDecoder(bind, parse));
    assert x.params == map["key" := [c.apiKey], "cmd" := ["scheds"]];
    x
  }
}
