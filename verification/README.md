# BART API client: request plumbing and response normalisation

This project models the core of a small Go client for the BART (Bay Area Rapid
Transit) XML web API. Each endpoint operation sends one HTTP GET to
`http://api.bart.gov/api/<group>.aspx` with a `cmd` and a `key` query parameter;
`GetAllRouteSchedulesBySchedules` chains many of them, one per schedule and one
per (schedule, route) pair. Advisories, departures, estimates, routes and
schedules are decoded in two steps: the XML layer binds each element to a loosely
typed intermediate record, and a hand-written `UnmarshalXML` turns that record
into the typed value. Route schedules and the train count are bound in one step,
with no intermediate record. The model covers:

- the shared request preamble `MakeRequest`: writing the credential and the command into the caller's parameter map, building the path, and the transport, status, body-read and decode failure branches (`requests.dfy`);
- service advisories: the early exit for records without a posting time, the advisory-type check, the two time parses, and the list-level rule that a first record carrying a sentinel description empties the listing; also the train count (`advisories.dfy`);
- departures and estimates: tolerant `Atoi` minutes that fall back to 0, the `limited` flag, destination station stubs, and nested estimates (`estimates.dfy`);
- routes: copied fields, and the raw station names mapped to name-only station stubs in order (`routes.dfy`);
- schedules: effective-date parsing, the route-schedule requests, and the aggregation over every (schedule, route) pair, which is all or nothing (`schedules.dfy`, `route_schedules.dfy`);
- Go's `strconv.Atoi` and `strconv.Itoa` for a 64-bit `int`, with `Atoi` given both as a reference definition and as the scanning loop (`strconv.dfy`).

The network, the XML binding and `time.Parse` are function-typed parameters
(oracles):

- `Transport = Url -> Option<HttpResponse>`;
- a `bind` function from the body text to the intermediate document, where `None` means the XML could not be bound;
- `TimeParser = (layout, text) -> Option<Time>`.

The verified content is how the client branches on these oracles' answers and
how it combines them. Each endpoint returns an `Exchange`. An `Exchange` records
the parameter map as the preamble left it, the URL requested, and a `Result`.

Three facts about the Go code shape the model:

- The sentinel check looks only at the first record, whatever the list's length (bsa.go:85, bsa.go:99).
- On the early-exit path an advisory keeps its id, description and SMS text (bsa.go:55).
- The body is read in full before decoding, so a failed read is its own error (client.go:28-31).

Errors are plain formatted messages in the code. Here they are an `Error` datatype with one variant per failing branch.

## Model

| member | source | states |
|---|---|---|
| `Strconv.ScanAtoi` | estimate.go:72 | A scanning implementation that returns exactly the reference `Atoi`: a value only for an optional sign followed by one or more ASCII digits whose value fits in 64 bits, and no value for any other text |
| `Strconv.AtoiItoa` | route.go:66 | Every 64-bit integer written by `Itoa` is read back by `Atoi` as the same number, so a number sent as decimal text denotes that number |
| `Strconv.AtoiRejectsOutOfRange` | estimate.go:72-76 | The decimal text of any number outside the 64-bit range, such as "9223372036854775808", makes `Atoi` fail with no value |
| `Requests.WithCredentials` | client.go:18-19 | After the preamble, `key` holds exactly the API key and `cmd` holds exactly the command; every other caller key keeps its value; the key set is the caller's keys plus `key` and `cmd` |
| `Requests.CallerCredentialsOverwritten` | client.go:18-19 | Whatever the caller stored under `key` or `cmd` has no effect on the parameters sent |
| `Requests.WithCredentialsIdempotent` | client.go:18-19 | Running the preamble twice gives the same parameter map as running it once |
| `Requests.RequestPath` | client.go:20 | The group can be recovered from the built path (`GroupOf` inverts `RequestPath`) |
| `Requests.GroupOfInverse` | client.go:20 | Any path from which a group is recovered is exactly `/api/<group>.aspx` for that group |
| `Requests.Receive` | client.go:21-36 | A transport failure, a non-200 status (reporting the code) and an unreadable body each fail without decoding; success holds exactly when the status is 200, the body is read and the decoder succeeds, and the value is then the decoder's |
| `Requests.MakeRequest` | client.go:17-36 | The parameters are the caller's with `key` and `cmd` overwritten; the URL is `http`, host `api.bart.gov`, the group's `.aspx` path, with the updated map as its query; the outcome is that URL's round trip |
| `Advisories.UnmarshalAdvisory` | bsa.go:49-76 | Id, description and SMS text are always copied. An empty posting time succeeds with an empty type and zero times, whatever the type. Otherwise a type outside DELAY/ELEVATOR/EMERGENCY fails first, then a bad posting time, then a bad expiry time. An accepted type is stored as given, and a stored type is empty exactly on the early-exit path |
| `Advisories.AdvisoryAccepted` | bsa.go:56-75 | A bound record decodes successfully exactly when its posting time is empty, or its type is allowed and both times parse |
| `Advisories.DropSentinel` | bsa.go:85-89 | On a non-empty list the result is empty exactly when the first description equals the sentinel, and otherwise it is the list unchanged |
| `Advisories.GetServiceAdvisories` | bsa.go:79-90 | Requests `/api/bsa.aspx` with exactly `key` and `cmd=bsa`; it succeeds exactly when the request does; the listing is empty exactly when the first decoded advisory reads "No delays reported.", and otherwise it is the decoded list in order |
| `Advisories.GetElevatorAdvisories` | bsa.go:93-103 | Same as the service listing, with `cmd=elev` and the all-elevators-in-service sentinel |
| `Advisories.NoDelaysDocumentIsEmpty` | bsa.go:49-90 | A document of a single unposted record with the no-delays description yields an empty listing, whatever the record's other fields hold |
| `Advisories.GetTrainCount` | bsa.go:106-113 | Requests `/api/bsa.aspx` with `cmd=count`; it succeeds exactly when the body arrives and binds, and the count is the bound integer |
| `Estimates.TolerantMinutes` | estimate.go:72-76 | Minutes are the `Atoi` value of the text when `Atoi` accepts it, and 0 whenever `Atoi` fails, never an error |
| `Estimates.UnmarshalEstimate` | estimate.go:66-85 | A bound estimate never fails to convert; minutes are the `Atoi` value or 0; the other six fields are copied |
| `Estimates.MinutesOfNumber` | estimate.go:72-77 | Minutes written as the decimal text of a 64-bit number decode to that number |
| `Estimates.MinutesOfPlaceholder` | estimate.go:72-76 | Minutes text that is not a number, such as "Leaving", decodes to 0 and not to an error |
| `Estimates.MinutesOfOverflow` | estimate.go:72-76 | Minutes written as a number beyond the 64-bit range fail `Atoi` and decode to 0, without an error |
| `Estimates.MinutesExamples` | estimate.go:72-77 | "5" gives 5, "Leaving" and "" give 0, "-3" gives -3 |
| `Estimates.UnmarshalDeparture` | estimate.go:53-63 | The conversion succeeds exactly when the element and all its estimates are bound. The destination is a stub with only the code and the name set. `limited` is true exactly when the raw value is 1. The estimates keep their number and order |
| `Estimates.GetDeparturesByStation` | estimate.go:88-95 | Requests `/api/etd.aspx` with exactly `orig` set to the station code, plus `key` and `cmd=etd`; on success the departures match the document's elements one for one, in order |
| `Routes.NameStubs` | route.go:47-49 | One station per raw name, in the same order, each the zero station with only its name set |
| `Routes.NameStubsNames` | route.go:47-49 | Reading the names back off the stubs gives the raw list |
| `Routes.UnmarshalRoute` | route.go:40-51 | A bound route never fails to convert, whatever its station count; the seven scalar fields are copied; the stations are name-only stubs whose names are the raw names in order |
| `Routes.GetCurrentRoutes` | route.go:54-61 | Requests `/api/route.aspx` with `cmd=routes` only; on success the routes match the document's elements one for one, in order |
| `Routes.GetRoutesBySchedule` | route.go:64-72 | Sends `sched` as the decimal text of the schedule number, and `Atoi` reads that text back as the number; the decoded routes come back in document order |
| `Routes.RouteInfoRequest` | route.go:76-78 | The `routeinfo` round trip decodes the document's routes one for one, in order |
| `Routes.GetRouteInfoByNumber` | route.go:75-83 | Sends `route` as the decimal text of the route number. Given a non-empty decoded list, the answer is its first route, and it fails exactly when the request fails |
| `Routes.GetAllRouteInfo` | route.go:86-94 | Requests `routeinfo` with `route=all`; the decoded routes come back in document order |
| `Schedules.UnmarshalSchedule` | schedule.go:62-74 | Fails exactly when the element is not bound or the effective date does not parse with layout "01/02/2006 03:04 PM"; on success the number is copied and the date is the parsed one |
| `Schedules.GetRouteScheduleByDate` | schedule.go:78-86 | Sends `route` (decimal text that reads back as the route number), `date`, `key` and `cmd=routesched` to `/api/sched.aspx`; the value is the bound document; failure carries no value |
| `Schedules.GetRouteScheduleBySchedule` | schedule.go:89-97 | Sends `route` and `sched` as decimal texts that read back as the two numbers, plus `key` and `cmd=routesched`; the value is the bound document; failure carries no value |
| `Schedules.GetCurrentSchedules` | schedule.go:100-107 | Requests `cmd=scheds`; on success the schedules match the document's elements one for one, in document order |
| `RouteSchedules.AllRouteSchedulesSucceeds` | schedule.go:110-126 | The aggregate succeeds exactly when every schedule's routes lookup and every (schedule, route) lookup succeeds |
| `RouteSchedules.AllRouteSchedulesOrder` | schedule.go:110-126 | A successful aggregate has one entry per (schedule, route) pair, ordered by schedule and then by route, each being that pair's route schedule |
| `RouteSchedules.FailureIsFinal` | schedule.go:113-121 | Once the lookups for a prefix of the schedules fail, the whole aggregate fails with that error, and no partial list is returned |
| `RouteSchedules.CollectForSchedule` | schedule.go:117-123 | The inner loop returns the route schedules of one schedule's routes in order, or the first failing lookup's error |
| `RouteSchedules.CollectRouteSchedules` | schedule.go:110-126 | The nested loop computes exactly the reference aggregate, including which error is reported |
| `RouteSchedules.GetAllRouteSchedulesBySchedules` | schedule.go:110-126 | Over the client's own lookups: success exactly when all lookups succeed, and then one entry per (schedule, route) pair, in order, each equal to that pair's `GetRouteScheduleBySchedule` result |

## Left out

- station.go (`GetAllStations` and the station record's XML binding) has no logic. Only the `Station` record is modelled, for the stubs other entities build.
- HTTP transport and reading the body: an oracle that returns a status and a readable or unreadable body.
- XML tokenising and struct-tag binding (`encoding/xml`): an oracle from body text to the intermediate document. An element that cannot be bound appears as `None`.
- Go's `time.Parse` layout semantics: an oracle from (layout, text) to an abstract instant. Date arithmetic and time zones are not modelled.
- Percent-encoding of the query string (`url.Values.Encode`): a URL carries the final parameter map in place of its encoded text.
- Error message text and error wrapping: one `Error` variant per failing branch.
- The `DefaultClient` key constant is not modelled. A `Client` is any API key.
- The zero value Go returns next to an error (a nil slice, `Route{}`, `RouteSchedule{}`): a `Failure` carries no value.
- Fields an `UnmarshalXML` assigns before it returns an error are not modelled. The error aborts the whole decode, so callers never see them.
- Go's distinction between a nil slice and an empty slice is not modelled: both are the empty sequence.
- Advisories.GetServiceAdvisories, Advisories.GetElevatorAdvisories and Routes.GetRouteInfoByNumber index element 0 without a length check and would panic on an empty list. The model requires that a successful decode be non-empty.
- Integer fields other than the `Atoi` result are unbounded integers. Their 64-bit range is enforced by the XML binding, which is an oracle.
- Station coordinates are 32-bit floats in the client and reals here. Rounding is not modelled.
- Response bodies are character strings, not byte slices.
- The client never closes the response body (client.go:21-36), on any path. The model has no resource state, so this leak is not represented.
- `Transport` is a fixed function of the URL, so every request for the same URL gets the same answer. The aggregation at schedule.go:110-126 repeats requests when schedules or routes repeat, and the model does not cover answers that change between them.
