/**
 Service advisories (the `bsa` endpoint group): the per-record normalisation with its
 early exit for records that carry no posting time, the list-level translation of
 the "nothing to report" sentinel record into an empty list, and the train count.
 */
module Advisories {
  import opened Results
  import opened Times
  import opened Requests

  datatype ServiceAdvisory = ServiceAdvisory(
    id: int,
    kind: string,
    description: string,
    smsText: string,
    posted: Time,
    expires: Time)

  /** An advisory element as bound from the XML, every field still text except the id. */
  datatype IntermediateAdvisory = IntermediateAdvisory(
    id: int,
    description: string,
    smsText: string,
    kind: string,
    posted: string,
    expires: string)

  const PostedLayout: string := "Mon Jan 02 2006 03:04 PM MST"
  const ExpiresLayout: string := "Mon Jan 02 2006 03:04 PM MST"
  const NoDelaysDescription: string := "No delays reported."
  const ElevatorsFineDescription: string := "Attention passengers: All elevators are in service. Thank You."

  /** The advisory types a posted advisory may carry. */
  const AdvisoryTypes: set<string> := {"DELAY", "ELEVATOR", "EMERGENCY"}

  /**
   `ServiceAdvisory.UnmarshalXML`. `d` is the outcome of binding the element
   (`None` when that failed). A record without a posting time is the sentinel shape
   and is accepted as it stands; otherwise the type is checked, then the posting
   time, then the expiry time.
   */
  function UnmarshalAdvisory(d: Option<IntermediateAdvisory>, parse: TimeParser): (r: Result<ServiceAdvisory>)
    ensures d.None? ==> r == Failure(Malformed)
    ensures r.Success? ==> d.Some?
    ensures r.Success? ==> && r.value.id == d.value.id
                           && r.value.description == d.value.description
                           && r.value.smsText == d.value.smsText
    // the early exit: any type, any expiry text, no time parsed
    ensures d.Some? && d.value.posted == ""
            ==> r.Success? && r.value.kind == "" && r.value.posted == ZeroTime && r.value.expires == ZeroTime
    // type validation precedes both time parses
    ensures d.Some? && d.value.posted != "" && d.value.kind !in AdvisoryTypes
            ==> r == Failure(InvalidAdvisoryType(d.value.kind))
    ensures d.Some? && d.value.posted != "" && d.value.kind in AdvisoryTypes
            && parse(PostedLayout, d.value.posted).None?
            ==> r == Failure(BadTime("posted", d.value.posted))
    ensures d.Some? && d.value.posted != "" && d.value.kind in AdvisoryTypes
            && parse(PostedLayout, d.value.posted).Some? && parse(ExpiresLayout, d.value.expires).None?
            ==> r == Failure(BadTime("expires", d.value.expires))
    ensures d.Some? && d.value.posted != "" && r.Success?
            ==> && r.value.kind == d.value.kind
                && Some(r.value.posted) == parse(PostedLayout, d.value.posted)
                && Some(r.value.expires) == parse(ExpiresLayout, d.value.expires)
    // a stored type is either empty (sentinel shape) or one of the allowed ones
    ensures r.Success? ==> (r.value.kind == "" <==> d.value.posted == "")
    ensures r.Success? && r.value.kind != "" ==> r.value.kind in AdvisoryTypes
  {
    match d
    case None => Failure(Malformed)
    case Some(i) =>
      if i.posted == "" then
        Success(ServiceAdvisory(i.id, "", i.description, i.smsText, ZeroTime, ZeroTime))
      else if i.kind !in AdvisoryTypes then
        Failure(InvalidAdvisoryType(i.kind))
      else
        match parse(PostedLayout, i.posted)
        case None => Failure(BadTime("posted", i.posted))
        case Some(posted) =>
          match parse(ExpiresLayout, i.expires)
          case None => Failure(BadTime("expires", i.expires))
          case Some(expires) => Success(ServiceAdvisory(i.id, i.kind, i.description, i.smsText, posted, expires))
  }

  /** A record is decoded with success exactly when it is bound and either unposted or fully valid. */
  lemma AdvisoryAccepted(d: Option<IntermediateAdvisory>, parse: TimeParser)
    ensures UnmarshalAdvisory(d, parse).Success? <==>
            && d.Some?
            && (|| d.value.posted == ""
                || (&& d.value.kind in AdvisoryTypes
                    && parse(PostedLayout, d.value.posted).Some?
                    && parse(ExpiresLayout, d.value.expires).Some?))
  {
  }

  /** Decoding of a whole `<root>` of `<bsa>` elements, each through `UnmarshalAdvisory`. */
  function AdvisoryDecoder(bind: string -> Option<seq<Option<IntermediateAdvisory>>>, parse: TimeParser)
    : string -> Result<seq<ServiceAdvisory>>
  {
    body => DecodeList(bind(body), (d: Option<IntermediateAdvisory>) => UnmarshalAdvisory(d, parse))
  }

  /**
   The list-level sentinel check: only the first record is inspected, and when its
   description is the sentinel text the whole list is reported as empty.
   */
  function DropSentinel(advisories: seq<ServiceAdvisory>, sentinel: string): (r: seq<ServiceAdvisory>)
    requires |advisories| > 0
    ensures r == [] <==> advisories[0].description == sentinel
    ensures r != [] ==> r == advisories
  {
    if advisories[0].description == sentinel then [] else advisories
  }

  /** The round trip of the `bsa` group with command `cmd` and no further parameters. */
  function AdvisoryRequest(c: Client, cmd: string, transport: Transport,
                           bind: string -> Option<seq<Option<IntermediateAdvisory>>>, parse: TimeParser)
    : Exchange<seq<ServiceAdvisory>>
  {
    MakeRequest(c, "bsa", cmd, map[], transport, AdvisoryDecoder(bind, parse))
  }

  /** Shared body of the two advisory listings: one request, then the sentinel check. */
  function AdvisoryListing(c: Client, cmd: string, sentinel: string, transport: Transport,
                           bind: string -> Option<seq<Option<IntermediateAdvisory>>>, parse: TimeParser)
    : Exchange<seq<ServiceAdvisory>>
    requires NonEmptyOnSuccess(AdvisoryRequest(c, cmd, transport, bind, parse).result)
  {
    var x := AdvisoryRequest(c, cmd, transport, bind, parse);
    match x.result
    case Failure(e) => x
    case Success(advisories) => x.(result := Success(DropSentinel(advisories, sentinel)))
  }

  /** `GetServiceAdvisories`: command `bsa`, sentinel "No delays reported.". */
  function GetServiceAdvisories(c: Client, transport: Transport,
                                bind: string -> Option<seq<Option<IntermediateAdvisory>>>, parse: TimeParser)
    : (x: Exchange<seq<ServiceAdvisory>>)
    requires NonEmptyOnSuccess(AdvisoryRequest(c, "bsa", transport, bind, parse).result)
    ensures Requested(x, RequestPath("bsa"), map["key" := [c.apiKey], "cmd" := ["bsa"]])
    ensures x.result.Success? <==> AdvisoryRequest(c, "bsa", transport, bind, parse).result.Success?
    ensures x.result.Success? ==>
            var decoded := AdvisoryRequest(c, "bsa", transport, bind, parse).result.value;
            && (x.result.value == [] <==> decoded[0].description == NoDelaysDescription)
            && (x.result.value != [] ==> x.result.value == decoded)
  {
    AdvisoryListing(c, "bsa", NoDelaysDescription, transport, bind, parse)
  }

  /** `GetElevatorAdvisories`: command `elev`, the all-elevators-in-service sentinel. */
  function GetElevatorAdvisories(c: Client, transport: Transport,
                                 bind: string -> Option<seq<Option<IntermediateAdvisory>>>, parse: TimeParser)
    : (x: Exchange<seq<ServiceAdvisory>>)
    requires NonEmptyOnSuccess(AdvisoryRequest(c, "elev", transport, bind, parse).result)
    ensures Requested(x, RequestPath("bsa"), map["key" := [c.apiKey], "cmd" := ["elev"]])
    ensures x.result.Success? <==> AdvisoryRequest(c, "elev", transport, bind, parse).result.Success?
    ensures x.result.Success? ==>
            var decoded := AdvisoryRequest(c, "elev", transport, bind, parse).result.value;
            && (x.result.value == [] <==> decoded[0].description == ElevatorsFineDescription)
            && (x.result.value != [] ==> x.result.value == decoded)
  {
    AdvisoryListing(c, "elev", ElevatorsFineDescription, transport, bind, parse)
  }

  /**
   The two sentinel layers together: when the server's document is a single record
   with no posting time and the sentinel description, the listing is empty, whatever
   the record's other fields hold.
   */
  lemma NoDelaysDocumentIsEmpty(c: Client, transport: Transport,
                                bind: string -> Option<seq<Option<IntermediateAdvisory>>>, parse: TimeParser,
                                sentinel: IntermediateAdvisory)
    requires var url := AdvisoryRequest(c, "bsa", transport, bind, parse).url;
             Delivered(transport, url) && bind(BodyOf(transport, url)) == Some([Some(sentinel)])
    requires sentinel.posted == "" && sentinel.description == NoDelaysDescription
    ensures NonEmptyOnSuccess(AdvisoryRequest(c, "bsa", transport, bind, parse).result)
    ensures GetServiceAdvisories(c, transport, bind, parse).result == Success([])
  {
    var x := AdvisoryRequest(c, "bsa", transport, bind, parse);
    var one: seq<Option<IntermediateAdvisory>> := [Some(sentinel)];
    var f := (d: Option<IntermediateAdvisory>) => UnmarshalAdvisory(d, parse);
    assert f(one[0]).Success?;
    assert x.result == MapAll(one, f);
  }

  /** The train-count document: a single integer, or `None` when it cannot be bound. */
  function TrainCountDecoder(bind: string -> Option<int>): string -> Result<int> {
    body => match bind(body) case None => Failure(Malformed) case Some(n) => Success(n)
  }

  /** `GetTrainCount`: command `count` of the `bsa` group; the count is returned as decoded. */
  function GetTrainCount(c: Client, transport: Transport, bind: string -> Option<int>): (x: Exchange<int>)
    ensures Requested(x, RequestPath("bsa"), map["key" := [c.apiKey], "cmd" := ["count"]])
    ensures x.result.Success? <==> Delivered(transport, x.url) && bind(BodyOf(transport, x.url)).Some?
    ensures x.result.Success? ==> Some(x.result.value) == bind(BodyOf(transport, x.url))
  {
    MakeRequest(c, "bsa", "count", map[], transport, TrainCountDecoder(bind))
  }
}
