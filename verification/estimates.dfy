/**
 Real-time departures (the `etd` endpoint group): each departure names a destination
 station and carries the arrival estimates of its next trains. Minutes are read with
 `Atoi` and fall back to zero, because the server writes a word instead of a number
 for a train already at the platform.
 */
module Estimates {
  import opened Results
  import opened Strconv
  import opened Stations
  import opened Requests

  datatype Estimate = Estimate(
    minutes: int,
    platform: int,
    direction: string,
    length: int,
    color: string,
    hexColor: string,
    bikeFlag: string)

  /** An estimate element as bound from the XML: the minutes are still text. */
  datatype IntermediateEstimate = IntermediateEstimate(
    minutes: string,
    platform: int,
    direction: string,
    length: int,
    color: string,
    hexColor: string,
    bikeFlag: string)

  datatype Departure = Departure(destination: Station, limited: bool, estimates: seq<Estimate>)

  /**
   A departure element as bound from the XML. Its estimates are bound one by one
   (`None` where an estimate element could not be bound) and each goes through
   `UnmarshalEstimate` while the departure element itself is being decoded.
   */
  datatype DepartureElement = DepartureElement(
    destination: string,
    destinationAbbreviation: string,
    estimates: seq<Option<IntermediateEstimate>>,
    limited: int)

  /** Minutes until arrival: the number when the text is one, zero otherwise. */
  function TolerantMinutes(text: string): (m: int)
    ensures Atoi(text).Some? ==> m == Atoi(text).value
    ensures Atoi(text).None? ==> m == 0
  {
    match Atoi(text)
    case Some(n) => n
    case None => 0
  }

  /** `Estimate.UnmarshalXML`: once the element is bound, conversion cannot fail. */
  function UnmarshalEstimate(d: Option<IntermediateEstimate>): (r: Result<Estimate>)
    ensures r.Success? <==> d.Some?
    ensures d.None? ==> r == Failure(Malformed)
    ensures r.Success? ==> && r.value.minutes == TolerantMinutes(d.value.minutes)
                           && r.value.platform == d.value.platform
                           && r.value.direction == d.value.direction
                           && r.value.length == d.value.length
                           && r.value.color == d.value.color
                           && r.value.hexColor == d.value.hexColor
                           && r.value.bikeFlag == d.value.bikeFlag
  {
    match d
    case None => Failure(Malformed)
    case Some(i) =>
      Success(Estimate(TolerantMinutes(i.minutes), i.platform, i.direction, i.length,
                       i.color, i.hexColor, i.bikeFlag))
  }

  /** Minutes written as a 64-bit number are read back as that number. */
  lemma MinutesOfNumber(i: IntermediateEstimate, n: int)
    requires InIntRange(n) && i.minutes == Itoa(n)
    ensures UnmarshalEstimate(Some(i)) == Success(Estimate(n, i.platform, i.direction, i.length,
                                                             i.color, i.hexColor, i.bikeFlag))
  {
    AtoiItoa(n);
  }

  /** Minutes that are not an optional sign followed by digits become zero, without an error. */
  lemma MinutesOfPlaceholder(i: IntermediateEstimate)
    requires !IsIntSyntax(i.minutes)
    ensures UnmarshalEstimate(Some(i)).Success?
    ensures UnmarshalEstimate(Some(i)).value.minutes == 0
  {
  }

  /** Minutes written as a number beyond the 64-bit range fail `Atoi` and also become zero. */
  lemma MinutesOfOverflow(i: IntermediateEstimate, n: int)
    requires !InIntRange(n) && i.minutes == Itoa(n)
    ensures UnmarshalEstimate(Some(i)).Success?
    ensures UnmarshalEstimate(Some(i)).value.minutes == 0
  {
    AtoiRejectsOutOfRange(n);
  }

  /** The two texts the server is known to send: a count of minutes, and a word. */
  lemma MinutesExamples()
    ensures TolerantMinutes("5") == 5
    ensures TolerantMinutes("Leaving") == 0
    ensures TolerantMinutes("") == 0
    ensures TolerantMinutes("-3") == -3
  {
    assert IsIntSyntax("5") && SyntaxValue("5") == 5 by {
      assert Unsigned("5") == "5";
      assert "5"[..0] == "";
    }
    assert !IsIntSyntax("Leaving") by {
      assert Unsigned("Leaving") == "Leaving" && !IsDigit("Leaving"[0]);
    }
    assert IsIntSyntax("-3") && SyntaxValue("-3") == -3 by {
      assert Unsigned("-3") == "3";
      assert "3"[..0] == "";
    }
  }

  /**
   `Departure.UnmarshalXML`: the destination becomes a stub holding only its code and
   name, `limited` is true exactly for the raw value 1, and the estimates keep their
   number and order.
   */
  function UnmarshalDeparture(d: Option<DepartureElement>): (r: Result<Departure>)
    ensures r.Success? <==> d.Some? && forall k :: 0 <= k < |d.value.estimates| ==> d.value.estimates[k].Some?
    ensures r.Success? ==> && r.value.destination == Stub(d.value.destinationAbbreviation, d.value.destination)
                           && IsStub(r.value.destination)
                           && (r.value.limited <==> d.value.limited == 1)
                           && |r.value.estimates| == |d.value.estimates|
    ensures r.Success? ==> forall k :: 0 <= k < |d.value.estimates| ==>
                             Success(r.value.estimates[k]) == UnmarshalEstimate(d.value.estimates[k])
  {
    match d
    case None => Failure(Malformed)
    case Some(i) =>
      match MapAll(i.estimates, UnmarshalEstimate)
      case Failure(e) => Failure(e)
      case Success(estimates) =>
        Success(Departure(Stub(i.destinationAbbreviation, i.destination), i.limited == 1, estimates))
  }

  /** Decoding of the `<station><etd>` elements of an `etd` document, in document order. */
  function DepartureDecoder(bind: string -> Option<seq<Option<DepartureElement>>>)
    : string -> Result<seq<Departure>>
  {
    body => DecodeList(bind(body), UnmarshalDeparture)
  }

  /** `GetDeparturesByStation`: command `etd` with the station's code as `orig`. */
  function GetDeparturesByStation(c: Client, station: Station, transport: Transport,
                                  bind: string -> Option<seq<Option<DepartureElement>>>)
    : (x: Exchange<seq<Departure>>)
    ensures Requested(x, RequestPath("etd"),
                      map["orig" := [station.abbreviation], "key" := [c.apiKey], "cmd" := ["etd"]])
    ensures x.result.Success? <==> Delivered(transport, x.url) && bind(BodyOf(transport, x.url)).Some?
                                   && forall k :: 0 <= k < |bind(BodyOf(transport, x.url)).value| ==>
                                        UnmarshalDeparture(bind(BodyOf(transport, x.url)).value[k]).Success?
    ensures x.result.Success? ==>
              var elements := bind(BodyOf(transport, x.url)).value;
              && |x.result.value| == |elements|
              && forall k :: 0 <= k < |elements| ==> Success(x.result.value[k]) == UnmarshalDeparture(elements[k])
  {
    var x := MakeRequest(c, "etd", "etd", map["orig" := [station.abbreviation]], transport, DepartureDecoder(bind));
    assert "orig" != "key" && "orig" != "cmd";
    assert x.params == map["orig" := [station.abbreviation], "key" := [c.apiKey], "cmd" := ["etd"]];
    x
  }
}
