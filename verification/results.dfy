/**
 Failure-carrying values shared by the request layer and the per-entity decoders.

 Every operation of the client either produces a value or fails with exactly one
 error; the error's message text is not modelled, only which branch produced it.
 */
module Results {

  /** A value that may be absent: the outcome of an oracle that can fail without a reason. */
  datatype Option<+T> = None | Some(value: T)

  /** The branch at which one request, or one decode step, gave up. */
  datatype Error =
    | TransportFailed                        // the GET request could not be sent
    | BadStatus(code: int)                   // the server answered with a status other than 200
    | BodyUnreadable                         // reading the response body failed
    | Malformed                              // the XML could not be bound to the expected shape
    | InvalidAdvisoryType(value: string)     // an advisory type outside the allowed set
    | BadTime(field: string, raw: string)    // a timestamp did not match its layout

  datatype Result<+T> = Success(value: T) | Failure(error: Error)

  /**
   Applies `f` to every element in order and stops at the first failure: the way the
   XML decoder runs an element's own unmarshalling for each repeated element and
   abandons the whole document as soon as one of them returns an error.
   */
  function MapAll<A, B>(xs: seq<A>, f: A -> Result<B>): (r: Result<seq<B>>)
    ensures r.Success? <==> forall i :: 0 <= i < |xs| ==> f(xs[i]).Success?
    ensures r.Success? ==> |r.value| == |xs|
    ensures r.Success? ==> forall i :: 0 <= i < |xs| ==> r.value[i] == f(xs[i]).value
    decreases |xs|
  {
    if |xs| == 0 then Success([])
    else
      match f(xs[0])
      case Failure(e) => Failure(e)
      case Success(y) =>
        match MapAll(xs[1..], f)
        case Failure(e) => Failure(e)
        case Success(ys) =>
          assert forall i :: 1 <= i < |xs| ==> xs[1..][i - 1] == xs[i];
          Success([y] + ys)
  }

  /** The error `MapAll` reports is the one of the first element that fails. */
  lemma {:induction false} MapAllFirstFailure<A, B>(xs: seq<A>, f: A -> Result<B>, i: nat)
    requires i < |xs|
    requires forall k :: 0 <= k < i ==> f(xs[k]).Success?
    requires f(xs[i]).Failure?
    ensures MapAll(xs, f) == Failure(f(xs[i]).error)
  {
    if i > 0 {
      assert f(xs[0]).Success?;
      assert forall k :: 0 <= k < i - 1 ==> xs[1..][k] == xs[k + 1];
      MapAllFirstFailure(xs[1..], f, i - 1);
    }
  }

  /**
   Decodes a document whose repeated elements have been bound by the XML layer:
   `None` means the document itself could not be bound.
   */
  function DecodeList<R, T>(doc: Option<seq<R>>, convert: R -> Result<T>): Result<seq<T>>
  {
    match doc
    case None => Failure(Malformed)
    case Some(xs) => MapAll(xs, convert)
  }

  /** True when a successful result holds at least one element. */
  predicate NonEmptyOnSuccess<T>(r: Result<seq<T>>) {
    r.Success? ==> |r.value| > 0
  }
}
