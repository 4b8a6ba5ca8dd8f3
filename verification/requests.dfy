/**
 The request preamble every endpoint shares: inject the credential and the command
 into the query parameters, address `/api/<group>.aspx` on the fixed host, send a GET,
 insist on status 200, read the body and hand it to the endpoint's decoder.

 The network is an oracle `Transport`; the query string's percent-encoding is not
 modelled, so a URL carries the final parameter map it was encoded from.
 */
module Requests {
  import opened Results
  import opened Strconv

  /** `url.Values`: each parameter name maps to its list of values. */
  type Params = map<string, seq<string>>

  /** A client is its API key; the key is sent with every request. */
  datatype Client = Client(apiKey: string)

  const Scheme: string := "http"
  const Host: string := "api.bart.gov"
  const PathPrefix: string := "/api/"
  const PathSuffix: string := ".aspx"

  datatype Url = Url(scheme: string, host: string, path: string, query: Params)

  /** What the server sent back; `body` is `None` when reading it fails. */
  datatype HttpResponse = HttpResponse(status: int, body: Option<string>)

  /** `http.Get`: a response, or `None` when the request could not be sent. */
  type Transport = Url -> Option<HttpResponse>

  /**
   One round trip as the caller sees it: the parameter map after the preamble wrote
   into it (the caller's map is updated in place), the URL requested, and the outcome.
   */
  datatype Exchange<T> = Exchange(params: Params, url: Url, result: Result<T>)

  /** Writes the credential and the command over whatever the caller put under those names. */
  function WithCredentials(params: Params, apiKey: string, cmd: string): (p: Params)
    ensures p.Keys == params.Keys + {"key", "cmd"}
    ensures p["key"] == [apiKey] && p["cmd"] == [cmd]
    ensures forall k :: k in params && k != "key" && k != "cmd" ==> p[k] == params[k]
  {
    params["key" := [apiKey]]["cmd" := [cmd]]
  }

  /** What the caller had stored under `key` or `cmd` does not reach the server. */
  lemma CallerCredentialsOverwritten(params: Params, name: string, values: seq<string>, apiKey: string, cmd: string)
    requires name == "key" || name == "cmd"
    ensures WithCredentials(params[name := values], apiKey, cmd) == WithCredentials(params, apiKey, cmd)
  {
    var a := WithCredentials(params[name := values], apiKey, cmd);
    var b := WithCredentials(params, apiKey, cmd);
    assert a.Keys == b.Keys;
    assert forall k :: k in a ==> a[k] == b[k];
  }

  /** Running the preamble again on its own output changes nothing. */
  lemma WithCredentialsIdempotent(params: Params, apiKey: string, cmd: string)
    ensures WithCredentials(WithCredentials(params, apiKey, cmd), apiKey, cmd) == WithCredentials(params, apiKey, cmd)
  {
    var p := WithCredentials(params, apiKey, cmd);
    CallerCredentialsOverwritten(p["key" := [apiKey]], "cmd", [cmd], apiKey, cmd);
  }

  /** The endpoint path of a group. */
  function RequestPath(group: string): (path: string)
    ensures GroupOf(path) == Some(group)
  {
    var path := PathPrefix + group + PathSuffix;
    assert path[..|PathPrefix|] == PathPrefix;
    assert path[|path| - |PathSuffix|..] == PathSuffix;
    assert path[|PathPrefix|..|path| - |PathSuffix|] == group;
    path
  }

  /** The group a path addresses, when it has the endpoint shape at all. */
  function GroupOf(path: string): Option<string> {
    if |path| >= |PathPrefix| + |PathSuffix|
       && path[..|PathPrefix|] == PathPrefix
       && path[|path| - |PathSuffix|..] == PathSuffix
    then Some(path[|PathPrefix|..|path| - |PathSuffix|])
    else None
  }

  /** A path that names a group is exactly the path built for that group. */
  lemma GroupOfInverse(path: string, group: string)
    requires GroupOf(path) == Some(group)
    ensures RequestPath(group) == path
  {
    assert path == path[..|PathPrefix|] + path[|PathPrefix|..|path| - |PathSuffix|] + path[|path| - |PathSuffix|..];
  }

  /** True when the server answered 200 and the body could be read. */
  predicate Delivered(transport: Transport, url: Url) {
    && transport(url).Some?
    && transport(url).value.status == 200
    && transport(url).value.body.Some?
  }

  function BodyOf(transport: Transport, url: Url): string
    requires Delivered(transport, url)
  {
    transport(url).value.body.value
  }

  /** Sends the request, checks the status, reads the body and decodes it, in that order. */
  function Receive<T>(transport: Transport, url: Url, decode: string -> Result<T>): (r: Result<T>)
    ensures transport(url).None? ==> r == Failure(TransportFailed)
    ensures transport(url).Some? && transport(url).value.status != 200
            ==> r == Failure(BadStatus(transport(url).value.status))
    ensures transport(url).Some? && transport(url).value.status == 200 && transport(url).value.body.None?
            ==> r == Failure(BodyUnreadable)
    ensures Delivered(transport, url) ==> r == decode(BodyOf(transport, url))
    ensures r.Success? <==> Delivered(transport, url) && decode(BodyOf(transport, url)).Success?
  {
    match transport(url)
    case None => Failure(TransportFailed)
    case Some(response) =>
      if response.status != 200 then Failure(BadStatus(response.status))
      else
        match response.body
        case None => Failure(BodyUnreadable)
        case Some(body) => decode(body)
  }

  /** `MakeRequest`: the shared preamble, then one round trip. */
  function MakeRequest<T>(c: Client, group: string, cmd: string, params: Params,
                          transport: Transport, decode: string -> Result<T>): (x: Exchange<T>)
    ensures x.params.Keys == params.Keys + {"key", "cmd"}
    ensures x.params["key"] == [c.apiKey] && x.params["cmd"] == [cmd]
    ensures forall k :: k in params && k != "key" && k != "cmd" ==> x.params[k] == params[k]
    ensures x.url.scheme == "http" && x.url.host == "api.bart.gov"
    ensures x.url.path == RequestPath(group)
    ensures x.url.query == x.params
    ensures x.result == Receive(transport, x.url, decode)
  {
    var p := WithCredentials(params, c.apiKey, cmd);
    var url := Url(Scheme, Host, RequestPath(group), p);
    Exchange(p, url, Receive(transport, url, decode))
  }

  /** The parameter `name` has a single value, which `Atoi` reads back as `n`. */
  predicate CarriesNumber(query: Params, name: string, n: int) {
    name in query && |query[name]| == 1 && Atoi(query[name][0]) == Some(n)
  }

  /** The exchange asked for exactly this path and exactly these query parameters. */
  predicate Requested<T>(x: Exchange<T>, path: string, query: Params) {
    x.url == Url(Scheme, Host, path, query) && x.params == query
  }
}
