/** The generic HTTP executor `getCurlResponse`, with the transport taken
    out: what it checks and builds before the exchange, the request it would
    hand to cURL, and how it reads the exchange's outcome afterwards. */
module Curl {
  import opened Wrappers
  import opened Php
  import opened Errors

  /** What the transport produced: `curl_exec` failed, or the server
      answered with a status code and a body. */
  datatype Exchange = Failed | Status(code: int, body: string)

  /** The request handed to cURL: method, final URL, the POST fields if any
      are set, and the header lines exactly as the caller supplied them. */
  datatype Request = Request(verb: string, url: string, body: Option<string>, headers: seq<string>)

  const SupportedMethods: seq<string> := ["post", "get", "put", "delete"]

  /** The verb is accepted when its lower-case form is one of the four. */
  predicate Supported(verb: string) {
    Lower(verb) in SupportedMethods
  }

  /** The data once `getCurlResponse` has passed arrays through
      `http_build_query`: an array becomes its query string, anything else
      is kept. */
  function Payload(data: Value): (p: Value)
    ensures !IsArray(p)
    ensures IsArray(data) ==> p == Str(BuildQuery(data))
    ensures !IsArray(data) ==> p == data
  {
    if IsArray(data) then Str(BuildQuery(data)) else data
  }

  /** The method cURL uses: GET by default, POST through CURLOPT_POST, and
      otherwise the verb itself as a custom request. */
  function MethodFor(verb: string): string {
    if Lower(verb) == "get" then "GET"
    else if Lower(verb) == "post" then "POST"
    else verb
  }

  /** Everything `getCurlResponse` does before `curl_exec`. */
  function Prepare(url: string, verb: string, data: Value, headers: seq<string>): (r: Result<Request, Error>)
    ensures r.Failure? <==> EmptyString(url) || !Supported(verb)
    ensures r.Failure? ==> r.error == CurlParameterMissing
    ensures r.Success? ==> Lower(r.value.verb) == Lower(verb) && r.value.headers == headers
    ensures r.Success? && Lower(verb) == "get" ==> r.value.verb == "GET"
    ensures r.Success? && Lower(verb) == "post" ==> r.value.verb == "POST"
    ensures r.Success? && Lower(verb) != "get" && Lower(verb) != "post" ==> r.value.verb == verb
    ensures r.Success? && Lower(verb) == "get" ==>
              r.value.url == url + "?" + Text(Payload(data)) && r.value.body == None
    ensures r.Success? && Lower(verb) != "get" ==>
              r.value.url == url &&
              r.value.body == (if Empty(Payload(data)) then None else Some(Text(Payload(data))))
  {
    if EmptyString(url) || !Supported(verb) then Failure(CurlParameterMissing)
    else
      var payload := Payload(data);
      var finalUrl := if Lower(verb) == "get" then url + "?" + Text(payload) else url;
      var body := if Lower(verb) != "get" && !Empty(payload) then Some(Text(payload)) else None;
      assert Lower(verb) == "get" ==> Lower(MethodFor(verb)) == Lower("GET") == "get";
      assert Lower(verb) == "post" ==> Lower(MethodFor(verb)) == Lower("POST") == "post";
      Success(Request(MethodFor(verb), finalUrl, body, headers))
  }

  /** Everything `getCurlResponse` does after `curl_exec`: a failed
      exchange or status 400 throws, any other status returns the body
      unchanged. */
  function Interpret(e: Exchange): (r: Result<string, Error>)
    ensures r.Failure? <==> e.Failed? || e.code == 400
    ensures r.Failure? ==> r.error == CurlFailed
    ensures r.Success? ==> r.value == e.body
  {
    match e
    case Failed => Failure(CurlFailed)
    case Status(code, body) => if code == 400 then Failure(CurlFailed) else Success(body)
  }

  lemma {:induction false} LowerIdempotent(s: string)
    ensures Lower(Lower(s)) == Lower(s)
  {
    assert forall i :: 0 <= i < |s| ==> Lower(Lower(s))[i] == Lower(s)[i];
  }

  /** Whether a verb is accepted does not depend on the case it is written in. */
  lemma SupportedIgnoresCase(verb: string)
    ensures Supported(verb) <==> Supported(Lower(verb))
  {
    LowerIdempotent(verb);
  }

  /** An accepted verb is never PHP-empty, so the default to "get" for an
      empty verb (the `empty($type)` branch) never takes effect. */
  lemma SupportedVerbNotEmpty(verb: string)
    requires Supported(verb)
    ensures !EmptyString(verb)
  {
  }
}
