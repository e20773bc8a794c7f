/**
 * The tracker lookup (`TicketAPI.verifyTicket` in src/index.js): the GET
 * request it builds and how it classifies what comes back. The HTTP exchange
 * itself is not modelled; what the tracker did is the input `LookupOutcome`.
 */
module TicketApi {
  import opened Wrappers
  import opened Text

  datatype Header = Header(name: string, value: string)

  datatype Request = Request(httpMethod: string, url: string, headers: seq<Header>)

  /** What became of the request: the tracker answered with an HTTP status, or `fetch` (or reading the body) threw. */
  datatype LookupOutcome = Responded(status: nat) | Threw(message: string)

  /**
   * The object `verifyTicket` resolves to: `{ isValid, status }` after a
   * response, `{ isValid: false, error }` after an exception. A property the
   * JavaScript object does not have is `None`.
   */
  datatype VerifyResult = VerifyResult(isValid: bool, status: Option<nat>, error: Option<string>)

  /** `response.ok`: the status is in the range 200-299. */
  predicate IsOk(status: nat) {
    200 <= status <= 299
  }

  const ContentType: string := "Content-Type"
  const ApiKeyHeader: string := "X-API-KEY"

  /** The first value given for header `name`, if any. */
  function HeaderValue(headers: seq<Header>, name: string): Option<string>
    decreases |headers|
  {
    if headers == [] then None
    else if headers[0].name == name then Some(headers[0].value)
    else HeaderValue(headers[1..], name)
  }

  /** `${apiUrl}/projects/${projectId}/tickets/${ticketId}` */
  function LookupUrl(apiUrl: string, projectId: string, ticketId: string): string {
    apiUrl + "/projects/" + projectId + "/tickets/" + ticketId
  }

  /**
   * The request `verifyTicket` sends: a GET of the lookup URL that always says
   * `Content-Type: application/json` and carries `X-API-KEY` exactly when an
   * API key is configured (`...(this.apiKey && {...})` adds nothing for `''`).
   */
  function LookupRequest(apiUrl: string, apiKey: string, projectId: string, ticketId: string): (r: Request)
    ensures r.httpMethod == "GET" && r.url == LookupUrl(apiUrl, projectId, ticketId)
    ensures HeaderValue(r.headers, ContentType) == Some("application/json")
    ensures HeaderValue(r.headers, ApiKeyHeader) == if apiKey == "" then None else Some(apiKey)
    ensures |r.headers| == if apiKey == "" then 1 else 2
  {
    var keyHeader := if apiKey == "" then [] else [Header(ApiKeyHeader, apiKey)];
    Request("GET", LookupUrl(apiUrl, projectId, ticketId), [Header(ContentType, "application/json")] + keyHeader)
  }

  /**
   * The classification at the end of `verifyTicket`: valid exactly for a 2xx
   * status, the status kept after any response, and the exception's message
   * (with no status) after a transport failure.
   */
  function Classify(outcome: LookupOutcome): (r: VerifyResult)
    ensures r.isValid <==> outcome.Responded? && IsOk(outcome.status)
    ensures outcome.Responded? ==> r.status == Some(outcome.status) && r.error == None
    ensures outcome.Threw? ==> !r.isValid && r.status == None && r.error == Some(outcome.message)
  {
    match outcome
    case Responded(status) => VerifyResult(IsOk(status), Some(status), None)
    case Threw(message) => VerifyResult(false, None, Some(message))
  }

  /**
   * Reads project and ticket id back out of a lookup URL; the inverse of
   * `LookupUrl` for the digit-only ids the matcher produces.
   */
  function ParseLookupUrl(apiUrl: string, url: string): Option<(string, string)> {
    var prefix := apiUrl + "/projects/";
    if |url| < |prefix| || url[..|prefix|] != prefix then None
    else
      var rest := url[|prefix|..];
      var p := DigitRun(rest, 0);
      var after := rest[p..];
      if p == 0 || |after| < 9 || after[..9] != "/tickets/" || !IsDigitString(after[9..]) then None
      else Some((rest[..p], after[9..]))
  }

  /** The URL determines the ticket it asks for: different digit ids never share a lookup URL. */
  lemma LookupUrlRoundTrip(apiUrl: string, projectId: string, ticketId: string)
    requires IsDigitString(projectId) && IsDigitString(ticketId)
    ensures ParseLookupUrl(apiUrl, LookupUrl(apiUrl, projectId, ticketId)) == Some((projectId, ticketId))
  {
    var url := LookupUrl(apiUrl, projectId, ticketId);
    var prefix := apiUrl + "/projects/";
    var rest := projectId + "/tickets/" + ticketId;
    assert url == prefix + rest;
    assert url[..|prefix|] == prefix && url[|prefix|..] == rest;
    assert rest[|projectId|] == '/';
    DigitRunExact(rest, 0, |projectId|);
    assert rest[..|projectId|] == projectId;
    var after := rest[|projectId|..];
    assert after == "/tickets/" + ticketId;
    assert after[..9] == "/tickets/" && after[9..] == ticketId;
  }
}
