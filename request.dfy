/**
 * `makeGitHubRequest` once the transport has delivered: the rate-limit fold, the status
 * classification, and the parse of the body and of the `Link` header of a 200 response.
 */
module Request {
  import opened Wrappers
  import opened JsString
  import opened LinkHeader
  import opened RateLimit

  /** The response headers the core reads: `x-ratelimit-remaining`, `x-ratelimit-reset` and `link`. */
  datatype Headers = Headers(remaining: Option<string>, reset: Option<string>, link: Option<string>)

  /**
   * What the transport delivers for one GET: a completed response with its status, headers,
   * raw body and the outcome of `JSON.parse` on that body (the parser's message on failure);
   * or a transport error (`https.get(...).on('error')`) with its message.
   */
  datatype Reply<T> =
    | Response(status: nat, headers: Headers, body: string, parsed: Result<seq<T>, string>)
    | TransportError(message: string)

  /** `GitHubResponse`: the parsed data and the next-page URL (null when absent). */
  datatype Page<T> = Page(data: seq<T>, nextPage: Option<string>)

  const RateLimitMarker := "status code 429"

  const ThrottledMessage := "API request failed with " + RateLimitMarker + ": Rate limit exceeded"

  function StatusMessage(status: nat, body: string): string {
    "API request failed with status code " + NatToString(status) + ": " + body
  }

  function ParseFailure(message: string): string {
    "Failed to parse API response: " + message
  }

  function TransportFailure(message: string): string {
    "API request failed: " + message
  }

  /** The promise `makeGitHubRequest` settles: Ok is `resolve`, Err carries the rejection message. */
  function Classify<T>(reply: Reply<T>): Result<Page<T>, string>
  {
    match reply
    case TransportError(m) => Err(TransportFailure(m))
    case Response(status, headers, body, parsed) =>
      if status == 429 then Err(ThrottledMessage)
      else if status != 200 then Err(StatusMessage(status, body))
      else if parsed.Err? then Err(ParseFailure(parsed.error))
      else match NextPageUrl(headers.link)
        case Err(m) => Err(ParseFailure(m))
        case Ok(next) => Ok(Page(parsed.value, next))
  }

  /** The test of the catch clause in `fetchAllPages`: `error.message.includes('status code 429')`. */
  predicate IsRateLimited(message: string) {
    Contains(message, RateLimitMarker)
  }

  /** Only a 200 response whose body and `Link` header both parse resolves, with the parsed body as data. */
  lemma ResolvesOnlyOn200<T>(reply: Reply<T>)
    ensures Classify(reply).Ok? <==>
              reply.Response? && reply.status == 200 && reply.parsed.Ok? && NextPageUrl(reply.headers.link).Ok?
    ensures Classify(reply).Ok? ==>
              Classify(reply).value == Page(reply.parsed.value, NextPageUrl(reply.headers.link).value)
  {
  }

  /** A 429 is rejected with a message the retry test recognises. */
  lemma ThrottledIsRetryable<T>(reply: Reply<T>)
    requires reply.Response? && reply.status == 429
    ensures Classify(reply) == Err(ThrottledMessage)
    ensures IsRateLimited(ThrottledMessage)
  {
    ContainsInside("API request failed with ", RateLimitMarker, ": Rate limit exceeded");
  }

  /** Any other status than 200 and 429 is rejected with its code and the raw body in the message. */
  lemma OtherStatusCarriesCodeAndBody<T>(reply: Reply<T>)
    requires reply.Response? && reply.status != 200 && reply.status != 429
    ensures Classify(reply).Err?
    ensures Contains(Classify(reply).error, NatToString(reply.status))
    ensures Contains(Classify(reply).error, reply.body)
  {
    var m := Classify(reply).error;
    var code := NatToString(reply.status);
    assert m == "API request failed with status code " + code + (": " + reply.body);
    ContainsInside("API request failed with status code ", code, ": " + reply.body);
    assert m == ("API request failed with status code " + code + ": ") + reply.body + "";
    ContainsInside("API request failed with status code " + code + ": ", reply.body, "");
  }

  /**
   * The retry test reads the message, not the status: an error response whose body
   * contains "status code 429" is retried as if it were throttled.
   */
  lemma BodyCanTriggerRetry<T>(reply: Reply<T>)
    requires reply.Response? && reply.status != 200 && reply.status != 429
    requires Contains(reply.body, RateLimitMarker)
    ensures Classify(reply).Err? && IsRateLimited(Classify(reply).error)
  {
    ContainsAfter("API request failed with status code " + NatToString(reply.status) + ": ", reply.body, RateLimitMarker);
  }

  /**
   * `makeGitHubRequest` after `https.get` has delivered `reply` at time `now`: a completed
   * response of any status updates the budget first; a transport error leaves it alone.
   */
  method MakeGitHubRequest<T>(info: RateLimitInfo, reply: Reply<T>, now: int) returns (r: Result<Page<T>, string>)
    modifies info
    ensures r == Classify(reply)
    ensures reply.Response? ==> info.State() == Observed(old(info.State()), reply.headers.remaining, reply.headers.reset, now)
    ensures reply.TransportError? ==> info.State() == old(info.State())
  {
    if reply.TransportError? {
      return Err(TransportFailure(reply.message));
    }
    info.Observe(reply.headers.remaining, reply.headers.reset, now);
    if reply.status == 429 {
      return Err(ThrottledMessage);
    }
    if reply.status != 200 {
      return Err(StatusMessage(reply.status, reply.body));
    }
    if reply.parsed.Err? {
      return Err(ParseFailure(reply.parsed.error));
    }
    var nextPage := ExtractNextPageUrl(reply.headers.link);
    if nextPage.Err? {
      return Err(ParseFailure(nextPage.error));
    }
    return Ok(Page(reply.parsed.value, nextPage.value));
  }
}
