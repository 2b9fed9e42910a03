/**
 * The shared rate-limit budget `github.rateLimitInfo`: folded from the headers of every
 * completed response, and read by the throttle guard before every request.
 */
module RateLimit {
  import opened Wrappers
  import opened JsString

  /** The three fields of `rateLimitInfo`; times are milliseconds. */
  datatype RateState = RateState(remaining: int, resetTime: int, lastChecked: int)

  const Initial := RateState(5000, 0, 0)

  /** The guard waits only while fewer than this many requests remain. */
  const LowWater := 10

  /** A reading older than this many milliseconds is stale and never causes a wait. */
  const FreshWindow := 60000

  const MinWait := 1000

  /**
   * `parseInt(res.headers[name] as string, 10)`: an absent header is the value undefined,
   * which `parseInt` reads as the text "undefined", giving NaN (`UndefinedIsNaN`).
   */
  function HeaderNumber(h: Option<string>): Num {
    if h.None? then NaN else ParseInt10(h.value)
  }

  /** `parseInt(undefined, 10)` is NaN: the text "undefined" has no leading digit. */
  lemma UndefinedIsNaN()
    ensures ParseInt10("undefined") == NaN
  {
    NoDigitIsNaN("undefined");
  }

  /**
   * The fold of one completed response into the budget: a numeric `x-ratelimit-remaining`
   * replaces `remaining`, a numeric `x-ratelimit-reset` (epoch seconds) replaces `resetTime`
   * in milliseconds, and `lastChecked` becomes the time the response completed.
   */
  function Observed(s: RateState, remainingHeader: Option<string>, resetHeader: Option<string>, now: int): RateState
  {
    var r := HeaderNumber(remainingHeader);
    var e := HeaderNumber(resetHeader);
    RateState(
      if r.Int? then r.value else s.remaining,
      if e.Int? then e.value * 1000 else s.resetTime,
      now)
  }

  /** Headers that carry decimal numbers are stored, the reset time converted from seconds to milliseconds. */
  lemma ObservedStoresHeaders(s: RateState, remaining: nat, reset: nat, now: int)
    ensures Observed(s, Some(NatToString(remaining)), Some(NatToString(reset)), now)
            == RateState(remaining, reset * 1000, now)
  {
    DecimalRoundTrip(remaining);
    DecimalRoundTrip(reset);
  }

  /** An absent header is NaN and keeps the field it would have set; only `lastChecked` moves. */
  lemma AbsentHeadersKeepBudget(s: RateState, now: int)
    ensures Observed(s, None, None, now) == s.(lastChecked := now)
  {
  }

  /** Headers whose text shows no digit after white space and sign are NaN and keep both fields. */
  lemma NonNumericHeadersKeepBudget(s: RateState, remainingHeader: string, resetHeader: string, now: int)
    requires NoLeadingDigit(remainingHeader) && NoLeadingDigit(resetHeader)
    ensures Observed(s, Some(remainingHeader), Some(resetHeader), now) == s.(lastChecked := now)
  {
    NoDigitIsNaN(remainingHeader);
    NoDigitIsNaN(resetHeader);
  }

  /**
   * The throttle guard: a wait is due only when fewer than ten requests remain, the reset
   * lies in the future and the reading is under a minute old; the wait then ends one second
   * after the reset, so it is always longer than the one-second floor.
   */
  function ThrottleWait(s: RateState, now: int): (w: Option<int>)
    ensures w.Some? <==> s.remaining < LowWater && s.resetTime > now && s.lastChecked > now - FreshWindow
    ensures w.Some? ==> w.value > MinWait && now + w.value == s.resetTime + 1000
  {
    if s.remaining < LowWater && s.resetTime > now && s.lastChecked > now - FreshWindow
    then Some(if s.resetTime - now + 1000 > MinWait then s.resetTime - now + 1000 else MinWait)
    else None
  }

  /** `github.rateLimitInfo`, updated in place by every completed response. */
  class RateLimitInfo {
    var remaining: int
    var resetTime: int
    var lastChecked: int

    constructor ()
      ensures State() == Initial
    {
      remaining, resetTime, lastChecked := 5000, 0, 0;
    }

    function State(): RateState
      reads this
    {
      RateState(remaining, resetTime, lastChecked)
    }

    /** The header fold at the end of a response (`res.on('end')`), whatever its status. */
    method Observe(remainingHeader: Option<string>, resetHeader: Option<string>, now: int)
      modifies this
      ensures State() == Observed(old(State()), remainingHeader, resetHeader, now)
    {
      var rateLimitRemaining := HeaderNumber(remainingHeader);
      var rateLimitReset := HeaderNumber(resetHeader);
      if rateLimitRemaining.Int? {
        remaining := rateLimitRemaining.value;
      }
      if rateLimitReset.Int? {
        resetTime := rateLimitReset.value * 1000;
      }
      lastChecked := now;
    }
  }
}
