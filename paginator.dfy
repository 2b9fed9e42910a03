/**
 * `fetchAllPages`: the do/while loop that follows `next` links, stops early on the caller's
 * predicate, retries after a 429 and rethrows any other failure. The remote service is a
 * script of exchanges, consumed one per request; sleeps are recorded in a log of events.
 */
module Paginator {
  import opened Wrappers
  import opened JsString
  import opened RateLimit
  import opened Request

  /** One scripted exchange: the clock the guard reads, the reply, and the clock when the response ends. */
  datatype Exchange<T> = Exchange(sentAt: int, reply: Reply<T>, receivedAt: int)

  /** Query parameters, in insertion order. */
  type Params = seq<(string, string)>

  /** What the loop does that is visible from outside: a sleep of `ms` milliseconds, or a request. */
  datatype Event = Wait(ms: int) | Call(endpoint: string, params: Params)

  /**
   * How `fetchAllPages` settles: resolved with the data, rejected with the message of the
   * rethrown error, or cut short because the script has no answer for the next request.
   */
  datatype Outcome<T> = Done(data: seq<T>) | Failed(error: string) | ScriptEnded(data: seq<T>)

  /** The loop variables `allData`, `nextPage`, `currentEndpoint`, `currentParams`, the shared budget and the event log. */
  datatype Loop<T> = Loop(allData: seq<T>, nextPage: Option<string>, endpoint: string, params: Params, budget: RateState, log: seq<Event>)

  datatype Run<T> = Run(outcome: Outcome<T>, budget: RateState, log: seq<Event>)

  /** The pause between pages. */
  const PageDelay := 50

  /** The pause before retrying after a 429. */
  const RetryDelay := 5000

  /** JavaScript truthiness of `string | null`: non-null and non-empty. */
  predicate Truthy(s: Option<string>) {
    s.Some? && s.value != ""
  }

  /** `!(shouldContinue && !shouldContinue(data))`: no predicate, or one that accepts the page. */
  predicate Keeps<T>(keep: Option<seq<T> -> bool>, data: seq<T>) {
    keep.None? || keep.value(data)
  }

  function Answer<T>(x: Exchange<T>): Result<Page<T>, string> {
    Classify(x.reply)
  }

  /** The budget after the exchange: folded from the headers of a completed response. */
  function Budget<T>(b: RateState, x: Exchange<T>): RateState {
    if x.reply.Response? then Observed(b, x.reply.headers.remaining, x.reply.headers.reset, x.receivedAt) else b
  }

  /** The guard's wait, if any, followed by the request. */
  function Sent(b: RateState, now: int, endpoint: string, params: Params): seq<Event> {
    var w := ThrottleWait(b, now);
    (if w.Some? then [Wait(w.value)] else []) + [Call(endpoint, params)]
  }

  function Start<T>(endpoint: string, params: Params, budget: RateState): Loop<T> {
    Loop([], None, endpoint, params, budget, [])
  }

  /** The end of one iteration: the loop settles with `run`, or goes round again from `next`. */
  datatype Turn<T> = Stop(run: Run<T>) | Again(next: Loop<T>)

  /**
   * One iteration of the loop from state `s` on exchange `x`. A rejection that is not a
   * 429 is rethrown; after a 429 the `continue` jumps to `while (nextPage)`, which still
   * holds the previous page's link (none before the first page); a resolved page is
   * appended, and the loop goes round again only when the predicate accepts the page and
   * the page has a next link.
   */
  function Step<T>(x: Exchange<T>, keep: Option<seq<T> -> bool>, s: Loop<T>): Turn<T>
  {
    var budget := Budget(s.budget, x);
    var log := s.log + Sent(s.budget, x.sentAt, s.endpoint, s.params);
    match Answer(x)
    case Err(m) =>
      if !IsRateLimited(m) then Stop(Run(Failed(m), budget, log))
      else if Truthy(s.nextPage) then Again(s.(budget := budget, log := log + [Wait(RetryDelay)]))
      else Stop(Run(Done(s.allData), budget, log + [Wait(RetryDelay)]))
    case Ok(page) =>
      var allData := s.allData + page.data;
      if !Keeps(keep, page.data) || !Truthy(page.nextPage) then Stop(Run(Done(allData), budget, log))
      else Again(Loop(allData, page.nextPage, page.nextPage.value, [], budget, log + [Wait(PageDelay)]))
  }

  /** The loop from state `s`, one iteration per exchange of the script. */
  function Pages<T>(script: seq<Exchange<T>>, keep: Option<seq<T> -> bool>, s: Loop<T>): Run<T>
    decreases |script|
  {
    if script == [] then Run(ScriptEnded(s.allData), s.budget, s.log)
    else match Step(script[0], keep, s)
      case Stop(r) => r
      case Again(s') => Pages(script[1..], keep, s')
  }

  /** The loop from exchange `i` on: the first iteration, then the rest of the script. */
  lemma PagesSuffix<T>(script: seq<Exchange<T>>, i: nat, keep: Option<seq<T> -> bool>, s: Loop<T>)
    requires i < |script|
    ensures Pages(script[i..], keep, s) ==
              match Step(script[i], keep, s)
              case Stop(r) => r
              case Again(s') => Pages(script[i + 1..], keep, s')
  {
    assert script[i..][0] == script[i] && script[i..][1..] == script[i + 1..];
  }

  /**
   * One pass of the loop body: the guard, the request, and the `break`, `continue` or
   * fall-through to `while (nextPage)` that follows it.
   */
  method Iteration<T>(info: RateLimitInfo, x: Exchange<T>, keep: Option<seq<T> -> bool>,
                      allData: seq<T>, nextPage: Option<string>, currentEndpoint: string, currentParams: Params,
                      log: seq<Event>)
    returns (t: Turn<T>)
    modifies info
    ensures t == Step(x, keep, Loop(allData, nextPage, currentEndpoint, currentParams, old(info.State()), log))
    ensures info.State() == (if t.Stop? then t.run.budget else t.next.budget)
  {
    var log := log + Sent(info.State(), x.sentAt, currentEndpoint, currentParams);
    var response := MakeGitHubRequest(info, x.reply, x.receivedAt);
    if response.Err? {
      if !IsRateLimited(response.error) {
        return Stop(Run(Failed(response.error), info.State(), log));
      }
      log := log + [Wait(RetryDelay)];
      if !Truthy(nextPage) {
        return Stop(Run(Done(allData), info.State(), log));
      }
      return Again(Loop(allData, nextPage, currentEndpoint, currentParams, info.State(), log));
    }
    var allData := allData + response.value.data;
    var nextPage := response.value.nextPage;
    if !Keeps(keep, response.value.data) || !Truthy(nextPage) {
      return Stop(Run(Done(allData), info.State(), log));
    }
    return Again(Loop(allData, nextPage, nextPage.value, [], info.State(), log + [Wait(PageDelay)]));
  }

  /** `fetchAllPages(endpoint, params, config, shouldContinue)` against the scripted service. */
  method FetchAllPages<T>(info: RateLimitInfo, script: seq<Exchange<T>>, endpoint: string, params: Params,
                          keep: Option<seq<T> -> bool>)
    returns (outcome: Outcome<T>, log: seq<Event>)
    modifies info
    ensures Pages(script, keep, Start(endpoint, params, old(info.State()))) == Run(outcome, info.State(), log)
  {
    var allData: seq<T> := [];
    var nextPage: Option<string> := None;
    var currentEndpoint := endpoint;
    var currentParams := params;
    log := [];
    ghost var goal := Pages(script, keep, Start(endpoint, params, info.State()));
    var i := 0;
    while true
      invariant 0 <= i <= |script|
      invariant Pages(script[i..], keep, Loop(allData, nextPage, currentEndpoint, currentParams, info.State(), log)) == goal
      decreases |script| - i
    {
      if i == |script| {
        return ScriptEnded(allData), log;
      }
      PagesSuffix(script, i, keep, Loop(allData, nextPage, currentEndpoint, currentParams, info.State(), log));
      var t := Iteration(info, script[i], keep, allData, nextPage, currentEndpoint, currentParams, log);
      i := i + 1;
      if t.Stop? {
        return t.run.outcome, t.run.log;
      }
      allData, nextPage, currentEndpoint, currentParams, log := t.next.allData, t.next.nextPage, t.next.endpoint, t.next.params, t.next.log;
    }
  }

  /** The requests in a log, in order. */
  function Calls(log: seq<Event>): seq<Event> {
    if log == [] then []
    else (if log[0].Call? then [log[0]] else []) + Calls(log[1..])
  }

  lemma {:induction false} CallsAppend(a: seq<Event>, b: seq<Event>)
    ensures Calls(a + b) == Calls(a) + Calls(b)
  {
    if a == [] {
      assert a + b == b;
    } else {
      var head := if a[0].Call? then [a[0]] else [];
      assert (a + b)[0] == a[0] && (a + b)[1..] == a[1..] + b;
      CallsAppend(a[1..], b);
      assert Calls(a + b) == head + (Calls(a[1..]) + Calls(b));
      assert Calls(a) == head + Calls(a[1..]);
    }
  }

  /** The data of the resolved pages among the exchanges, in order. */
  function Collected<T>(xs: seq<Exchange<T>>): seq<T> {
    if xs == [] then [] else PageData(xs[0]) + Collected(xs[1..])
  }

  /**
   * The requests the exchanges call for, the first to `endpoint` with `params`: after a
   * resolved page with a next link the next request goes to that link with no parameters;
   * after a rejection it repeats.
   */
  function ExpectedCalls<T>(xs: seq<Exchange<T>>, endpoint: string, params: Params): (r: seq<Event>)
    ensures |r| == |xs|
  {
    if xs == [] then []
    else
      var (e, p) := Advance(xs[0], endpoint, params);
      [Call(endpoint, params)] + ExpectedCalls(xs[1..], e, p)
  }

  lemma SentCalls(b: RateState, now: int, endpoint: string, params: Params)
    ensures Calls(Sent(b, now, endpoint, params)) == [Call(endpoint, params)]
  {
    var sent := Sent(b, now, endpoint, params);
    var w := ThrottleWait(b, now);
    if w.Some? {
      assert sent == [Wait(w.value), Call(endpoint, params)];
      assert sent[1..] == [Call(endpoint, params)];
      assert sent[1..][1..] == [];
      assert Calls(sent[1..]) == [Call(endpoint, params)] + Calls([]);
      assert Calls(sent) == [] + Calls(sent[1..]);
    } else {
      assert sent == [Call(endpoint, params)];
      assert sent[1..] == [];
    }
  }

  /** The data a resolved page contributes; none for a rejection. */
  function PageData<T>(x: Exchange<T>): seq<T> {
    if Answer(x).Ok? then Answer(x).value.data else []
  }

  /** Where the next request goes after exchange `x`. */
  function Advance<T>(x: Exchange<T>, endpoint: string, params: Params): (string, Params) {
    var a := Answer(x);
    if a.Ok? && Truthy(a.value.nextPage) then (a.value.nextPage.value, []) else (endpoint, params)
  }

  /**
   * One iteration makes exactly one request, to the current endpoint, and adds the page's
   * data; when it goes round again, the next request goes where `Advance` says.
   */
  lemma StepShape<T>(x: Exchange<T>, keep: Option<seq<T> -> bool>, s: Loop<T>)
    ensures var t := Step(x, keep, s);
            && Calls(if t.Stop? then t.run.log else t.next.log) == Calls(s.log) + [Call(s.endpoint, s.params)]
            && (t.Stop? ==> !t.run.outcome.ScriptEnded? && (t.run.outcome.Done? ==> t.run.outcome.data == s.allData + PageData(x)))
            && (t.Again? ==> t.next.allData == s.allData + PageData(x) && (t.next.endpoint, t.next.params) == Advance(x, s.endpoint, s.params))
  {
    StepCalls(x, keep, s);
    if Answer(x).Err? {
      assert s.allData + PageData(x) == s.allData;
    }
  }

  lemma StepCalls<T>(x: Exchange<T>, keep: Option<seq<T> -> bool>, s: Loop<T>)
    ensures var t := Step(x, keep, s);
            Calls(if t.Stop? then t.run.log else t.next.log) == Calls(s.log) + [Call(s.endpoint, s.params)]
  {
    var sent := Sent(s.budget, x.sentAt, s.endpoint, s.params);
    SentCalls(s.budget, x.sentAt, s.endpoint, s.params);
    CallsAppend(s.log, sent);
    CallsAppend(s.log + sent, [Wait(RetryDelay)]);
    CallsAppend(s.log + sent, [Wait(PageDelay)]);
    assert Calls([Wait(RetryDelay)]) == [] && Calls([Wait(PageDelay)]) == [];
  }

  /**
   * The exchanges a run consumes are its first `n`, one per request it makes: the requests
   * follow the next links, and the data returned is everything collected before the run
   * plus the resolved pages among those `n`, in order. A run that is not cut short by the
   * end of the script makes at least one request.
   */
  lemma {:induction false} PagesConsume<T>(script: seq<Exchange<T>>, keep: Option<seq<T> -> bool>, s: Loop<T>)
    returns (n: nat)
    ensures var r := Pages(script, keep, s);
            && n <= |script|
            && Calls(r.log) == Calls(s.log) + ExpectedCalls(script[..n], s.endpoint, s.params)
            && (r.outcome.ScriptEnded? ==> n == |script|)
            && (!r.outcome.ScriptEnded? ==> n >= 1)
            && (!r.outcome.Failed? ==> r.outcome.data == s.allData + Collected(script[..n]))
    decreases |script|
  {
    if script == [] {
      n := 0;
      assert script[..0] == [];
    } else {
      var x := script[0];
      match Step(x, keep, s)
      case Stop(r) => {
        n := 1;
        ConsumeStop(script, keep, s);
      }
      case Again(s') => {
        StepShape(x, keep, s);
        var m := PagesConsume(script[1..], keep, s');
        n := m + 1;
        assert Pages(script, keep, s) == Pages(script[1..], keep, s');
        ConsumeAgain(script, keep, s, s', m, Pages(script[1..], keep, s'));
      }
    }
  }

  /** The base case of `PagesConsume`: an iteration that settles the run consumes one exchange. */
  lemma ConsumeStop<T>(script: seq<Exchange<T>>, keep: Option<seq<T> -> bool>, s: Loop<T>)
    requires script != [] && Step(script[0], keep, s).Stop?
    ensures var r := Pages(script, keep, s);
            && Calls(r.log) == Calls(s.log) + ExpectedCalls(script[..1], s.endpoint, s.params)
            && !r.outcome.ScriptEnded?
            && (!r.outcome.Failed? ==> r.outcome.data == s.allData + Collected(script[..1]))
  {
    var x := script[0];
    StepShape(x, keep, s);
    assert script[..1] == [x] && script[..1][1..] == [];
    assert ExpectedCalls(script[..1], s.endpoint, s.params) == [Call(s.endpoint, s.params)];
    assert Collected(script[..1]) == PageData(x) + [];
  }

  /** The inductive step of `PagesConsume` after an iteration that goes round again. */
  lemma ConsumeAgain<T>(script: seq<Exchange<T>>, keep: Option<seq<T> -> bool>, s: Loop<T>, s': Loop<T>, m: nat, r: Run<T>)
    requires script != [] && m <= |script| - 1
    requires Calls(s'.log) == Calls(s.log) + [Call(s.endpoint, s.params)]
    requires s'.allData == s.allData + PageData(script[0])
    requires (s'.endpoint, s'.params) == Advance(script[0], s.endpoint, s.params)
    requires Calls(r.log) == Calls(s'.log) + ExpectedCalls(script[1..][..m], s'.endpoint, s'.params)
    requires !r.outcome.Failed? ==> r.outcome.data == s'.allData + Collected(script[1..][..m])
    ensures Calls(r.log) == Calls(s.log) + ExpectedCalls(script[..m + 1], s.endpoint, s.params)
    ensures !r.outcome.Failed? ==> r.outcome.data == s.allData + Collected(script[..m + 1])
  {
    assert script[..m + 1][0] == script[0] && script[..m + 1][1..] == script[1..][..m];
    ConsumeCallsAgain(script, s, s', m, r);
    if !r.outcome.Failed? {
      ConsumeDataAgain(script, s, s', m, r.outcome.data);
    }
  }

  lemma ConsumeCallsAgain<T>(script: seq<Exchange<T>>, s: Loop<T>, s': Loop<T>, m: nat, r: Run<T>)
    requires script != [] && m <= |script| - 1
    requires script[..m + 1][0] == script[0] && script[..m + 1][1..] == script[1..][..m]
    requires Calls(s'.log) == Calls(s.log) + [Call(s.endpoint, s.params)]
    requires (s'.endpoint, s'.params) == Advance(script[0], s.endpoint, s.params)
    requires Calls(r.log) == Calls(s'.log) + ExpectedCalls(script[1..][..m], s'.endpoint, s'.params)
    ensures Calls(r.log) == Calls(s.log) + ExpectedCalls(script[..m + 1], s.endpoint, s.params)
  {
    var c, e := Call(s.endpoint, s.params), ExpectedCalls(script[1..][..m], s'.endpoint, s'.params);
    assert ExpectedCalls(script[..m + 1], s.endpoint, s.params) == [c] + e;
    assert (Calls(s.log) + [c]) + e == Calls(s.log) + ([c] + e);
  }

  lemma ConsumeDataAgain<T>(script: seq<Exchange<T>>, s: Loop<T>, s': Loop<T>, m: nat, data: seq<T>)
    requires script != [] && m <= |script| - 1
    requires script[..m + 1][0] == script[0] && script[..m + 1][1..] == script[1..][..m]
    requires s'.allData == s.allData + PageData(script[0])
    requires data == s'.allData + Collected(script[1..][..m])
    ensures data == s.allData + Collected(script[..m + 1])
  {
    var d := Collected(script[1..][..m]);
    assert Collected(script[..m + 1]) == PageData(script[0]) + d;
    assert (s.allData + PageData(script[0])) + d == s.allData + (PageData(script[0]) + d);
  }

  /** The answer lets the loop go on: a resolved page the predicate accepts, with a next link. */
  predicate Proceeds<T>(x: Exchange<T>, keep: Option<seq<T> -> bool>) {
    Answer(x).Ok? && Keeps(keep, Answer(x).value.data) && Truthy(Answer(x).value.nextPage)
  }

  /** The answer is a rejection the catch clause treats as a 429. */
  predicate Retried<T>(x: Exchange<T>) {
    Answer(x).Err? && IsRateLimited(Answer(x).error)
  }

  /** The loop goes round again after `x`; `linked` says whether `nextPage` held a link when `x` was requested. */
  predicate GoesOn<T>(x: Exchange<T>, keep: Option<seq<T> -> bool>, linked: bool) {
    Proceeds(x, keep) || (Retried(x) && linked)
  }

  /** The loop resolves after `x`: a page that is rejected by the predicate or has no next link, or a 429 with no link to go back to. */
  predicate Halts<T>(x: Exchange<T>, keep: Option<seq<T> -> bool>, linked: bool) {
    (Answer(x).Ok? && !Proceeds(x, keep)) || (Retried(x) && !linked)
  }

  lemma StepTurn<T>(x: Exchange<T>, keep: Option<seq<T> -> bool>, s: Loop<T>)
    ensures var t := Step(x, keep, s);
            && (t.Again? <==> GoesOn(x, keep, Truthy(s.nextPage)))
            && (t.Again? ==> Truthy(t.next.nextPage))
            && (t.Stop? && t.run.outcome.Done? ==> Halts(x, keep, Truthy(s.nextPage)))
            && (t.Stop? && t.run.outcome.Failed? ==>
                  Answer(x) == Err(t.run.outcome.error) && !IsRateLimited(t.run.outcome.error))
  {
  }

  /**
   * Why a run stops after its `n` requests: every exchange before the last let the loop go
   * on; the last one resolved the run (a page the predicate rejects or without a next link,
   * or a 429 while no next link was held), or was a rejection other than a 429, which is
   * rethrown with its message; or the script ran out while the loop was still going.
   * A 429 lets the loop go on unless it answers the first request of a run that started
   * without a next link.
   */
  lemma {:induction false} PagesStops<T>(script: seq<Exchange<T>>, keep: Option<seq<T> -> bool>, s: Loop<T>)
    returns (n: nat)
    ensures var r := Pages(script, keep, s);
            && n <= |script|
            && |Calls(r.log)| == |Calls(s.log)| + n
            && (forall k :: 0 <= k < n - 1 ==> GoesOn(script[k], keep, k > 0 || Truthy(s.nextPage)))
            && (r.outcome.ScriptEnded? ==>
                  n == |script| && (n > 0 ==> GoesOn(script[n - 1], keep, n > 1 || Truthy(s.nextPage))))
            && (r.outcome.Done? ==> n >= 1 && Halts(script[n - 1], keep, n > 1 || Truthy(s.nextPage)))
            && (r.outcome.Failed? ==>
                  n >= 1 && Answer(script[n - 1]) == Err(r.outcome.error) && !IsRateLimited(r.outcome.error))
    decreases |script|
  {
    if script == [] {
      n := 0;
    } else {
      var x := script[0];
      StepCallCount(x, keep, s);
      StepTurn(x, keep, s);
      match Step(x, keep, s)
      case Stop(r) => {
        n := 1;
        assert Pages(script, keep, s) == r;
      }
      case Again(s') => {
        var m := PagesStops(script[1..], keep, s');
        n := m + 1;
        assert Pages(script, keep, s) == Pages(script[1..], keep, s');
        StopsAgain(script, keep, s, s', m, Pages(script[1..], keep, s'));
      }
    }
  }

  /** Each iteration adds exactly one request to the log. */
  lemma StepCallCount<T>(x: Exchange<T>, keep: Option<seq<T> -> bool>, s: Loop<T>)
    ensures var t := Step(x, keep, s);
            |Calls(if t.Stop? then t.run.log else t.next.log)| == |Calls(s.log)| + 1
  {
    StepCalls(x, keep, s);
  }

  /** The inductive step of `PagesStops` after an iteration that goes round again. */
  lemma StopsAgain<T>(script: seq<Exchange<T>>, keep: Option<seq<T> -> bool>, s: Loop<T>, s': Loop<T>, m: nat, r: Run<T>)
    requires script != [] && m <= |script| - 1
    requires GoesOn(script[0], keep, Truthy(s.nextPage)) && Truthy(s'.nextPage)
    requires |Calls(s'.log)| == |Calls(s.log)| + 1
    requires |Calls(r.log)| == |Calls(s'.log)| + m
    requires forall k :: 0 <= k < m - 1 ==> GoesOn(script[1..][k], keep, k > 0 || Truthy(s'.nextPage))
    requires r.outcome.ScriptEnded? ==>
               m == |script| - 1 && (m > 0 ==> GoesOn(script[1..][m - 1], keep, m > 1 || Truthy(s'.nextPage)))
    requires r.outcome.Done? ==> m >= 1 && Halts(script[1..][m - 1], keep, m > 1 || Truthy(s'.nextPage))
    requires r.outcome.Failed? ==>
               m >= 1 && Answer(script[1..][m - 1]) == Err(r.outcome.error) && !IsRateLimited(r.outcome.error)
    ensures |Calls(r.log)| == |Calls(s.log)| + (m + 1)
    ensures forall k :: 0 <= k < m ==> GoesOn(script[k], keep, k > 0 || Truthy(s.nextPage))
    ensures r.outcome.ScriptEnded? ==> m + 1 == |script| && GoesOn(script[m], keep, m > 0 || Truthy(s.nextPage))
    ensures r.outcome.Done? ==> Halts(script[m], keep, m > 0 || Truthy(s.nextPage))
    ensures r.outcome.Failed? ==> Answer(script[m]) == Err(r.outcome.error) && !IsRateLimited(r.outcome.error)
  {
    GoesOnShift(script, keep, Truthy(s.nextPage), m);
    if m > 0 {
      assert script[m] == script[1..][m - 1];
    }
  }

  /** The first exchange let the loop go on, and so did the first `m - 1` of the rest (holding a link): so did the first `m`. */
  lemma GoesOnShift<T>(script: seq<Exchange<T>>, keep: Option<seq<T> -> bool>, linked: bool, m: nat)
    requires script != [] && m <= |script| - 1
    requires GoesOn(script[0], keep, linked)
    requires forall k :: 0 <= k < m - 1 ==> GoesOn(script[1..][k], keep, true)
    ensures forall k :: 0 <= k < m ==> GoesOn(script[k], keep, k > 0 || linked)
  {
    forall k | 0 <= k < m
      ensures GoesOn(script[k], keep, k > 0 || linked)
    {
      if k > 0 {
        assert script[k] == script[1..][k - 1];
      }
    }
  }

  /**
   * A 429 on the first request ends the run: `continue` jumps to `while (nextPage)` with
   * `nextPage` still null, so the run resolves with no data after one request.
   */
  lemma FirstThrottledEndsRun<T>(script: seq<Exchange<T>>, keep: Option<seq<T> -> bool>, endpoint: string, params: Params, budget: RateState)
    requires script != [] && Retried(script[0])
    ensures var r := Pages(script, keep, Start(endpoint, params, budget));
            r.outcome == Done([]) && Calls(r.log) == [Call(endpoint, params)]
  {
    var s: Loop<T> := Start(endpoint, params, budget);
    StepShape(script[0], keep, s);
    StepTurn(script[0], keep, s);
    assert Calls(s.log) == [];
  }

  /** A page that lets the loop go on: its data is appended and the next request goes to its link. */
  lemma ProceedStep<T>(x: Exchange<T>, keep: Option<seq<T> -> bool>, s: Loop<T>)
    requires Proceeds(x, keep)
    ensures var t := Step(x, keep, s);
            && t.Again?
            && t.next.allData == s.allData + Answer(x).value.data
            && t.next.nextPage == Answer(x).value.nextPage
            && t.next.endpoint == Answer(x).value.nextPage.value && t.next.params == []
            && Calls(t.next.log) == Calls(s.log) + [Call(s.endpoint, s.params)]
  {
    StepShape(x, keep, s);
  }

  /** A 429 while a link is held: the same request is made again, with nothing appended. */
  lemma RetryStep<T>(x: Exchange<T>, keep: Option<seq<T> -> bool>, s: Loop<T>)
    requires Retried(x) && Truthy(s.nextPage)
    ensures var t := Step(x, keep, s);
            && t.Again?
            && t.next.allData == s.allData && t.next.nextPage == s.nextPage
            && t.next.endpoint == s.endpoint && t.next.params == s.params
            && Calls(t.next.log) == Calls(s.log) + [Call(s.endpoint, s.params)]
  {
    StepShape(x, keep, s);
  }

  /** A page that ends the run: the run resolves with the data so far and that page. */
  lemma LastPage<T>(script: seq<Exchange<T>>, keep: Option<seq<T> -> bool>, s: Loop<T>)
    requires script != [] && Answer(script[0]).Ok? && !Proceeds(script[0], keep)
    ensures var r := Pages(script, keep, s);
            && r.outcome == Done(s.allData + Answer(script[0]).value.data)
            && Calls(r.log) == Calls(s.log) + [Call(s.endpoint, s.params)]
  {
    StepShape(script[0], keep, s);
  }

  /** The run after an iteration that goes round again is the run of the rest of the script. */
  lemma PagesAgain<T>(script: seq<Exchange<T>>, keep: Option<seq<T> -> bool>, s: Loop<T>)
    requires script != [] && Step(script[0], keep, s).Again?
    ensures Pages(script, keep, s) == Pages(script[1..], keep, Step(script[0], keep, s).next)
  {
  }

  /**
   * Early termination: when the predicate rejects the second page, the run resolves with
   * the first two pages in order, after one request to the endpoint and one to the first
   * page's next link, whatever link the second page carries.
   */
  lemma StopsOnRejectedSecondPage<T>(script: seq<Exchange<T>>, keep: Option<seq<T> -> bool>, endpoint: string, params: Params, budget: RateState)
    requires |script| >= 2 && Proceeds(script[0], keep)
    requires Answer(script[1]).Ok? && !Keeps(keep, Answer(script[1]).value.data)
    ensures var r := Pages(script, keep, Start(endpoint, params, budget));
            && r.outcome == Done(Answer(script[0]).value.data + Answer(script[1]).value.data)
            && Calls(r.log) == [Call(endpoint, params), Call(Answer(script[0]).value.nextPage.value, [])]
  {
    var s: Loop<T> := Start(endpoint, params, budget);
    assert Calls(s.log) == [];
    ProceedStep(script[0], keep, s);
    var s1 := Step(script[0], keep, s).next;
    PagesAgain(script, keep, s);
    assert script[1..][0] == script[1];
    LastPage(script[1..], keep, s1);
    assert s1.allData == Answer(script[0]).value.data;
  }

  /**
   * One 429 after the first page: the same link is requested again, once, and the run
   * resolves with the first page and the retried page, with nothing duplicated.
   */
  lemma RetriesThrottledPageOnce<T>(script: seq<Exchange<T>>, keep: Option<seq<T> -> bool>, endpoint: string, params: Params, budget: RateState)
    requires |script| >= 3 && Proceeds(script[0], keep) && Retried(script[1])
    requires Answer(script[2]).Ok? && !Truthy(Answer(script[2]).value.nextPage)
    ensures Pages(script, keep, Start(endpoint, params, budget)).outcome
            == Done(Answer(script[0]).value.data + Answer(script[2]).value.data)
    ensures Calls(Pages(script, keep, Start(endpoint, params, budget)).log)
            == [Call(endpoint, params), Call(Answer(script[0]).value.nextPage.value, []), Call(Answer(script[0]).value.nextPage.value, [])]
  {
    var s: Loop<T> := Start(endpoint, params, budget);
    assert Calls(s.log) == [];
    ProceedStep(script[0], keep, s);
    var s1 := Step(script[0], keep, s).next;
    PagesAgain(script, keep, s);
    assert script[1..][0] == script[1] && script[1..][1] == script[2];
    RetryThenLastPage(script[1..], keep, s1);
    assert s1.allData == Answer(script[0]).value.data;
  }

  /** The retry and the last page once the loop holds a next link. */
  lemma RetryThenLastPage<T>(script: seq<Exchange<T>>, keep: Option<seq<T> -> bool>, s: Loop<T>)
    requires |script| >= 2 && Truthy(s.nextPage) && Retried(script[0])
    requires Answer(script[1]).Ok? && !Truthy(Answer(script[1]).value.nextPage)
    ensures Pages(script, keep, s).outcome == Done(s.allData + Answer(script[1]).value.data)
    ensures Calls(Pages(script, keep, s).log) == Calls(s.log) + [Call(s.endpoint, s.params), Call(s.endpoint, s.params)]
  {
    RetryStep(script[0], keep, s);
    var s1 := Step(script[0], keep, s).next;
    PagesAgain(script, keep, s);
    assert script[1..][0] == script[1];
    LastPage(script[1..], keep, s1);
  }
}
