/**
 * The parts of `fetchGitHubData` that decide what is fetched: the early-termination
 * predicate for the pull-request listing, the in-window filters and the batches of five
 * pull requests whose reviews and review comments are fetched together.
 */
module Collector {
  import opened Wrappers
  import opened Types

  /** Pull requests are processed five at a time. */
  const BatchSize := 5

  /** `new Date(t) >= startDateObj && new Date(t) <= endDateObj` */
  predicate InWindow(t: int, start: int, end: int) {
    start <= t <= end
  }

  /**
   * The `shouldContinue` given to `fetchAllPages` for `/pulls`: the page's last item, the
   * oldest when the listing is sorted by update time, exists and was updated at or after
   * the start. An empty page yields `undefined`, which is falsy.
   */
  predicate ShouldContinuePulls(page: seq<PR>, start: int): (r: bool)
    ensures page == [] ==> !r
    ensures page != [] ==> (r <==> page[|page| - 1].updatedAt >= start)
  {
    page != [] && page[|page| - 1].updatedAt >= start
  }

  /** `updatedPulls`: the pull requests updated inside the window, in order. */
  function UpdatedPulls(pulls: seq<PR>, start: int, end: int): (r: seq<PR>)
    ensures forall p :: p in r <==> p in pulls && InWindow(p.updatedAt, start, end)
  {
    if pulls == [] then []
    else
      var p, rest := pulls[|pulls| - 1], pulls[..|pulls| - 1];
      assert pulls == rest + [p];
      UpdatedPulls(rest, start, end) + (if InWindow(p.updatedAt, start, end) then [p] else [])
  }

  /** `mergedPulls`: those with a `merged_at` (a null one is falsy) that lies inside the window. */
  function MergedPulls(updated: seq<PR>, start: int, end: int): (r: seq<PR>)
    ensures forall p :: p in r <==> p in updated && p.mergedAt.Some? && InWindow(p.mergedAt.value, start, end)
  {
    if updated == [] then []
    else
      var p, rest := updated[|updated| - 1], updated[..|updated| - 1];
      assert updated == rest + [p];
      MergedPulls(rest, start, end) + (if p.mergedAt.Some? && InWindow(p.mergedAt.value, start, end) then [p] else [])
  }

  /** The filter keeps every pull request updated inside the window as often as it occurs, and no other. */
  lemma {:induction false} UpdatedPullsCount(pulls: seq<PR>, start: int, end: int)
    ensures forall p :: multiset(UpdatedPulls(pulls, start, end))[p] ==
              if InWindow(p.updatedAt, start, end) then multiset(pulls)[p] else 0
  {
    if pulls != [] {
      var rest := pulls[..|pulls| - 1];
      assert pulls == rest + [pulls[|pulls| - 1]];
      UpdatedPullsCount(rest, start, end);
    }
  }

  /** The merged filter keeps every merged pull request merged inside the window as often as it occurs, and no other. */
  lemma {:induction false} MergedPullsCount(updated: seq<PR>, start: int, end: int)
    ensures forall p :: multiset(MergedPulls(updated, start, end))[p] ==
              if p.mergedAt.Some? && InWindow(p.mergedAt.value, start, end) then multiset(updated)[p] else 0
  {
    if updated != [] {
      var rest := updated[..|updated| - 1];
      assert updated == rest + [updated[|updated| - 1]];
      MergedPullsCount(rest, start, end);
    }
  }

  /** `mergedPulls` is drawn from `updatedPulls`: each of its pull requests was updated and merged inside the window. */
  lemma MergedWithinUpdated(pulls: seq<PR>, start: int, end: int)
    ensures multiset(MergedPulls(UpdatedPulls(pulls, start, end), start, end)) <= multiset(UpdatedPulls(pulls, start, end))
    ensures forall p :: p in MergedPulls(UpdatedPulls(pulls, start, end), start, end) ==>
              InWindow(p.updatedAt, start, end) && InWindow(p.mergedAt.value, start, end)
  {
    MergedPullsCount(UpdatedPulls(pulls, start, end), start, end);
  }

  lemma {:induction false} UpdatedPullsAppend(a: seq<PR>, b: seq<PR>, start: int, end: int)
    ensures UpdatedPulls(a + b, start, end) == UpdatedPulls(a, start, end) + UpdatedPulls(b, start, end)
  {
    if b == [] {
      assert a + b == a;
    } else {
      var p, b' := b[|b| - 1], b[..|b| - 1];
      assert (a + b)[|a + b| - 1] == p;
      assert (a + b)[..|a + b| - 1] == a + b';
      UpdatedPullsAppend(a, b', start, end);
      var e := if InWindow(p.updatedAt, start, end) then [p] else [];
      assert UpdatedPulls(a + b, start, end) == UpdatedPulls(a + b', start, end) + e;
      assert UpdatedPulls(b, start, end) == UpdatedPulls(b', start, end) + e;
      assert (UpdatedPulls(a, start, end) + UpdatedPulls(b', start, end)) + e
          == UpdatedPulls(a, start, end) + (UpdatedPulls(b', start, end) + e);
    }
  }

  lemma {:induction false} NoneUpdatedSince(pulls: seq<PR>, start: int, end: int)
    requires forall k :: 0 <= k < |pulls| ==> pulls[k].updatedAt < start
    ensures UpdatedPulls(pulls, start, end) == []
  {
    if pulls != [] {
      NoneUpdatedSince(pulls[..|pulls| - 1], start, end);
    }
  }

  /** The update-sort order the listing is requested in. */
  predicate NewestFirst(pulls: seq<PR>) {
    forall i, j :: 0 <= i < j < |pulls| ==> pulls[i].updatedAt >= pulls[j].updatedAt
  }

  /**
   * On a page sorted newest first, the listing goes on exactly when the page is non-empty
   * and every pull request on it was updated at or after the start.
   */
  lemma ContinueMeansWholePageRecent(page: seq<PR>, start: int)
    requires NewestFirst(page)
    ensures ShouldContinuePulls(page, start) <==> page != [] && forall i :: 0 <= i < |page| ==> page[i].updatedAt >= start
  {
    if ShouldContinuePulls(page, start) {
      forall i | 0 <= i < |page|
        ensures page[i].updatedAt >= start
      {
        if i < |page| - 1 {
          assert page[i].updatedAt >= page[|page| - 1].updatedAt;
        }
      }
    }
  }

  /**
   * Early termination loses nothing: in a listing sorted newest first, once a pull request
   * older than the start is seen, none after it is updated inside the window.
   */
  lemma StopAtOldLosesNothing(pulls: seq<PR>, j: nat, start: int, end: int)
    requires NewestFirst(pulls) && j < |pulls| && pulls[j].updatedAt < start
    ensures UpdatedPulls(pulls, start, end) == UpdatedPulls(pulls[..j + 1], start, end)
  {
    var tail := pulls[j + 1..];
    assert pulls == pulls[..j + 1] + tail;
    UpdatedPullsAppend(pulls[..j + 1], tail, start, end);
    forall k | 0 <= k < |tail|
      ensures tail[k].updatedAt < start
    {
      assert tail[k] == pulls[j + 1 + k];
      assert pulls[j].updatedAt >= pulls[j + 1 + k].updatedAt;
    }
    NoneUpdatedSince(tail, start, end);
  }

  /** The concatenation of the batches. */
  function Flatten<T>(bs: seq<seq<T>>): seq<T> {
    if bs == [] then [] else Flatten(bs[..|bs| - 1]) + bs[|bs| - 1]
  }

  lemma {:induction false} FlattenAppend<T>(a: seq<seq<T>>, b: seq<seq<T>>)
    ensures Flatten(a + b) == Flatten(a) + Flatten(b)
  {
    if b == [] {
      assert a + b == a;
    } else {
      var b' := b[..|b| - 1];
      assert (a + b)[..|a + b| - 1] == a + b' && (a + b)[|a + b| - 1] == b[|b| - 1];
      FlattenAppend(a, b');
    }
  }

  /**
   * The predicate stops the listing soundly: when it rejects a non-empty page of a listing
   * sorted newest first, the pages fetched so far hold every pull request updated inside
   * the window that the whole listing holds, in the same order.
   */
  lemma RejectedPageLosesNothing(pages: seq<seq<PR>>, k: nat, start: int, end: int)
    requires NewestFirst(Flatten(pages)) && k < |pages| && pages[k] != []
    requires !ShouldContinuePulls(pages[k], start)
    ensures UpdatedPulls(Flatten(pages[..k + 1]), start, end) == UpdatedPulls(Flatten(pages), start, end)
  {
    var fetched := Flatten(pages[..k + 1]);
    assert pages == pages[..k + 1] + pages[k + 1..];
    FlattenAppend(pages[..k + 1], pages[k + 1..]);
    assert pages[..k + 1][..k] == pages[..k];
    assert fetched == Flatten(pages[..k]) + pages[k];
    var all := Flatten(pages);
    var j := |fetched| - 1;
    assert all[..j + 1] == fetched;
    assert all[j] == pages[k][|pages[k]| - 1];
    StopAtOldLosesNothing(all, j, start, end);
  }

  /**
   * `for (let i = 0; i < updatedPulls.length; i += batchSize) updatedPulls.slice(i, i + batchSize)`:
   * the batches cover the pull requests exactly once and in order; each holds one to five,
   * every one but the last exactly five.
   */
  method Batches<T>(pulls: seq<T>) returns (bs: seq<seq<T>>)
    ensures Flatten(bs) == pulls
    ensures forall k :: 0 <= k < |bs| ==> 1 <= |bs[k]| <= BatchSize
    ensures forall k :: 0 <= k < |bs| - 1 ==> |bs[k]| == BatchSize
    ensures |bs| == (|pulls| + BatchSize - 1) / BatchSize
  {
    bs := [];
    var i := 0;
    while i < |pulls|
      invariant i == BatchSize * |bs|
      invariant i <= |pulls| ==> Flatten(bs) == pulls[..i]
      invariant i > |pulls| ==> Flatten(bs) == pulls
      invariant |bs| > 0 ==> i - BatchSize < |pulls|
      invariant forall k :: 0 <= k < |bs| ==> 1 <= |bs[k]| <= BatchSize
      invariant forall k :: 0 <= k < |bs| ==> (k < |bs| - 1 || i <= |pulls|) ==> |bs[k]| == BatchSize
    {
      var batch := pulls[i..if i + BatchSize < |pulls| then i + BatchSize else |pulls|];
      assert (bs + [batch])[..|bs|] == bs;
      if i + BatchSize <= |pulls| {
        assert pulls[..i + BatchSize] == pulls[..i] + batch;
      } else {
        assert pulls == pulls[..i] + batch;
      }
      bs := bs + [batch];
      i := i + BatchSize;
    }
  }
}
