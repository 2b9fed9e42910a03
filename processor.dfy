/**
 * `processor`: folds the staged records into one activity log, the list of pull-request
 * creators and the `prNumber -> login` index. Each stream drops bot accounts; the review
 * and comment streams look the pull request's author up in the index.
 */
module Processor {
  import opened Wrappers
  import opened JsString
  import opened Types
  import opened Staging

  /** A staged file: its name in the temporary directory and the records it holds. */
  datatype StagedFile<R> = StagedFile(name: string, records: seq<R>)

  /**
   * The staged documents: `pulls.json`, `merged_pulls.json`, the directory listing in
   * `readdirSync` order (read as reviews and as review comments) and `comments.json`.
   */
  datatype StagedData = StagedData(
    pulls: seq<PR>,
    mergedPulls: seq<PR>,
    reviewFiles: seq<StagedFile<Review>>,
    commentFiles: seq<StagedFile<Comment>>,
    comments: seq<Comment>)

  const Approved := "APPROVED"

  /**
   * `prAuthors[prId] || null`: the login recorded for the number, or null when `prId` is
   * NaN, when no pull request has that number, or when the recorded login is empty (falsy).
   */
  function PrAuthorOf(authors: map<nat, string>, prId: Num): Option<string> {
    if prId.Int? && prId.value >= 0 && prId.value in authors && authors[prId.value] != ""
    then Some(authors[prId.value])
    else None
  }

  function CreatedItem(p: PR): ActivityItem {
    ActivityItem(p.user.login, PrCreated, 1, Int(p.number), None, None)
  }

  function MergedItem(p: PR): ActivityItem {
    ActivityItem(p.user.login, PrMerged, 1, Int(p.number), None, None)
  }

  function ReviewItem(r: Review, prId: Num, authors: map<nat, string>): ActivityItem {
    ActivityItem(r.user.login, if r.state == Approved then Approvals else Reviews, 1, prId, Some(r.id), PrAuthorOf(authors, prId))
  }

  function ReviewCommentItem(c: Comment, prId: Num, authors: map<nat, string>): ActivityItem {
    ActivityItem(c.user.login, ReviewComments, 1, prId, Some(c.id), PrAuthorOf(authors, prId))
  }

  /** `if (!comment.issue_url) return;`: a missing or empty URL drops the comment. */
  predicate HasIssueUrl(c: Comment) {
    c.issueUrl.Some? && c.issueUrl.value != ""
  }

  function IssueCommentItem(c: Comment, authors: map<nat, string>): ActivityItem
    requires HasIssueUrl(c)
  {
    var prId := IssueKey(c.issueUrl.value);
    ActivityItem(c.user.login, Comments, 1, prId, Some(c.id), PrAuthorOf(authors, prId))
  }

  // The streams, defined from the end as the loops append to them.

  function CreatedItems(pulls: seq<PR>): seq<ActivityItem> {
    if pulls == [] then []
    else
      var p := pulls[|pulls| - 1];
      CreatedItems(pulls[..|pulls| - 1]) + (if IsBot(p.user) then [] else [CreatedItem(p)])
  }

  function Creators(pulls: seq<PR>): seq<PRCreator> {
    if pulls == [] then []
    else
      var p := pulls[|pulls| - 1];
      Creators(pulls[..|pulls| - 1]) + (if IsBot(p.user) then [] else [PRCreator(p.user.login, p.number)])
  }

  /** `prAuthors[prNumber] = user` for each pull request in turn. */
  function AuthorIndex(authors: map<nat, string>, pulls: seq<PR>): map<nat, string> {
    if pulls == [] then authors
    else
      var p := pulls[|pulls| - 1];
      var before := AuthorIndex(authors, pulls[..|pulls| - 1]);
      if IsBot(p.user) then before else before[p.number := p.user.login]
  }

  function MergedItems(pulls: seq<PR>): seq<ActivityItem> {
    if pulls == [] then []
    else
      var p := pulls[|pulls| - 1];
      MergedItems(pulls[..|pulls| - 1]) + (if IsBot(p.user) then [] else [MergedItem(p)])
  }

  function ReviewItems(reviews: seq<Review>, prId: Num, authors: map<nat, string>): seq<ActivityItem> {
    if reviews == [] then []
    else
      var r := reviews[|reviews| - 1];
      ReviewItems(reviews[..|reviews| - 1], prId, authors) + (if IsBot(r.user) then [] else [ReviewItem(r, prId, authors)])
  }

  lemma ReviewItemsSnoc(reviews: seq<Review>, k: nat, prId: Num, authors: map<nat, string>)
    requires k < |reviews|
    ensures ReviewItems(reviews[..k + 1], prId, authors)
            == ReviewItems(reviews[..k], prId, authors) + (if IsBot(reviews[k].user) then [] else [ReviewItem(reviews[k], prId, authors)])
  {
    assert reviews[..k + 1][..k] == reviews[..k];
  }

  /** One staged file's reviews when its name starts with `reviews_`, keyed by the number in its name; nothing otherwise. */
  function ReviewsOfFile(f: StagedFile<Review>, authors: map<nat, string>): seq<ActivityItem> {
    if StartsWith(f.name, ReviewsPrefix) then ReviewItems(f.records, FileKey(f.name, ReviewsPrefix), authors) else []
  }

  /** The review stream, file by file in listing order. */
  function ReviewFileItems(files: seq<StagedFile<Review>>, authors: map<nat, string>): seq<ActivityItem> {
    if files == [] then []
    else
      ReviewFileItems(files[..|files| - 1], authors) + ReviewsOfFile(files[|files| - 1], authors)
  }

  lemma ReviewFileItemsSnoc(files: seq<StagedFile<Review>>, f: nat, authors: map<nat, string>)
    requires f < |files|
    ensures ReviewFileItems(files[..f + 1], authors) == ReviewFileItems(files[..f], authors) + ReviewsOfFile(files[f], authors)
  {
    assert files[..f + 1][..f] == files[..f];
  }

  function ReviewCommentItems(comments: seq<Comment>, prId: Num, authors: map<nat, string>): seq<ActivityItem> {
    if comments == [] then []
    else
      var c := comments[|comments| - 1];
      ReviewCommentItems(comments[..|comments| - 1], prId, authors) + (if IsBot(c.user) then [] else [ReviewCommentItem(c, prId, authors)])
  }

  lemma ReviewCommentItemsSnoc(comments: seq<Comment>, k: nat, prId: Num, authors: map<nat, string>)
    requires k < |comments|
    ensures ReviewCommentItems(comments[..k + 1], prId, authors)
            == ReviewCommentItems(comments[..k], prId, authors) + (if IsBot(comments[k].user) then [] else [ReviewCommentItem(comments[k], prId, authors)])
  {
    assert comments[..k + 1][..k] == comments[..k];
  }

  /** One staged file's review comments when its name starts with `pr_comments_`; nothing otherwise. */
  function ReviewCommentsOfFile(f: StagedFile<Comment>, authors: map<nat, string>): seq<ActivityItem> {
    if StartsWith(f.name, CommentsPrefix) then ReviewCommentItems(f.records, FileKey(f.name, CommentsPrefix), authors) else []
  }

  /** The review-comment stream, file by file in listing order. */
  function ReviewCommentFileItems(files: seq<StagedFile<Comment>>, authors: map<nat, string>): seq<ActivityItem> {
    if files == [] then []
    else
      ReviewCommentFileItems(files[..|files| - 1], authors) + ReviewCommentsOfFile(files[|files| - 1], authors)
  }

  lemma ReviewCommentFileItemsSnoc(files: seq<StagedFile<Comment>>, f: nat, authors: map<nat, string>)
    requires f < |files|
    ensures ReviewCommentFileItems(files[..f + 1], authors) == ReviewCommentFileItems(files[..f], authors) + ReviewCommentsOfFile(files[f], authors)
  {
    assert files[..f + 1][..f] == files[..f];
  }

  function IssueCommentItems(comments: seq<Comment>, authors: map<nat, string>): seq<ActivityItem> {
    if comments == [] then []
    else
      var c := comments[|comments| - 1];
      IssueCommentItems(comments[..|comments| - 1], authors) +
      (if IsBot(c.user) || !HasIssueUrl(c) then [] else [IssueCommentItem(c, authors)])
  }

  lemma IssueCommentItemsSnoc(comments: seq<Comment>, k: nat, authors: map<nat, string>)
    requires k < |comments|
    ensures IssueCommentItems(comments[..k + 1], authors)
            == IssueCommentItems(comments[..k], authors) + (if IsBot(comments[k].user) || !HasIssueUrl(comments[k]) then [] else [IssueCommentItem(comments[k], authors)])
  {
    assert comments[..k + 1][..k] == comments[..k];
  }

  /**
   * The activity log `processActivityData` returns: the five streams in the order they
   * are processed, every lookup made in the index built from all the pull requests.
   */
  function ActivityLog(staged: StagedData): seq<ActivityItem> {
    var authors := AuthorIndex(map[], staged.pulls);
    CreatedItems(staged.pulls) + MergedItems(staged.mergedPulls) +
    ReviewFileItems(staged.reviewFiles, authors) + ReviewCommentFileItems(staged.commentFiles, authors) +
    IssueCommentItems(staged.comments, authors)
  }

  // Reference definitions: the records each stream keeps, as `filter` would keep them.

  /** The bot test of every stream, `filter(x => x.user.type !== 'Bot')`, over records whose author `author` reads. */
  function Humans<T(==,!new)>(xs: seq<T>, author: T -> User): (r: seq<T>)
    ensures forall x :: x in r <==> x in xs && !IsBot(author(x))
  {
    if xs == [] then []
    else
      var x := xs[|xs| - 1];
      assert xs == xs[..|xs| - 1] + [x];
      Humans(xs[..|xs| - 1], author) + (if IsBot(author(x)) then [] else [x])
  }

  function PullAuthor(p: PR): User { p.user }

  function ReviewAuthor(x: Review): User { x.user }

  function CommentAuthor(x: Comment): User { x.user }

  /** The issue comments that are credited: written by a person, and carrying an issue URL. */
  function LinkedComments(comments: seq<Comment>): (r: seq<Comment>)
    ensures forall x :: x in r <==> x in comments && !IsBot(x.user) && HasIssueUrl(x)
  {
    if comments == [] then []
    else
      var x := comments[|comments| - 1];
      assert comments == comments[..|comments| - 1] + [x];
      LinkedComments(comments[..|comments| - 1]) + (if IsBot(x.user) || !HasIssueUrl(x) then [] else [x])
  }

  /**
   * `pr_created`: one item per pull request not opened by a bot, in order, and one creator
   * entry beside it with the same login and number.
   */
  lemma {:induction false} CreatedItemsPerPull(pulls: seq<PR>)
    ensures |CreatedItems(pulls)| == |Humans(pulls, PullAuthor)| == |Creators(pulls)|
    ensures forall k :: 0 <= k < |Humans(pulls, PullAuthor)| ==>
              CreatedItems(pulls)[k] == CreatedItem(Humans(pulls, PullAuthor)[k]) &&
              Creators(pulls)[k] == PRCreator(Humans(pulls, PullAuthor)[k].user.login, Humans(pulls, PullAuthor)[k].number)
  {
    if pulls != [] {
      CreatedItemsPerPull(pulls[..|pulls| - 1]);
    }
  }

  /** `pr_merged`: one item per merged pull request not opened by a bot, in order. */
  lemma {:induction false} MergedItemsPerPull(pulls: seq<PR>)
    ensures |MergedItems(pulls)| == |Humans(pulls, PullAuthor)|
    ensures forall k :: 0 <= k < |Humans(pulls, PullAuthor)| ==> MergedItems(pulls)[k] == MergedItem(Humans(pulls, PullAuthor)[k])
  {
    if pulls != [] {
      MergedItemsPerPull(pulls[..|pulls| - 1]);
    }
  }

  /**
   * One staged file's reviews: one item per review not written by a bot, in order; an
   * `approvals` item exactly when the review's state is `APPROVED`.
   */
  lemma {:induction false} ReviewItemsPerReview(reviews: seq<Review>, prId: Num, authors: map<nat, string>)
    ensures |ReviewItems(reviews, prId, authors)| == |Humans(reviews, ReviewAuthor)|
    ensures forall k :: 0 <= k < |Humans(reviews, ReviewAuthor)| ==> ReviewItems(reviews, prId, authors)[k] == ReviewItem(Humans(reviews, ReviewAuthor)[k], prId, authors)
    ensures forall k :: 0 <= k < |Humans(reviews, ReviewAuthor)| ==>
              (ReviewItems(reviews, prId, authors)[k].activityType == Approvals <==> Humans(reviews, ReviewAuthor)[k].state == Approved)
  {
    if reviews != [] {
      ReviewItemsPerReview(reviews[..|reviews| - 1], prId, authors);
    }
  }

  /** One staged file's review comments: one item per comment not written by a bot, in order. */
  lemma {:induction false} ReviewCommentItemsPerComment(comments: seq<Comment>, prId: Num, authors: map<nat, string>)
    ensures |ReviewCommentItems(comments, prId, authors)| == |Humans(comments, CommentAuthor)|
    ensures forall k :: 0 <= k < |Humans(comments, CommentAuthor)| ==>
              ReviewCommentItems(comments, prId, authors)[k] == ReviewCommentItem(Humans(comments, CommentAuthor)[k], prId, authors)
  {
    if comments != [] {
      ReviewCommentItemsPerComment(comments[..|comments| - 1], prId, authors);
    }
  }

  /** `comments`: one item per issue comment written by a person that carries an issue URL, in order. */
  lemma {:induction false} IssueCommentItemsPerComment(comments: seq<Comment>, authors: map<nat, string>)
    ensures |IssueCommentItems(comments, authors)| == |LinkedComments(comments)|
    ensures forall k :: 0 <= k < |LinkedComments(comments)| ==>
              IssueCommentItems(comments, authors)[k] == IssueCommentItem(LinkedComments(comments)[k], authors)
  {
    if comments != [] {
      IssueCommentItemsPerComment(comments[..|comments| - 1], authors);
    }
  }

  /**
   * The author index holds exactly the numbers it started with and those of the pull
   * requests not opened by bots; a number no such pull request carries keeps its entry.
   */
  lemma {:induction false} AuthorIndexKeys(authors: map<nat, string>, pulls: seq<PR>)
    ensures forall n :: n in AuthorIndex(authors, pulls) <==>
              n in authors || exists p :: p in pulls && !IsBot(p.user) && p.number == n
    ensures forall n :: n in authors && (forall p :: p in pulls && !IsBot(p.user) ==> p.number != n) ==>
              AuthorIndex(authors, pulls)[n] == authors[n]
  {
    if pulls != [] {
      var init := pulls[..|pulls| - 1];
      AuthorIndexKeys(authors, init);
      assert pulls == init + [pulls[|pulls| - 1]];
    }
  }

  /** Of several pull requests with one number, the last one not opened by a bot decides its author. */
  lemma {:induction false} LatestAuthorWins(authors: map<nat, string>, pulls: seq<PR>, k: nat)
    requires k < |pulls| && !IsBot(pulls[k].user)
    requires forall j :: k < j < |pulls| && !IsBot(pulls[j].user) ==> pulls[j].number != pulls[k].number
    ensures pulls[k].number in AuthorIndex(authors, pulls)
    ensures AuthorIndex(authors, pulls)[pulls[k].number] == pulls[k].user.login
  {
    if k < |pulls| - 1 {
      LatestAuthorWins(authors, pulls[..|pulls| - 1], k);
    }
  }

  /**
   * The lookup a review or comment makes for the number of such a latest pull request:
   * its author's login, or null when that login is empty.
   */
  lemma LookupFindsLatestAuthor(pulls: seq<PR>, k: nat)
    requires k < |pulls| && !IsBot(pulls[k].user)
    requires forall j :: k < j < |pulls| && !IsBot(pulls[j].user) ==> pulls[j].number != pulls[k].number
    ensures PrAuthorOf(AuthorIndex(map[], pulls), Int(pulls[k].number)) ==
            (if pulls[k].user.login == "" then None else Some(pulls[k].user.login))
  {
    LatestAuthorWins(map[], pulls, k);
  }

  /** A NaN key and a number no pull request carries both find no author. */
  lemma LookupMisses(pulls: seq<PR>, n: nat)
    requires forall p :: p in pulls && !IsBot(p.user) ==> p.number != n
    ensures PrAuthorOf(AuthorIndex(map[], pulls), Int(n)) == None
    ensures PrAuthorOf(AuthorIndex(map[], pulls), NaN) == None
  {
    AuthorIndexKeys(map[], pulls);
  }

  /** A file the collector named `reviews_<n>.json` is read as the reviews of pull request n. */
  lemma StagedReviewsKeyed(file: StagedFile<Review>, n: nat, authors: map<nat, string>)
    requires file.name == StagedName(ReviewsPrefix, n)
    ensures ReviewsOfFile(file, authors) == ReviewItems(file.records, Int(n), authors)
  {
    FileKeyRoundTrip(ReviewsPrefix, n);
    assert file.name == ReviewsPrefix + (NatToString(n) + JsonSuffix);
  }

  /** A file the collector named `pr_comments_<n>.json` is read as the review comments of pull request n. */
  lemma StagedReviewCommentsKeyed(file: StagedFile<Comment>, n: nat, authors: map<nat, string>)
    requires file.name == StagedName(CommentsPrefix, n)
    ensures ReviewCommentsOfFile(file, authors) == ReviewCommentItems(file.records, Int(n), authors)
  {
    FileKeyRoundTrip(CommentsPrefix, n);
    assert file.name == CommentsPrefix + (NatToString(n) + JsonSuffix);
  }

  /** An issue comment whose URL ends in `/<n>` is credited to pull request n. */
  lemma IssueCommentKeyed(c: Comment, base: string, n: nat, authors: map<nat, string>)
    requires c.issueUrl == Some(base + "/" + NatToString(n))
    ensures HasIssueUrl(c)
    ensures IssueCommentItem(c, authors).prId == Int(n)
  {
    IssueKeyRoundTrip(base, n);
  }

  /** The position of each activity type in the log: the order in which the streams are processed. */
  function Stage(t: ActivityType): nat {
    match t
    case PrCreated => 0
    case PrMerged => 1
    case Approvals => 2
    case Reviews => 2
    case ReviewComments => 3
    case Comments => 4
  }

  /** Every item counts once; only the review and comment streams carry an item id, and only they look up an author. */
  predicate WellShaped(it: ActivityItem) {
    && it.count == 1
    && (it.itemId.None? <==> Stage(it.activityType) <= 1)
    && (Stage(it.activityType) <= 1 ==> it.prAuthor.None?)
  }

  predicate AllAt(items: seq<ActivityItem>, stage: nat) {
    forall i :: 0 <= i < |items| ==> Stage(items[i].activityType) == stage && WellShaped(items[i])
  }

  lemma AllAtAppend(a: seq<ActivityItem>, b: seq<ActivityItem>, stage: nat)
    requires AllAt(a, stage) && AllAt(b, stage)
    ensures AllAt(a + b, stage)
  {
    forall i | 0 <= i < |a + b|
      ensures Stage((a + b)[i].activityType) == stage && WellShaped((a + b)[i])
    {
      if i >= |a| { assert (a + b)[i] == b[i - |a|]; }
    }
  }

  lemma {:induction false} CreatedItemsAt(pulls: seq<PR>)
    ensures AllAt(CreatedItems(pulls), 0)
  {
    if pulls != [] {
      var p := pulls[|pulls| - 1];
      CreatedItemsAt(pulls[..|pulls| - 1]);
      AllAtAppend(CreatedItems(pulls[..|pulls| - 1]), if IsBot(p.user) then [] else [CreatedItem(p)], 0);
    }
  }

  lemma {:induction false} MergedItemsAt(pulls: seq<PR>)
    ensures AllAt(MergedItems(pulls), 1)
  {
    if pulls != [] {
      var p := pulls[|pulls| - 1];
      MergedItemsAt(pulls[..|pulls| - 1]);
      AllAtAppend(MergedItems(pulls[..|pulls| - 1]), if IsBot(p.user) then [] else [MergedItem(p)], 1);
    }
  }

  lemma CommentItemAt(it: ActivityItem)
    requires it.activityType == Comments && it.count == 1 && it.itemId.Some?
    ensures AllAt([it], 4)
  {
  }

  lemma {:induction false} IssueCommentItemsAt(comments: seq<Comment>, authors: map<nat, string>)
    ensures AllAt(IssueCommentItems(comments, authors), 4)
  {
    if comments != [] {
      var c := comments[|comments| - 1];
      IssueCommentItemsAt(comments[..|comments| - 1], authors);
      if !IsBot(c.user) && HasIssueUrl(c) {
        CommentItemAt(IssueCommentItem(c, authors));
      }
      AllAtAppend(IssueCommentItems(comments[..|comments| - 1], authors),
                  if IsBot(c.user) || !HasIssueUrl(c) then [] else [IssueCommentItem(c, authors)], 4);
    }
  }

  lemma {:induction false} ReviewItemsAt(reviews: seq<Review>, prId: Num, authors: map<nat, string>)
    ensures AllAt(ReviewItems(reviews, prId, authors), 2)
  {
    if reviews != [] {
      var r := reviews[|reviews| - 1];
      ReviewItemsAt(reviews[..|reviews| - 1], prId, authors);
      AllAtAppend(ReviewItems(reviews[..|reviews| - 1], prId, authors), if IsBot(r.user) then [] else [ReviewItem(r, prId, authors)], 2);
    }
  }

  lemma {:induction false} ReviewFileItemsAt(files: seq<StagedFile<Review>>, authors: map<nat, string>)
    ensures AllAt(ReviewFileItems(files, authors), 2)
  {
    if files != [] {
      var f := files[|files| - 1];
      ReviewFileItemsAt(files[..|files| - 1], authors);
      ReviewItemsAt(f.records, FileKey(f.name, ReviewsPrefix), authors);
      AllAtAppend(ReviewFileItems(files[..|files| - 1], authors), ReviewsOfFile(f, authors), 2);
    }
  }

  lemma {:induction false} ReviewCommentItemsAt(comments: seq<Comment>, prId: Num, authors: map<nat, string>)
    ensures AllAt(ReviewCommentItems(comments, prId, authors), 3)
  {
    if comments != [] {
      var c := comments[|comments| - 1];
      ReviewCommentItemsAt(comments[..|comments| - 1], prId, authors);
      AllAtAppend(ReviewCommentItems(comments[..|comments| - 1], prId, authors), if IsBot(c.user) then [] else [ReviewCommentItem(c, prId, authors)], 3);
    }
  }

  lemma {:induction false} ReviewCommentFileItemsAt(files: seq<StagedFile<Comment>>, authors: map<nat, string>)
    ensures AllAt(ReviewCommentFileItems(files, authors), 3)
  {
    if files != [] {
      var f := files[|files| - 1];
      ReviewCommentFileItemsAt(files[..|files| - 1], authors);
      ReviewCommentItemsAt(f.records, FileKey(f.name, CommentsPrefix), authors);
      AllAtAppend(ReviewCommentFileItems(files[..|files| - 1], authors), ReviewCommentsOfFile(f, authors), 3);
    }
  }

  /**
   * The log is grouped by stream in processing order (created, merged, reviews, review
   * comments, issue comments), and every item is well shaped.
   */
  lemma ActivityLogGrouped(staged: StagedData)
    ensures forall i :: 0 <= i < |ActivityLog(staged)| ==> WellShaped(ActivityLog(staged)[i])
    ensures forall i, j :: 0 <= i < j < |ActivityLog(staged)| ==>
              Stage(ActivityLog(staged)[i].activityType) <= Stage(ActivityLog(staged)[j].activityType)
  {
    var authors := AuthorIndex(map[], staged.pulls);
    var a := CreatedItems(staged.pulls);
    var b := MergedItems(staged.mergedPulls);
    var c := ReviewFileItems(staged.reviewFiles, authors);
    var d := ReviewCommentFileItems(staged.commentFiles, authors);
    var e := IssueCommentItems(staged.comments, authors);
    CreatedItemsAt(staged.pulls);
    MergedItemsAt(staged.mergedPulls);
    ReviewFileItemsAt(staged.reviewFiles, authors);
    ReviewCommentFileItemsAt(staged.commentFiles, authors);
    IssueCommentItemsAt(staged.comments, authors);
    var log := ActivityLog(staged);
    assert log == a + b + c + d + e;
    forall i | 0 <= i < |log|
      ensures WellShaped(log[i])
    {
      AllAtConcat(a, b, c, d, e, i);
    }
    forall i, j | 0 <= i < j < |log|
      ensures Stage(log[i].activityType) <= Stage(log[j].activityType)
    {
      AllAtConcat(a, b, c, d, e, i);
      AllAtConcat(a, b, c, d, e, j);
    }
  }

  function SegmentStage(i: nat, na: nat, nb: nat, nc: nat, nd: nat): nat {
    if i < na then 0 else if i < na + nb then 1 else if i < na + nb + nc then 2 else if i < na + nb + nc + nd then 3 else 4
  }

  lemma AllAtConcat(a: seq<ActivityItem>, b: seq<ActivityItem>, c: seq<ActivityItem>, d: seq<ActivityItem>, e: seq<ActivityItem>, i: nat)
    requires AllAt(a, 0) && AllAt(b, 1) && AllAt(c, 2) && AllAt(d, 3) && AllAt(e, 4)
    requires i < |a + b + c + d + e|
    ensures WellShaped((a + b + c + d + e)[i])
    ensures Stage((a + b + c + d + e)[i].activityType) == SegmentStage(i, |a|, |b|, |c|, |d|)
  {
    var log := a + b + c + d + e;
    if i < |a| { assert log[i] == a[i]; }
    else if i < |a| + |b| { assert log[i] == b[i - |a|]; }
    else if i < |a| + |b| + |c| { assert log[i] == c[i - |a| - |b|]; }
    else if i < |a| + |b| + |c| + |d| { assert log[i] == d[i - |a| - |b| - |c|]; }
    else { assert log[i] == e[i - |a| - |b| - |c| - |d|]; }
  }

  /** One pass of an appending loop: the log grows by the piece the stream grows by. */
  lemma AppendStep(base: seq<ActivityItem>, prev: seq<ActivityItem>, piece: seq<ActivityItem>, log: seq<ActivityItem>, next: seq<ActivityItem>)
    requires log == base + prev + piece && next == prev + piece
    ensures log == base + next
  {
  }

  /** The shared arrays and record that the `processX` functions push into. */
  class ProcessedData {
    var activityData: seq<ActivityItem>
    var prCreators: seq<PRCreator>
    var prAuthors: map<nat, string>

    constructor ()
      ensures activityData == [] && prCreators == [] && prAuthors == map[]
    {
      activityData, prCreators, prAuthors := [], [], map[];
    }

    /** `processPullRequests` */
    method ProcessPullRequests(pulls: seq<PR>)
      modifies this
      ensures activityData == old(activityData) + CreatedItems(pulls)
      ensures prCreators == old(prCreators) + Creators(pulls)
      ensures prAuthors == AuthorIndex(old(prAuthors), pulls)
    {
      var i := 0;
      while i < |pulls|
        invariant 0 <= i <= |pulls|
        invariant activityData == old(activityData) + CreatedItems(pulls[..i])
        invariant prCreators == old(prCreators) + Creators(pulls[..i])
        invariant prAuthors == AuthorIndex(old(prAuthors), pulls[..i])
      {
        var pr := pulls[i];
        if !IsBot(pr.user) {
          var user := pr.user.login;
          var prNumber := pr.number;
          activityData := activityData + [ActivityItem(user, PrCreated, 1, Int(prNumber), None, None)];
          prCreators := prCreators + [PRCreator(user, prNumber)];
          prAuthors := prAuthors[prNumber := user];
        }
        assert pulls[..i + 1][..i] == pulls[..i];
        i := i + 1;
      }
      assert pulls[..i] == pulls;
    }

    /** `processMergedPulls` */
    method ProcessMergedPulls(mergedPulls: seq<PR>)
      modifies this
      ensures activityData == old(activityData) + MergedItems(mergedPulls)
      ensures prCreators == old(prCreators) && prAuthors == old(prAuthors)
    {
      var i := 0;
      while i < |mergedPulls|
        invariant 0 <= i <= |mergedPulls|
        invariant activityData == old(activityData) + MergedItems(mergedPulls[..i])
        invariant prCreators == old(prCreators) && prAuthors == old(prAuthors)
      {
        var pr := mergedPulls[i];
        if !IsBot(pr.user) {
          activityData := activityData + [ActivityItem(pr.user.login, PrMerged, 1, Int(pr.number), None, None)];
        }
        assert mergedPulls[..i + 1][..i] == mergedPulls[..i];
        i := i + 1;
      }
      assert mergedPulls[..i] == mergedPulls;
    }

    /** The callback for one staged file: its reviews, keyed by the number in its name. */
    method ProcessReviewFile(file: StagedFile<Review>)
      modifies this
      ensures activityData == old(activityData) + ReviewsOfFile(file, prAuthors)
      ensures prCreators == old(prCreators) && prAuthors == old(prAuthors)
    {
      if StartsWith(file.name, ReviewsPrefix) {
        var prId := FileKey(file.name, ReviewsPrefix);
        PushReviews(file.records, prId);
      }
    }

    /** The inner `forEach` over one file's reviews, dropping bots. */
    method PushReviews(reviews: seq<Review>, prId: Num)
      modifies this
      ensures activityData == old(activityData) + ReviewItems(reviews, prId, prAuthors)
      ensures prCreators == old(prCreators) && prAuthors == old(prAuthors)
    {
      ghost var authors := prAuthors;
      var k := 0;
      while k < |reviews|
        invariant 0 <= k <= |reviews|
        invariant activityData == old(activityData) + ReviewItems(reviews[..k], prId, authors)
        invariant prCreators == old(prCreators) && prAuthors == authors
      {
        ReviewItemsSnoc(reviews, k, prId, authors);
        var review := reviews[k];
        if !IsBot(review.user) {
          var item := ActivityItem(
            review.user.login,
            if review.state == Approved then Approvals else Reviews,
            1,
            prId,
            Some(review.id),
            PrAuthorOf(prAuthors, prId));
          assert item == ReviewItem(review, prId, authors);
          activityData := activityData + [item];
        }
        AppendStep(old(activityData), ReviewItems(reviews[..k], prId, authors),
                   if IsBot(review.user) then [] else [ReviewItem(review, prId, authors)],
                   activityData, ReviewItems(reviews[..k + 1], prId, authors));
        k := k + 1;
      }
      assert reviews[..k] == reviews;
    }

    /** `processReviews`: the staged files named `reviews_<number>.json`, in listing order. */
    method ProcessReviews(files: seq<StagedFile<Review>>)
      modifies this
      ensures activityData == old(activityData) + ReviewFileItems(files, prAuthors)
      ensures prCreators == old(prCreators) && prAuthors == old(prAuthors)
    {
      ghost var authors := prAuthors;
      var f := 0;
      while f < |files|
        invariant 0 <= f <= |files|
        invariant activityData == old(activityData) + ReviewFileItems(files[..f], authors)
        invariant prCreators == old(prCreators) && prAuthors == authors
      {
        ReviewFileItemsSnoc(files, f, authors);
        ghost var prev := ReviewFileItems(files[..f], authors);
        ProcessReviewFile(files[f]);
        AppendStep(old(activityData), prev, ReviewsOfFile(files[f], authors), activityData, ReviewFileItems(files[..f + 1], authors));
        f := f + 1;
      }
      assert files[..f] == files;
    }

    /** The callback for one staged file: its review comments, keyed by the number in its name. */
    method ProcessReviewCommentFile(file: StagedFile<Comment>)
      modifies this
      ensures activityData == old(activityData) + ReviewCommentsOfFile(file, prAuthors)
      ensures prCreators == old(prCreators) && prAuthors == old(prAuthors)
    {
      if StartsWith(file.name, CommentsPrefix) {
        var prId := FileKey(file.name, CommentsPrefix);
        PushReviewComments(file.records, prId);
      }
    }

    /** The inner `forEach` over one file's review comments, dropping bots. */
    method PushReviewComments(comments: seq<Comment>, prId: Num)
      modifies this
      ensures activityData == old(activityData) + ReviewCommentItems(comments, prId, prAuthors)
      ensures prCreators == old(prCreators) && prAuthors == old(prAuthors)
    {
      ghost var authors := prAuthors;
      var k := 0;
      while k < |comments|
        invariant 0 <= k <= |comments|
        invariant activityData == old(activityData) + ReviewCommentItems(comments[..k], prId, authors)
        invariant prCreators == old(prCreators) && prAuthors == authors
      {
        ReviewCommentItemsSnoc(comments, k, prId, authors);
        var comment := comments[k];
        if !IsBot(comment.user) {
          var item := ActivityItem(comment.user.login, ReviewComments, 1, prId, Some(comment.id), PrAuthorOf(prAuthors, prId));
          assert item == ReviewCommentItem(comment, prId, authors);
          activityData := activityData + [item];
        }
        AppendStep(old(activityData), ReviewCommentItems(comments[..k], prId, authors),
                   if IsBot(comment.user) then [] else [ReviewCommentItem(comment, prId, authors)],
                   activityData, ReviewCommentItems(comments[..k + 1], prId, authors));
        k := k + 1;
      }
      assert comments[..k] == comments;
    }

    /** `processReviewComments`: the staged files named `pr_comments_<number>.json`, in listing order. */
    method ProcessReviewComments(files: seq<StagedFile<Comment>>)
      modifies this
      ensures activityData == old(activityData) + ReviewCommentFileItems(files, prAuthors)
      ensures prCreators == old(prCreators) && prAuthors == old(prAuthors)
    {
      ghost var authors := prAuthors;
      var f := 0;
      while f < |files|
        invariant 0 <= f <= |files|
        invariant activityData == old(activityData) + ReviewCommentFileItems(files[..f], authors)
        invariant prCreators == old(prCreators) && prAuthors == authors
      {
        ReviewCommentFileItemsSnoc(files, f, authors);
        ghost var prev := ReviewCommentFileItems(files[..f], authors);
        ProcessReviewCommentFile(files[f]);
        AppendStep(old(activityData), prev, ReviewCommentsOfFile(files[f], authors), activityData, ReviewCommentFileItems(files[..f + 1], authors));
        f := f + 1;
      }
      assert files[..f] == files;
    }

    /** `processComments` */
    method ProcessComments(comments: seq<Comment>)
      modifies this
      ensures activityData == old(activityData) + IssueCommentItems(comments, prAuthors)
      ensures prCreators == old(prCreators) && prAuthors == old(prAuthors)
    {
      ghost var authors := prAuthors;
      var i := 0;
      while i < |comments|
        invariant 0 <= i <= |comments|
        invariant activityData == old(activityData) + IssueCommentItems(comments[..i], authors)
        invariant prCreators == old(prCreators) && prAuthors == authors
      {
        IssueCommentItemsSnoc(comments, i, authors);
        var comment := comments[i];
        if !IsBot(comment.user) && HasIssueUrl(comment) {
          var prId := IssueKey(comment.issueUrl.value);
          var item := ActivityItem(comment.user.login, Comments, 1, prId, Some(comment.id), PrAuthorOf(prAuthors, prId));
          assert item == IssueCommentItem(comment, authors);
          activityData := activityData + [item];
        }
        i := i + 1;
      }
      assert comments[..i] == comments;
    }
  }

  /** `processActivityData`: a fresh record, filled by the five passes in order. */
  method ProcessActivityData(staged: StagedData) returns (d: ProcessedData)
    ensures fresh(d)
    ensures d.activityData == ActivityLog(staged)
    ensures d.prCreators == Creators(staged.pulls)
    ensures d.prAuthors == AuthorIndex(map[], staged.pulls)
  {
    d := new ProcessedData();
    d.ProcessPullRequests(staged.pulls);
    ghost var authors := AuthorIndex(map[], staged.pulls);
    assert d.activityData == CreatedItems(staged.pulls) && d.prAuthors == authors;
    d.ProcessMergedPulls(staged.mergedPulls);
    ghost var log1 := d.activityData;
    d.ProcessReviews(staged.reviewFiles);
    ghost var log2 := d.activityData;
    assert log2 == log1 + ReviewFileItems(staged.reviewFiles, authors);
    d.ProcessReviewComments(staged.commentFiles);
    ghost var log3 := d.activityData;
    assert log3 == log2 + ReviewCommentFileItems(staged.commentFiles, authors);
    d.ProcessComments(staged.comments);
    assert d.activityData == log3 + IssueCommentItems(staged.comments, authors);
  }
}
