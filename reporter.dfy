/**
 * `reporter`: the per-user engagement table behind the summary report. `processUserData`
 * counts each user's pull requests, comments and approvals and the distinct pull requests
 * they engaged with, skipping comments on their own pull requests; the summary sorts the
 * rows by combined score, highest first.
 */
module Reporter {
  import opened Wrappers
  import opened JsString
  import opened Types
  import Processor

  /** The per-user record `userData[user]`. */
  datatype Tally = Tally(prCreated: nat, comments: int, approvals: int, uniquePrs: set<Num>)

  /** A row of the report; the `toFixed` renderings of depth and breadth are not modelled. */
  datatype UserRow = UserRow(displayName: string, comments: int, approvals: int, depth: real, breadth: real, combinedScore: real)

  /** `computeScore(depth, breadth, breadthWeight, depthDiminishingFactor)`, an opaque floating-point formula. */
  type Score = (real, real, real, real) -> real

  const DisplayWidth := 20

  predicate IsComment(t: ActivityType) {
    t == Comments || t == ReviewComments
  }

  /** `(type === 'comments' || type === 'review_comments') && user === prAuthor`: the item is skipped. */
  predicate SelfComment(it: ActivityItem) {
    IsComment(it.activityType) && it.prAuthor == Some(it.user)
  }

  predicate Engages(it: ActivityItem) {
    IsComment(it.activityType) || it.activityType == Approvals
  }

  // Reference definitions: what each counter means, one user at a time.

  /** The number of `pr_created` items of user `u`. */
  function CreatedCount(log: seq<ActivityItem>, u: string): nat {
    if log == [] then 0
    else
      var it := log[|log| - 1];
      CreatedCount(log[..|log| - 1], u) + (if it.user == u && it.activityType == PrCreated then 1 else 0)
  }

  /** The sum of `count` over the comment and review-comment items of `u` that are not on `u`'s own pull request. */
  function CommentTotal(log: seq<ActivityItem>, u: string): int {
    if log == [] then 0
    else
      var it := log[|log| - 1];
      CommentTotal(log[..|log| - 1], u) + (if it.user == u && IsComment(it.activityType) && !SelfComment(it) then it.count else 0)
  }

  /** The sum of `count` over all the approval items of `u`, self-approvals included. */
  function ApprovalTotal(log: seq<ActivityItem>, u: string): int {
    if log == [] then 0
    else
      var it := log[|log| - 1];
      ApprovalTotal(log[..|log| - 1], u) + (if it.user == u && it.activityType == Approvals then it.count else 0)
  }

  /** The distinct pull requests `u` commented on or approved whose recorded author is not `u`; an unknown author counts. */
  function TouchedPrs(log: seq<ActivityItem>, u: string): set<Num> {
    if log == [] then {}
    else
      var it := log[|log| - 1];
      TouchedPrs(log[..|log| - 1], u) + (if it.user == u && Engages(it) && it.prAuthor != Some(u) then {it.prId} else {})
  }

  /** `u` has some item that is not a comment on `u`'s own pull request. */
  predicate HasRow(log: seq<ActivityItem>, u: string) {
    log != [] && (HasRow(log[..|log| - 1], u) || (log[|log| - 1].user == u && !SelfComment(log[|log| - 1])))
  }

  function Summary(log: seq<ActivityItem>, u: string): Tally {
    Tally(CreatedCount(log, u), CommentTotal(log, u), ApprovalTotal(log, u), TouchedPrs(log, u))
  }

  /** The users with a row, in the order their first counted item appears. */
  function FirstSeen(log: seq<ActivityItem>): seq<string> {
    if log == [] then []
    else
      var it := log[|log| - 1];
      var init := log[..|log| - 1];
      FirstSeen(init) + (if !SelfComment(it) && !HasRow(init, it.user) then [it.user] else [])
  }

  // The records `processUserData` builds, as folds over the log.

  /** `record[user] || 0` */
  function Get(m: map<string, nat>, u: string): nat {
    if u in m then m[u] else 0
  }

  /** `prCreatedByUser` after the first `forEach`. */
  function CreatedTally(log: seq<ActivityItem>): map<string, nat> {
    if log == [] then map[]
    else
      var it := log[|log| - 1];
      var m := CreatedTally(log[..|log| - 1]);
      if it.activityType == PrCreated then m[it.user := Get(m, it.user) + 1] else m
  }

  /** The counters one item adds to its user's record. */
  function Credit(t: Tally, it: ActivityItem): Tally {
    var touched := if Some(it.user) != it.prAuthor then t.uniquePrs + {it.prId} else t.uniquePrs;
    if IsComment(it.activityType) then t.(comments := t.comments + it.count, uniquePrs := touched)
    else if it.activityType == Approvals then t.(approvals := t.approvals + it.count, uniquePrs := touched)
    else t
  }

  /** `userData` after the second `forEach`; a record starts from the user's `prCreatedByUser` entry. */
  function Tallies(log: seq<ActivityItem>, created: map<string, nat>): map<string, Tally> {
    if log == [] then map[]
    else
      var it := log[|log| - 1];
      var m := Tallies(log[..|log| - 1], created);
      if SelfComment(it) then m
      else m[it.user := Credit(if it.user in m then m[it.user] else Tally(Get(created, it.user), 0, 0, {}), it)]
  }

  /** `prCreatedByUser` counts each user's `pr_created` items. */
  lemma {:induction false} CreatedTallyCounts(log: seq<ActivityItem>)
    ensures forall u :: Get(CreatedTally(log), u) == CreatedCount(log, u)
  {
    if log != [] {
      CreatedTallyCounts(log[..|log| - 1]);
    }
  }

  /** A user without a row has no comments, no approvals and no touched pull requests. */
  lemma {:induction false} NoRowNoCounts(log: seq<ActivityItem>, u: string)
    requires !HasRow(log, u)
    ensures CommentTotal(log, u) == 0 && ApprovalTotal(log, u) == 0 && TouchedPrs(log, u) == {}
  {
    if log != [] {
      NoRowNoCounts(log[..|log| - 1], u);
    }
  }

  /**
   * `userData` has a record exactly for the users with a row, and each record holds the
   * user's entry in `created` and the user's comment total, approval total and touched set.
   */
  lemma {:induction false} TalliesMeaning(log: seq<ActivityItem>, created: map<string, nat>)
    ensures forall u :: u in Tallies(log, created) <==> HasRow(log, u)
    ensures forall u :: u in Tallies(log, created) ==>
              Tallies(log, created)[u] == Tally(Get(created, u), CommentTotal(log, u), ApprovalTotal(log, u), TouchedPrs(log, u))
  {
    if log != [] {
      var init := log[..|log| - 1];
      var it := log[|log| - 1];
      TalliesMeaning(init, created);
      forall u | u in Tallies(log, created)
        ensures Tallies(log, created)[u] == Tally(Get(created, u), CommentTotal(log, u), ApprovalTotal(log, u), TouchedPrs(log, u))
      {
        if u == it.user && !SelfComment(it) {
          var t := if u in Tallies(init, created) then Tallies(init, created)[u] else Tally(Get(created, u), 0, 0, {});
          if u !in Tallies(init, created) {
            NoRowNoCounts(init, u);
          }
          assert t == Tally(Get(created, u), CommentTotal(init, u), ApprovalTotal(init, u), TouchedPrs(init, u));
        }
      }
    }
  }

  /** Each user with a row appears exactly once in the row order, and no other user does. */
  lemma {:induction false} FirstSeenRows(log: seq<ActivityItem>)
    ensures forall u :: u in FirstSeen(log) <==> HasRow(log, u)
    ensures forall i, j :: 0 <= i < j < |FirstSeen(log)| ==> FirstSeen(log)[i] != FirstSeen(log)[j]
  {
    if log != [] {
      FirstSeenRows(log[..|log| - 1]);
    }
  }

  /** `user.length > 20 ? user.substring(0, 20) : user` */
  function DisplayName(user: string): (r: string)
    ensures |r| <= DisplayWidth && r <= user
    ensures |user| <= DisplayWidth ==> r == user
    ensures |user| > DisplayWidth ==> |r| == DisplayWidth
  {
    if |user| > DisplayWidth then user[..DisplayWidth] else user
  }

  /**
   * One row of `Object.entries(userData).map(...)`: measured against the pull requests of
   * others, `othersPRs = totalPrs - prCreated`; depth and breadth are 0 unless `othersPRs`
   * is positive, and are then the engagement sum and the number of touched pull requests
   * per pull request of others.
   */
  function RowOf(user: string, t: Tally, totalPrs: int, breadthWeight: real, depthDiminishingFactor: real, computeScore: Score): (r: UserRow)
    ensures r.displayName == DisplayName(user) && r.comments == t.comments && r.approvals == t.approvals
    ensures totalPrs - t.prCreated <= 0 ==> r.depth == 0.0 && r.breadth == 0.0
    ensures totalPrs - t.prCreated > 0 ==>
              && r.depth * (totalPrs - t.prCreated) as real == (t.comments + t.approvals) as real
              && r.breadth * (totalPrs - t.prCreated) as real == |t.uniquePrs| as real
    ensures r.combinedScore == computeScore(r.depth, r.breadth, breadthWeight, depthDiminishingFactor)
  {
    var othersPRs := totalPrs - t.prCreated;
    var engagementSum := t.comments + t.approvals;
    var depth := if othersPRs > 0 then engagementSum as real / othersPRs as real else 0.0;
    var breadth := if othersPRs > 0 then |t.uniquePrs| as real / othersPRs as real else 0.0;
    UserRow(DisplayName(user), t.comments, t.approvals, depth, breadth, computeScore(depth, breadth, breadthWeight, depthDiminishingFactor))
  }

  /** The rows `processUserData` returns: one per user with a row, in first-seen order, from the reference counts. */
  function UserRows(log: seq<ActivityItem>, totalPrs: int, breadthWeight: real, depthDiminishingFactor: real, computeScore: Score): seq<UserRow> {
    var users := FirstSeen(log);
    seq(|users|, k requires 0 <= k < |users| => RowOf(users[k], Summary(log, users[k]), totalPrs, breadthWeight, depthDiminishingFactor, computeScore))
  }

  /** The first `forEach` of `processUserData`: `prCreatedByUser`. */
  method CountCreated(activityData: seq<ActivityItem>) returns (prCreatedByUser: map<string, nat>)
    ensures forall u :: Get(prCreatedByUser, u) == CreatedCount(activityData, u)
  {
    prCreatedByUser := map[];
    var i := 0;
    while i < |activityData|
      invariant 0 <= i <= |activityData|
      invariant prCreatedByUser == CreatedTally(activityData[..i])
    {
      var entry := activityData[i];
      if entry.activityType == PrCreated {
        if entry.user !in prCreatedByUser {
          prCreatedByUser := prCreatedByUser[entry.user := 0];
        }
        prCreatedByUser := prCreatedByUser[entry.user := prCreatedByUser[entry.user] + 1];
      }
      assert activityData[..i + 1][..i] == activityData[..i];
      i := i + 1;
    }
    assert activityData[..i] == activityData;
    CreatedTallyCounts(activityData);
  }

  /** The callback of the second `forEach` for one entry. */
  method RecordEntry(userData: map<string, Tally>, users: seq<string>, entry: ActivityItem, prCreatedByUser: map<string, nat>)
    returns (userData': map<string, Tally>, users': seq<string>)
    ensures SelfComment(entry) ==> userData' == userData && users' == users
    ensures !SelfComment(entry) ==>
              && userData' == userData[entry.user := Credit(if entry.user in userData then userData[entry.user] else Tally(Get(prCreatedByUser, entry.user), 0, 0, {}), entry)]
              && users' == users + (if entry.user in userData then [] else [entry.user])
  {
    userData', users' := userData, users;
    if IsComment(entry.activityType) && Some(entry.user) == entry.prAuthor {
      return;
    }
    if entry.user !in userData' {
      userData' := userData'[entry.user := Tally(Get(prCreatedByUser, entry.user), 0, 0, {})];
      users' := users' + [entry.user];
    }
    var data := userData'[entry.user];
    if IsComment(entry.activityType) {
      data := data.(comments := data.comments + entry.count);
      if Some(entry.user) != entry.prAuthor {
        data := data.(uniquePrs := data.uniquePrs + {entry.prId});
      }
    } else if entry.activityType == Approvals {
      data := data.(approvals := data.approvals + entry.count);
      if Some(entry.user) != entry.prAuthor {
        data := data.(uniquePrs := data.uniquePrs + {entry.prId});
      }
    }
    userData' := userData'[entry.user := data];
  }

  /**
   * The second `forEach` of `processUserData`: `userData`, and the order in which its keys
   * were first set, which is the order `Object.entries` lists them in.
   */
  method TallyUsers(activityData: seq<ActivityItem>, prCreatedByUser: map<string, nat>)
    returns (userData: map<string, Tally>, users: seq<string>)
    ensures users == FirstSeen(activityData)
    ensures forall u :: u in userData <==> HasRow(activityData, u)
    ensures forall u :: u in userData ==>
              userData[u] == Tally(Get(prCreatedByUser, u), CommentTotal(activityData, u), ApprovalTotal(activityData, u), TouchedPrs(activityData, u))
  {
    userData, users := map[], [];
    var i := 0;
    while i < |activityData|
      invariant 0 <= i <= |activityData|
      invariant userData == Tallies(activityData[..i], prCreatedByUser)
      invariant users == FirstSeen(activityData[..i])
    {
      TalliesMeaning(activityData[..i], prCreatedByUser);
      userData, users := RecordEntry(userData, users, activityData[i], prCreatedByUser);
      assert activityData[..i + 1][..i] == activityData[..i];
      i := i + 1;
    }
    assert activityData[..i] == activityData;
    TalliesMeaning(activityData, prCreatedByUser);
  }

  /** `processUserData`: the two passes over the log, then one row per record. */
  method ProcessUserData(activityData: seq<ActivityItem>, totalPrs: int, breadthWeight: real, depthDiminishingFactor: real, computeScore: Score)
    returns (rows: seq<UserRow>)
    ensures rows == UserRows(activityData, totalPrs, breadthWeight, depthDiminishingFactor, computeScore)
  {
    var prCreatedByUser := CountCreated(activityData);
    var userData, users := TallyUsers(activityData, prCreatedByUser);
    FirstSeenRows(activityData);
    assert forall k :: 0 <= k < |users| ==> users[k] in userData && userData[users[k]] == Summary(activityData, users[k]);
    rows := seq(|users|, k requires 0 <= k < |users| =>
      RowOf(users[k], userData[users[k]], totalPrs, breadthWeight, depthDiminishingFactor, computeScore));
  }

  // Properties of the counts.

  /** Ignored items: self-comments and the review, creation and merge items add to no counter and no set. */
  predicate Inert(it: ActivityItem) {
    SelfComment(it) || it.activityType == Reviews || it.activityType == PrCreated || it.activityType == PrMerged
  }

  /**
   * Wherever it stands in the log, an inert item changes no user's comment total, approval
   * total or touched set; a self-comment also creates no row and no PR count.
   */
  lemma {:induction false} InertItemIgnored(a: seq<ActivityItem>, it: ActivityItem, b: seq<ActivityItem>, u: string)
    requires Inert(it)
    ensures CommentTotal(a + [it] + b, u) == CommentTotal(a + b, u)
    ensures ApprovalTotal(a + [it] + b, u) == ApprovalTotal(a + b, u)
    ensures TouchedPrs(a + [it] + b, u) == TouchedPrs(a + b, u)
    ensures SelfComment(it) ==> CreatedCount(a + [it] + b, u) == CreatedCount(a + b, u)
    ensures SelfComment(it) ==> (HasRow(a + [it] + b, u) <==> HasRow(a + b, u))
  {
    InertEngagementIgnored(a, it, b, u);
    if SelfComment(it) {
      SelfCommentNoRow(a, it, b, u);
    }
  }

  /** Peels the last item off both logs. */
  lemma PeelLast(a: seq<ActivityItem>, it: ActivityItem, b: seq<ActivityItem>)
    requires b != []
    ensures (a + [it] + b)[..|a + [it] + b| - 1] == a + [it] + b[..|b| - 1]
    ensures (a + b)[..|a + b| - 1] == a + b[..|b| - 1]
    ensures (a + [it] + b)[|a + [it] + b| - 1] == b[|b| - 1] == (a + b)[|a + b| - 1]
  {
    assert a + [it] + b == (a + [it] + b[..|b| - 1]) + [b[|b| - 1]];
    assert a + b == (a + b[..|b| - 1]) + [b[|b| - 1]];
  }

  lemma {:induction false} InertEngagementIgnored(a: seq<ActivityItem>, it: ActivityItem, b: seq<ActivityItem>, u: string)
    requires Inert(it)
    ensures CommentTotal(a + [it] + b, u) == CommentTotal(a + b, u)
    ensures ApprovalTotal(a + [it] + b, u) == ApprovalTotal(a + b, u)
    ensures TouchedPrs(a + [it] + b, u) == TouchedPrs(a + b, u)
  {
    if b == [] {
      InertLast(a, it, u);
      assert a + [it] + b == a + [it];
      assert a + b == a;
    } else {
      var b' := b[..|b| - 1];
      InertEngagementIgnored(a, it, b', u);
      PeelLast(a, it, b);
      var long, short := a + [it] + b, a + b;
      assert CommentTotal(long, u) == CommentTotal(a + [it] + b', u) + CommentTotal([b[|b| - 1]], u);
      assert CommentTotal(short, u) == CommentTotal(a + b', u) + CommentTotal([b[|b| - 1]], u);
      assert ApprovalTotal(long, u) == ApprovalTotal(a + [it] + b', u) + ApprovalTotal([b[|b| - 1]], u);
      assert ApprovalTotal(short, u) == ApprovalTotal(a + b', u) + ApprovalTotal([b[|b| - 1]], u);
      assert TouchedPrs(long, u) == TouchedPrs(a + [it] + b', u) + TouchedPrs([b[|b| - 1]], u);
      assert TouchedPrs(short, u) == TouchedPrs(a + b', u) + TouchedPrs([b[|b| - 1]], u);
    }
  }

  /** An inert item at the end of the log counts for nothing. */
  lemma InertLast(a: seq<ActivityItem>, it: ActivityItem, u: string)
    requires Inert(it)
    ensures CommentTotal(a + [it], u) == CommentTotal(a, u)
    ensures ApprovalTotal(a + [it], u) == ApprovalTotal(a, u)
    ensures TouchedPrs(a + [it], u) == TouchedPrs(a, u)
  {
    assert (a + [it])[..|a|] == a;
  }

  lemma {:induction false} SelfCommentNoRow(a: seq<ActivityItem>, it: ActivityItem, b: seq<ActivityItem>, u: string)
    requires SelfComment(it)
    ensures CreatedCount(a + [it] + b, u) == CreatedCount(a + b, u)
    ensures HasRow(a + [it] + b, u) <==> HasRow(a + b, u)
  {
    if b == [] {
      assert a + [it] + b == a + [it] && (a + [it])[..|a|] == a;
      assert a + b == a;
    } else {
      SelfCommentNoRow(a, it, b[..|b| - 1], u);
      PeelLast(a, it, b);
    }
  }

  /** Approvals count whoever authored the pull request; a self-approval adds to approvals but not to the touched set. */
  lemma SelfApprovalCounted(log: seq<ActivityItem>, it: ActivityItem)
    requires it.activityType == Approvals && it.prAuthor == Some(it.user)
    ensures ApprovalTotal(log + [it], it.user) == ApprovalTotal(log, it.user) + it.count
    ensures TouchedPrs(log + [it], it.user) == TouchedPrs(log, it.user)
    ensures HasRow(log + [it], it.user)
  {
    assert (log + [it])[..|log|] == log;
  }

  /**
   * Pull requests 1 and 2 by A and 3 by B; B approves both of A's and leaves one review
   * comment on each.
   */
  function Scenario(): seq<ActivityItem> {
    [ ActivityItem("A", PrCreated, 1, Int(1), None, None),
      ActivityItem("A", PrCreated, 1, Int(2), None, None),
      ActivityItem("B", PrCreated, 1, Int(3), None, None),
      ActivityItem("B", Approvals, 1, Int(1), Some(11), Some("A")),
      ActivityItem("B", Approvals, 1, Int(2), Some(12), Some("A")),
      ActivityItem("B", ReviewComments, 1, Int(1), Some(21), Some("A")),
      ActivityItem("B", ReviewComments, 1, Int(2), Some(22), Some("A")) ]
  }

  lemma ScenarioTotalPrs()
    ensures TotalPrs([PRCreator("A", 1), PRCreator("A", 2), PRCreator("B", 3)]) == 3
  {
    var cs := [PRCreator("A", 1), PRCreator("A", 2), PRCreator("B", 3)];
    assert Numbers(cs) == {1, 2, 3} by {
      assert cs[0].prNumber == 1 && cs[1].prNumber == 2 && cs[2].prNumber == 3;
    }
  }

  lemma ScenarioOrder()
    ensures FirstSeen(Scenario()) == ["A", "B"]
  {
    var log := Scenario();
    var p1, p2, p3 := log[..1], log[..2], log[..3];
    var p4, p5, p6 := log[..4], log[..5], log[..6];
    assert p1[..0] == [] && p2[..1] == p1 && p3[..2] == p2 && p4[..3] == p3;
    assert p5[..4] == p4 && p6[..5] == p5 && log[..6] == p6;
    assert FirstSeen(p1) == ["A"] && HasRow(p1, "A") && !HasRow(p1, "B");
    assert FirstSeen(p2) == ["A"] && HasRow(p2, "A") && !HasRow(p2, "B");
    assert FirstSeen(p3) == ["A", "B"] && HasRow(p3, "B");
    assert FirstSeen(p4) == ["A", "B"] && FirstSeen(p5) == ["A", "B"] && FirstSeen(p6) == ["A", "B"];
  }

  lemma ScenarioA()
    ensures Summary(Scenario(), "A") == Tally(2, 0, 0, {})
  {
    var log := Scenario();
    var p1, p2, p3 := log[..1], log[..2], log[..3];
    var p4, p5, p6 := log[..4], log[..5], log[..6];
    assert p1[..0] == [] && p2[..1] == p1 && p3[..2] == p2 && p4[..3] == p3;
    assert p5[..4] == p4 && p6[..5] == p5 && log[..6] == p6;
    assert CreatedCount(p1, "A") == 1 && CommentTotal(p1, "A") == 0 && ApprovalTotal(p1, "A") == 0 && TouchedPrs(p1, "A") == {};
    assert CreatedCount(p2, "A") == 2 && CommentTotal(p2, "A") == 0 && ApprovalTotal(p2, "A") == 0 && TouchedPrs(p2, "A") == {};
    assert CreatedCount(p3, "A") == 2 && CommentTotal(p3, "A") == 0 && ApprovalTotal(p3, "A") == 0 && TouchedPrs(p3, "A") == {};
    assert CreatedCount(p4, "A") == 2 && CommentTotal(p4, "A") == 0 && ApprovalTotal(p4, "A") == 0 && TouchedPrs(p4, "A") == {};
    assert CreatedCount(p5, "A") == 2 && CommentTotal(p5, "A") == 0 && ApprovalTotal(p5, "A") == 0 && TouchedPrs(p5, "A") == {};
    assert CreatedCount(p6, "A") == 2 && CommentTotal(p6, "A") == 0 && ApprovalTotal(p6, "A") == 0 && TouchedPrs(p6, "A") == {};
    assert CreatedCount(log, "A") == 2 && CommentTotal(log, "A") == 0 && ApprovalTotal(log, "A") == 0 && TouchedPrs(log, "A") == {};
  }

  lemma ScenarioB()
    ensures Summary(Scenario(), "B") == Tally(1, 2, 2, {Int(1), Int(2)})
  {
    ScenarioBCreatedApproved();
    ScenarioBCommented();
  }

  lemma ScenarioBCreatedApproved()
    ensures CreatedCount(Scenario(), "B") == 1 && ApprovalTotal(Scenario(), "B") == 2
  {
    var log := Scenario();
    var p1, p2, p3 := log[..1], log[..2], log[..3];
    var p4, p5, p6 := log[..4], log[..5], log[..6];
    assert p1[..0] == [] && p2[..1] == p1 && p3[..2] == p2 && p4[..3] == p3;
    assert p5[..4] == p4 && p6[..5] == p5 && log[..6] == p6;
    assert CreatedCount(p1, "B") == 0 && ApprovalTotal(p1, "B") == 0;
    assert CreatedCount(p2, "B") == 0 && ApprovalTotal(p2, "B") == 0;
    assert CreatedCount(p3, "B") == 1 && ApprovalTotal(p3, "B") == 0;
    assert CreatedCount(p4, "B") == 1 && ApprovalTotal(p4, "B") == 1;
    assert CreatedCount(p5, "B") == 1 && ApprovalTotal(p5, "B") == 2;
    assert CreatedCount(p6, "B") == 1 && ApprovalTotal(p6, "B") == 2;
  }

  lemma ScenarioBCommented()
    ensures CommentTotal(Scenario(), "B") == 2 && TouchedPrs(Scenario(), "B") == {Int(1), Int(2)}
  {
    var log := Scenario();
    var p1, p2, p3 := log[..1], log[..2], log[..3];
    var p4, p5, p6 := log[..4], log[..5], log[..6];
    assert p1[..0] == [] && p2[..1] == p1 && p3[..2] == p2 && p4[..3] == p3;
    assert p5[..4] == p4 && p6[..5] == p5 && log[..6] == p6;
    assert CommentTotal(p1, "B") == 0 && CommentTotal(p2, "B") == 0 && CommentTotal(p3, "B") == 0;
    assert CommentTotal(p4, "B") == 0 && CommentTotal(p5, "B") == 0 && CommentTotal(p6, "B") == 1;
    ScenarioBTouched(log, p1, p2, p3, p4, p5, p6);
  }

  lemma ScenarioBTouched(log: seq<ActivityItem>, p1: seq<ActivityItem>, p2: seq<ActivityItem>, p3: seq<ActivityItem>,
                         p4: seq<ActivityItem>, p5: seq<ActivityItem>, p6: seq<ActivityItem>)
    requires log == Scenario()
    requires p1 == log[..1] && p2 == log[..2] && p3 == log[..3] && p4 == log[..4] && p5 == log[..5] && p6 == log[..6]
    requires p1[..0] == [] && p2[..1] == p1 && p3[..2] == p2 && p4[..3] == p3
    requires p5[..4] == p4 && p6[..5] == p5 && log[..6] == p6
    ensures TouchedPrs(log, "B") == {Int(1), Int(2)}
  {
    assert TouchedPrs(p1, "B") == {} && TouchedPrs(p2, "B") == {} && TouchedPrs(p3, "B") == {};
    assert TouchedPrs(p4, "B") == {Int(1)};
    assert TouchedPrs(p5, "B") == {Int(1), Int(2)};
    assert TouchedPrs(p6, "B") == {Int(1), Int(2)};
  }

  lemma ScenarioRowsAre(breadthWeight: real, depthDiminishingFactor: real, computeScore: Score)
    ensures var rows := UserRows(Scenario(), 3, breadthWeight, depthDiminishingFactor, computeScore);
            && |rows| == 2
            && rows[0] == RowOf("A", Tally(2, 0, 0, {}), 3, breadthWeight, depthDiminishingFactor, computeScore)
            && rows[1] == RowOf("B", Tally(1, 2, 2, {Int(1), Int(2)}), 3, breadthWeight, depthDiminishingFactor, computeScore)
  {
    ScenarioOrder();
    ScenarioA();
    ScenarioB();
  }

  /**
   * B created one of the three pull requests, so `othersPRs` is 2: four engagements and two
   * touched pull requests give depth 2 and breadth 1. A engaged with nothing: depth and
   * breadth 0 against the one pull request of others.
   */
  lemma ScenarioRows(breadthWeight: real, depthDiminishingFactor: real, computeScore: Score)
    ensures TotalPrs([PRCreator("A", 1), PRCreator("A", 2), PRCreator("B", 3)]) == 3
    ensures FirstSeen(Scenario()) == ["A", "B"]
    ensures Summary(Scenario(), "B") == Tally(1, 2, 2, {Int(1), Int(2)})
    ensures var rows := UserRows(Scenario(), 3, breadthWeight, depthDiminishingFactor, computeScore);
            && |rows| == 2
            && rows[0].depth == 0.0 && rows[0].breadth == 0.0
            && rows[1].depth == 2.0 && rows[1].breadth == 1.0
  {
    ScenarioTotalPrs();
    ScenarioOrder();
    ScenarioB();
    ScenarioRowsAre(breadthWeight, depthDiminishingFactor, computeScore);
    var a := RowOf("A", Tally(2, 0, 0, {}), 3, breadthWeight, depthDiminishingFactor, computeScore);
    var b := RowOf("B", Tally(1, 2, 2, {Int(1), Int(2)}), 3, breadthWeight, depthDiminishingFactor, computeScore);
    assert |{Int(1), Int(2)}| == 2;
    assert a.depth * 1.0 == 0.0 && a.breadth * 1.0 == 0.0;
    assert b.depth * 2.0 == 4.0 && b.breadth * 2.0 == 2.0;
  }

  /**
   * Breadth is not bounded by 1: comments on issues that are not pull requests of the
   * window have no recorded author, so they count as touched pull requests of others.
   */
  lemma BreadthCanExceedOne(breadthWeight: real, depthDiminishingFactor: real, computeScore: Score)
    ensures var log := [ActivityItem("C", Comments, 1, Int(5), Some(1), None), ActivityItem("C", Comments, 1, Int(6), Some(2), None)];
            UserRows(log, 1, breadthWeight, depthDiminishingFactor, computeScore)[0].breadth == 2.0
  {
    var log := [ActivityItem("C", Comments, 1, Int(5), Some(1), None), ActivityItem("C", Comments, 1, Int(6), Some(2), None)];
    var p1 := log[..1];
    assert p1[..0] == [] && log[..1] == p1;
    assert CreatedCount(p1, "C") == 0;
    assert CommentTotal(p1, "C") == 1;
    assert ApprovalTotal(p1, "C") == 0;
    assert TouchedPrs(p1, "C") == {Int(5)};
    assert Summary(p1, "C") == Tally(0, 1, 0, {Int(5)});
    assert FirstSeen(log) == ["C"];
    assert Summary(log, "C") == Tally(0, 2, 0, {Int(5), Int(6)});
  }

  // The summary report.

  /** `new Set(prCreators.map(pc => pc.prNumber))` */
  function Numbers(creators: seq<PRCreator>): (r: set<nat>)
    ensures forall n :: n in r <==> exists k :: 0 <= k < |creators| && creators[k].prNumber == n
  {
    if creators == [] then {}
    else
      var init := creators[..|creators| - 1];
      assert forall k :: 0 <= k < |init| ==> init[k] == creators[k];
      Numbers(init) + {creators[|creators| - 1].prNumber}
  }

  /** `totalPrs`: the number of distinct pull-request numbers among the creators. */
  function TotalPrs(creators: seq<PRCreator>): nat {
    |Numbers(creators)|
  }

  predicate DistinctNumbers(creators: seq<PRCreator>) {
    forall i, j :: 0 <= i < j < |creators| ==> creators[i].prNumber != creators[j].prNumber
  }

  /** Appending an entry keeps the numbers distinct exactly when its number is new. */
  lemma DistinctSnoc(init: seq<PRCreator>, x: PRCreator)
    ensures DistinctNumbers(init + [x]) <==> DistinctNumbers(init) && x.prNumber !in Numbers(init)
  {
    var cs := init + [x];
    assert forall k :: 0 <= k < |init| ==> cs[k] == init[k];
    if x.prNumber in Numbers(init) {
      var k :| 0 <= k < |init| && init[k].prNumber == x.prNumber;
      assert cs[k].prNumber == cs[|init|].prNumber;
    }
  }

  /** `totalPrs` never exceeds the number of creator entries, and equals it exactly when their numbers are distinct. */
  lemma {:induction false} TotalPrsCounts(creators: seq<PRCreator>)
    ensures TotalPrs(creators) <= |creators|
    ensures TotalPrs(creators) == |creators| <==> DistinctNumbers(creators)
  {
    if creators != [] {
      var init := creators[..|creators| - 1];
      var x := creators[|creators| - 1];
      assert creators == init + [x];
      TotalPrsCounts(init);
      DistinctSnoc(init, x);
      assert Numbers(creators) == Numbers(init) + {x.prNumber};
    }
  }

  predicate NonIncreasing(rows: seq<UserRow>) {
    forall p, q :: 0 <= p < q < |rows| ==> rows[p].combinedScore >= rows[q].combinedScore
  }

  /** The rows before `i` are in order, highest score first. */
  predicate SortedBefore(s: seq<UserRow>, i: nat) {
    forall p, q :: 0 <= p < q < i && q < |s| ==> s[p].combinedScore >= s[q].combinedScore
  }

  /**
   * Midway through one insertion step: the row that started at `i` now sits at `j`, is
   * scored above every row after it up to `i`, and the other rows up to `i` are in order.
   */
  predicate Displaced(s: seq<UserRow>, i: nat, j: nat)
    requires j <= i < |s|
  {
    && (forall p, q :: 0 <= p < q <= i && p != j && q != j ==> s[p].combinedScore >= s[q].combinedScore)
    && (forall q :: j < q <= i ==> s[j].combinedScore > s[q].combinedScore)
  }

  /** Exchanging the displaced row with a lower-scored predecessor moves it one place down. */
  lemma DisplacedSwap(s: seq<UserRow>, i: nat, j: nat)
    requires 0 < j <= i < |s| && Displaced(s, i, j) && s[j - 1].combinedScore < s[j].combinedScore
    ensures Displaced(s[j - 1 := s[j]][j := s[j - 1]], i, j - 1)
  {
    var t := s[j - 1 := s[j]][j := s[j - 1]];
    forall p, q | 0 <= p < q <= i && p != j - 1 && q != j - 1
      ensures t[p].combinedScore >= t[q].combinedScore
    {
      if p == j {
        assert t[p] == s[j - 1];
      } else if q == j {
        assert t[q] == s[j - 1];
        assert s[p].combinedScore >= s[j - 1].combinedScore;
      }
    }
  }

  /** Once the predecessor is scored at least as high, or there is none, the first `i + 1` rows are in order. */
  lemma DisplacedSettled(s: seq<UserRow>, i: nat, j: nat)
    requires j <= i < |s| && Displaced(s, i, j)
    requires j == 0 || s[j - 1].combinedScore >= s[j].combinedScore
    ensures SortedBefore(s, i + 1)
  {
    forall p, q | 0 <= p < q < i + 1
      ensures s[p].combinedScore >= s[q].combinedScore
    {
      if q == j && p < j - 1 {
        assert s[p].combinedScore >= s[j - 1].combinedScore;
      }
    }
  }

  /** One insertion step: the row at `i` moves down past every lower-scored row before it. */
  method InsertAt(a: array<UserRow>, i: nat)
    requires 0 < i < a.Length && SortedBefore(a[..], i)
    modifies a
    ensures SortedBefore(a[..], i + 1)
    ensures a[i + 1..] == old(a[i + 1..])
    ensures multiset(a[..i + 1]) == multiset(old(a[..i + 1]))
    ensures multiset(a[..]) == multiset(old(a[..]))
  {
    var j := i;
    while j > 0 && a[j - 1].combinedScore < a[j].combinedScore
      invariant 0 <= j <= i
      invariant Displaced(a[..], i, j)
      invariant forall k :: i < k < a.Length ==> a[k] == old(a[k])
      invariant multiset(a[..]) == multiset(old(a[..]))
    {
      DisplacedSwap(a[..], i, j);
      SwapDown(a, j);
      j := j - 1;
    }
    DisplacedSettled(a[..], i, j);
    assert a[i + 1..] == old(a[i + 1..]);
    PrefixMultiset(a[..], old(a[..]), i + 1);
  }

  /** Two rearrangements of the same rows that agree after `n` hold the same rows before it. */
  lemma PrefixMultiset(s: seq<UserRow>, t: seq<UserRow>, n: nat)
    requires n <= |s| == |t| && s[n..] == t[n..] && multiset(s) == multiset(t)
    ensures multiset(s[..n]) == multiset(t[..n])
  {
    assert s == s[..n] + s[n..];
    assert t == t[..n] + t[n..];
    assert multiset(s[..n]) == multiset(s) - multiset(s[n..]);
  }

  /** Exchanges the rows at `j - 1` and `j`. */
  method SwapDown(a: array<UserRow>, j: nat)
    requires 0 < j < a.Length
    modifies a
    ensures a[..] == old(a[..])[j - 1 := old(a[j])][j := old(a[j - 1])]
    ensures forall k :: 0 <= k < a.Length && k != j - 1 && k != j ==> a[k] == old(a[k])
    ensures multiset(a[..]) == multiset(old(a[..]))
  {
    a[j - 1], a[j] := a[j], a[j - 1];
  }

  /** `userData.sort((a, b) => b.combinedScore - a.combinedScore)`, in place. */
  method SortByScore(a: array<UserRow>)
    modifies a
    ensures NonIncreasing(a[..])
    ensures multiset(a[..]) == multiset(old(a[..]))
  {
    var i := 1;
    while i < a.Length
      invariant a.Length == 0 || 1 <= i <= a.Length
      invariant SortedBefore(a[..], i)
      invariant multiset(a[..]) == multiset(old(a[..]))
    {
      InsertAt(a, i);
      i := i + 1;
    }
  }

  /**
   * The rows of `generateSummaryReport`, before rendering: the rows of `processUserData`
   * for `totalPrs` distinct pull requests, reordered by combined score, highest first.
   */
  method GenerateSummaryReport(data: Processor.ProcessedData, breadthWeight: real, depthDiminishingFactor: real, computeScore: Score)
    returns (rows: seq<UserRow>)
    ensures NonIncreasing(rows)
    ensures multiset(rows) == multiset(UserRows(data.activityData, TotalPrs(data.prCreators), breadthWeight, depthDiminishingFactor, computeScore))
  {
    var totalPrs := TotalPrs(data.prCreators);
    var userData := ProcessUserData(data.activityData, totalPrs, breadthWeight, depthDiminishingFactor, computeScore);
    var a := new UserRow[|userData|](k requires 0 <= k < |userData| => userData[k]);
    assert a[..] == userData;
    SortByScore(a);
    rows := a[..];
  }
}
