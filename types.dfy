/**
 * The records the core exchanges with the remote service and between its stages.
 * Timestamps are integers (milliseconds since the epoch) in place of ISO strings.
 */
module Types {
  import opened Wrappers
  import opened JsString

  /** The `user` object of a pull request, review or comment; `accountType` is its `type`. */
  datatype User = User(login: string, accountType: string)

  /** A pull request; GitHub numbers them from 1, so `number` is a natural number. */
  datatype PR = PR(number: nat, user: User, createdAt: int, updatedAt: int, mergedAt: Option<int>, draft: bool)

  datatype Review = Review(id: int, user: User, state: string, submittedAt: int)

  /** A review comment or an issue comment; only issue comments carry `issueUrl`. */
  datatype Comment = Comment(id: int, user: User, createdAt: int, issueUrl: Option<string>)

  /** The `type` strings the processor emits: 'pr_created', 'pr_merged', 'approvals', 'reviews', 'review_comments', 'comments'. */
  datatype ActivityType = PrCreated | PrMerged | Approvals | Reviews | ReviewComments | Comments

  /** One normalized event; `itemId` and `prAuthor` are null for the pull-request streams. */
  datatype ActivityItem = ActivityItem(
    user: string,
    activityType: ActivityType,
    count: int,
    prId: Num,
    itemId: Option<int>,
    prAuthor: Option<string>)

  datatype PRCreator = PRCreator(user: string, prNumber: nat)

  /** The bot test every stream applies: `user.type === 'Bot'`. */
  predicate IsBot(u: User) {
    u.accountType == "Bot"
  }
}
