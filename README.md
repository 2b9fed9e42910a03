# PR engagement metrics — a verified model of the collector, processor and reporter

The system measures how much each contributor engages with other people's pull requests
in one GitHub repository. The core modelled here does three jobs.

- **Collecting** (`src/github.ts`).
  - It pages through the REST API by following `Link: rel="next"` headers.
  - It folds the `x-ratelimit-*` headers into a shared budget, waits when the budget runs low, and retries after a 429.
  - It stops listing pull requests early once a page reaches pull requests older than the window.
  - It filters the pull requests to the window, splits them into batches of five, and stages reviews and review comments per pull request under `reviews_<n>.json` and `pr_comments_<n>.json`.
- **Processing** (`src/processor.ts`). Five streams become one activity log, in this order:
  1. pull requests created;
  2. pull requests merged;
  3. reviews;
  4. review comments;
  5. issue comments.

  Bot accounts are dropped. Review states map to `approvals` or `reviews`. Every review and comment looks up the pull request's author in a `prNumber → login` index.
- **Reporting** (`src/reporter.ts`).
  - It counts per user: pull requests created, comments, approvals, and the distinct pull requests engaged with. A comment on one's own pull request is not counted.
  - It computes depth and breadth against the pull requests of others, with a guard against a zero denominator.
  - It truncates display names to 20 characters.
  - It counts the distinct pull requests and sorts the rows by score, highest first.

The remote service is a script of exchanges (`Paginator.Exchange`), one per request. Each exchange carries:
- the clock reading taken by the throttle guard;
- the reply: a status, headers, a raw body and the outcome of parsing that body, or a transport error;
- the clock reading when the response ends.

Sleeps are recorded as `Wait` events and requests as `Call` events. The staged files are
in-memory values (`Processor.StagedData`). JavaScript built-ins are modelled in `JsString`:
- `trim`;
- `split` on one character;
- `slice(1, -1)`;
- `startsWith`;
- `includes`;
- `replace` with a string pattern (first occurrence only);
- `parseInt`, with and without radix 10;
- `String(n)`.

Dafny's `int` stands in for timestamps (milliseconds), counts and pull-request numbers, and `real` for depth and breadth.

Four places where the code does something other than what a reader might expect. The model follows the code in each:

- **A 429 on the first request ends the run with no data.** `continue` inside
  `do … while (nextPage)` jumps to the condition, and before the first page `nextPage` is
  null. Only pages after the first are retried (`Paginator.FirstThrottledEndsRun`,
  `Paginator.RetriesThrottledPageOnce`).
- **The retry test reads the error message.** Any rejection whose message contains
  `status code 429` is retried. That includes a 500 whose body contains that text (`Request.BodyCanTriggerRetry`).
- **Breadth can exceed 1.** Issue comments on issues that are not pull requests of the
  window have no recorded author, so they count as touched pull requests of others
  (`Reporter.BreadthCanExceedOne`).
- **A user's own pull requests are excluded from `othersPRs`.** With pull requests 1 and 2 opened by A and 3 by B, and B approving and commenting on 1 and 2, `othersPRs` for B is 2. Depth is then 4/2 and breadth 2/2 (`Reporter.ScenarioRows`).

## Model

| member | source | states |
|---|---|---|
| LinkHeader.ExtractNextPageUrl | src/github.ts:100-114 | The loop with early return gives the value of the reference scan `NextPageUrl`; an absent or empty header gives null. |
| LinkHeader.FirstNextMeaning | src/github.ts:105-113 | The scan returns the bracket-stripped URL of the first entry whose trimmed `rel` is `rel="next"` when every earlier entry has a `rel` part. It throws the `rel.trim()` TypeError exactly when an entry without `;` is reached first. It returns null exactly when every entry passes. |
| LinkHeader.FirstNextFinds | src/github.ts:106-110 | An entry naming the next page, reached past entries with other relations, decides the result. |
| LinkHeader.FirstNextThrowsAt | src/github.ts:107-108 | An entry without `;`, reached past entries with other relations, makes the scan throw. |
| LinkHeader.FirstNextThrowWitness | src/github.ts:107-108 | When the scan throws, an entry without `;` is reached. |
| LinkHeader.FirstNextNone | src/github.ts:106-113 | The scan finds nothing exactly when every entry has a `rel` part other than `next`. |
| LinkHeader.PiecesScan | src/github.ts:105-113 | Over the entries of a header written as `<url>; rel="name"`, the scan yields the first link whose relation is `next`. |
| LinkHeader.ReadFormattedHeader | src/github.ts:100-113 | A round trip: a header written from links without `,` or `;` reads back as the URL of the first `next` link, or null. |
| RateLimit.RateLimitInfo.constructor | src/github.ts:16-20 | The budget starts at 5000 remaining, reset time 0, last checked 0. |
| RateLimit.RateLimitInfo.Observe | src/github.ts:54-65 | The new budget is the header fold of the old one. A numeric remaining header replaces `remaining`. A numeric reset header replaces `resetTime`, converted from seconds to milliseconds. `lastChecked` becomes the response's end time. |
| RateLimit.ObservedStoresHeaders | src/github.ts:54-62 | Decimal headers are stored, the reset time multiplied by 1000. |
| RateLimit.AbsentHeadersKeepBudget | src/github.ts:54-65 | Absent headers parse as NaN and keep `remaining` and `resetTime`; only `lastChecked` moves. |
| RateLimit.UndefinedIsNaN | src/github.ts:54-55 | An absent header, read by `parseInt` as the text "undefined", is NaN. |
| RateLimit.NonNumericHeadersKeepBudget | src/github.ts:54-63 | Headers that show no digit after white space and sign keep both fields. |
| RateLimit.ThrottleWait | src/github.ts:133-137 | There is a wait exactly when fewer than 10 requests remain, the reset lies ahead and the reading is under a minute old. The wait then ends one second after the reset and is longer than the 1000 ms floor. |
| Request.MakeGitHubRequest | src/github.ts:52-89 | The result is `Classify(reply)`. A completed response of any status folds its headers into the budget first. A transport error leaves the budget unchanged. |
| Request.ResolvesOnlyOn200 | src/github.ts:67-86 | The promise resolves exactly on a 200 whose body and `Link` header both parse. It then holds the parsed body and the next-page URL. |
| Request.ThrottledIsRetryable | src/github.ts:67-70 | A 429 is rejected with a message that the retry test recognises. |
| Request.OtherStatusCarriesCodeAndBody | src/github.ts:72-75 | Any other non-200 status is rejected with a message that contains the status code and the raw body. |
| Request.BodyCanTriggerRetry | src/github.ts:159 | A non-200, non-429 response whose body contains `status code 429` is retried like a 429. |
| Paginator.Iteration | src/github.ts:131-169 | One pass of the loop body is one step of the reference `Step`. The shared budget afterwards is the one the step reports. |
| Paginator.FetchAllPages | src/github.ts:119-173 | The loop settles exactly as the reference `Pages` does over the script: same outcome, same final budget, same log of waits and requests. |
| Paginator.StepShape | src/github.ts:141-156 | Each iteration makes one request, to the current endpoint with the current parameters. It appends the page's data. A further iteration goes to the page's next link with no parameters, or repeats after a 429. |
| Paginator.StepTurn | src/github.ts:141-170 | The loop goes on exactly after an accepted page with a next link, or after a 429 while a link is held. A rejection other than a 429 is rethrown unchanged. |
| Paginator.PagesConsume | src/github.ts:125-172 | A run uses its first n exchanges, one request each. It follows the next links. The data returned is the concatenation of the resolved pages among them, in order. |
| Paginator.PagesStops | src/github.ts:141-170 | A run that makes n requests went on after each of the first n-1. It stopped after the n-th because a page was rejected by the predicate or had no next link, or a 429 came with no link held, or an error other than a 429 was rethrown with its message. |
| Paginator.FirstThrottledEndsRun | src/github.ts:157-170 | A 429 on the first request resolves the run with no data after that one request. |
| Paginator.StopsOnRejectedSecondPage | src/github.ts:145-148 | When the predicate rejects the second page, the run resolves with the first two pages after two requests, whatever link the second page carries. |
| Paginator.RetriesThrottledPageOnce | src/github.ts:157-170 | A 429 on the second request makes the same link be requested again. The run resolves with page one and the retried page, nothing duplicated. |
| Paginator.RetryThenLastPage | src/github.ts:157-164 | While a link is held, a 429 followed by a last page makes two requests to the same endpoint and appends that page. |
| Collector.ShouldContinuePulls | src/github.ts:253-256 | False on an empty page. Otherwise true exactly when the last pull request's `updated_at` is at or after the start. |
| Collector.ContinueMeansWholePageRecent | src/github.ts:253-256 | On a newest-first page, the listing goes on exactly when the page is non-empty and every pull request on it was updated at or after the start. |
| Collector.UpdatedPulls | src/github.ts:260-263 | A pull request is kept exactly when its update time lies in the window. |
| Collector.UpdatedPullsCount | src/github.ts:260-263 | Each pull request updated in the window is kept as often as it occurs, and no other is kept. |
| Collector.MergedPulls | src/github.ts:275-279 | A pull request is kept exactly when it has a merge time and that time lies in the window. |
| Collector.MergedPullsCount | src/github.ts:275-279 | The merged filter keeps each qualifying pull request as often as it occurs. |
| Collector.MergedWithinUpdated | src/github.ts:260-279 | `mergedPulls` is a sub-multiset of `updatedPulls`; every one of its pull requests was updated and merged in the window. |
| Collector.StopAtOldLosesNothing | src/github.ts:253-263 | In a newest-first listing, nothing after a pull request older than the start lies in the window. |
| Collector.RejectedPageLosesNothing | src/github.ts:243-263 | Stopping when the predicate rejects a non-empty page loses no pull request of the window, and keeps their order. |
| Collector.Batches | src/github.ts:287-288 | The batches concatenate to the pull requests in order. Each holds one to five, all but the last exactly five, and there are ceil(n/5) of them. |
| Staging.FileKeyRoundTrip | src/processor.ts:111-115 | The number the collector wrote into `reviews_<n>.json` or `pr_comments_<n>.json` reads back as n. |
| Staging.IssueKeyRoundTrip | src/processor.ts:186 | An issue URL that ends in `/<n>` reads back as n, whatever precedes it. |
| Staging.TrailingSlashReadsZero | src/processor.ts:186 | An issue URL that ends in `/` falls back to `'0'` and reads as 0. |
| Staging.ZeroTextReadsZero | src/processor.ts:186 | The fallback text `'0'` parses as the number 0. |
| Processor.ProcessedData.constructor | src/processor.ts:10-12 | The log, the creators and the author index start empty. |
| Processor.ProcessedData.ProcessPullRequests | src/processor.ts:39-74 | It appends the created-items stream and the creators, and sets each non-bot pull request's number to its login, later ones overwriting earlier ones. |
| Processor.ProcessedData.ProcessMergedPulls | src/processor.ts:79-96 | It appends the merged-items stream and changes nothing else. |
| Processor.ProcessedData.ProcessReviewFile | src/processor.ts:110-131 | A file whose name starts with `reviews_` appends its non-bot reviews, keyed by the number in the name. Any other file appends nothing. |
| Processor.ProcessedData.PushReviews | src/processor.ts:119-130 | The reviews of one file are appended in order, bots dropped, each keyed by the file's pull-request number with that pull request's author looked up. Nothing else changes. |
| Processor.ProcessedData.ProcessReviews | src/processor.ts:101-132 | It appends the review stream for every staged file, in listing order, and leaves creators and index unchanged. |
| Processor.ProcessedData.ProcessReviewCommentFile | src/processor.ts:146-167 | A file whose name starts with `pr_comments_` appends its non-bot review comments, keyed by the number in the name. |
| Processor.ProcessedData.PushReviewComments | src/processor.ts:155-166 | The review comments of one file are appended in order, bots dropped, each keyed by the file's pull-request number with that pull request's author looked up. Nothing else changes. |
| Processor.ProcessedData.ProcessReviewComments | src/processor.ts:137-168 | It appends the review-comment stream for every staged file, in listing order. |
| Processor.ProcessedData.ProcessComments | src/processor.ts:173-197 | It appends one `comments` item per non-bot comment with an issue URL, keyed by the URL's last segment. |
| Processor.ProcessActivityData | src/processor.ts:9-34 | A fresh record holding the five streams in processing order. Every author lookup uses the index built from all the pull requests. |
| Processor.Humans | src/processor.ts:119-120 | The bot filter keeps exactly the records whose author is not a bot. The same filter is applied to pull requests (lines 49-50), reviews and review comments (lines 155-156). |
| Processor.LinkedComments | src/processor.ts:182-185 | The issue comments credited are exactly those written by a person that carry a non-empty issue URL. |
| Processor.CreatedItemsPerPull | src/processor.ts:49-73 | There is one `pr_created` item per non-bot pull request, in order, and beside it one creator entry with the same login and number. |
| Processor.MergedItemsPerPull | src/processor.ts:84-95 | There is one `pr_merged` item per non-bot merged pull request, in order. |
| Processor.ReviewItemsPerReview | src/processor.ts:119-130 | There is one item per non-bot review, in order. It is `approvals` exactly when the state is `APPROVED`. |
| Processor.ReviewCommentItemsPerComment | src/processor.ts:155-166 | There is one `review_comments` item per non-bot review comment, in order. |
| Processor.IssueCommentItemsPerComment | src/processor.ts:182-196 | There is one `comments` item per non-bot issue comment with an issue URL, in order. |
| Processor.AuthorIndexKeys | src/processor.ts:72 | The index holds exactly the numbers of non-bot pull requests, plus those it started with. Other numbers keep their entry. |
| Processor.LatestAuthorWins | src/processor.ts:72 | Of pull requests sharing a number, the last non-bot one decides the author. |
| Processor.LookupFindsLatestAuthor | src/processor.ts:128 | A lookup of such a number gives that author's login, or null when the login is empty (`|| null`). |
| Processor.LookupMisses | src/processor.ts:128 | A NaN key, or a number that no non-bot pull request carries, finds no author. |
| Processor.StagedReviewsKeyed | src/processor.ts:106-115 | A file named `reviews_<n>.json` is read as the reviews of pull request n. |
| Processor.StagedReviewCommentsKeyed | src/processor.ts:142-151 | A file named `pr_comments_<n>.json` is read as the review comments of pull request n. |
| Processor.IssueCommentKeyed | src/processor.ts:185-186 | A comment whose issue URL ends in `/<n>` is credited to pull request n. |
| Processor.ActivityLogGrouped | src/processor.ts:14-27 | The log is grouped by stream in processing order. Every item counts 1. Only review and comment items carry an item id; only they look up an author. |
| Reporter.CountCreated | src/reporter.ts:173-179 | `prCreatedByUser[u] \|\| 0` is the number of `pr_created` items of u. |
| Reporter.CreatedTallyCounts | src/reporter.ts:173-179 | The fold of `++` over the `pr_created` items counts each user's items. |
| Reporter.TallyUsers | src/reporter.ts:182-216 | `userData` has a record exactly for the users with a counted item. Each record holds the user's created count, comment total, approval total and touched set. The key order is the order in which users were first seen. |
| Reporter.RecordEntry | src/reporter.ts:183-215 | A comment or review comment on the user's own pull request changes nothing. Any other item gives its user a record if they have none, started from their `pr_created` count with zero comments and approvals, and appends the user to the key order. The item is then credited to that record: comments and approvals add their count, and a pull request of someone else joins the touched set. |
| Reporter.TalliesMeaning | src/reporter.ts:182-216 | The records of the `forEach` fold agree with the per-user reference counts. |
| Reporter.NoRowNoCounts | src/reporter.ts:186-215 | A user with no counted item has no comments, no approvals and no touched pull requests. |
| Reporter.FirstSeenRows | src/reporter.ts:191-198 | Each user with a counted item owns exactly one row, and no other user has one. |
| Reporter.ProcessUserData | src/reporter.ts:156-252 | The rows are one per user with a counted item, in first-seen order, each computed from the reference counts. |
| Reporter.RowOf | src/reporter.ts:219-250 | `othersPRs = totalPrs - prCreated`. Depth and breadth are 0 when `othersPRs <= 0`. Otherwise depth × othersPRs = comments + approvals and breadth × othersPRs = number of touched PRs. The score is `computeScore` of those. |
| Reporter.DisplayName | src/reporter.ts:237 | The display name is a prefix of the login of at most 20 characters. It is the whole login when that fits. |
| Reporter.InertItemIgnored | src/reporter.ts:185-215 | A self-comment, or a `reviews`, `pr_created` or `pr_merged` item, changes no comment total, approval total or touched set. A self-comment also creates no row. |
| Reporter.SelfApprovalCounted | src/reporter.ts:208-214 | A self-approval adds to approvals but not to the touched set, and it gives its user a row. |
| Reporter.Numbers | src/reporter.ts:12 | The set holds exactly the numbers of the creator entries. |
| Reporter.TotalPrsCounts | src/reporter.ts:12 | `totalPrs` is at most the number of creator entries, and equal to it exactly when their numbers are distinct. |
| Reporter.InsertAt | src/reporter.ts:35 | One insertion step: afterwards the first i+1 rows are in non-increasing score order and are a rearrangement of the original first i+1 rows. The rows after i are unchanged. |
| Reporter.SortByScore | src/reporter.ts:35 | The in-place sort leaves a permutation of the rows with non-increasing combined score. |
| Reporter.GenerateSummaryReport | src/reporter.ts:10-35 | The report's rows are a permutation of `processUserData`'s rows for `totalPrs` distinct pull requests, ordered by score, highest first. |
| Reporter.ScenarioRows | src/reporter.ts:156-251 | With pull requests 1 and 2 by A and 3 by B, and B approving and commenting on both of A's: `totalPrs` is 3, rows are A then B, B's depth is 2 and breadth 1, and A's depth and breadth are 0. |
| Reporter.BreadthCanExceedOne | src/reporter.ts:205-231 | Two comments on authorless issues against one pull request of others give breadth 2. |

## Left out

- HTTP transport (`https.get`, chunks) and `JSON.parse` are left out; a reply carries its status, headers, body and parse outcome. URL building from `apiUrl` and the query parameters, and the request headers, are not modelled; a request is recorded as its endpoint and parameters.
- `utils.rateLimitSleep` is not defined in `src/utils.ts`; each sleep is a recorded `Wait` of its duration. `Date.now()`, read three times by the guard, is one clock reading per exchange.
- A finite script can run out before the loop settles; that case is the extra `ScriptEnded` outcome, which the real service never produces.
- Dates are integers (milliseconds); parsing ISO strings with `new Date` is not modelled.
- The file system is not modelled: the staged files are in-memory values, and `readdirSync`'s listing order is whatever order the input gives. `fetchPRReviews`, `fetchPRComments` and `fetchIssueComments` are modelled only through the names they stage under (`Staging.StagedName`) and the loop they run (`Paginator.FetchAllPages`).
- `Promise.all` concurrency inside a batch, and the sequencing of `fetchGitHubData`, are not modelled; the shared budget is a plain object updated by one request at a time.
- The `console.log` when no pull request is in range, the `Failed to fetch GitHub data` rewrapping, and all console, `chalk`, `cli-table3` and `toFixed` rendering are not modelled. `generateDetailedReport` is printing only and is not modelled.
- `computeScore` is a floating-point formula; it is an opaque function parameter, used as the sort key.
- Collector.RejectedPageLosesNothing: proved for a rejected non-empty page only; an empty page also stops the listing, and the model says nothing about what would have followed it.
- Reporter.SortByScore: states a permutation with non-increasing scores, not the stability that the engine's sort keeps for ties.
- `Object.entries` lists integer-like keys (a login such as `123`) before the others; the model lists users in first-seen order.
- A login that names an `Object.prototype` member (`constructor`, `toString`) is an ordinary key in the model; in the code, such a key reads an inherited value.
- JavaScript numbers are modelled as unbounded integers and exact reals. Precision beyond 2^53 and floating-point division are not modelled, and neither are the NaN scores that the sort comparator would meet.
- String lengths count characters, not UTF-16 code units, so `substring(0, 20)` is exact only for text without surrogate pairs.
- Pull-request numbers are natural numbers, as the service assigns them; negative or NaN keys only arise by parsing, and there they are modelled.
- `src/metric.spec.ts`, the CLI, dotenv, validation and exit handling are not part of this model.
