# Roxonn website: subscription lifecycle and contribution rules in Dafny

This project models the server-side core of the Roxonn marketing website and proves
properties of the model.

- **Subscription lifecycle.** `SubscriptionService` keeps a subscriber table keyed by
  email. `subscribe` does a conditional insert of a pending record and then mails a
  confirmation link. `confirm(token)` marks the record holding that confirmation token
  as confirmed. `unsubscribe(token)` deletes the record holding that unsubscribe token.
  The class `Subscriptions.SubscriptionService` holds the table as a `map` field and the
  accepted confirmation mails as a `seq` field. Each method is proved against a
  specification function over tables (`SubscribeSpec`, `ConfirmSpec`, `UnsubscribeSpec`).
  Lemmas about those functions cover the lifecycle: uniqueness of emails, frames,
  repeated confirmation, terminality of unsubscribe, and the full round trip.
- **HTTP handlers.** `POST /api/subscribe`, `GET /api/subscribe/confirm` and
  `GET /api/subscribe/unsubscribe` are pure functions. Each takes the request field and
  the outcome of the service call and returns the status, `success` flag and message
  (the `Http.Response` the three handlers share).
  A `ServiceCall` function gives the arguments the handler passes to the service, or
  None when it does not call it.
- **Contribution rules.** These turn a pull request into a contribution: its type,
  complexity, status and reward. The project-card mapping of the organisation's
  repositories is also modelled, and so is the type/search filter of the contribution
  list.
- **Error and environment helpers.** `AppError` with its defaults, `handleError`, the
  error factories, `validateEnv` and `getEnvVar`.

The reward tables and helpers in `lib/services/github.ts:34-122` are textual copies of
`lib/github.ts:19-98`: the tables at 34-45 repeat 19-30, and the helpers at 55-122 repeat 32-98. The module `Contributions` models them once and serves both files.
Shared helpers live in `Wrappers` (Option), `Sequences` (order-preserving `Filter`,
subsequence) and `Strings` (ASCII lower-casing, `includes`, `join`/`split`, decimal
rendering).

Every source path below is relative to the repository root.

## Model

| member | source | states |
|---|---|---|
| `Subscriptions.SubscribeSpec` | lib/services/subscription-service.ts:9-33 | An email already in the table fails with the conditional-check error: the table is unchanged and no mail is sent. A new email adds exactly one key. That record is pending, has `createdAt == updatedAt`, both tokens and the given consent. Every other record is unchanged. One confirmation mail goes out only after the insert. A mail failure is returned but the pending record stays. |
| `Subscriptions.Holder` | lib/services/subscription-service.ts:36-48 | The token scan: a result names a record holding the token, and there is no result exactly when no record holds it. |
| `Subscriptions.HolderUnique` | lib/services/subscription-service.ts:44-48 | In a well-formed table the scan's first item is the only record holding the token. |
| `Subscriptions.ConfirmSpec` | lib/services/subscription-service.ts:35-61 | Fails with "Invalid confirmation token" and leaves the table unchanged exactly when no record holds the token. Otherwise the holder's record gets `confirmed = true` and `updatedAt = now`. No mail is sent. |
| `Subscriptions.UnsubscribeSpec` | lib/services/subscription-service.ts:63-84 | Fails with "Invalid unsubscribe token" and leaves the table unchanged exactly when no record holds the token. Otherwise the holder's key is deleted. |
| `Subscriptions.LinkTokenRoundTrip` | lib/services/subscription-service.ts:87 | The link `<base>/api/subscribe/confirm?token=<token>` yields exactly the token back. |
| `Subscriptions.SubscribePreservesWellFormed` | lib/services/subscription-service.ts:10-30 | With fresh tokens, subscribe keeps the invariant: every key is its record's email, and no two records share a token of the same kind. |
| `Subscriptions.ConfirmPreservesWellFormed` | lib/services/subscription-service.ts:50-60 | Confirm keeps the table invariant. |
| `Subscriptions.UnsubscribePreservesWellFormed` | lib/services/subscription-service.ts:78-83 | Unsubscribe keeps the table invariant. |
| `Subscriptions.ConfirmChangesHolderOnly` | lib/services/subscription-service.ts:48-60 | With a matching token, confirm succeeds and changes only that email's record, and in it only `confirmed` and `updatedAt`. Tokens, `createdAt`, consent and all other records are unchanged. |
| `Subscriptions.UnsubscribeRemovesHolderOnly` | lib/services/subscription-service.ts:76-83 | With a matching token, unsubscribe succeeds whether the record is confirmed or not. It removes exactly that key and keeps every other record as it was. |
| `Subscriptions.ConfirmTwice` | lib/services/subscription-service.ts:50-60 | The token is not cleared: a second confirm with the same token also succeeds. It changes only `updatedAt`, and the record stays confirmed. |
| `Subscriptions.SubscribeTwice` | lib/services/subscription-service.ts:24-30 | A second subscribe of the same email fails with the conditional-check error and sends nothing. The first record is left exactly as stored. |
| `Subscriptions.ConfirmedIsStable` | lib/services/subscription-service.ts:50-83 | A confirmed record that survives a confirm or an unsubscribe is still confirmed. |
| `Subscriptions.UnsubscribeIsTerminal` | lib/services/subscription-service.ts:63-83 | After an unsubscribe, the removed record's confirmation token fails with "Invalid confirmation token" and changes nothing. |
| `Subscriptions.Lifecycle` | lib/services/subscription-service.ts:9-84 | Take a new email and fresh tokens. Subscribe leaves it pending, whether or not the mail goes out. Confirm with its token then makes it confirmed. Unsubscribe with its token succeeds and the table is exactly what it was before subscribe. |
| `Subscriptions.SubscriptionService.Scan` | lib/services/subscription-service.ts:36-48 | A loop over the table: it returns a stored item holding the token, or nothing exactly when no record holds it. |
| `Subscriptions.SubscriptionService.Subscribe` | lib/services/subscription-service.ts:9-33 | The new table is `SubscribeSpec`'s table and the outcome is its outcome. The outbox grows by the mails sent, and the invariant is kept. |
| `Subscriptions.SubscriptionService.SendConfirmationEmail` | lib/services/subscription-service.ts:86-110 | Appends one mail carrying the confirm link, unless the transport fails. On failure it returns the transport's error and appends nothing. |
| `Subscriptions.SubscriptionService.Confirm` | lib/services/subscription-service.ts:35-61 | The new table and outcome are those of `ConfirmSpec`, and the invariant is kept. |
| `Subscriptions.SubscriptionService.Unsubscribe` | lib/services/subscription-service.ts:63-84 | The new table and outcome are those of `UnsubscribeSpec`, and the invariant is kept. |
| `SubscribeRoute.ServiceCall` | app/api/subscribe/route.ts:9-16 | `subscribe(email, true)` is called exactly when the body has a non-empty email and `gdprConsent` is true. Otherwise the service is never called. |
| `SubscribeRoute.Post` | app/api/subscribe/route.ts:5-32 | `success` holds exactly when the service was called and completed, giving status 200 with the check-your-email message. Invalid input gives 400 "Email and GDPR consent are required". A conditional-check failure gives 400 "This email is already subscribed". An unreadable body or any other failure gives 500 "Subscription failed". |
| `SubscribeRoute.PostOverService` | app/api/subscribe/route.ts:16-30 | For a valid body, success holds exactly when the email is new and the mail went out. The answer is "already subscribed" exactly when the email is already stored. A mail failure gives 500. |
| `SubscribeRoute.MailFailureThenRetry` | app/api/subscribe/route.ts:16-30 | A mail failure answers 500 but leaves a pending record. Posting the same email again is answered with 400 "already subscribed". |
| `ConfirmRoute.ServiceCall` | app/api/subscribe/confirm/route.ts:7-16 | `confirm` is called exactly when the token parameter is present and non-empty, and then with exactly that token. |
| `ConfirmRoute.Get` | app/api/subscribe/confirm/route.ts:4-25 | A missing or empty token gives 400 "Confirmation token is required". Success gives 200 "Your subscription has been confirmed". Any failure of `confirm` gives 500 "Confirmation failed". `success` holds exactly when `confirm` was called and completed. |
| `ConfirmRoute.GetOverService` | app/api/subscribe/confirm/route.ts:16-24 | A present token succeeds exactly when some record holds it. An invalid token and any other failure read the same 500. |
| `ConfirmRoute.EmailedLinkConfirms` | app/api/subscribe/confirm/route.ts:6-21 | The token in the emailed link is the stored confirmation token. The handler answers 200 for it, and the new record becomes confirmed. |
| `UnsubscribeRoute.ServiceCall` | app/api/subscribe/unsubscribe/route.ts:7-16 | `unsubscribe` is called exactly when the token is present and non-empty, and then with exactly that token. |
| `UnsubscribeRoute.Get` | app/api/subscribe/unsubscribe/route.ts:4-25 | A missing or empty token gives 400 "Unsubscribe token is required". Success gives 200 "You have been successfully unsubscribed". Any failure gives 500 "Unsubscribe failed". `success` holds exactly when the call completed. |
| `UnsubscribeRoute.GetOverService` | app/api/subscribe/unsubscribe/route.ts:16-24 | A present token succeeds exactly when some record holds it, and then exactly that key is removed. A failure answers 500 and leaves the table unchanged. |
| `Contributions.ContributionTypeOf` | lib/github.ts:62-69 | The type is bug exactly when a lower-cased label is "bug" or the lower-cased title includes "fix". Otherwise it is docs ("documentation" label or "docs" in the title), then refactor, and feature when no signal fires. |
| `Contributions.TypeIgnoresCase` | lib/github.ts:63-67 | Lower-casing the title and the labels beforehand does not change the type. |
| `Contributions.BugSignalWins` | lib/github.ts:65 | A title mentioning "fix" is a bug whatever the labels. Adding a "Bug" label makes any pull a bug. |
| `Contributions.MetricsOf` | lib/github.ts:92-98 | A missing additions, deletions or changed-files count reads as 0. |
| `Contributions.ComplexityOf` | lib/github.ts:71-77 | Hard exactly when more than 10 files changed or more than 500 lines. Easy exactly when at most 5 files and at most 200 lines. Medium otherwise. |
| `Contributions.ComplexityMonotone` | lib/github.ts:74-75 | Raising any metric never lowers the complexity. |
| `Contributions.NoMetricsIsEasy` | lib/github.ts:94-96 | A pull with no metrics is easy. |
| `Contributions.StatusOf` | lib/github.ts:79-83 | Approved exactly when `merged_at` is non-empty, whatever the state. Rejected exactly when it is unmerged and "closed". Pending otherwise. |
| `Contributions.Reward` | lib/github.ts:19-30 | The reward is the base reward times the complexity multiplier, and lies in [200, 3000]. |
| `Contributions.RewardExtremes` | lib/services/github.ts:35-46 | Both ends of the range are reached: easy docs gives 200 and a hard feature gives 3000. |
| `Contributions.RewardMonotone` | lib/services/github.ts:79-84 | For a fixed type, a higher complexity never earns less. |
| `Contributions.PullReward` | lib/github.ts:85-90 | A pull's reward lies in [200, 3000]. |
| `Contributions.ContributionOf` | lib/github.ts:49-59 | Number, title, URL and timestamps are copied unchanged. The type, complexity and status are those the classifiers give for the pull. The reward is the base reward for that type times the multiplier for that complexity, within [200, 3000]. Approved exactly when merged. |
| `Contributions.ContributionsOf` | lib/services/github.ts:112-122 | One contribution per pull, in order, with number, title and URL copied and a reward in [200, 3000]. |
| `OrgProjects.ContributorsCount` | lib/services/github.ts:150-167 | The count is 0 when listing contributors fails. Otherwise it is the length of the one-entry first page: 0 for a repository without contributors and 1 otherwise. |
| `OrgProjects.ImageFor` | lib/services/github.ts:176 | The `PROJECT_IMAGES` entry for the repo name when there is one, otherwise the default image. Never empty. |
| `OrgProjects.SummaryOf` | lib/services/github.ts:175 | The description, or "<name> - Open source project by Roxonn FutureTech" when it is missing or empty. |
| `OrgProjects.ProjectOf` | lib/services/github.ts:172-193 | Name and link are copied. The type is "Open Source" and the reward "5000 ROXN". Summary and image are as `SummaryOf` and `ImageFor` give them. The features are exactly, in order: GitPullRequest "Active Development", Users "<count> Contributors" and Coins "Token Rewards". |
| `OrgProjects.ContributorsTextReadsBack` | lib/services/github.ts:184 | Any count rendered as "<n> Contributors" reads back as n. In particular, the number in the contributors feature reads back as the contributor count. |
| `OrgProjects.OrganizationProjects` | lib/services/github.ts:146-193 | One project per kept repo, in order. No project is named ".github". |
| `OrgProjects.EveryListedRepoShown` | lib/services/github.ts:146 | Every repo not named ".github" has its project in the list. The kept repos are an order-preserving subsequence. |
| `ContributionList.FilteredContributions` | components/contributions/contribution-list.tsx:43-48 | An order-preserving subsequence. It keeps every occurrence of a contribution that passes both the type filter and the case-insensitive title search, and no other. |
| `ContributionList.ShownIff` | components/contributions/contribution-list.tsx:43-48 | A contribution is shown exactly when it is in the list and passes both filters. |
| `ContributionList.ShownHaveFilterType` | components/contributions/contribution-list.tsx:46 | With a filter other than "all", every shown contribution has that type. |
| `ContributionList.EmptySearchKeepsTypeMatches` | components/contributions/contribution-list.tsx:44-48 | An empty search keeps everything that passes the type filter. "all" with an empty search shows the whole list. |
| `ErrorHandling.NewAppError` | lib/error-handling.ts:11-21 | The message is kept. An omitted code, status or operational flag defaults to "INTERNAL_ERROR", 500 and true. Given ones are kept. |
| `ErrorHandling.HandleError` | lib/error-handling.ts:26-39 | An `AppError` is returned unchanged. Another `Error` becomes an `AppError` with its message, "INTERNAL_ERROR" and 500. Anything else becomes "An unknown error occurred". |
| `ErrorHandling.HandleErrorIdempotent` | lib/error-handling.ts:27-30 | Handling an already handled error changes nothing. |
| `ErrorHandling.HandleErrorDropsCodes` | lib/error-handling.ts:32-35 | The `code` and `statusCode` of an ordinary error are discarded and replaced by "INTERNAL_ERROR" and 500. |
| `ErrorHandling.CreateHttpError` | lib/error-handling.ts:54-56 | The given status and message are kept. The code is the given one, or "INTERNAL_ERROR" when none is given. |
| `ErrorHandling.CreateNotFoundError` | lib/error-handling.ts:59-61 | 404 with "NOT_FOUND", and "Resource not found" when no message is given. |
| `ErrorHandling.CreateValidationError` | lib/error-handling.ts:63-65 | 400 with "VALIDATION_ERROR" and the given message. |
| `ErrorHandling.CreateUnauthorizedError` | lib/error-handling.ts:67-69 | 401 with "UNAUTHORIZED", and "Unauthorized" by default. |
| `ErrorHandling.CreateForbiddenError` | lib/error-handling.ts:71-73 | 403 with "FORBIDDEN", and "Forbidden" by default. |
| `ErrorHandling.CreateRateLimitError` | lib/error-handling.ts:75-77 | 429 with "RATE_LIMITED", and "Too many requests" by default. |
| `ErrorHandling.FactoriesAreConsistent` | lib/error-handling.ts:45-77 | Each factory pairs its code with one fixed status, and so does `handleError` on non-`AppError` input. No two codes share a status. `createHttpError` without a code fits this pairing only for 500. |
| `Env.MissingVars` | lib/env.ts:7 | A name is listed exactly when it is required and unset or empty. The list is an order-preserving subsequence of the required names. |
| `Env.Validate` | lib/env.ts:6-16 | Fails exactly when some required variable is unset or empty, and then carries the missing-variables message. Otherwise it returns normally. |
| `Env.ValidateEnv` | lib/env.ts:1-16 | Passes exactly when `NEXT_PUBLIC_SITE_URL` is set and non-empty. |
| `Env.MissingMessageLines` | lib/env.ts:10-14 | The message's lines are the header, then one "- NAME" line per missing variable in order, then an empty line and the hint. |
| `Env.GetEnvVar` | lib/env.ts:18-24 | Returns the value exactly when it is set and non-empty. Otherwise it fails with "Missing required environment variable: NAME"; an empty string counts as missing. |
| `Env.ValidatedVarsAreReadable` | lib/env.ts:6-24 | Once `validateEnv` passes, `getEnvVar` succeeds for every required name. |

## Left out

- DynamoDB and SES clients (`lib/aws-config.ts`, the `put`/`scan`/`update`/`delete` and `sendEmail` calls): not modelled as clients. The table is a `map` field, and the mail transport is an outbox plus an optional failure passed in. The HTML body and sender address are not modelled; only the recipient, subject and confirm link are.
- Storage failures (store unreachable, throttling) are not produced by the modelled service. The route functions still accept any failure outcome, and they map every failure other than the conditional-check one to 500.
- `crypto.randomBytes` and `new Date().toISOString()`: the tokens and timestamps are method parameters. Token uniqueness is a precondition (`FreshToken`), not a consequence of entropy.
- `SubscriptionService.Scan`: models a scan that sees the whole table. The source reads only the first page of a DynamoDB scan, so a token stored beyond it would be reported invalid.
- `update` on a key that does not exist would create a partial item. This cannot happen under the table invariant, because the key comes from a stored item.
- Concurrency: the conditional put's atomicity across instances and confirm/unsubscribe races are out; the model is sequential.
- `NEXT_PUBLIC_BASE_URL`: passed in as `baseUrl`. The source would print "undefined" when it is unset.
- URL parsing in the confirm and unsubscribe handlers (`new URL`, `searchParams.get`, percent-decoding): the handlers take the decoded `token` parameter.
- Request bodies whose `email` or `gdprConsent` have other JSON types: the model has an optional string and an optional boolean. A body that is not JSON, or is JSON `null`, is `Unreadable` and answers 500. Any other non-object JSON value (a number, a string, a boolean, an array) has no `email` field, is `Body(None, None)` and answers 400.
- `toLowerCase` is modelled for ASCII letters only, with no Unicode case mapping.
- JavaScript number semantics (floating point, `NaN` counting as falsy in `|| 0`) are out: metrics are integers and only a missing value defaults to 0.
- `fetchContributions`, `getOrganizationProjects`, the octokit calls, `Promise.all` and the `!response.ok` error are network plumbing. Only the mapping applied to fetched data is modelled. The contributor listing's result is an input.
- `OrgProjects.ImageFor`: looks up own entries of `PROJECT_IMAGES` only. Inherited object keys such as "constructor" are not modelled.
- `loadContributions` and the React state and rendering in `contribution-list.tsx` are UI and are out.
- `AppError.name`, `Error.captureStackTrace` and the `console.error` logging in `handleError` are out.
- `getEnvVar`'s parameter type restricts names to `requiredEnvVars` at compile time. The model accepts any name.
- Token contract reads (`lib/roxn-contract.ts`, `lib/contracts/roxn-contract.ts`), UI sections, theming, the GDPR banner, error boundaries, Sentry and monitoring are outside this model.
