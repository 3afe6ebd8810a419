# Verified models of the platform's protocols and ledgers

A Dafny model of the parts of the platform whose correctness depends on more than one
function: the silent token refresh of the browser together with the auth service's token
rotation, the sliding-window rate limiter, the claim event pipeline, the stock ledger with
its reorder alerts, the journal with the profit and loss report, payroll, the notification
store, the in-process event bus, and the gateway's public paths.

Each component has a model over values (states, steps, runs, and functions for queries) on
which the properties are stated and proved, and, where the code changes state, classes with
the code's own fields whose methods are proved to perform exactly the model's steps.

| component | over values | as objects |
|---|---|---|
| browser token refresh | `RefreshClient`, `RefreshWorstCase` | `ApiClient` |
| auth service | `AuthTables`, `AuthServer`, `ConcurrentCalls` | `AuthService` |
| browser and auth service together | `TokenRotation`, `OverlappingCalls` | |
| rate limiter | `RateLimiter` | `RedisLimiter` |
| claim pipeline | `EventPipeline`, `ClaimFlags`, `ClaimOutcomes` | `KafkaConsumer` |
| inventory | `StockLedger`, `ReorderAlerts` | `Inventory` |
| accounting | `Journal`, `ReportFigures`, `EntryNumbers` | `AccountingRepository` |
| payroll | `Payroll`, `PayColumns`, `ContractStatements` | `HumanResources` |
| notifications | `Notifications` | `Notifications.Store` |
| event bus | `EventBus` | `SliceBus` |
| public paths | `PublicPaths` | `PublicPaths.JWTAuthMiddleware` |

`Common` holds the shared value types. `dafny verify dfyconfig.toml` checks everything.

## How the world is represented

- A client event (a response, the end of a refresh call) is one step, because the handlers
  run without yielding between awaits. The auth service's lookup, revoke, user read and
  issue are four steps of a call, which interleave with the steps of every other call.
- Hashing is injective and minted refresh tokens are fresh, so a token stands for its hash.
- Redis is a map of sorted sets with deadlines and a clock of its own; the callers' clocks
  and the random suffixes of members are inputs.
- A Kafka topic is a log; a consumer has a position and a committed offset and restarts at
  the latter after a crash, which can strike in the middle of a handler. Commits become
  effective some time after they are asked for.
- Database tables are maps or sequences of rows; SQL queries are functions over them,
  including the null row of a left join. Whether a statement succeeds is an input.
- Amounts are exact: cents or smallest units as integers, payroll as reals.

## Where the code and what is said about it differ

The model follows the code. What it shows about the code's own comments or intentions:

- A failed refresh leaves the waiting requests queued until a later refresh succeeds or the
  navigation to /login, which the same branch starts, discards the page:
  `RefreshClient.FailedRefreshLeavesQueue`; exactly which runs settle every request is
  `RefreshClient.AllSettledIff`.
- Switching a user off through the update operation has no effect on reads once `is_active`
  has a value: `AuthTables.UpdateReaches`.
- The service revokes the old refresh token before it has a new one stored, and ignores
  failures of both statements. Exactly which runs keep the browser's session is
  `TokenRotation.CookieLiveIff`, exactly which leave one live token `OneLiveTokenIff`; the
  failing inputs are `FailedReadLosesSession`, `FailedSigningLosesSession`,
  `UnstoredTokenLosesSession` and `LostReplyLosesSession`. A call under way can also outlive
  a LogoutAll or a delete: `ConcurrentCalls.LogoutAllIsFinalIff`, `DeleteIsFinalIff`. On its own, without the browser's single flight, the server
  accepts overlapping calls with one token: `OverlappingCalls.BothAcceptedIff`.
- The limiter's comment speaks of a unique member; a random suffix does not make one, and
  calls that share one can pass the limit: `RateLimiter.RepeatedMembersAllPass`. Exactly when
  the answers are those of a count of requests is `LimiterCountsRequests`, and exactly when
  the limit on requests is exceeded `SlidingWindowLimit` and `RequestLimitExceededIff`. The key's deadline
  runs on the server's clock, so a bound on the callers' lag alone does not give the limit;
  exactly when it fails is `RateLimiter.LimitExceededIff` and `FirstOverrunIff`.
- A computed analysis whose publish fails is lost to the next service without a retry or a
  dead-letter message, unless a crash before the commit makes the attempt run again:
  `ClaimOutcomes.ResultReachesTopicIff`, `EveryClaimHasAnOutcome`. A comment in the claim service
  says that results carry no company; they do, and so do the flags raised for them:
  `EventPipeline.AiAttemptPublishes`, `ClaimAttemptDoes`.
- Reorder checks are spawned for out and scrap moves and negative adjustments only; an adjust
  or return move that lowers stock spawns none: `ReorderAlerts.UnwatchedDecreases`,
  `AlertGuaranteedIffPending`. An adjustment without a location is recorded but counts
  nowhere: `StockLedger.AdjustmentEffect`.
- Revenue is reported as an absolute value, so net profit is off by twice a net debit revenue:
  `Journal.NetProfitGap`, `ProfitIdentity`. Failed line inserts are ignored and can unbalance a
  stored entry: `StoredBalanceIffDroppedDo`. Entry numbers are counted and inserted by separate
  statements and can repeat, exactly when `EntryNumbers.NumbersDifferIff` says.
- Payroll stores the totals of the first 1000 employees, and an employee count that includes
  employees without a contract; a failing contract query is taken for a missing contract:
  `Payroll.StoredTotals`, `MissedPayIsUnpaid`, `CountIsContractsPaidIff`.
- The unread counter is not the number of unread items listed once a cut dropped one:
  `Notifications.DriftLaw`. Ids can repeat across a page load, exactly
  when `IdsDifferIff` says.

## Model

| member | source | states |
|---|---|---|
| RefreshClient.AtMostOneRefresh | frontend/src/lib/api.ts:29-59 | in every reachable state at most one refresh call is outstanding, the flag says whether one is, and no queued request has used its retry |
| RefreshClient.QueuedResentExactlyOnce | frontend/src/lib/api.ts:31-51 | a queued request is resent exactly once, with the new token, by the first refresh that succeeds after it was queued, however many refreshes fail in between |
| RefreshClient.BoundedTraffic | frontend/src/lib/api.ts:29-51 | with n requests there are at most n refresh calls and n + n(n + 1)/2 sends, under any pattern of 401s |
| RefreshWorstCase.TrafficBoundIsTight | frontend/src/lib/api.ts:29-51 | the two bounds are attained for every n, so neither can be lowered |
| RefreshClient.ProtocolTerminates | frontend/src/lib/api.ts:29-60 | from any reachable state, once the application issues no more requests the protocol stops within the measure's number of steps |
| RefreshClient.AllSettledIff | frontend/src/lib/api.ts:29-61 | for every run that falls silent: all requests are settled exactly when no refresh failed with requests waiting and none succeeded after it |
| RefreshClient.FailedRefreshLeavesQueue | frontend/src/lib/api.ts:52-58 | a run in which one failed refresh leaves a request unsettled until the page is left: the failure branch does not empty the queue |
| RefreshClient.RequestCarriesLastToken | frontend/src/lib/api.ts:14-58 | over every run, a request just issued carries the token of the last event that wrote one, read off the events alone: the new token of a successful refresh, none after a failed one, or the one stored by a login or logout |
| ApiClient.Client.Dispatch | frontend/src/lib/api.ts:14-20 | a request carries the token in memory if there is one and keeps its header otherwise |
| ApiClient.Client.OnUnauthorized | frontend/src/lib/api.ts:29-41 | the interceptor up to its await performs the protocol's step for a 401, in all three branches |
| ApiClient.Client.ResendQueue | frontend/src/lib/api.ts:48 | the callbacks run in queue order, each sending its request with the new token |
| ApiClient.Client.OnRefreshSucceeded | frontend/src/lib/api.ts:47-58 | success stores the token and keeps it, resends the queue and then the owner, empties the queue and clears the flag, which is one protocol step |
| ApiClient.Client.OnRefreshFailed | frontend/src/lib/api.ts:52-58 | failure clears token and flag and rejects the owner only |
| AuthTables.UpdateReaches | services/auth-service/internal/repository/user_repository.go:205-226 | setting active stops reads of a user exactly when is_active was never set |
| AuthTables.ChangesOneUser | services/auth-service/internal/repository/user_repository.go:205-245 | an update or delete leaves every other user, and a user of another company, as they were |
| AuthTables.CreatedIsFound | services/auth-service/internal/repository/user_repository.go:56-83 | a user is created exactly when no row of the company has the email, and is then found by id, email and sub and shown as active |
| AuthServer.RegisterIssuesIff | services/auth-service/internal/service/auth_service.go:73-103 | a registration issues a token exactly when the insert runs, no row of the company has the email and the pair is signed, then to the new user; each refusal says which of these failed |
| AuthServer.LoginIssuesIff | services/auth-service/internal/service/auth_service.go:106-133 | a login issues a token exactly when the read succeeds and finds a row, the password matches and the pair is signed, then to a readable user with that email; otherwise nothing changes |
| AuthServer.OAuthIssuesTo | services/auth-service/internal/service/auth_service.go:170-224 | a sign-in by OAuth issues to the user found by sub, else to the one found by email, else to a new user or the one that took the email meanwhile |
| AuthServer.OAuthFailsIff | services/auth-service/internal/service/auth_service.go:170-224 | exactly when such a sign-in is refused for the database or the signature, and exactly when it crashes |
| AuthServer.RefreshIssuesIff | services/auth-service/internal/service/auth_service.go:136-156 | a refresh issues a token exactly when the presented one is stored, live and not past its expiry, its user is found and the reads and the signing succeed, then to that user; the three refusals of the token are told apart exactly |
| AuthServer.IssuedIsAcceptedUntil | services/auth-service/internal/service/auth_service.go:266-290 | a new token is accepted for its user up to the expiry it was given exactly when it was stored |
| AuthServer.LogoutEffect | services/auth-service/internal/service/auth_service.go:159-163 | a logout ends the presented token exactly when its revoke runs, and no other |
| AuthServer.LogoutAllEffect | services/auth-service/internal/service/auth_service.go:165-167 | a logout everywhere ends all tokens of the user and no other |
| AuthServer.UpdateUserEffect | services/auth-service/internal/repository/user_repository.go:205-226 | an update that reaches a row shows the user with the status given; one that does not is still done and changes nothing |
| AuthServer.DeleteUserEffect | services/auth-service/internal/repository/user_repository.go:236-247 | a delete is done exactly when the user is one of the company, and ends reads of that user but none of the tokens |
| AuthServer.Rotation | services/auth-service/internal/service/auth_service.go:136-156 | in every run whose revokes succeed each login family has at most one live refresh token and no token is accepted twice |
| AuthServer.RefreshConsumesIffRevoked | services/auth-service/internal/service/auth_service.go:143-150 | the hypothesis of rotation is needed: a refresh that issues a token leaves the presented one live exactly when its revoke failed |
| AuthServer.DeadForever | services/auth-service/internal/service/auth_service.go:136-167 | a minted token that is not live is never accepted again, whatever operations follow |
| AuthServer.LogoutAllIsFinal | services/auth-service/internal/service/auth_service.go:165-167 | operations run one after another: no token issued to a user before a LogoutAll that succeeds is accepted after it, and no refresh with one issues anything |
| AuthServer.AcceptedWereIssued | services/auth-service/internal/service/auth_service.go:136-156 | only tokens the server issued are accepted, and for the user they were issued to |
| AuthServer.DeletedUserGetsNoToken | services/auth-service/internal/service/auth_service.go:242-289 | operations run one after another: after a successful delete the set of tokens ever issued to the user no longer grows |
| AuthServer.FamiliesStartWithSignIn | services/auth-service/internal/service/auth_service.go:73-224 | in every run each token issued descends from a token that a registration, an OAuth sign-in or a login with the right password issued, to the same user |
| ConcurrentCalls.LogoutAllIsFinalIff | services/auth-service/internal/service/auth_service.go:136-167 | with any number of calls under way, step by step: after a LogoutAll no run without a new login leaves the user a live token exactly when no call for the user is then past its lookup, not yet signed and still able to find the user |
| ConcurrentCalls.DeleteIsFinalIff | services/auth-service/internal/service/auth_service.go:136-156 | with calls under way: no run issues a deleted user another token exactly when no call for the user is then past its user read and not yet signed |
| TokenRotation.StepsComposeToRefresh | services/auth-service/internal/service/auth_service.go:136-156 | run without interleaving, the four server steps are the service's refresh operation in every environment |
| ConcurrentCalls.CallAloneIsRefresh | services/auth-service/internal/service/auth_service.go:136-156 | in the system of concurrent calls, a call with nothing in between is that operation: same server, same reply, a token issued to the same user |
| TokenRotation.OthersRunTheService | services/auth-service/internal/service/auth_service.go:136-156 | in the composed system other callers run the service operations and leave the browser as it is |
| TokenRotation.BrowserRefreshes | frontend/src/lib/api.ts:29-61 | with nothing in between, a 401 makes the browser present its cookie, and the reply puts the issued token in its place and resends what waits, or rejects the request and keeps the cookie |
| AuthService.UserRepository.GetRefreshToken | services/auth-service/internal/repository/user_repository.go:262-284 | the checks in their order compute the lookup: unknown, revoked, expired, accepted |
| AuthService.UserRepository.InsertUser | services/auth-service/internal/repository/user_repository.go:56-82 | the insert fails, or is refused exactly when company and email are taken, whatever the row's status, or adds the row |
| AuthService.Service.RefreshTokens | services/auth-service/internal/service/auth_service.go:136-156 | lookup, revoke, user read and issue in this order compute the rotation operation, error cases included |
| AuthService.Service.IssueTokens | services/auth-service/internal/service/auth_service.go:266-290 | a pair is minted before the store, whose failure is not reported |
| AuthService.Service.HandleOAuth | services/auth-service/internal/service/auth_service.go:170-224 | the three ways to find or create the user with every failing statement, and the crash when the row lost in a race is not readable |
| TokenRotation.CookieLiveIff | services/auth-service/internal/service/auth_service.go:136-156 | with server steps interleaved freely, any statement or signature failing, replies that may be lost, and one browser just logged in whatever it sent before: in every run, whenever no refresh is in flight, the cookie's token is live exactly when no call of the browser had its revoke go through and then failed or lost its reply, and none delivered a token that was not stored; only after such a call is the browser told that its token is revoked or unknown |
| TokenRotation.OneLiveTokenIff | services/auth-service/internal/handler/http.go:203-231 | with no refresh in flight the cookie holds the one live token of its login exactly when no call lost the session so, none replaced a token whose revoke had failed, and no reply with a stored token was lost |
| TokenRotation.DeadCookieStaysDead | frontend/src/lib/api.ts:39-58 | once the cookie is dead it never changes, is never live again, and no refresh of the browser succeeds |
| TokenRotation.FailedReadLosesSession | services/auth-service/internal/service/auth_service.go:145-153 | a user read that fails after the revoke went through leaves a dead cookie, and the next call is told that it is revoked |
| TokenRotation.FailedSigningLosesSession | services/auth-service/internal/service/auth_service.go:145-155 | so does a failing signature |
| TokenRotation.UnstoredTokenLosesSession | services/auth-service/internal/service/auth_service.go:280-289 | a new token that is signed but not stored leaves a dead cookie, whether or not the old token was revoked |
| TokenRotation.LostReplyLosesSession | frontend/src/lib/api.ts:41-58 | so does a reply lost after the revoke went through |
| TokenRotation.LossIsReachable | services/auth-service/internal/service/auth_service.go:145-153 | from any login there is a run of one new request and one 401 to a dead cookie |
| OverlappingCalls.BothAcceptedIff | services/auth-service/internal/service/auth_service.go:139-156 | of two calls with one live token, when only revokes may fail, in every interleaving of their steps, the second to be looked up is accepted exactly when its lookup precedes the first one's revoke or that revoke fails; then both replies carry live tokens, and otherwise the second is refused as revoked |
| OverlappingCalls.WithoutOverlap | services/auth-service/internal/service/auth_service.go:136-156 | without overlap two calls are two refresh operations, the second on what the first left |
| RateLimiter.LimiterRefinesHistory | services/api-gateway/internal/ratelimit/redis_limiter.go:36-47 | with one monotone clock every call of every run gets the decision and remaining count a specification over the full history gives |
| RateLimiter.CountIsWindow | services/api-gateway/internal/ratelimit/redis_limiter.go:36-39 | the set after pruning and expiry holds exactly the members admitted in (now - window, now] |
| RateLimiter.NoWindowNoEntry | services/api-gateway/internal/ratelimit/redis_limiter.go:36-43 | a window of no whole millisecond leaves no entry behind, so nothing is counted |
| RateLimiter.CountsRequestsIffMembersDiffer | services/api-gateway/internal/ratelimit/redis_limiter.go:41-42 | the script's count is the number of requests admitted in the window exactly when no two of them wrote the same member |
| RateLimiter.SetCountsRequests | services/api-gateway/internal/ratelimit/redis_limiter.go:39-42 | for any history and interval the set never counts more than the requests, and exactly as many iff members differ |
| RateLimiter.LimiterCountsRequests | services/api-gateway/internal/ratelimit/redis_limiter.go:36-47 | with one monotone clock, in every run: the answers are those of a count of requests exactly when at every call the members in the window differ or reach the limit by themselves; so they are when no two calls write one member |
| RateLimiter.RepeatedMembersAllPass | services/api-gateway/internal/ratelimit/redis_limiter.go:41-42 | calls sharing time and suffix are all allowed, however many, once the limit is two or more |
| RateLimiter.SkewTolerantLimit | services/api-gateway/internal/ratelimit/redis_limiter.go:31-47 | if callers of one key lag one another by at most d and a key past its deadline was last written window - d ago by their clocks, every half-open interval of window - d holds at most max admitted members, in every run |
| RateLimiter.SkewTolerantRequestLimit | services/api-gateway/internal/ratelimit/redis_limiter.go:31-47 | with distinct members the skew bound is on admitted requests |
| RateLimiter.SlidingWindowLimit | services/api-gateway/internal/ratelimit/redis_limiter.go:31-47 | with one monotone clock, in every run: a window holds more than max admitted requests exactly when some call falls into it after max of them with fewer different members in the window ending at the call; never when no two calls write one member |
| RateLimiter.LimitExceededIff | services/api-gateway/internal/ratelimit/redis_limiter.go:36-47 | for any clocks, limit and interval, in every run: more than max members are admitted exactly when some call meets a full interval, brings a new member to it, and more of the interval's members have been forgotten than other members are counted |
| RateLimiter.RequestLimitExceededIff | services/api-gateway/internal/ratelimit/redis_limiter.go:36-47 | for any clocks, members, limit and interval, in every run: more than max requests are admitted exactly when some call meets a full interval that the set undercounts; with distinct members exactly when some call overruns |
| RateLimiter.FirstOverrunIff | services/api-gateway/internal/ratelimit/redis_limiter.go:36-43 | with caller lag at most d, up to the first call that forgets members of an interval of window - d the limit holds in it, and that call exceeds it exactly when the key has expired by the server's clock, the interval is full and its member is new |
| RateLimiter.LimitHoldsUnlessForgotten | services/api-gateway/internal/ratelimit/redis_limiter.go:36-43 | with caller lag at most d the limit is exceeded only if the key expired while members of the interval were in it |
| RateLimiter.PairLimitIff | services/api-gateway/internal/ratelimit/redis_limiter.go:36-43 | the smallest case, derived: two calls to a limit of one get two members in within window - d exactly when the key expires in between and their members differ |
| RedisLimiter.Store.Eval | services/api-gateway/internal/ratelimit/redis_limiter.go:36-47 | the commands in their order compute the script's new keyspace and answer |
| RedisLimiter.Limiter.Allow | services/api-gateway/internal/ratelimit/redis_limiter.go:74-99 | a failed call is allowed with the full limit, an error and no reset time; otherwise the script's answer and a reset a window after it are returned |
| EventPipeline.NoClaimSilentlyLost | pkg/events/kafka.go:183-228 | with any crashes and redeliveries every well-formed claim below the committed offset had its result publish attempted or at least three failure publishes, the same for the claim service, and neither consumer reports an offset more often than its deliveries allow |
| EventPipeline.AttemptCounts | services/ai-service-go/internal/consumer/claim_consumer.go:51-157 | one attempt publishes one result exactly when it succeeds on a well-formed claim and one failure exactly when it fails on one, and no handler publishes to claims.new |
| EventPipeline.AiAttemptPublishes | services/ai-service-go/internal/consumer/claim_consumer.go:51-157 | what one attempt at a well-formed claim publishes: without an inference the failure of that claim; with one a result with its claim id and score for the claim's company, and exactly when the score is at least 0.80 a flag saying the same |
| EventPipeline.ClaimAttemptDoes | services/claim-service/internal/service/claim_service.go:281-323 | what one attempt at a well-formed result does: the update of that claim, and when it went through, exactly when the score reaches the threshold, a flag repeating the result |
| EventPipeline.OthersPassBy | services/ai-service-go/internal/consumer/claim_consumer.go:51-63 | other events are passed by without an effect, malformed ones fail without an effect |
| EventPipeline.AttemptPasses | pkg/events/kafka.go:203-228 | a message is passed by an attempt that succeeds or the third that fails, and otherwise tried again |
| EventPipeline.CrashRedelivers | pkg/events/kafka.go:170-228 | a crash sends the consumer back to its committed offset with all attempts still to be made, and undoes nothing |
| EventPipeline.FetchAndFlush | pkg/events/kafka.go:183-202 | what cannot be decoded is passed at once; a commit moves only the committed offset |
| ClaimFlags.FlagsMatchScores | services/ai-service-go/internal/consumer/claim_consumer.go:104-149 | in every run, for both services: each flag recorded directly follows the result or update it is due to and repeats its claim, company and score; and each that is due one, at or above 0.80 or the threshold, is directly followed by it, but for at most one a crash |
| EventPipeline.DeliveryOutcome | pkg/events/kafka.go:203-222 | one uninterrupted delivery publishes one result and fewer than three failures, or three failures and no result |
| EventPipeline.PipelineDrains | pkg/events/kafka.go:183-228 | between crashes and new messages both consumers together make at most Rank steps, a number fixed by the state they start from |
| EventPipeline.StuckIffDrained | pkg/events/kafka.go:183-228 | the pipeline stops exactly when both consumers have handled and committed everything |
| EventPipeline.EveryMessageHasAnOrigin | services/claim-service/internal/service/claim_service.go:264-316 | in every run each message on a topic stems from a claim, a result or a review; a flag carries a score at the threshold that raised it |
| ClaimOutcomes.SuccessfulPublishesAreLogged | pkg/events/kafka.go:183-228 | in every run each publish recorded as successful is in its topic's log |
| ClaimOutcomes.ResultReachesTopicIff | services/ai-service-go/internal/consumer/claim_consumer.go:104-125 | in every run with any crashes a result of a claim is on claims.analyzed exactly when one of the publishes recorded for it succeeded, once for each that did; a claim passed with fewer than three failure reports had such a publish tried |
| ClaimOutcomes.OriginsAreRight | services/ai-service-go/internal/consumer/claim_consumer.go:104-119 | each message that a run adds for a claim is a result with the claim's company |
| ClaimOutcomes.EveryClaimHasAnOutcome | pkg/events/kafka.go:183-228 | end to end, once both consumers have caught up: each well-formed claim was reported as failed three times, or had only failed result publishes, or has a result on claims.analyzed that the claim service applied or tried three times |
| KafkaConsumer.Handler.HandleCreated | services/ai-service-go/internal/consumer/claim_consumer.go:51-157 | the inference handler performs the specified publishes in order and succeeds or fails as specified; with an inference these are its own claim id and score, and a flag exactly from 0.80 |
| KafkaConsumer.Handler.HandleAnalyzed | services/claim-service/internal/handler/kafka_consumer.go:28-60 | the claim handler performs the specified update and publish and succeeds or fails as specified |
| KafkaConsumer.Consumer.HandleWithRetries | pkg/events/kafka.go:203-222 | the attempt loop does what the specified delivery does and uses as many attempts |
| KafkaConsumer.Consumer.ConsumeOne | pkg/events/kafka.go:183-228 | an undecodable message is passed at once, any other after its delivery, whatever came of it and of the commit |
| KafkaConsumer.DeliveryIsAttempts | pkg/events/kafka.go:203-228 | for either consumer the loop is the step system's way through one message: same topics, next offset |
| KafkaConsumer.ClaimProducer.CreateClaim | services/claim-service/internal/service/claim_service.go:76-138 | the topics stay as they are or make one producer step with a message the inference consumer must account for |
| KafkaConsumer.ClaimProducer.UploadDocument | services/claim-service/internal/service/claim_service.go:141-213 | the same for the second announcement of a claim after its document was stored |
| KafkaConsumer.ClaimProducer.ReviewClaim | services/claim-service/internal/service/claim_service.go:230-278 | the topics stay as they are or make one producer step with a review, which the claim service passes by in every environment |
| StockLedger.StockQueriesAgree | goerp/internal/inventory/repository/inventory_repo.go:94-103 | for every ledger, also one without done moves, both SQL renderings compute the sum over the done moves |
| StockLedger.ReportsAgree | goerp/internal/inventory/repository/inventory_repo.go:625-649 | LowStockCount is the number of summary rows marked low and OutOfStock the number with no stock |
| StockLedger.LowListMatchesSummary | goerp/internal/inventory/repository/inventory_repo.go:69-116 | the low-stock product list holds exactly the products of the summary's low rows |
| StockLedger.StockIsConserved | goerp/internal/inventory/repository/inventory_repo.go:549-561 | the stock of a product is the sum of its stock at its locations, for every ledger |
| StockLedger.AcceptedMoveEffect | goerp/internal/inventory/usecase/inventory_usecase.go:319-369 | an accepted move changes the product's stock exactly when it names one location, by its quantity in the direction of that location; a transfer never does |
| StockLedger.TransferMovesStock | goerp/internal/inventory/usecase/inventory_usecase.go:344-351 | a transfer moves its quantity between its two locations and leaves every other location and the total alone |
| StockLedger.AdjustmentEffect | goerp/internal/inventory/usecase/inventory_usecase.go:423-442 | an adjustment changes stock by its signed quantity exactly when it names a location |
| StockLedger.AdjustmentUndone | goerp/internal/inventory/usecase/inventory_usecase.go:423-442 | adjusting by q and then by -q restores every location and the total |
| StockLedger.ProblemIsFirstFault | goerp/internal/inventory/usecase/inventory_usecase.go:319-369 | a request is accepted exactly when it has none of the eleven faults, and else refused for one it has with none looked for earlier |
| ReorderAlerts.AlertAfterLastDecrease | goerp/internal/inventory/usecase/inventory_usecase.go:636-650 | if the last decrease spawned its check, all checks have run and stock is at or below a positive reorder point, StockLow was published after that decrease, under any interleaving, exactly when one of the checks read the product |
| ReorderAlerts.AlertIffCheckReads | goerp/internal/inventory/usecase/inventory_usecase.go:636-650 | while a product is not decreased and ends low, StockLow is published exactly when one of its checks runs and reads it, under any interleaving |
| ReorderAlerts.AlertGuaranteedIffPending | goerp/internal/inventory/usecase/inventory_usecase.go:393-396 | while reads succeed, such an alert is certain after a decrease that leaves the product at or below a positive reorder point, whatever is in flight, exactly when a check of the product is then pending: the decrease spawned one or an earlier one has not run |
| ReorderAlerts.UnwatchedDecreases | goerp/internal/inventory/usecase/inventory_usecase.go:450-453 | which decreasing operations spawn the check: out and scrap moves and negative adjustments, not plain adjust or return moves |
| ReorderAlerts.AlertsWereTrue | goerp/internal/inventory/usecase/inventory_usecase.go:636-650 | every alert a run publishes tells the ledger's stock of the product at some moment of the run, at or below its reorder point then |
| ReorderAlerts.ChecksAreConserved | goerp/internal/inventory/usecase/inventory_usecase.go:393-396 | however the steps interleave, a check runs as often as it was spawned, but for those still pending |
| ReorderAlerts.SummaryForeseesAlert | goerp/internal/inventory/repository/inventory_repo.go:601-604 | the summary marks a product for reordering exactly when a check of it would alert |
| ReorderAlerts.AdjustmentAcceptedIff | goerp/internal/inventory/usecase/inventory_usecase.go:403-420 | an adjustment is accepted exactly when it names a tenant, a product of the tenant and a reason and changes something; each refusal exactly when |
| Inventory.Usecase.Validate | goerp/internal/inventory/usecase/inventory_usecase.go:320-369 | the checks in their order compute the first problem of a request |
| Inventory.Usecase.CreateStockMove | goerp/internal/inventory/usecase/inventory_usecase.go:319-399 | an accepted move is appended and spawns a check for out and scrap; otherwise nothing changes |
| Inventory.Usecase.AdjustStock | goerp/internal/inventory/usecase/inventory_usecase.go:403-455 | an accepted adjustment is appended with its sign turned into a direction and spawns a check when negative |
| Inventory.Usecase.GetStockSummary | goerp/internal/inventory/repository/inventory_repo.go:567-609 | the scan loop returns a row for each active tracked product of the tenant, in ascending stock: its ledger stock, that times the cost price, and its two marks; their counts are those of the statistics |
| Journal.RunKeepsBalance | goerp/internal/accounting/repository/accounting_repo.go:122-156 | every stored entry balances in every run whose line inserts succeed |
| Journal.StoredBalanceIffDroppedDo | goerp/internal/accounting/repository/accounting_repo.go:147-156 | an accepted entry's stored lines balance exactly when the lines lost to failed inserts do |
| Journal.NetProfitGap | goerp/cmd/server/extra_handlers.go:417-446 | for every reachable journal and period, by how much net profit differs from the net change of the other accounts |
| Journal.ProfitIdentity | goerp/cmd/server/extra_handlers.go:417-446 | with a classified chart net profit equals the net change of accounts that are neither revenue nor expense exactly when revenue is not net debit, and cogs + expenses is the sum over expense accounts |
| Journal.CategoriesSumToExpenses | goerp/cmd/server/extra_handlers.go:473-488 | the expense categories add up to all selected expense lines |
| Journal.CategoriesMatchReport | goerp/cmd/server/extra_handlers.go:425-436 | the categories add up to cogs + expenses exactly when lines on code 5000 outside expense accounts cancel out |
| Journal.PostingKeepsReports | goerp/internal/accounting/repository/accounting_repo.go:162-170 | posting an entry changes no figure of the profit and loss report |
| Journal.CreationKeepsNumbersIff | goerp/internal/accounting/repository/accounting_repo.go:118-120 | a creation keeps the numbering exactly when it is refused, its count went through, or the tenant had no entries |
| Journal.RunNumbersEntries | goerp/internal/accounting/repository/accounting_repo.go:118-120 | creations run one after another with counts that succeed: each tenant's entries are numbered 1, 2, 3 and so on |
| EntryNumbers.NumbersDifferIff | goerp/internal/accounting/repository/accounting_repo.go:118-142 | however the count and insert statements of any creations interleave: no two entries of a tenant get one number exactly when no creation inserts after another of its tenant inserted since it counted, or after a count that failed although there were entries |
| EntryNumbers.CreationIsExec | goerp/internal/accounting/repository/accounting_repo.go:118-142 | run back to back the two statements number the entry as the creation does |
| ReportFigures.QueriesReadAccounts | goerp/cmd/server/extra_handlers.go:417-436 | each sum is over the lines of the tenant's entries in the period, on the accounts of the type or code it names |
| ReportFigures.ReportReadsAccounts | goerp/cmd/server/extra_handlers.go:417-446 | revenue is the sum over revenue accounts without its sign, cogs that over code 5000, expenses that over expense accounts without code 5000, and the profits are their differences |
| ReportFigures.UnrelatedEntryChangesNothing | goerp/cmd/server/extra_handlers.go:419-436 | an entry of another tenant or time, or only on accounts that are neither revenue, expense nor code 5000, changes no figure, wherever it stands |
| ReportFigures.SaleRaisesRevenueIff | goerp/cmd/server/extra_handlers.go:417-446 | a credit on a revenue account raises revenue and both profits by its amount exactly when revenue was not net debit, and leaves cogs and expenses |
| ReportFigures.ExpenseLowersProfit | goerp/cmd/server/extra_handlers.go:417-446 | a debit on an expense account lowers net profit by its amount, through cogs on code 5000 and through expenses on any other |
| AccountingRepository.Repository.CreateJournalEntry | goerp/internal/accounting/repository/accounting_repo.go:111-158 | an entry is accepted exactly when debits equal credits and its head is inserted, and is stored for the tenant with its totals, date, state and lines; otherwise nothing changes |
| AccountingRepository.Repository.PostJournalEntry | goerp/internal/accounting/repository/accounting_repo.go:162-170 | posting sets the state of the tenant's draft with that id, changes no other row and leaves every report as it was |
| AccountingRepository.Repository.ProfitLossHandler | goerp/cmd/server/extra_handlers.go:404-455 | the handler's figures, each over the accounts, tenant and dates its query names, or zero if the query fails, and the margin, which is zero without revenue |
| AccountingRepository.Repository.ExpenseByCategory | goerp/cmd/server/extra_handlers.go:458-496 | the scan loop returns for each group the sum over expense accounts of its name and code, largest first, and together they are the sum over expense accounts |
| Payroll.RunKeepsInv | goerp/internal/hr/repository/hr_repo.go:243-277 | every run of employee and contract operations whose deactivations succeed keeps at most one active contract an employee and tenant |
| Payroll.ContractKeepsOneActiveIff | goerp/internal/hr/repository/hr_repo.go:249-251 | a new contract keeps that exactly when its deactivation succeeded or there was nothing to deactivate |
| ContractStatements.OneActiveIffNoClash | goerp/internal/hr/repository/hr_repo.go:249-276 | however the statements of any creations interleave, there is at most one active contract an employee and tenant all along exactly when no two inserts run without a deactivation between them |
| ContractStatements.CreationIsExec | goerp/internal/hr/repository/hr_repo.go:243-277 | run back to back the two statements are the creation, with each of them failing or not |
| Payroll.NoContractIff | goerp/internal/hr/repository/hr_repo.go:249-276 | after an accepted creation the employee is without a contract exactly when the insert failed and the deactivation went through or there was none before |
| Payroll.JoinIsPairSum | goerp/internal/hr/repository/hr_repo.go:535-555 | the join over contracts is the double sum over the tenant's active employees, for amounts and for counts |
| Payroll.JoinIsLoopPlusRest | goerp/internal/hr/repository/hr_repo.go:535-555 | the join pays what the loop pays plus the employees past the query's limit of 1000 |
| Payroll.LoopAgreesWithJoin | goerp/internal/hr/usecase/hr_usecase.go:275-320 | in every reachable state, when every contract query answers, loop and join give the same gross, deductions and net exactly when the employees past the first 1000 are paid nothing between them, in particular up to 1000; net + deductions = gross in both |
| Payroll.StoredTotals | goerp/internal/hr/repository/hr_repo.go:558-563 | whatever fails: the stored totals are the join's exactly when, with the loop's figures stored, the employees whose contract query failed or who are past the first 1000 are paid nothing between them, and otherwise when the join runs or pays nothing |
| Payroll.StoredTotalsAllAnswered | goerp/internal/hr/repository/hr_repo.go:558-563 | up to 1000 employees with every query answering: exactly when the join runs or the gross is not negative |
| Payroll.CountIsContractsPaidIff | goerp/internal/hr/repository/hr_repo.go:558-563 | the exact condition for the stored employee count to be the number of contracts paid: with the loop's figures stored, that every active employee has a contract |
| Payroll.MissedPayIsUnpaid | goerp/internal/hr/usecase/hr_usecase.go:275-280 | with the loop's figures stored, their gross falls short of the join's by the pay of the employees whose contract query failed or who are past the first 1000 |
| PayColumns.LoopPaysColumns | goerp/internal/hr/usecase/hr_usecase.go:288-295 | the loop's gross is the sum of four columns, basic, housing, transport and other, over the contracts it pays |
| PayColumns.JoinPaysColumns | goerp/internal/hr/repository/hr_repo.go:535-555 | so is the join's, over the tenant's active contracts of active employees, which it counts |
| PayColumns.CurrentIsLatest | goerp/internal/hr/repository/hr_repo.go:204-241 | the contract paid is an active one of the employee in the tenant, none of those was created later, and there is one exactly when there is any |
| PayColumns.GeneratedPaysColumns | goerp/internal/hr/usecase/hr_usecase.go:285-340 | what is stored: the columns over the contracts of the employees that answered, or, without a positive gross, those of the join, or nothing; 22.65% of it deducted and the rest net |
| PayColumns.PaidIsLastCreated | goerp/internal/hr/repository/hr_repo.go:243-277 | in every run whose deactivations succeed, the contract payroll pays an employee is the last creation accepted for him, read off the operations alone |
| PayColumns.KeptContractIsPaidIff | goerp/internal/hr/repository/hr_repo.go:204-251 | after a failed deactivation the new contract is paid exactly when the old one is not younger |
| PayColumns.UpdateSetsOneFlag | goerp/internal/hr/repository/hr_repo.go:182-201 | an update sets the flag of the one employee with that id and tenant |
| HumanResources.Repository.GetEmployeeContract | goerp/internal/hr/repository/hr_repo.go:204-241 | the query returns the latest active contract of the employee, or none |
| HumanResources.Repository.CreatePayrollRun | goerp/internal/hr/repository/hr_repo.go:526-583 | the row loop stores the four columns over the contracts the join finds, 22.65% of them as deductions, the rest as net, and their number; zeros if the query fails; and a run with a positive gross as it is |
| HumanResources.Usecase.CreateContract | goerp/internal/hr/usecase/hr_usecase.go:120-163 | the checks in their order, then the deactivations and the contract with the terms asked for |
| HumanResources.Usecase.GeneratePayroll | goerp/internal/hr/usecase/hr_usecase.go:266-340 | after the month and year checks, the loop over the first 1000 employees, which skips one without a contract or an answer, stores the four columns of the contracts it finds, the deductions and the net; when all answer, up to 1000 employees these are the join's |
| Notifications.DriftLaw | frontend/src/store/notifications.ts:36-72 | in every reachable state the list holds at most 50 items and the counter exceeds the unread items listed by exactly the unread items lost to the two cuts since the last recount |
| Notifications.RecountResets | frontend/src/store/notifications.ts:49-72 | after markRead, markAllRead, dismiss or clearAll the counter is the number of unread items listed |
| Notifications.ExactWhileFitting | frontend/src/store/notifications.ts:43-46 | while no cut drops an item the counter stays exact |
| Notifications.ReadDropsDrift | frontend/src/store/notifications.ts:49-54 | reading one item lowers the counter by one plus everything lost since the last recount |
| Notifications.OrderedWhileLoaded | frontend/src/store/notifications.ts:36-72 | in every run without a page load the list is newest first, so no two items share an id |
| Notifications.DismissTakesOne | frontend/src/store/notifications.ts:63-68 | on such a list a dismissal takes out the one item and keeps the others in place |
| Notifications.ListedItemsHaveOrigin | frontend/src/store/notifications.ts:36-72 | in every run a listed item was listed before or added on the way, with the severity and claim it has, and is read exactly when it was or the user has since read that id or everything |
| Notifications.Store.AddItem | frontend/src/store/notifications.ts:36-47 | the new item comes first, unread, with the next counter in its id, and only the newest 50 stay |
| Notifications.IdsDifferIff | frontend/src/store/notifications.ts:36-72 | in every run no two listed items ever share an id exactly when no addition makes an id that is still listed |
| Notifications.CollisionNeedsReload | frontend/src/store/notifications.ts:17-40 | and such an addition takes a page load before it |
| Notifications.ReloadRepeatsIds | frontend/src/store/notifications.ts:17-40 | the failing input: a page load and an addition within one tick, after which one dismissal takes out two items |
| Notifications.Store.FromWSMessage | frontend/src/store/notifications.ts:74-118 | four message types become notifications with their severities, others change nothing |
| EventBus.SnapshotLaw | goerp/internal/shared/events/bus.go:31-47 | under any interleaving a publish starts the handlers subscribed to its name before it, in order, each once, on its own event, and when it is through exactly those |
| EventBus.EveryStartHasACall | goerp/internal/shared/events/bus.go:43-46 | conversely every handler started belongs to a publish that was called, on that call's event |
| EventBus.WorkAccount | goerp/internal/shared/events/bus.go:43-46 | the starts still to come grow only by what a publish snapshots and shrink by one with each start |
| SliceBus.LoopsStillRead | goerp/internal/shared/events/bus.go:31-41 | an append, also one in place into a shared array, leaves every publish under way with the handlers it took |
| SliceBus.HandlersStillRead | goerp/internal/shared/events/bus.go:34 | an append leaves the handlers of every other name as they were and adds one to its own |
| SliceBus.EqualSlicesClash | goerp/internal/shared/events/bus.go:34 | two in-place appends to equal slices overwrite each other, so the lock and the single owner of each array are needed |
| SliceBus.Bus.Append | goerp/internal/shared/events/bus.go:34 | append writes in place when there is room and otherwise into a new array, and keeps what the slice held |
| SliceBus.Bus.Subscribe | goerp/internal/shared/events/bus.go:31-35 | subscribing over shared arrays performs the value-level step |
| SliceBus.Bus.TakeSnapshot | goerp/internal/shared/events/bus.go:38-41 | the locked part of a publish performs the value-level step |
| SliceBus.Bus.DispatchNext | goerp/internal/shared/events/bus.go:43-46 | reading the shared array at the time of the call still starts the handler of the snapshot |
| PublicPaths.StartsUnderIsSegmentPrefix | services/api-gateway/internal/middleware/auth.go:22-33 | for all strings, equal to p or starting with p and a slash holds exactly when p's slash-separated segments are a prefix of the path's |
| PublicPaths.SubPathsArePublic | services/api-gateway/internal/middleware/auth.go:26-28 | everything under a public path is public |
| PublicPaths.NoSiblingLeaks | services/api-gateway/internal/middleware/auth.go:26-28 | a listed path continued by anything but a slash is not admitted through that entry |
| PublicPaths.GuardedPathsNeedToken | services/api-gateway/internal/middleware/auth.go:21-57 | a request passes without claims exactly when its path is public, and with claims exactly when it is not and these are those of its own bearer token; each of the three refusals exactly when |
| PublicPaths.JWTAuthMiddleware.IsPublic | services/api-gateway/internal/middleware/auth.go:22-33 | the set test and the scan together decide the segment test |
| PublicPaths.JWTAuthMiddleware.Handle | services/api-gateway/internal/middleware/auth.go:21-57 | the middleware makes that decision, and hands on the claims of the token presented |

## Left out

- User interface, charts, configuration, logging, telemetry, object storage and service start-up.
- The behaviour of Kafka, Redis, PostgreSQL, SQLite, JWT, bcrypt and Casbin beyond what is described above.
- Model inference and training: a score or a failure is an input.
- RefreshClient.FailedRefreshLeavesQueue: ends before the navigation to /login takes the page and its queue away.
- ApiClient.Client.OnRefreshFailed: leaves out the navigation to /login that the branch starts.
- Password hashing, lower-casing and trimming of emails, the default company of an OAuth sign-in, last-login times, access-token contents and role checks of the auth service; the role and name columns of a user.
- Cookie expiry and loss, and several browser tabs or processes sharing one cookie; within a session nobody else holds its tokens and the user is not logged out everywhere.
- A refresh call the browser gives up while the server is still at it; a reply can be lost once the server is done.
- The bearer header a resent request keeps when there is no token in memory is in `ApiClient.Client.Dispatch` but not in the protocol model, where resends always follow a stored token.
- The limiter's burst setting and skipped paths; a member's text for clocks of 10^14 milliseconds or more, where Lua changes notation.
- More than one partition a topic, two live members of a consumer group during a rebalance, and failed fetches, which only repeat.
- The notification service, and the status of a claim record; a request for more information is published as an approval, so nothing is claimed about event types matching review statuses.
- EventPipeline.NoClaimSilentlyLost: counts attempted publishes, because the code goes on whether they succeed or not; which results reached the topic is stated in ClaimOutcomes.
- Paging, sorting and search of product lists, prices, batches and variants, and the valuation report, which sums unsigned quantities.
- Conversion between entry numbers and their text, and dates (integers here); constraints the database may put on entry numbers, whose violation is a failed insert.
- AccountingRepository.Repository.ExpenseByCategory: takes the groups the query found, in its order, as an input.
- Attendance, leave, payroll lines and currencies; rows whose columns fail to scan.
- Notifications.Store.FromWSMessage: leaves out the displayed titles and bodies; a notification's second clock reading is left out too.
- Panics of event handlers and the order in which started handlers run.
- Customer, sales, purchase, settings and workflow operations, which validate and store one record each.
