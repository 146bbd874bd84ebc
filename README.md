# CodeCouncil AI: a verified model of its core

CodeCouncil AI audits a code base with a council of AI agents. This project models the
parts of it that decide things, and proves what they guarantee:

- **The autonomous agent** of the API server (`AgentService`). It runs a bounded
  Thought → Action → Observation loop of at most five model calls. The loop works over
  an in-memory session table and a tool registry keyed by tool name. Around the loop
  sit the prompt builder, the reply parser, and the two registered tools, `web_search`
  and `code_analysis`.
- **The per-user rate limiter** (`RateLimitService`). Each user has daily and monthly
  counters, kept separately for API requests and for analysis runs. The counters sit
  behind the two Express middlewares and the `/usage` route (`RateLimitMiddleware`).
- **The credit billing routes** (`BillingRoutes`): `/plans`, `/usage`, `/deduct` and
  `/upgrade-to-unlimited`.
- **The browser side of the single-page app**:
  - the `localStorage` billing and audit-history simulation (`BrowserBackend`);
  - the GitHub importer: URL parsing, the file-selection chain, and the `main` → `master`
    fallback (`GithubService`);
  - the one-shot Gemini analysis: the context builder, key selection, error texts and
    citation extraction (`GeminiService`).

Each module models one source file, and is named after it. Two exceptions:
`agentService.ts` is modelled by `AgentService` together with `AgentProperties`, which
holds the lemmas about whole runs; `RateLimitMiddleware` models both
`middleware/rateLimitMiddleware.ts` and the `/usage` route of `routes/rateLimit.ts`.
Each module is written in the source's own form:

- Code that updates state in place is a class whose methods are proved against pure
  specification functions: `AgentService.Session`, `AgentService.Service`,
  `RateLimitService.RateLimitStore`, `BillingRoutes.BillingStore` and
  `BrowserBackend.BrowserStore`.
- Loops are methods carrying loop invariants.
- Pure code is functions and lemmas.

Helper modules:

- `Wrappers`: Option and Result.
- `JsText`: the JavaScript string operations the source uses, such as `includes`,
  `endsWith`, `trim`, `split`, global `replace` and `||` on strings.
- `ToolBase`: the value a tool receives, the tool descriptor, and its JSON text.
- `Users`: the stored user row.

Things the code receives from outside are parameters of the model:

- the hosted model is an oracle from (key, prompt, call number) to a reply or an error
  message;
- `JSON.parse` is an abstract decoder;
- `new URL(...).pathname` and `fetch` of the GitHub tree are functions passed in;
- the current day is an integer passed in;
- a new id (from `uuid`, the database or `Math.random`) is a string passed in.

## Model

| member | source | states |
|---|---|---|
| AgentService.Tool.NamePublished | backend/src/tools/webSearch.ts:4-11 | each tool's `name` field equals the name its descriptor publishes, which is the registry's dispatch key |
| AgentService.Lookup | backend/src/services/agentService.ts:114-115 | a tool is found exactly when a registered tool has that name, and the tool found carries that name |
| AgentService.Register | backend/src/services/agentService.ts:51-53 | registering either appends the tool or keeps the registry's length |
| AgentService.RegisterThenLookup | backend/src/services/agentService.ts:51-53 | after registering, the new tool answers its own name and every other name answers as before |
| AgentService.RegisterShape | backend/src/services/agentService.ts:51-53 | registering either appends a tool whose name was absent, or keeps the length and the name found at every position (a Map keeps an overwritten key in place) |
| AgentService.RegisterKeepsUnique | backend/src/services/agentService.ts:37 | registration keeps tool names unique in the registry |
| AgentService.DefaultRegistry | backend/src/services/agentService.ts:47-48 | the constructor's two registrations give exactly `[web_search, code_analysis]`, in that order |
| AgentService.EffectiveKey | backend/src/services/agentService.ts:192 | a truthy per-run API key is used; otherwise the service's default key |
| AgentService.CallModel | backend/src/services/agentService.ts:190-204 | a failed call fails with the model's message; an empty reply text becomes `"{}"`; any other reply passes through unchanged |
| AgentService.CleanText | backend/src/services/agentService.ts:209 | after removing the code-fence markers and trimming, no ```` ``` ```` remains and no whitespace is left at either end; a reply with no fence is only trimmed, so its content survives |
| AgentService.CleanFenced | backend/src/services/agentService.ts:208-209 | a reply wrapped in a ```` ```json ```` … ```` ``` ```` block, with no fence inside, cleans to its trimmed body |
| AgentService.ParseResponse | backend/src/services/agentService.ts:206-223 | a reply that does not decode becomes a thought-only step `"Failed to parse JSON response: "` + the raw text; a decoded reply keeps its action and input, and its thought defaults to `"No thought provided"`; no step has an observation yet |
| AgentService.Observe | backend/src/services/agentService.ts:114-121 | an unregistered name observes `"Error: Tool '<name>' not found."`; a registered tool observes its output if non-empty, otherwise its error |
| AgentService.FinalResult | backend/src/services/agentService.ts:122-133 | `FINAL_ANSWER` with a truthy `answer` yields that answer; every other ending step yields its thought |
| AgentService.MakeEnv | backend/src/services/agentService.ts:88-99 | a run's environment renders `buildPrompt` for the session's fixed role, goal, tools and files, and parses with `parseResponse` over the run's decoder |
| AgentService.Decide | backend/src/services/agentService.ts:109-133 | the parsed step is appended, nothing before it changes; a tool action keeps the run RUNNING with the observation written on the new step; any other step COMPLETES the run with its final result |
| AgentService.Iteration | backend/src/services/agentService.ts:99-148 | one iteration only appends: the old steps are a prefix; it adds one step, or none when the model call fails (ERROR) |
| AgentService.IterationFails | backend/src/services/agentService.ts:144-148 | unfolding of `Iteration` used by the proofs: a failed model call sets ERROR with `"Error: " + message` and keeps every step |
| AgentService.IterationDecides | backend/src/services/agentService.ts:102-111 | unfolding of `Iteration` used by the proofs: a successful call parses the reply and decides on it |
| AgentService.Steps | backend/src/services/agentService.ts:99 | `n` passes of the loop only extend the steps, by at most `n`; a state still RUNNING after them took exactly `n` |
| AgentService.StepsNext | backend/src/services/agentService.ts:99 | unfolding of `Steps` used by the proofs: a RUNNING state takes one more iteration on the next pass |
| AgentService.StepsSettle | backend/src/services/agentService.ts:99 | once the run has stopped, further passes change nothing |
| AgentService.Finish | backend/src/services/agentService.ts:139-142 | after the loop, a run still RUNNING completes with the partial result and keeps its steps; a stopped run is left as is |
| AgentService.Run | backend/src/services/agentService.ts:88-149 | a whole run ends COMPLETED or ERROR, keeps the earlier steps as a prefix, and adds at most 5 steps |
| AgentService.FilesContext | backend/src/services/agentService.ts:152-155 | the loop over the context files builds `FILES:` and each file's block, truncated to 2000 characters, in order |
| AgentService.HistoryGrows | backend/src/services/agentService.ts:157-160 | the history text of one more step is the old text plus that step's block, numbered from 1 |
| AgentService.StepsHistory | backend/src/services/agentService.ts:157-160 | the loop over the steps builds the numbered history text in order |
| AgentService.Session.constructor | backend/src/services/agentService.ts:60-68 | a new session holds its id, goal and role, is IDLE, and has no steps and no result |
| AgentService.Service.constructor | backend/src/services/agentService.ts:40-49 | a new service has no sessions, the two tools registered in order, and the environment key or `""` as default key |
| AgentService.Service.RegisterTool | backend/src/services/agentService.ts:51-53 | the tool becomes reachable under its own name, every other name keeps its tool, and names stay unique |
| AgentService.Service.StartAgent | backend/src/services/agentService.ts:58-76 | the new session is stored under the fresh id with the given goal and role and no steps; it already reads RUNNING; `getSession` of that id returns this same object |
| AgentService.Service.GetSession | backend/src/services/agentService.ts:81-83 | the stored session object for a known id, nothing for an unknown one |
| AgentService.Service.BuildPrompt | backend/src/services/agentService.ts:151-188 | the prompt is the template filled with the role, goal, tool descriptors, file context and numbered history |
| AgentService.Service.Apply | backend/src/services/agentService.ts:109-133 | the session after handling a parsed step is the one `Decide` describes |
| AgentService.Service.Advance | backend/src/services/agentService.ts:100-133 | one iteration on the session object is `Iteration` |
| AgentService.Service.Pass | backend/src/services/agentService.ts:99-137 | one pass of the `while` loop advances the session from `Steps(n)` to `Steps(n + 1)` |
| AgentService.Service.Drive | backend/src/services/agentService.ts:99-137 | the `while` loop leaves the session exactly as 5 passes of `Steps` do |
| AgentService.Service.RunAgentLoop | backend/src/services/agentService.ts:88-149 | the stored session ends exactly as `Run` describes; an unknown id changes nothing |
| AgentService.Service.Conclude | backend/src/services/agentService.ts:139-142 | the session after the loop is `Finish` of the session before |
| AgentProperties.PassReaches | backend/src/services/agentService.ts:109-148 | a pass preserves the run's shape: every new step but the last named a tool, a COMPLETED run ended on a non-tool step, and an ERROR run carries an `Error: ` result |
| AgentProperties.StepReaches | backend/src/services/agentService.ts:99-137 | one more pass keeps the run's shape |
| AgentProperties.StepsReach | backend/src/services/agentService.ts:99-137 | every number of passes keeps the run's shape |
| AgentProperties.RunOutcome | backend/src/services/agentService.ts:122-148 | a run ends in one of three ways: ERROR with an `Error: ` message after tool steps only; COMPLETED by a non-tool step whose final result is the run's result; or COMPLETED after exactly 5 tool steps with the partial result of the last thought |
| AgentProperties.IterationSameModel | backend/src/services/agentService.ts:102 | an iteration depends on the model only through the one call it makes |
| AgentProperties.StepsUseFirstCalls | backend/src/services/agentService.ts:99-103 | `n` passes use only the first `n` model calls |
| AgentProperties.RunMakesAtMostMaxStepsCalls | backend/src/services/agentService.ts:99 | a run's outcome depends on the first 5 model calls only: it makes at most 5 |
| AgentProperties.FirstReplyEnds | backend/src/services/agentService.ts:122-133 | a first reply naming no tool completes the run after one step, with that step's final result |
| AgentProperties.FinalAnswerRun | backend/src/services/agentService.ts:122-125 | `FINAL_ANSWER` with a non-empty `answer` completes the run with that answer |
| AgentProperties.MalformedReplyRun | backend/src/services/agentService.ts:217-221 | an undecodable first reply completes the run with `"Failed to parse JSON response: "` + the raw text |
| AgentProperties.EmptyReplyRun | backend/src/services/agentService.ts:203 | an empty first reply is read as `{}` and completes the run with `"No thought provided"` |
| AgentProperties.ParseEmptyObject | backend/src/services/agentService.ts:210-216 | `{}` parses to the thought-only step with the default thought |
| AgentProperties.CleanBraces | backend/src/services/agentService.ts:209 | cleaning leaves `{}` as is |
| AgentProperties.FirstCallFailsRun | backend/src/services/agentService.ts:144-148 | a failing first call ends the run in ERROR with `"Error: "` + message, with no step added and no retry |
| AgentProperties.UnknownToolContinues | backend/src/services/agentService.ts:114-117 | an unregistered tool name is observed as not found and the run goes on |
| AgentProperties.PassTool | backend/src/services/agentService.ts:114-121 | a pass whose reply names a tool adds that step and keeps running |
| AgentProperties.StepsOnlyTools | backend/src/services/agentService.ts:99-121 | while the model keeps naming a tool, the run stays RUNNING and its last step has that thought |
| AgentProperties.ToolsUntilLimit | backend/src/services/agentService.ts:139-142 | a model that always names a tool runs to the ceiling: exactly 5 steps, COMPLETED with the partial result |
| AgentProperties.FileBlockBounded | backend/src/services/agentService.ts:152-155 | a file block is its header plus at most 2000 characters of the file |
| AgentProperties.HistoryPrefix | backend/src/services/agentService.ts:157-160 | the history text of a prefix of the steps is a prefix of the history text |
| AgentProperties.StartThenGet | backend/src/services/__tests__/agentService.test.ts:29-54 | a started session has the given goal and role, reads RUNNING with no steps, and `getSession` returns that same object |
| WebSearch.GetDefinition | backend/src/tools/webSearch.ts:7-22 | the descriptor is named `web_search` and has one string parameter `query`, which is required |
| WebSearch.SearchText | backend/src/tools/webSearch.ts:33-39 | the output starts with the results intro followed by the query, so it contains the query |
| WebSearch.Execute | backend/src/tools/webSearch.ts:24-47 | reading `params.query` fails exactly when params are absent or null; then the output is empty and the error is `"Search failed: "` + message; otherwise the output embeds the query and there is no error |
| CodeAnalysis.GetDefinition | backend/src/tools/codeAnalysis.ts:7-26 | the descriptor is named `code_analysis` and has string parameters `filename` and `query`, both required |
| CodeAnalysis.Execute | backend/src/tools/codeAnalysis.ts:43-61 | failing to read params gives empty output and error `"Analysis failed: "` + message; otherwise the output starts `Analysis of <filename> for "<query>":` and there is no error |
| CodeAnalysis.CodeIsIgnored | backend/src/tools/codeAnalysis.ts:43-54 | the optional `code` parameter never changes the result |
| ToolBase.Property | backend/src/tools/webSearch.ts:29 | reading a member of `undefined` or `null` throws; any other value gives the member or nothing |
| ToolBase.OptionalProperty | backend/src/services/agentService.ts:123 | optional chaining gives the member exactly when the value is an object that has it |
| RateLimitService.LimitsOf | backend/src/services/rateLimitService.ts:3-22 | the limits table; exactly the unlimited tier has no bound on any counter |
| RateLimitService.Minus | backend/src/services/rateLimitService.ts:65-69 | limit minus count; `Infinity` stays `Infinity` |
| RateLimitService.AtLeastZero | backend/src/services/rateLimitService.ts:137-143 | `Math.max(0, ·)`: never negative, unchanged when already non-negative |
| RateLimitService.WithCounter | backend/src/services/rateLimitService.ts:56-63 | an update of one kind's counter leaves the other kind's counter as it was |
| RateLimitService.ResetDaily | backend/src/services/rateLimitService.ts:35-43 | the daily count is zeroed exactly when the last use was on another day, including a never-used counter; the monthly count is untouched |
| RateLimitService.Track | backend/src/services/rateLimitService.ts:25-70 | accept iff neither the daily nor the monthly limit is reached; the daily limit is checked first, with its message; a rejection changes nothing beyond the daily reset; an acceptance raises both counts by one, records the day, and reports the limit minus the new daily count, which is ≥ 0 |
| RateLimitService.TrackerOf | backend/src/services/rateLimitService.ts:27-33 | a missing tracker reads as a fresh, never-used one |
| RateLimitService.TrackIn | backend/src/services/rateLimitService.ts:25-70 | a check creates the user's row if missing and changes only that row and only the checked kind's counter |
| RateLimitService.CheckAndTrack | backend/src/services/rateLimitService.ts:25-121 | the unlimited tier is always accepted with unbounded limit and remaining |
| RateLimitService.RateLimitStore.constructor | backend/src/services/rateLimitService.ts:27-33 | the tracker table starts empty |
| RateLimitService.RateLimitStore.Load | backend/src/services/rateLimitService.ts:27-43 | creating the row when missing and the new-day reset leave the stored row as `ResetDaily` of the old one |
| RateLimitService.RateLimitStore.Check | backend/src/services/rateLimitService.ts:25-70 | the step-by-step check leaves the table and returns the verdict `TrackIn` describes |
| RateLimitService.RateLimitStore.CheckAndTrackRequest | backend/src/services/rateLimitService.ts:25-70 | `checkAndTrackRequest` is `CheckAndTrack` on the request counters; unlimited is always accepted |
| RateLimitService.RateLimitStore.CheckAndTrackAnalysis | backend/src/services/rateLimitService.ts:72-121 | `checkAndTrackAnalysis` is `CheckAndTrack` on the analysis counters; unlimited is always accepted |
| RateLimitService.GetUserLimits | backend/src/services/rateLimitService.ts:123-144 | the daily limits; the full limits when no tracker exists, otherwise `max(0, limit − used today)` |
| RateLimitService.LimitsAgreeAfterRequest | backend/src/services/rateLimitService.ts:65-69 | right after an accepted request, `getUserLimits` reports the same remaining count the check returned |
| RateLimitService.MonthlyNeverDecreases | backend/src/services/rateLimitService.ts:56-63 | over any series of checks, of any kind, tier and day, no monthly count ever goes down |
| RateLimitService.TrackStaysWithin | backend/src/services/rateLimitService.ts:46-63 | a check never takes a counter past its daily or monthly limit |
| RateLimitMiddleware.TierOf | backend/src/middleware/rateLimitMiddleware.ts:22-28 | BYOK means unlimited, whatever the credits; otherwise enterprise iff credits > 500, else startup |
| RateLimitMiddleware.Admit | backend/src/middleware/rateLimitMiddleware.ts:6-47 | 401 without a user id, before any lookup; 404 for an unknown user; otherwise the tier's check decides: 429 with the service's message and a one-hour (requests) or one-day (analyses) `retryAfter`, or pass with the limit and remaining; trackers change only after the lookup |
| RateLimitMiddleware.RateLimit | backend/src/middleware/rateLimitMiddleware.ts:6-47 | `rateLimitMiddleware` is `Admit` on the request counters |
| RateLimitMiddleware.AnalysisRateLimit | backend/src/middleware/rateLimitMiddleware.ts:49-90 | `analysisRateLimitMiddleware` is `Admit` on the analysis counters |
| RateLimitMiddleware.UnlimitedUsersPass | backend/src/middleware/rateLimitMiddleware.ts:22-43 | a known BYOK user always passes, without a bound, through either middleware |
| RateLimitMiddleware.MonthlyLimitIsPermanent | backend/src/middleware/rateLimitMiddleware.ts:32-41 | once a finite-tier user has used up the month's requests, every later request is refused with 429, on any day |
| RateLimitMiddleware.Usage | backend/src/routes/rateLimit.ts:9-29 | 404 for an unknown user; otherwise `getUserLimits` under the same tier rule as the middlewares |
| RateLimitMiddleware.UsageMatchesHeader | backend/src/routes/rateLimit.ts:17-24 | right after a request passed, `/usage` reports the same remaining count as the middleware's header |
| BillingRoutes.CostOf | backend/src/routes/billing.ts:10-13 | `startup` costs 50, `enterprise` 150, and no other tier has a cost |
| BillingRoutes.Plans | backend/src/routes/billing.ts:19-43 | the listed plans are exactly the two tiers `/deduct` accepts, each at the credits `/deduct` charges; both are free of money; a trial starts with 400 credits |
| BillingRoutes.OfUser | backend/src/routes/billing.ts:58 | a user's transactions are exactly the rows with that user id |
| BillingRoutes.NewestFirst | backend/src/routes/billing.ts:58 | the rows in reverse creation order |
| JsText.Take | backend/src/routes/billing.ts:65 | `slice(0, n)` and `substring(0, n)`: a prefix of length `min(n, length)`; used for `/usage`'s 10 rows, the 20 selected files and the truncated file contents |
| BillingRoutes.GetUsage | backend/src/routes/billing.ts:49-71 | 404 for an unknown user; otherwise the credits and BYOK flag, `spent` as the sum over the latest ≤ 100 transactions, and at most 10 of them, newest first |
| BillingRoutes.Deduct | backend/src/routes/billing.ts:77-135 | 400 for a missing user id or tier; 400 `Invalid tier`; 404 for an unknown user; 200 with nothing changed for BYOK; 402 with `required` and `available` and nothing changed when credits are short; otherwise the balance drops by the cost and exactly one completed transaction of that amount is recorded; nothing changes unless the status is 200 |
| BillingRoutes.Upgrade | backend/src/routes/billing.ts:141-165 | 400 without a user id; an unknown user fails with 500; otherwise the user becomes BYOK with 0 credits and no other row changes |
| BillingRoutes.RoutesKeepNoDebt | backend/src/routes/billing.ts:101-111 | neither route takes any balance below zero |
| BillingRoutes.SumAppend | backend/src/routes/billing.ts:59 | the sum of the amounts is additive |
| BillingRoutes.OfUserAppend | backend/src/routes/billing.ts:58 | a new row is among its user's rows, and no one else's |
| BillingRoutes.DeductKeepsLedger | backend/src/routes/billing.ts:109-121 | credits are not lost or made up: for every user, the balance plus the recorded charges is the same before and after `/deduct` |
| BillingRoutes.DeductChargesPositive | backend/src/routes/billing.ts:114-120 | every recorded charge is positive |
| BillingRoutes.DeductAfterUpgradeIsFree | backend/src/routes/billing.ts:96-99 | after the upgrade, `/deduct` charges and records nothing, whatever the tier |
| BillingRoutes.UpgradeIdempotent | backend/src/routes/billing.ts:141-165 | upgrading twice is upgrading once |
| BillingRoutes.SumPrefix | backend/src/routes/billing.ts:59-65 | with positive charges, a prefix sums to no more than the whole |
| BillingRoutes.OfUserPositive | backend/src/routes/billing.ts:58 | one user's rows keep positive charges positive |
| BillingRoutes.UsageSpentCoversListed | backend/src/routes/billing.ts:58-65 | `spent` is at least the sum of the transactions `/usage` lists |
| BillingRoutes.BillingStore.constructor | backend/src/routes/billing.ts:77-135 | the store starts with the given users and no transactions |
| BillingRoutes.BillingStore.PostDeduct | backend/src/routes/billing.ts:77-135 | the handler's database updates and reply are `Deduct` |
| BillingRoutes.BillingStore.PostUpgrade | backend/src/routes/billing.ts:141-165 | the handler's update and reply are `Upgrade`; transactions are untouched |
| BrowserBackend.GetCosts | codecouncil-ai/services/backend.ts:134-137 | the browser's costs are the server's: 50 for startup, 150 for enterprise |
| BrowserBackend.Charge | codecouncil-ai/services/backend.ts:139-157 | no stored user throws `User not found`; BYOK returns true and changes nothing; too few credits return false and change nothing; otherwise credits drop by exactly the cost and every other field is kept |
| BrowserBackend.ChargeKeepsBalance | codecouncil-ai/services/backend.ts:150-156 | a charge never takes a non-negative balance below zero |
| BrowserBackend.ChargeChangesOnlyWhenPaid | codecouncil-ai/services/backend.ts:145-152 | a refused or free charge leaves the stored user as it was |
| BrowserBackend.ChargeAgreesWithDeduct | codecouncil-ai/services/backend.ts:139-157 | the browser charge and the server's `/deduct` agree on success, on when credits change, and on the new balance |
| BrowserBackend.Unlimit | codecouncil-ai/services/backend.ts:159-170 | no stored user throws `User not found`; otherwise BYOK with 0 credits and every other field kept |
| BrowserBackend.ChargeAfterUpgradeIsFree | codecouncil-ai/services/backend.ts:145-148 | after the upgrade, every charge succeeds and changes nothing |
| BrowserBackend.Prepend | codecouncil-ai/services/backend.ts:111-112 | the new record comes first; the old records follow in their order, so the length grows by one |
| BrowserBackend.BrowserStore.constructor | codecouncil-ai/services/backend.ts:12-16 | both storage entries start absent |
| BrowserBackend.BrowserStore.HistorySync | codecouncil-ai/services/backend.ts:124-127 | the stored history, or no records when nothing is stored |
| BrowserBackend.BrowserStore.UpdateCredits | codecouncil-ai/services/backend.ts:88-95 | only the stored user's credits change; nothing happens when no user is stored |
| BrowserBackend.BrowserStore.SaveAudit | codecouncil-ai/services/backend.ts:102-116 | the new record gets the id and timestamp and goes in front of the stored history; the user entry is untouched |
| BrowserBackend.BrowserStore.ProcessTransaction | codecouncil-ai/services/backend.ts:139-157 | the result and the stored user are `Charge` of the old stored user |
| BrowserBackend.BrowserStore.UpgradeToUnlimited | codecouncil-ai/services/backend.ts:159-170 | the result is `Unlimit` of the stored user, and on success that profile is stored |
| GithubService.ParseRepoUrl | codecouncil-ai/services/githubService.ts:20-32 | an unparseable URL gives null; otherwise owner and repo are the first two non-empty path segments, and null when there are fewer than two |
| GithubService.ParsedAreSegments | codecouncil-ai/services/githubService.ts:23-28 | a parsed owner and repo are each one non-empty segment without `/` |
| GithubService.ParseRepoPath | codecouncil-ai/services/githubService.ts:22-28 | `/owner/repo`, followed by any further segments, parses to exactly that owner and repo; later segments are ignored |
| GithubService.OneSegmentIsNotARepo | codecouncil-ai/services/githubService.ts:24 | a path with a single segment gives null |
| GithubService.EndsWithAny | codecouncil-ai/services/githubService.ts:60 | `some(ext => path.endsWith(ext))`: true iff some extension ends the path |
| GithubService.Filter | codecouncil-ai/services/githubService.ts:59-62 | keeps exactly the kept items, and never adds any |
| GithubService.FilterFilter | codecouncil-ai/services/githubService.ts:59-62 | two filters in a row are one filter by the conjunction |
| GithubService.ChainIsQualifying | codecouncil-ai/services/githubService.ts:58-62 | the four filters keep exactly the qualifying entries, in tree order |
| GithubService.SelectionIsFirstQualifying | codecouncil-ai/services/githubService.ts:56-63 | the selection is the first 20 qualifying entries (blobs with a listed extension and no lock-file name) in tree order; every qualifying entry when there are at most 20 |
| GithubService.NoLockFiles | codecouncil-ai/services/githubService.ts:61-62 | no selected path contains `package-lock.json` or `yarn.lock` |
| GithubService.FetchRepoTree | codecouncil-ai/services/githubService.ts:42-63 | a successful listing gives the selection; a failure on a branch other than `main` throws `"Failed to fetch repository tree: "` + status text |
| GithubService.MainFallsBackToMaster | codecouncil-ai/services/githubService.ts:45-51 | a failure on `main` retries once on `master`; when both fail, the error is `master`'s |
| GeminiService.FileSection | codecouncil-ai/services/geminiService.ts:15-19 | a file's section starts with its `--- FILE: <name> ---` header |
| GeminiService.ContextOf | codecouncil-ai/services/geminiService.ts:9-23 | no files give exactly `"No files provided."`; otherwise the context starts with `"CODEBASE CONTEXT:\n\n"` |
| GeminiService.PrepareContext | codecouncil-ai/services/geminiService.ts:9-23 | the `forEach` loop builds the context `ContextOf` describes |
| GeminiService.SectionsAppend | codecouncil-ai/services/geminiService.ts:14-20 | the sections of two lists of files are the sections of each, in order |
| GeminiService.FileInPlace | codecouncil-ai/services/geminiService.ts:14-20 | each file's section stands in the context after the files before it and before the files after it |
| GeminiService.SectionBounded | codecouncil-ai/services/geminiService.ts:18 | a file contributes at most its first 50000 characters, whatever its size |
| GeminiService.SelectKey | codecouncil-ai/services/geminiService.ts:46 | the stored BYOK key comes first, then the build-time key; the key is empty iff neither is set |
| GeminiService.Citations | codecouncil-ai/services/geminiService.ts:72-81 | there are no more citations than chunks |
| GeminiService.CitationsAreUris | codecouncil-ai/services/geminiService.ts:74-80 | every citation is the non-empty `web.uri` of some chunk, and every chunk with one gives a citation |
| GeminiService.ExtractCitations | codecouncil-ai/services/geminiService.ts:72-81 | the loop over the grounding chunks collects `Citations`; no chunks give no citations |
| GeminiService.Analyze | codecouncil-ai/services/geminiService.ts:34-91 | without a key, the fixed no-key text and no citations; a failed call gives `"Error: "` + message (or the default) and no citations; a reply gives its text or `"No response generated."`, and its citations |
| GeminiService.RunAgentAnalysis | codecouncil-ai/services/geminiService.ts:34-91 | the step-by-step analysis returns `Analyze` |
| GeminiService.NoKeyFails | codecouncil-ai/services/geminiService.ts:48-53 | without a key, no model is consulted, the app marks the agent failed, and there are no citations |
| GeminiService.FailedCallFails | codecouncil-ai/services/geminiService.ts:84-90 | a failed call is marked failed and has no citations |
| GeminiService.ReplyStatus | codecouncil-ai/App.tsx:92 | a reply is marked failed exactly when its own text starts with `Error`; an empty reply becomes the default and is not marked failed |

## Left out

- The hosted model calls, `GoogleGenAI` and `generateContent`: the model is an oracle
  passed in. The model name, temperature and the `tools` option sent with the request are
  not modelled.
- `JSON.parse` and the `localStorage` JSON encoding: parsing is an abstract decoder, and
  the storage slots hold decoded values.
- JSON values other than strings in a model reply or a tool's input. `Input.Object` keeps
  only string-valued members, and a decoded reply's `thought`, `action` and
  `actionInput.answer` are strings. A reply such as `"actionInput": {"answer": 42}` makes
  the source's result the number 42, where the model falls back to the thought. A tool
  input `{"query": 5}` is embedded as `5` by the source and as absent by the model.
- Context files that are not `{name, content}` pairs of strings. The request body's
  `files` array is taken unchecked by the source, and a file without `content` makes
  `buildPrompt` throw before the first model call, so the session is ERROR by the time
  `startAgent` returns. The model's `ContextFile` always carries both strings, and
  `AgentService.Service.StartAgent`'s RUNNING status holds only for such files.
- `JSON.stringify` of a tool descriptor is written out by hand, for the members a
  descriptor has. It is not a general JSON encoder.
- Timestamps: `new Date()`, `createdAt`, `updatedAt`, `lastRequestTime`, the
  `X-RateLimit-Reset` header and the audit record's timestamp. Days are integers, a
  saved record's timestamp is passed in, and "newest first" is taken as reverse insertion
  order.
- Random and database ids (`uuidv4`, `Math.random`, transaction ids) are passed in.
  `StartAgent` requires the id to be fresh, as a UUID is.
- Concurrency: the fire-and-forget start of `runAgentLoop` and interleaving between
  sessions. `StartAgent` performs the loop's synchronous first step (status RUNNING), and
  the rest of the run is `RunAgentLoop`, called on its own.
- Interleaving of HTTP requests for the same user. Each route handler and each
  middleware runs as one atomic step on the stores. In the source, `/deduct` reads the
  user, awaits, then writes an absolute balance, and `checkAndTrackRequest` reads the
  tracker, awaits, then writes the incremented counts. Two overlapping `/deduct` calls can
  both charge against the same balance, and two overlapping checks at one below the limit
  can both be admitted. `BillingRoutes.DeductKeepsLedger` and
  `RateLimitService.TrackStaysWithin` hold only when requests for one user do not overlap.
- `AgentService.Service.StartAgent` does not record the context files and API key the
  source hands to the background run; `RunAgentLoop` takes them as parameters.
- Logging, `console` output, Sentry, `logAuditEvent` rows and Prometheus metrics.
- Database and transport failures, the 500 paths, except the upgrade of an unknown user.
  There the source's update throws, which the model answers with 500.
- Reading a user row for the middlewares and `/usage`: the user table is a map passed in.
- The blob-fetching half of `fetchRepoContents` (`fetch` of each blob, `atob`, the
  per-file `console.warn` skip, and `Promise.all` ordering). The tree fetch is a function
  passed in.
- `getHistory`: it only adds latency to `getHistorySync`.
- `Backend.auth` login, logout, `saveApiKey` and `googleLogin`; `startBackendAgent` and
  `getAgentStatus` in `geminiService.ts`. These are network wrappers.
- Prisma defaults other than the ones the code relies on, and JavaScript prototype keys
  such as `COSTS['toString']`. Tier lookups are closed finite maps.
- Floating-point numbers: credits and counters are unbounded integers, and `Infinity`
  limits are `Unbounded`.
- Strings are sequences of `char`, with no UTF-16 surrogate handling. `substring`
  truncation counts `char`s.
- `GeminiService.Citations`: its own contract states only the bound on the count. What
  the citations are is stated by `GeminiService.CitationsAreUris`, which does not speak
  of order; the order follows from the definition.
