# insightx core, modelled in Dafny

insightx is a GitHub App back end that reviews pull requests with an AI
model. This project models its core:

- **The webhook** (`webhook.dfy`). The POST handler checks the signature,
  parses the body, answers 202 and schedules the processing.
  `processWebhookEvent` dispatches on the event name:
  - pull requests go through the pipeline: fetch the details, ask the
    analyser, publish a check run, store a row;
  - installations are listed;
  - pings are logged.

  As written, the POST handler then returns nothing (see Findings); the
  model also gives the corrected handler, which returns the 202 reply.
  Each handler is an imperative method that appends what it does to an
  effect trace. Each is proved equal to a function that specifies the
  trace, and the lemmas about those functions state the pipeline's order
  and failure isolation.
- **The analyser** (`ai_provider.dfy`, `pr_analyzer.dfy`):
  - the Ollama provider: its prompt, the greedy `{…}` extraction, the
    score-7 fallback, and throwing on a non-ok reply;
  - `PRAnalyzerService`, a class whose provider can be swapped. It turns
    every provider failure into the score-5 fallback.
- **The GitHub service** (`github_service.dfy`):
  - the throttle and retry policy;
  - `getPRDetails`, `getPRFiles`, `getPRComments` and `getRepoReadme`, with
    their error mapping;
  - `transformPRData`;
  - the static `parsePRUrl`.
- **The analysis module's own GitHub client** (`github_client.dfy`): its
  unlimited throttle callbacks and its unchecked `parsePRUrl`.
- **The analysis route** (`analysis_routes.dfy`):
  - `parseGitHubPRUrl`, whose regular expression is modelled as a
    leftmost matcher;
  - the `/analyze` handler, over the service as written.
- **The error taxonomy** (`errors.ts`, in `errors.dfy`): codes, statuses,
  messages, `AppError`, the two factories and `errorHandler`.
- **`js.dfy`** gives the JavaScript behaviour the code relies on:
  - `String.prototype.split` and `join`;
  - `filter(Boolean)`;
  - `parseInt` with and without a radix (a `0x` prefix is hexadecimal
    without one);
  - number-to-string conversion;
  - substring tests.

Collaborators outside the core are function-valued parameters: Octokit, the
database, `fetch`, `JSON.parse`, signature verification and `new URL`.
`Result`/`Option` values carry what they return or throw. A thrown value is
a `Thrown`: an `AppError`, another `Error` (name, message, optional
`status`), a string, an object with or without a `message` property, or
anything else.

Where the code's own declarations and comments promise more than the code
does, the model follows the code:
- **Decoded score.** The score is declared as 1 to 10
  (packages/ai/src/types.ts:11), and the prompt asks the model for an
  integer from 1 to 10 (packages/ai/src/providers/ollama-provider.ts:56).
  The code does not range-check a decoded `qualityScore`
  (`AiProvider.DecodedScoreNotRangeChecked`).
- **Missing score.** The code does not fall back when the decoded
  `qualityScore` is missing.
- **JSON extraction.** The code takes the span from the first `{` to the
  last `}`, not the first balanced block (`AiProvider.SpanOfWrapped`).
- **Responses.** The webhook handler returns no response at all (see
  Findings). A body that is not JSON makes it throw, so 202 and 401 are not
  the only outcomes.

## Model

| member | source | states |
|---|---|---|
| Errors.Status | apps/api/src/lib/errors.ts:45-63 | every code's HTTP status, as an if-and-only-if per status: 400 exactly for the three input codes, 401 for UNAUTHORIZED, 403 for ACCESS_DENIED and FORBIDDEN, 404 for the three not-found codes, 429 for the two rate limits, 500 for the four internal codes, 502 for EXTERNAL_API_ERROR, 503 for AI_SERVICE_UNAVAILABLE |
| Errors.DefaultMessage | apps/api/src/lib/errors.ts:66-84 | every code has a non-empty user-facing message |
| Errors.DefaultMessagesDistinct | apps/api/src/lib/errors.ts:66-84 | two different codes never share a default message |
| Errors.NewAppError | apps/api/src/lib/errors.ts:90-104 | code, details and cause are kept; a non-empty message is kept; an absent or empty one (`message \|\| …`) becomes the code's default, so the message is never empty |
| Errors.StatusCode | apps/api/src/lib/errors.ts:109-111 | the status is the map's entry for the code and always one of the eight mapped statuses, so the `\|\| 500` fallback is never used |
| Errors.ToResponse | apps/api/src/lib/errors.ts:116-139 | `success` is false; code, message and timestamp are copied; details and stack are present exactly when NODE_ENV is "development" |
| Errors.CreateValidationError | apps/api/src/lib/errors.ts:145-150 | VALIDATION_ERROR with status 400, message "field: message", details {field, message}, no cause |
| Errors.CreateDatabaseError | apps/api/src/lib/errors.ts:155-162 | DATABASE_ERROR with status 500, message naming the operation, details {operation}, and the original error as cause |
| Errors.ErrorHandler | apps/api/src/lib/errors.ts:167-195 | the reply status always matches the reply's code; an AppError is answered as its own response; a ZodError as VALIDATION_ERROR 400 whose debug details, in development, are its issues; any other error as INTERNAL_ERROR 500 |
| GitHubService.OnRateLimit | apps/api/src/modules/analysis/services/github.service.ts:73-83 | the primary-limit callback retries exactly while at most one retry was made |
| GitHubService.OnSecondaryRateLimit | apps/api/src/modules/analysis/services/github.service.ts:84-93 | the secondary-limit callback never retries |
| GitHubService.GrantedFrom | apps/api/src/modules/analysis/services/github.service.ts:73-83 | the number of consecutive retries the throttle grants: every retry before it is granted, and the next is refused |
| GitHubService.PrimaryRateLimitRetriesTwice | apps/api/src/modules/analysis/services/github.service.ts:78-82 | a primary rate limit is retried exactly twice |
| GitHubService.SecondaryRateLimitNeverRetried | apps/api/src/modules/analysis/services/github.service.ts:84-93 | a secondary rate limit is never retried |
| GitHubService.ShouldRetry | apps/api/src/modules/analysis/services/github.service.ts:95-97 | a status in doNotRetry (400, 401, 403, 404, 422) is never retried; any other status is retried exactly while fewer than 3 retries were made |
| GitHubService.RetryBudget | apps/api/src/modules/analysis/services/github.service.ts:95-97 | over any horizon longer than the budget, a retryable status gets exactly 3 retries and a doNotRetry status none |
| GitHubService.Backoff | apps/api/src/modules/analysis/services/github.service.ts:98-100 | the delay is between 1 s and 30 s |
| GitHubService.BackoffMonotone | apps/api/src/modules/analysis/services/github.service.ts:98-100 | the delay never shrinks as retries accumulate |
| GitHubService.BackoffCapped | apps/api/src/modules/analysis/services/github.service.ts:98-100 | the delays are 1, 2, 4, 8 and 16 s, then 30 s from the fifth retry on |
| GitHubService.TransformPRDataAsWritten | apps/api/src/modules/analysis/services/github.service.ts:261-286 | as written, the transform throws (a ReferenceError on `owner`) exactly when the base repository has no full name |
| GitHubService.TransformPRData | apps/api/src/modules/analysis/services/github.service.ts:261-286 | every field is copied; the user defaults to "unknown" and the avatar to ""; the base repository's full name falls back to "owner/repo" |
| GitHubService.TransformDefect | apps/api/src/modules/analysis/services/github.service.ts:278 | the two transforms agree whenever the base repository has a full name, and differ (throw vs fallback) otherwise |
| GitHubService.DetailsFailure | apps/api/src/modules/analysis/services/github.service.ts:127-148 | a failure maps to PR_NOT_FOUND exactly for status 404, ACCESS_DENIED exactly for 403, and EXTERNAL_API_ERROR otherwise, with the quoted messages |
| GitHubService.GetPRDetails | apps/api/src/modules/analysis/services/github.service.ts:112-149 | succeeds exactly when the fetch does, with the transformed data; a failure is mapped by DetailsFailure |
| GitHubService.GetPRDetailsAsWritten | apps/api/src/modules/analysis/services/github.service.ts:112-149 | succeeds exactly when the fetch does and the base repository has a name, agreeing then with the corrected service; a failed fetch is mapped as in the corrected service; a fetched pull request without a base repository name fails with the mapping of the transform's ReferenceError "owner is not defined" |
| GitHubService.MissingBaseRepoReportedAsUpstreamFailure | apps/api/src/modules/analysis/services/github.service.ts:126-147 | a pull request whose base repository is missing or has a missing or empty name is reported as a 502 upstream failure as written, but read with the "owner/repo" fallback once corrected |
| GitHubService.MapFiles | apps/api/src/modules/analysis/services/github.service.ts:169-176 | one output file per input file, in order |
| GitHubService.GetPRFiles | apps/api/src/modules/analysis/services/github.service.ts:154-184 | on success, every file's fields are copied in order; any failure becomes EXTERNAL_API_ERROR 502 quoting the error's message |
| GitHubService.UserLogin | apps/api/src/modules/analysis/services/github.service.ts:217 | `user?.login \|\| "unknown"`: the login when present and non-empty, otherwise "unknown" |
| GitHubService.UserAvatar | apps/api/src/modules/analysis/services/github.service.ts:273 | `user?.avatar_url \|\| ""`: the avatar URL when present, otherwise "" |
| GitHubService.MapReviews | apps/api/src/modules/analysis/services/github.service.ts:213-219 | one entry per review, in order |
| GitHubService.MapComments | apps/api/src/modules/analysis/services/github.service.ts:220-226 | one entry per issue comment, in order |
| GitHubService.GetPRComments | apps/api/src/modules/analysis/services/github.service.ts:189-237 | the reviews, then the comments, in order, each with its id, body and the user's login or "unknown"; reviews keep their state and comments have state COMMENTED; a failure of either call becomes EXTERNAL_API_ERROR 502 with message "获取PR评论失败: " and the error's message |
| GitHubService.GetRepoReadme | apps/api/src/modules/analysis/services/github.service.ts:242-256 | the decoded README; null on 404; any other error rethrown unchanged |
| GitHubService.PathSegments | apps/api/src/modules/analysis/services/github.service.ts:305 | the segments are non-empty and contain no slash |
| GitHubService.SlashesIgnored | apps/api/src/modules/analysis/services/github.service.ts:305 | a trailing slash, or an extra leading one, leaves the segments unchanged |
| GitHubService.SlashesIgnoredByParser | apps/api/src/modules/analysis/services/github.service.ts:293-326 | "/o/r/pull/7/" and "//o/r/pull/7" parse exactly as "/o/r/pull/7" |
| GitHubService.ParsePRUrl | apps/api/src/modules/analysis/services/github.service.ts:293-326 | succeeds exactly when the URL parses, the host contains "github.com", there are at least 4 segments, the third is "pull", and the fourth starts with a decimal number; the result is those segments; every failure is INVALID_INPUT 400 with no details or cause, and message "无效的GitHub PR URL: " followed by the reason: "Invalid URL", "必须是GitHub URL", "无效的PR URL格式" or "PR编号必须是数字" |
| GitHubService.PullPathSegments | apps/api/src/modules/analysis/services/github.service.ts:305 | the segments of "/owner/repo/pull/n/…" are exactly owner, repo, "pull", n and the extra segments |
| GitHubService.CanonicalUrlAccepted | apps/api/src/modules/analysis/services/github.service.ts:293-326 | a canonical pull-request URL on a host containing "github.com", with any further segments, parses to its owner, repository and number |
| GitHubService.DigitPrefixAccepted | apps/api/src/modules/analysis/services/github.service.ts:313-317 | a number segment is read up to its first non-digit |
| GitHubService.HostIsSubstringCheck | apps/api/src/modules/analysis/services/github.service.ts:301-303 | "github.com.example.org" is accepted and "gitlab.com" refused: the check is a substring test |
| GitHubClient.OnRateLimit | apps/api/src/modules/analysis/github/client.ts:13-19 | the primary-limit callback always retries |
| GitHubClient.OnSecondaryRateLimit | apps/api/src/modules/analysis/github/client.ts:20-25 | the secondary-limit callback always retries |
| GitHubClient.RateLimitsUncapped | apps/api/src/modules/analysis/github/client.ts:13-25 | both throttle callbacks grant every retry over any horizon |
| GitHubClient.SecondaryPoliciesDisagree | apps/api/src/modules/analysis/github/client.ts:20-25 | the client retries secondary rate limits at every count; the service never does |
| GitHubClient.ParsePRUrl | apps/api/src/modules/analysis/github/client.ts:53-57 | throws the TypeError of `new URL` exactly when the string is not a URL, and otherwise destructures the path |
| GitHubClient.Destructure | apps/api/src/modules/analysis/github/client.ts:55-56 | owner and repository are the second and third pieces of the unfiltered split, present exactly when the path has that many pieces; with at least five pieces the number is `parseInt` (no radix) of the fifth, NaN otherwise |
| GitHubClient.AcceptsAnyHostAndThirdSegment | apps/api/src/modules/analysis/github/client.ts:53-57 | any host and any third segment (even with an empty owner or repository) yield the owner, repository and number |
| GitHubClient.ShortPathHasNoNumber | apps/api/src/modules/analysis/github/client.ts:55-56 | with four pieces or fewer the number is NaN |
| GitHubClient.HexNumberSegment | apps/api/src/modules/analysis/github/client.ts:56 | parseInt without a radix reads "/o/r/pull/0x1f" as pull request 31 |
| GitHubClient.HexNumberSegmentInService | apps/api/src/modules/analysis/services/github.service.ts:313 | radix 10 reads the same path as pull request 0 |
| AnalysisRoutes.Segment | apps/api/src/modules/analysis/routers/analysis.routes.ts:44 | the `([^\/]+)\/` group takes a non-empty slash-free run and the slash after it |
| AnalysisRoutes.Digits | apps/api/src/modules/analysis/routers/analysis.routes.ts:44 | the greedy `(\d+)` group takes every leading digit |
| AnalysisRoutes.MatchAt | apps/api/src/modules/analysis/routers/analysis.routes.ts:44 | a match at one position has non-empty slash-free owner and repository and a non-empty digit run |
| AnalysisRoutes.MatchAtSound | apps/api/src/modules/analysis/routers/analysis.routes.ts:44 | the input is the matched text followed by text that does not start with a digit |
| AnalysisRoutes.MatchAtFinds | apps/api/src/modules/analysis/routers/analysis.routes.ts:44 | every well-formed match is found, with exactly the groups it was built from |
| AnalysisRoutes.FirstMatchFrom | apps/api/src/modules/analysis/routers/analysis.routes.ts:45 | the search returns the leftmost position where the pattern matches, or none if it matches nowhere |
| AnalysisRoutes.PullNumber | apps/api/src/modules/analysis/routers/analysis.routes.ts:52 | `parseInt` of the digit group is its decimal value |
| AnalysisRoutes.ParseGitHubPRUrl | apps/api/src/modules/analysis/routers/analysis.routes.ts:41-54 | null exactly when the pattern matches nowhere; otherwise the groups of the leftmost match, with non-empty slash-free owner and repository and a non-negative number |
| AnalysisRoutes.LeftmostMatchDecides | apps/api/src/modules/analysis/routers/analysis.routes.ts:45-53 | the result is taken from the leftmost matching position |
| AnalysisRoutes.CanonicalUrlParsed | apps/api/src/modules/analysis/routers/analysis.routes.ts:41-54 | a canonical URL after leading text that contains no 'h', followed by nothing or by a non-digit, is read as its owner, repository and number |
| AnalysisRoutes.NoPrefixNoMatch | apps/api/src/modules/analysis/routers/analysis.routes.ts:44-48 | a string without "https://github.com/" is refused |
| AnalysisRoutes.HttpSchemeRejected | apps/api/src/modules/analysis/routers/analysis.routes.ts:44 | an `http://` URL is refused |
| AnalysisRoutes.ParsersAgreeOnCanonicalUrl | apps/api/src/modules/analysis/routers/analysis.routes.ts:41-54 | on a canonical URL the route's parser, the service's and the client's read the same owner, repository and number |
| AnalysisRoutes.Settle | apps/api/src/modules/analysis/routers/analysis.routes.ts:28-31 | `Promise.all`: both values exactly when both fetches succeed; otherwise the rejection of a failing fetch, and the only one when just one fails |
| AnalysisRoutes.Analyze | apps/api/src/modules/analysis/routers/analysis.routes.ts:12-39 | 400 "Invalid GitHub PR URL" exactly when the parser refuses; 200 exactly when both fetches succeed and the base repository has a name, with the transformed details and the service's files; otherwise the handler rejects with the AppError of a failing call (the details' when only they fail, the files' when only they fail) |
| AnalysisRoutes.MissingBaseRepoRejected | apps/api/src/modules/analysis/routers/analysis.routes.ts:28-31 | a pull request whose base repository has no name is rejected with EXTERNAL_API_ERROR 502 "GitHub API错误: owner is not defined" |
| AiProvider.NewOllamaProvider | packages/ai/src/providers/ollama-provider.ts:8-11 | the base URL defaults to http://localhost:11434 |
| AiProvider.BuildPrompt | packages/ai/src/providers/ollama-provider.ts:42-60 | the prompt contains the title, description, author and fenced diff lines |
| AiProvider.PromptDefaults | packages/ai/src/providers/ollama-provider.ts:46-47 | a missing or empty description reads "无" and author "未知"; otherwise they are quoted as given |
| AiProvider.ExtractJsonSpan | packages/ai/src/providers/ollama-provider.ts:68 | a span exists exactly when some `{` precedes some `}`; it starts with `{` and ends with `}` |
| AiProvider.SpanOfWrapped | packages/ai/src/providers/ollama-provider.ts:68 | the span runs from the first `{` to the last `}`, taking in everything between (greedy) |
| AiProvider.MalformedFallback | packages/ai/src/providers/ollama-provider.ts:73-78 | score 7, the title in the summary, one suggestion and one risk |
| AiProvider.ParseResponse | packages/ai/src/providers/ollama-provider.ts:62-88 | the decoded span when there is one and it decodes; otherwise (no text, no span, invalid JSON) the score-7 fallback |
| AiProvider.NoBracesGiveScoreSeven | packages/ai/src/providers/ollama-provider.ts:68-78 | text without a `{` or without a `}` gives score 7 |
| AiProvider.DecodedScoreNotRangeChecked | packages/ai/src/providers/ollama-provider.ts:69-71 | a decoded score of 42 is passed on unchecked |
| AiProvider.OllamaAnalyzePR | packages/ai/src/providers/ollama-provider.ts:13-40 | posts the prompt to baseUrl + "/api/generate"; a network or JSON error is rethrown; a non-ok reply throws "Ollama API Error: statusText"; otherwise the reply text is parsed |
| AiProvider.AnalyzePR | packages/ai/src/providers/base-provider.ts:5-8 | dispatches to the Ollama provider or to any other provider's own analysis |
| AiProvider.NonOkStatusThrows | packages/ai/src/providers/ollama-provider.ts:31-33 | a non-ok reply throws the quoted Error rather than falling back |
| PRAnalyzer.ErrorMessage | packages/ai/src/services/pr-analyzer.service.ts:23-30 | the message of an Error, the string itself, the `message` property of an object, else "未知错误" |
| PRAnalyzer.UnavailableFallback | packages/ai/src/services/pr-analyzer.service.ts:32-37 | score 5 and the error message in the summary |
| PRAnalyzer.Recover | packages/ai/src/services/pr-analyzer.service.ts:13-39 | a result is passed on unchanged; any failure becomes the score-5 fallback naming the error |
| PRAnalyzer.PRAnalyzerService.constructor | packages/ai/src/services/pr-analyzer.service.ts:9-11 | the given provider, or an Ollama provider at the default URL |
| PRAnalyzer.PRAnalyzerService.Analyze | packages/ai/src/services/pr-analyzer.service.ts:13-39 | the provider's result, recovered; it never throws |
| PRAnalyzer.PRAnalyzerService.SetProvider | packages/ai/src/services/pr-analyzer.service.ts:41-44 | later analyses use the new provider |
| PRAnalyzer.FallbacksDistinguishable | packages/ai/src/services/pr-analyzer.service.ts:32-37 | the unavailable and malformed fallbacks differ in score and in summary prefix, whatever the title or message |
| PRAnalyzer.OllamaErrorScoresFive | packages/ai/src/services/pr-analyzer.service.ts:13-39 | a non-ok Ollama reply reaches the caller as score 5 quoting the status text |
| PRAnalyzer.UnstructuredReplyScoresSeven | packages/ai/src/services/pr-analyzer.service.ts:13-39 | a reply without a `{` reaches the caller as score 7 |
| Webhook.Classify | apps/api/src/routes/github/webhook.ts:19-30 | pull_request with opened or synchronize, installation with created, or ping, each as an if-and-only-if; everything else is unhandled |
| Webhook.HandlePullRequest | apps/api/src/routes/github/webhook.ts:70-151 | the steps the handler takes and what it throws are exactly PullRequestRun's |
| Webhook.ReportCheckRun | apps/api/src/routes/github/webhook.ts:105-131 | the check-run step's effects: the call, and on failure its message, plus the permission hint for 403 |
| Webhook.Store | apps/api/src/routes/github/webhook.ts:134-148 | the insert, and on failure its message |
| Webhook.HandleInstallation | apps/api/src/routes/github/webhook.ts:153-167 | the account, the count and the numbered listing, as InstallationRun |
| Webhook.ProcessWebhookEvent | apps/api/src/routes/github/webhook.ts:12-35 | the dispatch with a fresh analyser, its handler's effects, and a logged failure in place of a thrown one, as ProcessEffects |
| Webhook.HandlePost | apps/api/src/routes/github/webhook.ts:38-67 | 401 without parsing on a bad signature; a throw on a body that is not JSON; otherwise status and body are set before the processing is scheduled and 202 is returned (corrected) |
| Webhook.Deliver | apps/api/src/routes/github/webhook.ts:59-62 | the processing runs after the handler, on the payload it parsed |
| Webhook.CorrectedAlwaysAnswers | apps/api/src/routes/github/webhook.ts:55-66 | the corrected handler always has an outcome, and a signed JSON delivery is answered 202 with its event and delivery id |
| Webhook.AcceptedDeliveryUnanswered | apps/api/src/routes/github/webhook.ts:55-66 | as written, a signed JSON delivery sets status 202 and the body but the handler returns nothing |
| Webhook.BadSignatureRejected | apps/api/src/routes/github/webhook.ts:46-51 | a bad signature is answered 401 "Invalid signature" with nothing parsed, scheduled or processed |
| Webhook.MalformedBodyThrows | apps/api/src/routes/github/webhook.ts:53 | a signed body that is not JSON makes the handler throw with nothing scheduled |
| Webhook.PostAsWritten | apps/api/src/routes/github/webhook.ts:38-67 | the handler as written: 401 on a bad signature, a throw on a body that is not JSON, and otherwise status 202 and the body set, the processing scheduled, and no reply returned |
| Webhook.AcceptedBeforeProcessing | apps/api/src/routes/github/webhook.ts:55-62 | the corrected handler answers a signed JSON delivery with 202; every processing effect comes after parse, status, body and scheduling |
| Webhook.OtherActionsOnlyLogged | apps/api/src/routes/github/webhook.ts:19-30 | other pull-request and installation actions, and unknown events, are only logged |
| Webhook.PingMakesNoCalls | apps/api/src/routes/github/webhook.ts:26-27 | a ping makes no GitHub, AI or database call |
| Webhook.NullPayload | apps/api/src/routes/github/webhook.ts:18-34 | a null payload is harmless for a ping and logged as a failure for any other event |
| Webhook.PullRequestFailureLogged | apps/api/src/routes/github/webhook.ts:18-34 | what the pull-request handler throws is logged last and not passed on |
| Webhook.IncompletePayloadThrows | apps/api/src/routes/github/webhook.ts:75-80 | without installation, pull request or repository the handler throws before any call |
| Webhook.FetchFailureStops | apps/api/src/routes/github/webhook.ts:82-88 | a failed fetch stops the pipeline: no analysis, check run or insert |
| Webhook.FetchedPipelineCompletes | apps/api/src/routes/github/webhook.ts:93-150 | once fetched, the analyser gets `body \|\| ""` and the user's login, the row is always offered, and the run completes |
| Webhook.PermissionHintOnlyFor403 | apps/api/src/routes/github/webhook.ts:118-131 | the permission hint is logged exactly when the check run fails with status 403 |
| Webhook.SuccessfulRunTrace | apps/api/src/routes/github/webhook.ts:70-151 | when every step succeeds: fetch, analyse, check run titled "AI 代码评审: n/10" with the joined suggestions, insert of the "analyzed" row, done, in that order |
| Webhook.SideStepFailuresIsolated | apps/api/src/routes/github/webhook.ts:105-148 | a failed check run and a failed insert are logged and the run still completes |
| Webhook.CheckRunCarriesAnalysis | apps/api/src/routes/github/webhook.ts:104-116 | the check run carries what the analyser returned |
| Webhook.FailedAnalysisReportedAsFive | apps/api/src/routes/github/webhook.ts:111-113 | any provider failure becomes a "5/10" check run quoting the error |
| Webhook.ProviderFailureReportedAsFive | apps/api/src/routes/github/webhook.ts:95-116 | when the provider fails the pipeline still completes and the check run reports 5/10 |
| Webhook.InstallationListingCounted | apps/api/src/routes/github/webhook.ts:153-163 | the logged count equals the number of listed repositories (0 without a list), numbered from one in order |
| Js.Split | apps/api/src/modules/analysis/github/client.ts:55 | `split` on a one-character separator gives at least one piece, none containing the separator |
| Js.JoinSplit | apps/api/src/modules/analysis/github/client.ts:55 | `join` with the separator undoes `split` |
| Js.ParseIntWith | apps/api/src/modules/analysis/services/github.service.ts:313 | white space only gives NaN; a negative result needs a leading minus sign |
| Js.ParseIntDecimal | apps/api/src/modules/analysis/services/github.service.ts:313 | `parseInt(s, 10)` is a non-negative number when a digit comes first and NaN when neither a digit nor a sign does |
| Js.ParseInt | apps/api/src/modules/analysis/github/client.ts:56 | `parseInt(s)`: after `0x` a number exactly when a hexadecimal digit follows; otherwise a string starting with a digit reads as with radix 10 |
| Js.SplitJoin | apps/api/src/modules/analysis/github/client.ts:55 | splitting a slash-joined list of slash-free pieces gives the pieces back |
| Js.DecimalPrefix | apps/api/src/modules/analysis/services/github.service.ts:313 | `parseInt(s, 10)` reads the leading decimal digits |
| Js.ParseIntNatToString | apps/api/src/modules/analysis/routers/analysis.routes.ts:52 | `parseInt` of a rendered number gives the number back, with and without a radix |
| Js.FilterNonEmpty | apps/api/src/modules/analysis/services/github.service.ts:305 | `filter(Boolean)` keeps exactly the non-empty pieces, and a list without empty pieces unchanged |
| Js.FilterAppend | apps/api/src/modules/analysis/services/github.service.ts:305 | filtering a concatenation filters each part, so the kept pieces stay in order |
| Js.SplitTrailing | apps/api/src/modules/analysis/services/github.service.ts:305 | a trailing separator adds exactly one empty piece at the end |

## Left out

- Octokit, `fetch`, the database and HMAC signature verification are
  function parameters. The throttle and retry plugins are modelled only
  through the callbacks and options the code passes them.
- `JSON.parse` and `new URL` are parameters too; a string that is not a
  URL is `None`, on which both `parsePRUrl`s fail. URL normalisation is not
  modelled: a URL is its host name and path name.
- `setImmediate`. The processing runs after the handler in the trace; two
  deliveries processed at the same time are not modelled.
- Log text. Only the logs that record a decision are effects: failures, the
  403 permission hint, the installation count and listing, pings and
  unhandled events.
- The Ollama request's model name, `stream: false` and temperature are not
  part of the modelled request.
- A decoded AI reply is always a complete `AnalyzePROutput` with an integer
  score. A decoded object with missing fields, such as one without
  `suggestions` whose `join` would throw inside the check-run `try`, is not
  modelled.
- A thrown `null` or `undefined` is folded into "anything else". Reading
  `.message` on one inside the webhook's `catch` blocks would throw again;
  the model logs "undefined" instead.
- Webhook payload objects nested deeper than the handlers test are present
  in the model: `repository.owner`, and `sha` inside `head`.
- `GitHubClient.fetchPRDetails` (apps/api/src/modules/analysis/github/client.ts:30-51)
  only combines four Octokit calls with `this.getPRDiff`, which the class
  does not define. Only its `parsePRUrl` and throttle are modelled.
- The webhook's GitHub client (`@isx/github-client`) and signature check
  (`@isx/github-core`) are not part of this model; they enter as
  parameters.
- AnalysisRoutes.Analyze: the zod `url()` validation before the handler is
  not modelled. `Promise.all` is reduced to a flag saying which fetch
  rejects first when both fail.
- GitHubService.Backoff: `2 ** retryCount * 1000` is a floating-point
  expression; it is modelled as exact integers.
- GitHubService.GetRepoReadme: base64 decoding is the identity here, since
  the fetched content is given already decoded.
- GitHubService.ShouldRetry: the options are read as the code evidently
  intends. The code passes `doNotRetry` as the strings "400" to "422",
  while Octokit reports a status as a number. Whether the retry plugin
  then gives up on those statuses depends on its code, which is not part
  of this model.
- GitHubService.Backoff: a `backoff` option is passed to the retry plugin,
  and the model takes it as the delay between retries. Whether the plugin
  reads that option is not part of this model.
- Numbers are exact unbounded integers. JavaScript numbers are doubles:
  `parseInt` rounds a digit run longer than 2^53, `${n}` switches to
  exponent form from 1e21, and the score, counts and ids have the same
  limits. Js.ParseIntWith, Js.NatToString and Js.IntToString do not model
  this.
- The configuration, logger, database schema, seed and bootstrap files are
  not part of this model.

## Findings

| source | as written | input that shows it | evidently intended | confidence | as-written member | corrected member |
|---|---|---|---|---|---|---|
| apps/api/src/modules/analysis/services/github.service.ts:278 | `transformPRData` falls back to `${owner}/${repo}`, but neither name is in scope there, so the fallback throws a ReferenceError. `getPRDetails` then reports it as EXTERNAL_API_ERROR 502 (`MissingBaseRepoReportedAsUpstreamFailure`), so `/analyze` answers 502 for such a pull request (`AnalysisRoutes.MissingBaseRepoRejected`) | a pull request whose `base.repo` is null (its base repository was deleted) | use the requested owner and repository as the fallback full name | not executed | GitHubService.GetPRDetailsAsWritten | GitHubService.GetPRDetails |
| apps/api/src/routes/github/webhook.ts:56-66 | the handler sets status 202 and builds the JSON body with `c.json(...)` but then ends with `return;`, so it resolves to no response (`AcceptedDeliveryUnanswered`) | any delivery with a valid signature and a JSON body | `return c.json({ accepted: true, event, deliveryId }, 202)` | not executed | Webhook.PostAsWritten | Webhook.HandlePost |
