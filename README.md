# Content creator app: a Dafny model of the trend pipeline

This project models the core of a FastAPI application that answers a
content creator's question ("what is trending in home cooking?") in several steps:

- A language model turns the prompt into a category.
- The YouTube Data API is searched in a three-tier cascade.
- The videos are ranked by an engagement score.
- A second model call writes a trend narrative.
- The analysis is stored for the user.

It covers both entry points:

- `TrendingVideoAgent.process_query`, the agent pipeline.
- The `POST /analyze` route, a simpler variant that uses the prompt itself as the category.

It also covers:

- the authentication layer (password check, JWT issuing, the cookie-to-user chain);
- the `/auth` routes;
- the logger set-up;
- the two browser scripts that validate the forms and render the answer.

The external services are oracles passed as parameters. The model says nothing about how they behave:

| Oracle | What it stands for |
|---|---|
| `Platform` | the search, details and chart requests of the YouTube client |
| `Completion` / `TrendModel` | the chat-completion calls |
| `ageOf` | the clock together with ISO-8601 parsing |
| `Verifier`, `Signer`, `Decoder` | bcrypt and JWT |
| `parse`, `toFloat` | `json.loads` and `float()` |
| `hash` | `get_password_hash` |
| `Collation` | how the MySQL server compares a stored string with a queried one in a `==` filter; its default collation ignores case |

Each request either answers or raises. The model follows Python's exception flow:

- A `try`/`except` that swallows an error becomes an explicit fallback value.
- An exception that escapes becomes a `Fault` or `Result` value.

Stateful parts are classes:

- the `trend_analyses` table (`TrendRecords.AnalysisStore`);
- the users table (`AuthRoutes.UserTable`);
- the logger registry (`AppLogger.Registry`);
- the agent (`Agent.TrendingVideoAgent`).

The loops are methods, each proved equal to a function that describes its result:

- the annotation loop and the sort of `analyze_engagement`, which work in place on an array;
- the formatting loops, over the ranked array;
- the digest loop, over a sequence.

Properties proved include:

- The search cascade broadens at most once and falls back to the US chart only when every search found nothing.
- The ranking always holds exactly the annotated input videos. When no iteration raises it is in stable, descending order. Ranking it again changes nothing.
- A malformed count always ends the agent in an error response. A failure response leaves the table unchanged, except when `refresh` raises after a successful commit: then the planned row stays.
- A token issued at login identifies the same user to `get_current_user`, and a registered user can log in.
- The email regular expression is characterised by what an address contains.
- `parseInt` reads back every integer that `toString` writes.
- Whatever the `/analyze` route answers, the page shows the matching view.

Two places where the code and the intent differ:

1. The `/analyze` route and `get_current_user` strip the `Bearer ` prefix differently.
   - The route uses `replace`, which removes every occurrence (app/api/trending.py:192).
   - `get_current_user` removes only a single leading one (app/utils/security.py:91-92).
   - `TrendingApi.ReplaceStripsEveryPrefix` shows a cookie on which the two disagree.
   - In the route this never matters: the import of `decode_access_token` that follows raises, because security.py defines no such function, and the route swallows the error. The route therefore never stores an analysis, and the model follows that code.
2. The agent stores `float(trend_analysis.get('trend_strength', 5))`. The default applies only when the key is missing, so an explicit `null` raises instead of defaulting. The model follows the code.

## Model

| member | source | states |
|---|---|---|
| YouTubeService.Cascade | app/services/youtube_service.py:22-96 | the cascade makes one to three requests, the first is the search for the whole category, and every search asks for `max_results` items |
| YouTubeService.FinalCall | app/services/youtube_service.py:65-87 | after the searches the cascade asks the chart exactly when no ids were found, otherwise one details request |
| YouTubeService.FetchFor | app/services/youtube_service.py:65-87 | the final request's items are the result as they come: chart items when there are no ids, details items for the comma-joined ids otherwise |
| YouTubeService.GetTrendingVideos | app/services/youtube_service.py:22-96 | the first request searches the whole category; the first word of its `split()` is searched only when that found nothing and the category has several words; once a request raised the result is `[]` |
| YouTubeService.CascadeCalls | app/services/youtube_service.py:36-96 | the exact request sequence in each of the four ways the cascade can go (tier 1 raised, no broadening, broadened search raised, broadened search answered) |
| YouTubeService.CascadeBroadensOnce | app/services/youtube_service.py:49-62 | the second search happens if and only if the first answered with no ids and the category has more than one word, and it searches the first word |
| YouTubeService.CascadeStopsAtFault | app/services/youtube_service.py:91-96 | every request before the last is a search that answered; a search is last only when it raised; a request that raised yields an empty list |
| YouTubeService.CascadeChartLast | app/services/youtube_service.py:65-76 | the US "mostPopular" chart is requested only after every search found nothing, and its items are returned |
| YouTubeService.CascadeDetailsLast | app/services/youtube_service.py:79-87 | a details request follows a search that found ids, asks for exactly those ids comma-joined in search order, and its items are returned |
| YouTubeService.RecencyOfAge | app/services/youtube_service.py:124 | the recency score lies in [0, 1] for non-negative ages, is 1 on the day of publication and 0 from 30 days on |
| YouTubeService.RecencyNonIncreasing | app/services/youtube_service.py:124 | an older video never gets a higher recency score |
| YouTubeService.Recency | app/services/youtube_service.py:119-124 | a missing or empty timestamp scores 0; every score is non-negative |
| YouTubeService.EngagementOf | app/services/youtube_service.py:111-143 | one iteration annotates a video if and only if its counts are integers and its timestamp parses; the score is 0.4·views + 0.3·likes + 0.2·comments + 100000·recency, with absent counts as 0 |
| YouTubeService.ScoreBounds | app/services/youtube_service.py:129-134 | with equal counts, the more recent video never scores lower; with non-negative counts the score is non-negative |
| YouTubeService.FirstFault | app/services/youtube_service.py:111-143 | the index of the first video whose iteration raises: all before it are annotated, it is not |
| YouTubeService.AnnotatedPrefix | app/services/youtube_service.py:111-143 | the loop keeps the list's length, counts and timestamps and annotates only the videos before the first fault |
| YouTubeService.InsertPermutes | app/services/youtube_service.py:146 | inserting a video into the ranking adds exactly that video |
| YouTubeService.InsertSorted | app/services/youtube_service.py:146 | inserting into a descending list keeps it descending |
| YouTubeService.InsertStable | app/services/youtube_service.py:146 | an inserted video goes before the videos of equal score that follow it in the input |
| YouTubeService.SortDesc | app/services/youtube_service.py:146 | `sorted(..., reverse=True)` returns a permutation of its input in descending score order |
| YouTubeService.SortDescStable | app/services/youtube_service.py:146 | videos of equal score keep their input order, as Python's stable sort promises |
| YouTubeService.SortDescOfSorted | app/services/youtube_service.py:146 | sorting an already ranked list changes nothing |
| YouTubeService.Rank | app/services/youtube_service.py:98-150 | the result holds exactly the annotated videos, as many as the input; when no iteration raises it is in descending order, otherwise it is the partly annotated list in input order |
| YouTubeService.RankStable | app/services/youtube_service.py:146 | when no iteration raises, videos with equal scores keep their input order |
| YouTubeService.ReannotateSame | app/services/youtube_service.py:111-143 | running the loop again over its own output stops at the same video and changes nothing |
| YouTubeService.SameEngagementInputs | app/services/youtube_service.py:113-124 | the annotation depends only on the counts and the timestamp |
| YouTubeService.RankedCarryOwnEngagement | app/services/youtube_service.py:111-146 | every video of the sorted list carries the annotation the loop would compute for it |
| YouTubeService.AnnotatedFixedPoint | app/services/youtube_service.py:111-143 | the loop leaves a list whose videos carry their own annotations unchanged |
| YouTubeService.RankIdempotent | app/services/youtube_service.py:98-150 | ranking the ranker's output changes nothing, whether or not an iteration raised, and the first faulty video stays the same |
| YouTubeService.RankKeepsMalformed | app/services/youtube_service.py:111-150 | the ranked list contains a video with a malformed count if and only if the input does |
| YouTubeService.RankSameCounts | app/services/youtube_service.py:111-150 | ranking keeps the number of videos, and an unsorted ranking keeps every count total |
| YouTubeService.AnalyzeEngagement | app/services/youtube_service.py:98-150 | the loop writes the annotations into the caller's list; the result is a new sorted list, or the caller's own list when an iteration raised |
| Videos.IntOf | app/services/youtube_service.py:115-117 | `int(stats.get(key, 0))`: an absent count is 0, and it raises exactly on a non-numeric count |
| Videos.Total | app/entrypoint_agent/agent.py:88-90 | the sum raises exactly when some count of that statistic is non-numeric |
| Videos.TotalSameCounts | app/entrypoint_agent/agent.py:88-90 | lists that agree on every count have the same totals |
| Videos.Average | app/entrypoint_agent/agent.py:88-90 | the average of an empty list is 0; otherwise average × length equals the total; it raises exactly when the total does |
| LlmHandler.ExtractCategory | app/entrypoint_agent/llm_handler.py:18-43 | the category is the stripped reply, or on failure the stripped lower-cased prompt, which is empty only for a blank prompt; it never starts or ends with whitespace |
| LlmHandler.FallbackCategory | app/entrypoint_agent/llm_handler.py:41-43 | the fallback category, the lower-cased and stripped prompt, has no surrounding whitespace and is empty exactly for a blank prompt |
| LlmHandler.BlankFallback | app/entrypoint_agent/llm_handler.py:43 | lower-casing and stripping leave nothing exactly when the prompt is all whitespace |
| LlmHandler.DigestEntryOf | app/entrypoint_agent/llm_handler.py:54-65 | one digest entry carries the video's title, channel, date and integer counts, and raises exactly on a malformed count |
| LlmHandler.DigestAll | app/entrypoint_agent/llm_handler.py:54-65 | the digest has one entry per video in order, or fails exactly when some video has a malformed count |
| LlmHandler.BuildDigest | app/entrypoint_agent/llm_handler.py:53-65 | the loop over `videos[:10]` fails exactly when one of the first ten videos has a malformed count, otherwise yields their entries in order |
| LlmHandler.UnparsedSlicesCoverPrefix | app/entrypoint_agent/llm_handler.py:95-104 | the three slices of a reply that is not JSON concatenate to its first 500 characters and are at most 100, 200 and 200 long |
| LlmHandler.Trends | app/entrypoint_agent/llm_handler.py:45-117 | a digest failure or a failed call gives the fixed error narrative; a reply that parses is returned verbatim; otherwise the sliced text with strength 5 and direction "stable" |
| LlmHandler.AnalyzeTrends | app/entrypoint_agent/llm_handler.py:45-117 | never raises; returns the analysis `Trends` describes, which is a JSON object unless the model's parsed reply is something else |
| TrendRecords.FloatOf | app/entrypoint_agent/agent.py:81 | `float()` keeps numbers, maps booleans to 1 and 0, parses strings, and raises on null, lists and dicts |
| TrendRecords.AnalysisStore.constructor | app/models/trend_analysis.py:6-9 | a new table is empty and hands out ids from 1 |
| TrendRecords.AnalysisStore.Commit | app/entrypoint_agent/agent.py:99-101 | the row is stored and its fresh, increasing id comes back; or it is committed but `refresh` raises, so it is stored with no id; or the commit raises and nothing changes |
| Agent.AgentVideoOf | app/entrypoint_agent/agent.py:61-74 | a formatted entry carries the raw counts and the engagement score, 0 when unannotated |
| Agent.FormatVideos | app/entrypoint_agent/agent.py:58-74 | the formatting loop yields one entry per ranked video, in ranked order |
| Agent.Format | app/entrypoint_agent/agent.py:58-74 | the formatted list has the ranked list's length and entry-for-entry contents |
| Agent.RecordOf | app/entrypoint_agent/agent.py:76-97 | building the row raises on a non-dict analysis, on a strength `float()` rejects and on any malformed count, and succeeds otherwise; the row holds the user, query, the converted strength, the summary, insights and recommendations, the video count, the three averages and the full response |
| Agent.RecordOfSameCounts | app/entrypoint_agent/agent.py:77-91 | building the row from the annotated list is building it from the fetched one |
| Agent.PlanOf | app/entrypoint_agent/agent.py:37-97 | an empty fetch answers "no videos" for the category; any malformed count raises; otherwise the row built from the fetched list is stored exactly when building it succeeds, and its error is raised when it fails; the response carries the formatted ranking and the narrative of the ranked videos |
| Agent.Respond | app/entrypoint_agent/agent.py:43-121 | "no videos" exactly for an empty fetch, with its message and category; success exactly when there was a row to store and the commit gave it an id, carrying that id, the category, the formatted videos and the analysis; every other outcome carries the generic message and the raised fault, or a storage failure |
| Agent.TrendingVideoAgent.constructor | app/entrypoint_agent/agent.py:13-20 | the agent holds the services it was given |
| Agent.TrendingVideoAgent.PlanFrom | app/entrypoint_agent/agent.py:52-97 | ranking in place, the trend call, the formatting loop and the row build produce exactly the plan `PlanOf` specifies |
| Agent.TrendingVideoAgent.Prepare | app/entrypoint_agent/agent.py:37-97 | the category, the fetch and the steps after them produce the plan for the prompt |
| Agent.TrendingVideoAgent.ProcessQuery | app/entrypoint_agent/agent.py:22-121 | every outcome is an answer; the table gains exactly the planned row under a fresh id when the response reports success; a failure leaves it unchanged when there was no row to store, and otherwise unchanged or with the planned row kept by a commit whose refresh raised |
| TrendingApi.ApiVideoOf | app/api/trending.py:159-173 | an entry has the route's defaults ("Untitled", "Unknown Channel", "") and integer counts, and raises exactly on a malformed count |
| TrendingApi.FormatApiVideos | app/api/trending.py:157-173 | the formatting loop fails exactly when a ranked video has a malformed count, otherwise yields one entry per video in order |
| TrendingApi.FormatAll | app/api/trending.py:157-173 | the formatted list as a value: one entry per video, or a malformed-count error exactly when one exists |
| TrendingApi.RankAndFormat | app/api/trending.py:154-173 | ranking in place and then formatting gives the formatted ranking |
| TrendingApi.LookupToken | app/api/trending.py:187-192 | a token is looked up if and only if the cookie is non-empty and starts with `Bearer `, with every `Bearer ` removed |
| TrendingApi.ReplaceStripsEveryPrefix | app/api/trending.py:192 | on `Bearer Bearer t` the route's `replace` yields `t` while `get_current_user` yields `Bearer t` |
| TrendingApi.ApiRecordOf | app/api/trending.py:209-230 | the row the route would store has strength 7, only the count and average views as metrics, and at most ten videos in its snapshot |
| TrendingApi.Outcome | app/api/trending.py:141-252 | not found if and only if nothing was fetched; a 500 error if and only if a fetched count is malformed; otherwise the fixed narrative and one entry per ranked video |
| TrendingApi.ApiResult | app/api/trending.py:141-252 | the category is the stripped prompt; the answer is "not found" exactly when the search for it returned nothing, a 500 exactly when a fetched count is malformed, and otherwise the fixed narrative with one entry per fetched video |
| TrendingApi.AnalyzeTrending | app/api/trending.py:128-252 | the route answers as `Outcome` says for the stripped prompt and 20 results; a token lookup is attempted only on success and changes nothing |
| Security.FirstWhere | app/utils/security.py:39 | the query returns the first row whose column the database's collation finds equal to the value, and nothing exactly when no row does |
| Security.EquivalentNamesSameRow | app/utils/security.py:39 | two names the collation finds equal look up the same row |
| Security.CaseInsensitiveLookup | app/database.py:12-19 | under MySQL's default case-insensitive collation, looking up "alice" finds the stored "Alice" |
| Security.VerifyPassword | app/utils/security.py:19-25 | a password is accepted exactly when the hash library says it matches; a library error rejects it |
| Security.AuthenticateUser | app/utils/security.py:35-53 | a user is returned if and only if the query runs, some row's username matches under the collation and the first such row's hash accepts the password; that row is the user |
| Security.ExpiryOf | app/utils/security.py:60-63 | the expiry is now plus the given delta, or plus 30 minutes when the delta is missing or zero |
| Security.TokenClaims | app/utils/security.py:55-66 | the signed claims are the caller's data with `exp` added and nothing else changed |
| Security.AccessTokenCarriesClaims | app/utils/security.py:55-70 | a token decoded with the key it was signed with gives back the caller's claims with `exp` set to the expiry |
| Security.StripBearer | app/utils/security.py:90-92 | exactly one leading `Bearer ` is removed, and a token without it is unchanged |
| Security.GetCurrentUser | app/utils/security.py:75-116 | a user is returned if and only if the cookie is non-empty, decodes, names a string subject and some row's username matches it under the collation; that row is the user, and every failure is the same 401 |
| Security.BearerPrefixOptional | app/utils/security.py:90-92 | a cookie with the prefix authenticates exactly like the bare token |
| Security.BearerStrippedOnce | app/utils/security.py:91-92 | a doubled prefix keeps one `Bearer ` when decoded |
| Security.IssuedTokenIdentifiesUser | app/utils/security.py:55-116 | a token issued for a user's name and decoded faithfully authenticates the first row the collation finds under that name |
| AuthRoutes.Login | app/api/auth.py:35-63 | a failed authentication shows the login page with its error; a successful one redirects to the dashboard with an http-only, lax, 30-minute cookie holding the bare token for the stored username |
| AuthRoutes.Logout | app/api/auth.py:179-183 | logout redirects home with status 303, sets no cookie and deletes the token cookie |
| AuthRoutes.LoginForAccessToken | app/api/auth.py:187-204 | the endpoint fails with 401 and a Bearer challenge exactly when authentication fails, otherwise grants a bearer token for the stored username |
| AuthRoutes.LoginCookieAuthenticates | app/api/auth.py:49-61 | when the collation is an equivalence, the cookie a successful login sets makes `get_current_user` return the same user |
| AuthRoutes.SignupRejection | app/api/auth.py:100-121 | signup checks run in order: password mismatch, then username taken, then email taken; nothing is rejected exactly when the passwords match and no row's username or email matches under the collation |
| AuthRoutes.UserTable.CreateUser | app/api/auth.py:91-136 | a rejected signup shows its message and leaves the table alone; an accepted one appends exactly one user with the hashed password and redirects to login; the table keeps its ids increasing and no name or email one that an earlier row's query would find |
| AuthRoutes.SignupThenLogin | app/api/auth.py:35-136 | a user just registered can log in with the same password when the collation finds the name itself |
| AppLogger.LogPath | app/utils/logger.py:27-28 | the log file lives under `logs/` unless its name is absolute |
| AppLogger.Configured | app/utils/logger.py:9-39 | setup always sets the level and turns propagation off, and attaches the console and rotating-file handlers only to a logger that has none |
| AppLogger.SetupIdempotent | app/utils/logger.py:16-37 | setting a logger up twice never duplicates its handlers |
| AppLogger.Registry.SetupLogger | app/utils/logger.py:9-39 | only the named logger changes, and it becomes the configured one |
| AppLogger.Registry.SetupModuleLoggers | app/utils/logger.py:41-47 | the four module loggers are configured at level INFO without propagation, each with its own `<name>.log` file, and no other logger changes |
| AppLogger.ModuleSetupConfigures | app/utils/logger.py:41-47 | after the four module-level setups each channel's logger is at INFO without propagation, one that had no handlers has its own `<name>.log` pair, and other loggers are as they were |
| AppLogger.GetLogger | app/utils/logger.py:50-58 | the first of "auth", "database" and "security" found in the lower-cased name picks the logger, and anything else gets the app logger |
| AppLogger.GetLoggerIgnoresCase | app/utils/logger.py:51-56 | routing does not depend on letter case |
| AuthForm.LoginBlock | app/static/js/auth.js:9-17 | login is blocked with "Please fill in all fields" exactly when the username is blank or the password empty |
| AuthForm.IsValidEmail | app/static/js/auth.js:127-130 | the address test accepts exactly the well-formed addresses: no whitespace, one `@` that is not first, and a `.` inside the domain |
| AuthForm.EmailPatternSound | app/static/js/auth.js:127-130 | an address the pattern accepts has no whitespace, one `@` that is not first, and a `.` inside the domain |
| AuthForm.EmailPatternComplete | app/static/js/auth.js:127-130 | every address of that shape matches the pattern |
| AuthForm.EmailPatternCharacterised | app/static/js/auth.js:127-130 | the pattern matches exactly the well-formed addresses |
| AuthForm.EmailRejects | app/static/js/auth.js:127-130 | an address with two `@` does not match |
| AuthForm.SignupBlock | app/static/js/auth.js:22-52 | the signup checks run in the handler's order (blank field, short password, mismatch, bad email), and a form is submitted exactly when all of them pass |
| AuthForm.SubmittedSignupPassesConfirmation | app/static/js/auth.js:41-45 | a form the client submits never meets the server's password-mismatch refusal, and its trimmed email is well-formed |
| AuthForm.PasswordsMatchHint | app/static/js/auth.js:59-70 | the confirmation hint is neutral while empty, green exactly when the passwords match and red exactly when they differ |
| AuthForm.PasswordLengthColour | app/static/js/auth.js:136-145 | the length hint is red exactly for a non-empty password shorter than 8 characters |
| AuthForm.SubmittedFormShowsNoErrorHint | app/static/js/auth.js:35-70 | a form the client submits shows a neutral length hint and the "Passwords match" hint |
| TrendingPage.SendsRequest | app/static/js/trending.js:21-24 | a request is sent exactly when the prompt has a non-whitespace character |
| TrendingPage.Or | app/static/js/trending.js:76-80 | `a \|\| b` is `a` when truthy and `b` otherwise |
| TrendingPage.ParseInt | app/static/js/trending.js:150 | `parseInt` skips leading whitespace and one sign, reads the longest digit run, and is NaN exactly when that run is empty |
| TrendingPage.ParseDigits | app/static/js/trending.js:150 | the decimal text of a whole number, optionally after `-`, parses to that number |
| TrendingPage.ParseIntRoundTrip | app/static/js/trending.js:150 | `parseInt` reads back every integer `toString` writes |
| TrendingPage.ParseIntNoRadix | app/static/js/trending.js:92 | without a radix, a `0x` or `0X` after the sign switches to hexadecimal digits (NaN when none follow); any other text reads as with radix 10 |
| TrendingPage.ParseIntNoRadixOf | app/static/js/trending.js:92 | a number reads as with radix 10, a string by the radix-less rule, anything else is NaN |
| TrendingPage.HexStringsDiffer | app/static/js/trending.js:92 | "0x10" reads as 16 without a radix and as 0 with radix 10 |
| TrendingPage.Truncate | app/static/js/trending.js:150 | a numeric value is truncated toward zero |
| TrendingPage.ParseIntOf | app/static/js/trending.js:150 | numbers are truncated, strings parsed, and a missing value is NaN |
| TrendingPage.FormatNumber | app/static/js/trending.js:149-160 | NaN prints "0"; a count of at least a million is divided by a million with suffix M, a count from a thousand up to a million is divided by a thousand with suffix K, and a smaller one is printed as is |
| TrendingPage.PlainLabelReadsBack | app/static/js/trending.js:157-158 | a count below 1000 is printed so that `parseInt` reads it back |
| TrendingPage.FormatNumberMonotone | app/static/js/trending.js:153-159 | a larger count never gets a smaller suffix |
| TrendingPage.DirectionBadge | app/static/js/trending.js:83-89 | green exactly for "growing", red exactly for "declining", blue otherwise |
| TrendingPage.EffectiveStrength | app/static/js/trending.js:77 | a falsy strength shows as 5 |
| TrendingPage.StrengthBadge | app/static/js/trending.js:92-99 | the strength, read by `parseInt` without a radix (so a hexadecimal string reads as hexadecimal), gives a green badge from 8, yellow from 5 and red below 5 or for NaN; a missing strength is yellow |
| TrendingPage.StrengthBadgeMonotone | app/static/js/trending.js:92-99 | from any positive strength upward, a larger strength never gets a worse badge |
| TrendingPage.StrengthBadgeDropsAfterZero | app/static/js/trending.js:77-99 | a strength of 0 is falsy and shows as 5 with the warning badge, while 0.5 truncates to 0 and gets the danger badge |
| TrendingPage.ViewOf | app/static/js/trending.js:42-113 | a failed response shows the network error; an unsuccessful answer shows its message or the default notice; a successful one shows the panel with its defaults and badges; a null body, a missing analysis, a null entry in `videos` or a non-empty string as `videos` is a script error |
| TrendingPage.FoundView | app/static/js/trending.js:48-113 | the route's success answer shows the "growing" and strength-7 badges and one card per video |
| TrendingPage.NotFoundView | app/static/js/trending.js:48-51 | the route's not-found answer shows the route's own message |
| TrendingPage.PageForRoute | app/static/js/trending.js:32-113 | for every prompt the page shows the error exactly when the route fails, and otherwise the route's result or its "No trending videos found" notice |

## Left out

- The YouTube client, the OpenAI client, bcrypt, JWT, `json.loads`/`json.dumps`, `float()` on strings, ISO-8601 parsing and the clock are oracles. Their behaviour is not modelled, only how the code reacts to each outcome.
- The client constructors (`YouTubeService.__init__`, `LLMHandler.__init__`, the agent's `__init__`) may raise on a missing API key. That is not modelled; the agent is always built with its services.
- A search item without `id.videoId` raises a `KeyError` inside the cascade. The oracle folds it into a raised request.
- Floating point is exact real arithmetic. `toFixed(1)` rendering of the K and M labels is not modelled, only the scaled value and the suffix.
- JSON is a value, not text. `metrics` and `full_response` are kept as the structures that get serialised.
- Strings are sequences of characters. Whitespace is ASCII whitespace plus a few Unicode spaces, case folding is ASCII only, and there is no UTF-16 length.
- TrendingPage.ParseIntOf: a number is truncated toward zero, where JavaScript parses its string form. The two differ when that form uses exponent notation: `parseInt(1e21)` is 1 in JavaScript but 10^21 in the model, and `parseInt(1e-7)` is 1 but 0 in the model.
- TrendingPage.ParseIntNoRadixOf, TrendingPage.StrengthBadge, TrendingPage.FormatNumber: they read numbers through the same truncation and share that gap. A `trend_strength` of 1e21 gets the danger badge in the page but the success badge in the model.
- TrendingPage.ParseIntOf: an array is NaN in the model, where JavaScript parses the array's joined text. Objects and booleans are NaN in both.
- The text of an exception (`str(e)`) is not modelled; a fault records its kind and the offending value.
- The DOM, event wiring, asynchronous `fetch`, the loading indicator and the password visibility toggle are not modelled. What the page would show is returned as a value.
- TrendingPage.ViewOf: an object as `videos` whose own `length` field is a positive number makes `forEach` throw in the page; the model shows it with no cards.
- Logging calls, the formatter and the log files' contents are not modelled; a handler is described by kind, level, path and rotation limits.
- Security.FirstWhere: `first()` without ORDER BY returns a row in an order the database chooses. The model takes the table's order.
- Security.FirstWhere, Security.AuthenticateUser, AuthRoutes.SignupRejection: the collation is an oracle. Only the logging-in lemmas assume anything about it: that it is reflexive, or an equivalence relation.
- TrendRecords.AnalysisStore.Commit, Agent.TrendingVideoAgent.ProcessQuery: a `db.rollback()` that itself raises escapes `process_query`. The model takes the rollback to succeed, so the query always answers.
- Agent.TrendingVideoAgent.ProcessQuery: a failure response does not promise an unchanged table. When `refresh` raises after the commit, the row stays stored, because the rollback cannot undo a commit.
- `get_password_hash` raising in `create_user` is modelled only as an unhandled outcome. A failing `db.commit` in `create_user` is not modelled.
- app/models/user.py is not part of this model; a user is a record with the columns the routes read.
- The `/analyze` route's persistence block never reaches the insert (the import it needs fails), so `TrendingApi.ApiRecordOf` describes a row that is never written.
- YouTubeService.RankSameCounts: states equal totals only when the ranking comes back unsorted. For a sorted ranking, equal totals follow from the permutation stated by `Rank`, but that is not stated as one lemma.
- The dashboard script and the remaining routes and pages (home, dashboard, the template GET routes) are outside this model.
