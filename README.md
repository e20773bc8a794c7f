# verify-linked-ticket-action, modelled in Dafny

This is a model of the GitHub Action in `src/index.js`. The action checks that a pull request's description links to a ticket in a project tracker. It has three parts:

- **Matcher.** It searches the description for `<BASE_URL>/projects/<digits>/tickets/<digits>`, ignoring case, after escaping the regular-expression metacharacters of `BASE_URL`.
- **Lookup.** It asks the tracker's API (`<API_URL>/api/projects/<p>/tickets/<t>`) whether the ticket exists. An `X-API-KEY` header is sent when a key is configured.
- **Verdict.** It reports success, or it marks the run failed and posts a configured comment on the pull request.

The model has six modules, one per file:

| file | module | models |
|---|---|---|
| `wrappers.dfy` | `Wrappers` | `Option` and `Result` |
| `text.dfy` | `Text` | ASCII case folding, case-insensitive prefix tests, digit runs, decimal rendering of a status |
| `ticket_matcher.dfy` | `TicketMatcher` | `TicketMatcher.getRegex` and `extractTicketInfo` |
| `ticket_api.dfy` | `TicketApi` | the request `TicketAPI.verifyTicket` sends, and how it classifies what comes back |
| `configuration.dfy` | `Configuration` | `Config` and `validateConfig` |
| `action.dfy` | `Action` | `TicketVerificationAction`, `GitHubCommenter.addComment` and the top-level `run()` |

The matcher is pure functions. `Escape` is the `replace` of line 35. `LitMatch` interprets the literal fragment that escaping produces. `ExecAt` follows the fixed tail of the pattern as a backtracking engine would. `Search` tries the start positions from left to right, as `String.prototype.match` does.

The pattern is also stated declaratively:

- `PatternAt`: the base URL, `/projects/`, digits, `/tickets/` and digits occur at a position, ignoring ASCII case.
- `TicketAt`: the same, with the ticket id running as far as the digits go.

The lemmas prove that `ExtractTicketInfo` returns exactly the leftmost such occurrence.

The action's effects are recorded as an ordered log of `Effect`s:

- `Info` and `Error` for `core.info` and `core.error`;
- `SetFailed` for `core.setFailed`;
- `Lookup` for the request sent to the tracker;
- `Comment` for an attempt to create the pull-request comment (logged whether or not it succeeds);
- `Crash` for an exception nothing catches.

`ActionEffects`, `RunEffects` and `Decide` are pure functions that give the log of one run. The class `Action.TicketVerificationAction` performs the run step by step, appending to its `effects` field. Each of its methods is proved to append exactly what those functions say. The lemmas about the functions state how the run ends.

The two outside results are inputs to the model:

- what the tracker did (`LookupOutcome`: an HTTP status, or the message of an exception);
- whether creating the comment succeeded (`CommentOutcome`).

The environment variables (`Env`), the `message` input and the pull request's description are parameters.

Where the code and its intent part ways, the model follows the code:

- **statusText.** The response object built at line 72 has no `statusText`, so the "Invalid ticket" reason always reads `Status <n> undefined`.
- **Empty exception message.** An exception whose message is empty is falsy at line 140. The reason then falls to the status branch and reads `Status undefined undefined`.
- **Unset API_URL.** An unset `API_URL` gives the API root `undefined/api`.
- **Configuration errors.** A missing `BASE_URL` or `GITHUB_TOKEN` throws while the action is being constructed (line 157). This is outside the `try` of `run`, and `void run()` (line 161) leaves the rejection unhandled. `core.setFailed` is not called and nothing is commented; the process exits non-zero with the uncaught error (`Crash`), so the step fails.

## Model

| member | source | states |
|---|---|---|
| `Text.DigitRun` | src/index.js:36 | `\d+` at a position: the length of the digit run there; everything in it is a digit and the character after it is not |
| `Text.DecimalRoundTrip` | src/index.js:142 | the decimal rendering of a status reads back as that status |
| `Text.Fold` | src/index.js:36 | flag `i` on ASCII: folding changes exactly the upper-case letters and maps letters to lower-case letters; `ExtractIgnoresUrlCase` and `ExtractIgnoresTextCase` state what it gives the matcher |
| `Text.DecimalString` | src/index.js:142 | `${result.status}`: a non-empty digit string without a leading zero unless the status is 0; `DecimalRoundTrip` shows it reads back as the status |
| `TicketMatcher.Escape` | src/index.js:35 | the `replace` that puts a backslash before each metacharacter; `EscapeRoundTrip`, `EscapeLength` and `EscapeIdentity` state its properties |
| `TicketMatcher.EscapeRoundTrip` | src/index.js:35 | removing the backslashes that escaping inserted gives back the base URL, so the escaped URL is a well-formed literal pattern |
| `TicketMatcher.EscapeLength` | src/index.js:35 | the escaped URL is longer than the URL by exactly the number of metacharacters in it |
| `TicketMatcher.EscapeIdentity` | src/index.js:35 | a URL is embedded in the pattern unchanged exactly when it has no metacharacter |
| `TicketMatcher.LitMatchLiteral` | src/index.js:36 | a literal pattern matches at a position exactly when the string it denotes occurs there, up to ASCII case |
| `TicketMatcher.EscapedUrlMatchesLiterally` | src/index.js:35-36 | the escaped base URL matches at a position exactly when the base URL itself occurs there (up to case), and then consumes exactly its length, so metacharacters in the URL match only themselves |
| `TicketMatcher.LitMatch` | src/index.js:36 | the escaped base URL at the head of the pattern, tried at a position: a match ends exactly the denoted string's length further on; `LitMatchLiteral` states where it matches |
| `TicketMatcher.ExecAt` | src/index.js:36 | the whole pattern tried at one start position: a match array of three entries whose groups are non-empty digit strings; `ExecAtSound` and `ExecAtComplete` relate it to `PatternAt` |
| `TicketMatcher.ExecTail` | src/index.js:36 | `\/projects\/(\d+)\/tickets\/(\d+)` after the base URL, with greedy digit runs: three entries, digit-string groups; `ExecTailSound` and `ExecTailComplete` relate it to `TailAt` |
| `TicketMatcher.GetRegex` | src/index.js:34-37 | the head of the pattern is a literal pattern that denotes the base URL |
| `TicketMatcher.Search` | src/index.js:40 | the match reported is at the first start position where the pattern matches; none is reported only when no position matches |
| `TicketMatcher.PatternIsOccurrence` | src/index.js:36 | the pattern matches at a position exactly when `<baseUrl>/projects/<p>/tickets/<t>` occurs there up to case, with `p` and `t` non-empty digit strings |
| `TicketMatcher.ExecAtSound` | src/index.js:36 | what the pattern returns at a position is an occurrence there, whose groups are copied verbatim from the text and whose ticket id is the whole digit run |
| `TicketMatcher.ExecAtComplete` | src/index.js:36 | every occurrence is found at its start with the same project id, and with the same ticket id when that is the whole digit run |
| `TicketMatcher.TextOrEmpty` | src/index.js:40 | an absent description reads as the empty string; `ExtractEmptyText` states that absent and empty text find nothing |
| `TicketMatcher.ExtractTicketInfo` | src/index.js:39-49 | both ids of a found ticket are non-empty digit strings; `ExtractNoMatch`, `ExtractLeftmost` and `ExtractDetermined` state which ticket is found |
| `TicketMatcher.ExtractNoMatch` | src/index.js:39-44 | `extractTicketInfo` returns null exactly when the text holds no occurrence; so the `matches.length < 3` guard never rejects a match |
| `TicketMatcher.ExtractEmptyText` | src/index.js:40 | an absent or empty description yields no ticket |
| `TicketMatcher.ExtractLeftmost` | src/index.js:39-49 | a found ticket is the leftmost occurrence; both ids are non-empty digit strings copied verbatim (leading zeros kept), and the ticket id is the maximal digit run |
| `TicketMatcher.ExtractDetermined` | src/index.js:39-49 | conversely, the leftmost occurrence determines the result, so the extraction is a function of the occurrences |
| `TicketMatcher.ExtractIgnoresUrlCase` | src/index.js:36 | flag `i`: base URLs that differ only in ASCII case extract the same ticket |
| `TicketMatcher.ExtractIgnoresTextCase` | src/index.js:36 | flag `i`: descriptions that differ only in ASCII case extract the same ticket |
| `TicketApi.LookupRequest` | src/index.js:62-67 | a GET of `apiUrl/projects/p/tickets/t`, always with `Content-Type: application/json`, and with `X-API-KEY` exactly when the key is non-empty |
| `TicketApi.LookupUrl` | src/index.js:62 | the lookup URL; `LookupUrlRoundTrip` shows it determines the ids it names |
| `TicketApi.LookupUrlRoundTrip` | src/index.js:62 | for digit ids, the lookup URL reads back as the project and ticket it was built from |
| `TicketApi.Classify` | src/index.js:72-78 | valid exactly for a 2xx status; a response keeps its status and has no error; an exception is invalid, has no status and carries its message |
| `Configuration.Or` | src/index.js:10 | the value when it is set and non-empty, otherwise the fallback |
| `Configuration.Str` | src/index.js:9 | a possibly unset variable in string concatenation (`undefined` when unset); `LoadConfig` states the API root `API_URL + "/api"` built with it |
| `Configuration.CommentMessage` | src/index.js:11 | the first non-empty of the `message` input, `MESSAGE` and the default text; never empty |
| `Configuration.LoadConfig` | src/index.js:7-25 | fails exactly when `BASE_URL` or `GITHUB_TOKEN` is unset or empty, reporting `BASE_URL` first; otherwise the API root is `API_URL + "/api"`, the key defaults to empty and the message is `CommentMessage` |
| `Action.StatusText` | src/index.js:142 | `${result.status}`: the decimal status, or `undefined`; `StatusReason` and `ThrowReason` state what it gives the reason |
| `Action.FailureReason` | src/index.js:140-144 | the reason for a result that is not valid; `ThrowReason`, `StatusReason`, `FailureReasonNamesTicket` and `FailureReasonsDiffer` state its properties |
| `Action.CommentEffects` | src/index.js:90-102 | `addComment`: the attempted comment, and the logged error on failure; `CommentEffectsViews` states its views |
| `Action.MissingTicketEffects` | src/index.js:148-152 | `handleMissingTicket`; `MissingTicketShape` states its shape and `MissingTicketCommentFails` the effect of a failed comment |
| `Action.VerifyTicketEffects` | src/index.js:131-146 | `verifyTicket`; `ValidTicketPasses`, `InvalidTicketFails` and `LookupThenMissing` state its two outcomes |
| `Action.Decide` | src/index.js:117-124 | the branch of `run` on the extracted ticket; `DecideFailsUnlessValid`, `CommentFailureIsHarmless` and `CommentsCarryMessage` state its outcomes |
| `Action.RunEffects` | src/index.js:114-129 | `run` of the action; `RunFailsUnlessValid` and `RunLooksUpFoundTicket` state its outcomes |
| `Action.ActionEffects` | src/index.js:156-159 | the top-level `run()`; `ConfigErrorCrashes` and `ConfiguredRun` state its two cases |
| `Action.CommentEffectsViews` | src/index.js:90-102 | `addComment` attempts exactly the one comment asked for and marks nothing failed, whether or not creating it succeeds |
| `Action.MissingTicketShape` | src/index.js:148-152 | `handleMissingTicket` marks the run failed with the reason, then posts the configured message (not the reason) as the only comment |
| `Action.NoLinkFails` | src/index.js:119-121 | no ticket link: failed with "No ticket link found in the pull request description.", one comment with the configured message, no lookup |
| `Action.ValidTicketPasses` | src/index.js:131-138 | a ticket the tracker accepts: one lookup for that ticket, no failure, no comment, and the success line last |
| `Action.InvalidTicketFails` | src/index.js:137-151 | a ticket the tracker rejects or cannot be reached for: one lookup, then the run is failed with the reason for that result, then one comment with the configured message |
| `Action.LookupThenMissing` | src/index.js:133-151 | after the info line and the lookup, the failure is the fourth step and the comment the fifth; the only lookup is the one sent |
| `Action.DecideFailsUnlessValid` | src/index.js:114-152 | once the description is searched, the run is failed (once) and commented on exactly when no ticket was found or the tracker did not answer 2xx |
| `Action.RunFailsUnlessValid` | src/index.js:114-124 | the run is failed (once) and commented on exactly when the description holds no ticket link the tracker accepts |
| `Action.RunLooksUpFoundTicket` | src/index.js:117-135 | a description with a ticket link leads to exactly one lookup, and its URL reads back as the ids found in the description |
| `Action.CommentFailureIsHarmless` | src/index.js:99-101 | a comment that cannot be created only appends one logged error; failure and comment are otherwise unchanged |
| `Action.InvalidTicketCommentFails` | src/index.js:99-101 | on a rejected ticket, a failed comment appends one error to the log of a posted one |
| `Action.MissingTicketCommentFails` | src/index.js:99-101 | in `handleMissingTicket`, a failed comment appends one error to the log of a posted one |
| `Action.ThrowReason` | src/index.js:140-144 | a transport error is reported with its message; one with an empty message falls through to "Status undefined undefined" |
| `Action.StatusReason` | src/index.js:142 | the status the tracker answered with can be read back out of the failure reason |
| `Action.StatusRoundTrip` | src/index.js:142 | a rendered status after "Invalid ticket: Status " reads back whole when a non-digit follows it |
| `Action.FailureReasonsDiffer` | src/index.js:140-144 | a lookup failure's reason is never the missing-link reason |
| `Action.FailureReasonNamesTicket` | src/index.js:144 | every failure reason ends with " for Project ID: p, Ticket ID: t" |
| `Action.ConfigErrorCrashes` | src/index.js:156-158 | a missing `BASE_URL` or `GITHUB_TOKEN` ends the process with that error before any lookup, failure mark or comment |
| `Action.ConfiguredRun` | src/index.js:106-112 | with a valid configuration the action runs with it, and any comment it attempts carries `CommentMessage` |
| `Action.CommentsCarryMessage` | src/index.js:151 | a run attempts at most one comment, and its body is the configured message |
| `Action.TicketVerificationAction.constructor` | src/index.js:106-112 | the action holds its configuration and has done nothing yet |
| `Action.TicketVerificationAction.AddComment` | src/index.js:90-102 | appends the comment, and the logged error when creating it failed |
| `Action.TicketVerificationAction.LookupTicket` | src/index.js:60-80 | appends the lookup request and returns the classification of the outcome |
| `Action.TicketVerificationAction.HandleMissingTicket` | src/index.js:148-152 | appends what `MissingTicketEffects` gives |
| `Action.TicketVerificationAction.VerifyTicket` | src/index.js:131-146 | appends what `VerifyTicketEffects` gives |
| `Action.TicketVerificationAction.Run` | src/index.js:114-129 | appends what `RunEffects` gives |
| `Action.RunAction` | src/index.js:156-159 | returns the log `ActionEffects` gives |

## Left out

- The HTTP exchange (`fetch`, reading the response body) is not modelled. What the tracker did is the input `LookupOutcome`.
- The `core.debug` lines (70, 74, 98, 127) are not modelled, because they do not change the outcome. Line 71 is modelled only through what it can do to the outcome: its `await response.text()` can throw, which turns even a 2xx answer into `{ isValid: false, error }`; that case is the input `Threw(message)`.
- Octokit's `createComment` and the pull-request coordinates sent with it are not modelled. Success or failure is the input `CommentOutcome`, and the `Comment` effect records the body.
- Configuration.LoadConfig: follows `validateConfig` (lines 18-25) and does not model `github.getOctokit(token)` (line 13), a foreign call that runs first and itself throws for an unset or empty token. So in the program a missing token never surfaces as "GITHUB_TOKEN environment variable is required", and the `BASE_URL` message appears only when the token is set; the model reports the `validateConfig` messages in `validateConfig`'s order.
- `process.env`, `core.getInput` and `github.context` are parameters (`Env`, the message input, the description).
- `async`/`await` is not modelled, because the flow is strictly sequential.
- The outer `catch` of `run` (`Unhandled error: ...`, lines 125-128) is not modelled. Nothing inside the modelled `try` throws: `verifyTicket` catches its own errors and `addComment` swallows its own.
- The regular expression engine is not modelled, only the one fixed pattern. Matching ignores ASCII case only; the case folding JavaScript applies to non-ASCII letters under flag `i` is not modelled, so base URLs with non-ASCII letters are compared exactly.
- `Config` is a value (`Configuration.Config`) rather than an object. It is never changed after construction.
- `GitHubCommenter` and `TicketAPI` hold no state the model needs. Their methods are modelled as methods of `Action.TicketVerificationAction` (`AddComment`, `LookupTicket`).
- `Action.TicketVerificationAction.constructor` takes a validated `Config`. A failed configuration is handled by `Action.RunAction`, which never constructs the object in that case.
