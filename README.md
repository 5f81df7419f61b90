# A verified model of the job board's core logic

This project is a Dafny model of the deterministic core of a Tajik job board, written as a Next.js application in TypeScript. The model covers these parts:

- **The chat room server** (`ChatWebSocketServer`). It keeps three pieces of state: the registered sockets, the conversation rooms, and each socket's joined conversations. The model follows them through the handshake, join, leave, typing, read and send handlers, disconnection, broadcasting and push notifications.
- **The API helpers**: response envelopes, error mapping, pagination, search defaults, slugs and relative times.
- **Two query builders** whose `$n` placeholders must stay in step with their parameter arrays: the candidate search and the job search. The job search also has an in-memory fallback.
- **The authentication middleware**: the email and password patterns and the admission chain.
- **The upload validation chain.**
- **The dotted-key translation lookup**, with its Russian fallback and `{param}` substitution.
- **The state handlers and pure helpers of the pages**: job listing, candidate listing, career questionnaire, onboarding wizard, job posting form, resume builder and application page.

Each mutable component is a `class` whose fields are the component's state, and each handler is a `method` with a `modifies` clause. Each pure helper is a `function`. Properties that relate several calls are `lemma`s.

Some inputs cannot be computed here: the database, token verification, the clock, random strings and locale formatting. They are parameters: oracles, outcome flags or given values. Where a source operation has a loop, the model keeps it as a `while` loop proved against a specification function.

Modules, one per source file (plus three shared ones):

| file | module | models |
|---|---|---|
| common.dfy | `Common` | `Option`, `Result`, order-keeping filter, `Math.ceil` division, removing a value from a list |
| strings.dfy | `Strings` | the JavaScript string operations used: `toLowerCase`, `trim`, `split`/`join`, `replace`, `parseInt`, `includes` |
| chat_server.dfy | `ChatServer` | lib/websocket/server.ts |
| api_utils.dfy | `ApiUtils` | lib/api/utils.ts |
| candidates_route.dfy | `CandidatesRoute` | app/api/candidates/route.ts |
| jobs_route.dfy | `JobsRoute` | app/api/jobs/route.ts |
| auth_middleware.dfy | `AuthMiddleware` | lib/auth/middleware.ts |
| upload_route.dfy | `UploadRoute` | app/api/upload/route.ts |
| translation.dfy | `Translation` | hooks/useTranslation.ts |
| jobs_page.dfy | `JobsPage` | app/jobs/page.tsx |
| candidates_page.dfy | `CandidatesPage` | app/candidates/page.tsx |
| career_orientation.dfy | `CareerOrientation` | app/career-orientation/page.tsx |
| onboarding_wizard.dfy | `OnboardingWizard` | components/onboarding-wizard.tsx |
| autocomplete.dfy | `Autocomplete` | the `AutocompleteInput` component defined in both app/post-job/page.tsx and app/resume-builder/page.tsx |
| post_job.dfy | `PostJob` | app/post-job/page.tsx |
| resume_builder.dfy | `ResumeBuilder` | app/resume-builder/page.tsx |
| apply_page.dfy | `ApplyPage` | app/apply/page.tsx |

Behaviour of the code as written that the model states on purpose:

- A second login replaces the first socket in the registry without closing it.
- Disconnecting the older socket then unregisters the user, although the newer socket is still open. `ChatServer.StaleDisconnectScenario` walks through this.
- The handshake does not check `isActive`.
- `send_message`, `typing` and `read_message` do no membership check.
- One failing notification insert stops the remaining ones.
- The candidate search's open-ended experience branch (`>=`) is dead. `"5+".split("-")` has no second piece, so "5+ лет" binds `5` and `NaN` in a two-sided range.
- The jobs route's database path reports as `total` the size of the returned page.
- The middleware's "Account deactivated" branch is unreachable.
- The application page's default-resume effect never selects anything.
- The candidate listing page reads the listing off the top of the response body, where the route's envelope does not have it (see "## Findings"). The rest of the model uses the corrected read.

## Model

| member | source | states |
|---|---|---|
| Common.Filter | app/api/jobs/route.ts:132 | `Array.prototype.filter`: the result keeps only elements that pass the test, and keeps every element that passes |
| Common.FilterConcat | app/api/jobs/route.ts:132-153 | filtering distributes over concatenation, so the kept elements stay in the input's order, each as often as it occurs |
| Common.FilterSingle | app/api/jobs/route.ts:132 | a one-element list keeps its element exactly when it passes |
| Common.CeilDiv | app/api/jobs/route.ts:165 | `Math.ceil(n / d)`: the least count of `d`-sized pages that covers `n` |
| Common.CountTrue | app/jobs/page.tsx:371-380 | `.filter(Boolean).length` over booleans: at most the list length, and 0 exactly when no item is true |
| Common.Without | app/resume-builder/page.tsx:286-291 | `filter(x => x !== v)`: `v` is gone and every other value keeps its membership |
| Common.WithoutConcat | components/onboarding-wizard.tsx:52 | removal distributes over concatenation, so the remaining entries keep their relative order |
| Common.WithoutAbsent | components/onboarding-wizard.tsx:52 | removing a value that is absent changes nothing |
| Common.WithoutKeepsNoDuplicates | app/resume-builder/page.tsx:286-291 | removal keeps a duplicate-free list duplicate-free |
| Strings.LowerChar | app/api/jobs/route.ts:138 | `toLowerCase` on one character maps an ASCII capital to a lower-case letter and leaves other non-Cyrillic characters alone |
| Strings.ToLower | app/api/jobs/route.ts:138-144 | `toLowerCase` keeps the length and lower-cases character by character |
| Strings.TrimStart | app/post-job/page.tsx:258 | drops exactly the leading white space: what is dropped is all white space and the rest does not start with white space |
| Strings.TrimEnd | app/post-job/page.tsx:258 | drops exactly the trailing white space: what is dropped is all white space and the rest does not end with white space |
| Strings.Trim | app/apply/page.tsx:225 | `trim()`: after the leading white space, exactly the trailing white space goes; the result neither starts nor ends with white space |
| Strings.NatToString | app/api/upload/route.ts:48 | the decimal rendering of a natural number is a non-empty string of digits |
| Strings.Split | hooks/useTranslation.ts:33 | `split(d)` yields at least one piece and no piece contains the separator |
| Strings.JoinSplit | app/api/upload/route.ts:47 | joining the pieces of `split(d)` with `d` gives the string back |
| Strings.Join | app/api/upload/route.ts:47 | `pieces.join(d)`; no contract of its own, and `JoinSplit` and `UploadRoute.JoinLast` state how it undoes `split` |
| Strings.SplitLast | app/api/upload/route.ts:47 | the last piece of `split(d)` is the text after the last separator |
| Strings.SplitWithoutSeparator | app/api/upload/route.ts:47 | a string without the separator splits into itself alone |
| Strings.SplitAround | app/api/candidates/route.ts:61 | splitting at the first separator yields the text before it, then the pieces of the rest |
| Strings.ReplaceFirstAbsent | lib/websocket/server.ts:37 | `replace` with a string pattern that does not occur changes nothing |
| Strings.ReplaceFirstAt | lib/websocket/server.ts:37 | `replace` with a string pattern replaces exactly its first occurrence and keeps the text around it |
| Strings.ReplaceFirst | lib/websocket/server.ts:37 | `replace` with a string pattern; no contract of its own, and `ReplaceFirstAbsent` and `ReplaceFirstAt` state its cases |
| Strings.Contains | lib/api/utils.ts:41-61 | `includes`: some position where the needle occurs; no contract of its own, and `HandleApiError` uses it for each phrase |
| Strings.DigitPrefix | app/career-orientation/page.tsx:198 | the longest leading run of decimal digits |
| Strings.ParseInt | app/career-orientation/page.tsx:198 | `Number.parseInt` without a radix: after white space and an optional sign, `0x`/`0X` reads base 16 and anything else base 10; `NaN` (`None`) exactly when no digit of that base follows; a negative result has a leading `-` |
| Strings.ParseIntOfDigits | app/career-orientation/page.tsx:198 | a string of decimal digits reads as its decimal value |
| Strings.ParseIntOfNegativeDigits | app/career-orientation/page.tsx:198 | `-` followed by decimal digits reads as the negated value |
| Strings.ParseIntOfHex | app/career-orientation/page.tsx:198 | a `0x` prefix followed by hex digits reads as their base-16 value, up to the first non-hex character |
| Strings.ParseIntOfNegativeHex | app/career-orientation/page.tsx:198 | `-0x` followed by hex digits reads as the negated base-16 value |
| Strings.ParseIntReadsHex | app/career-orientation/page.tsx:198 | "0x10" reads as 16, while "0x" alone is `NaN` |
| Strings.ParseIntOfNatToString | app/career-orientation/page.tsx:194-195 | `parseInt(String(n)) == n` for a natural number |
| Strings.DigitsValueOfNatToString | app/career-orientation/page.tsx:195 | the value of a rendered natural number's digits is the number |
| Strings.DigitPrefixOfDigits | app/career-orientation/page.tsx:195 | a string of digits is its own digit prefix |
| Strings.ParseIntOfIntToString | app/career-orientation/page.tsx:194-195 | `parseInt(String(n)) == n`, so the question id read back from an `Object.entries` key is the id stored |
| ChatServer.Socket.constructor | lib/websocket/server.ts:7-10 | a fresh socket is open, unauthenticated, in no conversation and not closed |
| ChatServer.TokenOf | lib/websocket/server.ts:36-37 | the `token` query parameter wins when non-empty; without it and without a header there is no token; a token is never empty |
| ChatServer.BearerHeaderToken | lib/websocket/server.ts:37 | a header `Bearer <t>` yields the token `t` |
| ChatServer.JoinRoom | lib/websocket/server.ts:127-130 | the room is created if absent, the user is in it, every other room is unchanged |
| ChatServer.LeavePreservesRooms | lib/websocket/server.ts:154-163 | leaving keeps every stored room non-empty, removes the user from that room and touches no other room |
| ChatServer.JoinIdempotent | lib/websocket/server.ts:125-130 | joining twice is joining once |
| ChatServer.JoinThenLeave | lib/websocket/server.ts:125-163 | joining a room one was not in and leaving it restores the room index |
| ChatServer.LeaveNotJoined | lib/websocket/server.ts:157-163 | leaving a room one is not in changes no room |
| ChatServer.LeaveRoomsStep | lib/websocket/server.ts:250-252 | leaving one more conversation during disconnection is one more single leave |
| ChatServer.LeaveRoomsRemovesUser | lib/websocket/server.ts:245-256 | after disconnection the user is in none of the rooms it joined and every room stays non-empty |
| ChatServer.Preview | lib/websocket/server.ts:306 | `substring(0, 100)`: a prefix of at most 100 characters, the whole text when it is short enough |
| ChatServer.PlannedNotifications | lib/websocket/server.ts:293-314 | every notification row goes to a non-sender participant that is not registered and has not turned push off, with the title and the 100-character preview |
| ChatServer.NotifiedPrefix | lib/websocket/server.ts:293-317 | the users notified are a prefix of those that want a notification; with no failed insert they are exactly those, in row order |
| ChatServer.OnlineGetsNoNotification | lib/websocket/server.ts:296-299 | a registered participant never gets a notification row |
| ChatServer.ReachedWithoutExcluded | lib/websocket/server.ts:262-263 | removing the excluded user from a room does not change whom its broadcasts reach |
| ChatServer.ReachedAdd | lib/websocket/server.ts:262-267 | one more room member adds at most that member's socket to a broadcast |
| ChatServer.ReachedFresh | lib/websocket/server.ts:262-267 | distinct registered users have distinct sockets, so a new member's socket is new |
| ChatServer.FanOutExtend | lib/websocket/server.ts:262-267 | sending to one more socket extends a broadcast that reaches each target once |
| ChatServer.LeaveRoomsKeepsRoomTargets | lib/websocket/server.ts:250-252 | leaving rooms does not change whom broadcasts excluding the leaver reach, so every `user_left` goes to the room as it was |
| ChatServer.LeftFramesStep | lib/websocket/server.ts:250-252 | one more leave during disconnection appends its room's `user_left` fan-out |
| ChatServer.ChatWebSocketServer.constructor | lib/websocket/server.ts:18-31 | the server starts with no client and no room, and no frame, message, read mark or notification |
| ChatServer.ChatWebSocketServer.NonMemberNotReached | lib/websocket/server.ts:258-270 | a registered user outside a room never receives that room's broadcasts |
| ChatServer.ChatWebSocketServer.BroadcastToConversation | lib/websocket/server.ts:258-270 | appends exactly one frame to each registered, open member of the room other than the excluded user, and nothing for an absent room |
| ChatServer.FanOut | lib/websocket/server.ts:262-269 | the `forEach` over the room sends one frame to each member that is registered, OPEN and not excluded, and no socket twice, in whatever order the set is visited |
| ChatServer.ChatWebSocketServer.HandleConnection | lib/websocket/server.ts:33-71 | without a token, or with one that does not verify, the socket is closed with 1008 and nothing is registered; otherwise the user is registered under its id, replacing any earlier socket, and receives `connected` |
| ChatServer.ChatWebSocketServer.HandleJoinConversation | lib/websocket/server.ts:105-152 | a refused access query sends only an error to the requester and changes no state; an admitted join adds the room to the socket and the user to the room, tells the others and confirms to the requester |
| ChatServer.ChatWebSocketServer.HandleLeaveConversation | lib/websocket/server.ts:154-175 | the room leaves the socket's set, the user leaves the room (deleted when empty) and the rest of the room gets `user_left` |
| ChatServer.ChatWebSocketServer.HandleTyping | lib/websocket/server.ts:216-226 | the room except the typist gets `typing`; no membership check |
| ChatServer.ChatWebSocketServer.HandleReadMessage | lib/websocket/server.ts:228-243 | on a successful update the read mark is logged and the whole room, reader included, gets `message_read`; on failure nothing happens |
| ChatServer.ChatWebSocketServer.SendPushNotifications | lib/websocket/server.ts:272-318 | writes exactly the planned notification rows, stopping at the first failing insert; nothing when a query fails |
| ChatServer.ChatWebSocketServer.HandleSendMessage | lib/websocket/server.ts:177-214 | stores the message; once the conversation is touched, broadcasts `new_message` to the whole room, sender included, and notifies the offline participants |
| ChatServer.ChatWebSocketServer.LeaveWhileDisconnecting | lib/websocket/server.ts:250-252 | one leave of the disconnection loop: the room index and the `user_left` frames grow by that conversation |
| ChatServer.LeaveOneMore | lib/websocket/server.ts:250-252 | leaving one more room keeps the room index equal to "every room left so far, left in turn" and adds exactly that room's `user_left` fan-out to the frames sent |
| ChatServer.ChatWebSocketServer.LeaveAllConversations | lib/websocket/server.ts:250-252 | the `forEach` leaves every joined room, and each room as it was gets its `user_left` fan-out: exactly one frame per target and conversation, none twice |
| ChatServer.ChatWebSocketServer.LeaveEach | lib/websocket/server.ts:250-252 | the loop of the `forEach`: the joined set empties, the room index is the rooms left one by one, and the frames sent are exactly the `user_left` fan-outs |
| ChatServer.ChatWebSocketServer.HandleDisconnection | lib/websocket/server.ts:245-256 | an authenticated socket leaves all its rooms and its user is unregistered whichever socket is registered; an anonymous one changes nothing |
| ChatServer.ChatWebSocketServer.HandleMessage | lib/websocket/server.ts:73-103 | dispatches on the message type with each handler's own outcome: join (refusal, denial or admission with `joined_conversation` last), leave and typing fan-outs, the read mark and `message_read`, the stored message, `new_message` and the notification rows; an unknown type does nothing and unparseable data gets a "Failed to process message" error |
| ChatServer.StaleDisconnectScenario | lib/websocket/server.ts:245-255 | after two logins of one user and the close of the first socket, the second socket is open but the user is no longer registered |
| ApiUtils.CreateApiResponse | lib/api/utils.ts:4-13 | a success envelope holding the data, status 200 unless one is given |
| ApiUtils.CreateErrorResponse | lib/api/utils.ts:15-27 | a failure envelope holding the message and details, status 400 unless one is given |
| ApiUtils.HandleApiError | lib/api/utils.ts:41-61 | the first matching phrase decides: "Validation error" 400, "not found" 404, "Unauthorized" 401, "Forbidden" 403, otherwise 500 "Internal server error" |
| ApiUtils.GetPaginationParams | lib/api/utils.ts:63-70 | page ≥ 1, limit in 1..100 (default 20), offset = (page − 1) · limit ≥ 0; in-range inputs are kept |
| ApiUtils.OrDefault | lib/api/utils.ts:76 | `value \|\| fallback`: an absent or empty value gives the fallback |
| ApiUtils.ParseIntOr | lib/api/utils.ts:81-82 | `Number.parseInt(v \|\| "fallback")`: an absent or empty value reads as the fallback, and any other value is parsed |
| ApiUtils.ParseIntOrParsesText | app/jobs/page.tsx:231-238 | reading the numeric fallback directly is the same as `Number.parseInt` of its text, for every value |
| ApiUtils.GetSearchParams | lib/api/utils.ts:72-88 | every text field is its value when present and non-empty, otherwise its default ("", "all" or "newest"); a salary bound is `Number.parseInt` of its value, and an absent or empty one reads as 0 or 999999; the flags hold only for the literal "true" |
| ApiUtils.SalaryBoundsParseText | lib/api/utils.ts:81-82 | both salary bounds equal `Number.parseInt` of `value \|\| "0"` and `value \|\| "999999"`, as written |
| ApiUtils.RemoveUnsafe | lib/api/utils.ts:93 | keeps exactly the `[\w\s-]` characters, in order: the filter by that class |
| ApiUtils.DropSeparators | lib/api/utils.ts:94 | drops a prefix that does not leave a separator first |
| ApiUtils.DroppedAreSeparators | lib/api/utils.ts:94 | what is dropped is all separators, so exactly the leading run goes |
| ApiUtils.DropSeparatorsConcat | lib/api/utils.ts:94 | a run that the following text does not continue is dropped from the front alone |
| ApiUtils.CollapseSeparators | lib/api/utils.ts:94 | `replace(/[\s_-]+/g, "-")`: empty exactly for empty input; the result starts with a dash exactly when the input starts with a separator, and otherwise with the same character |
| ApiUtils.CollapseRun | lib/api/utils.ts:94 | a whole run of separators becomes one dash |
| ApiUtils.CollapseConcat | lib/api/utils.ts:94 | collapsing works piece by piece when the cut does not split a run, so every run becomes one dash and every other character is kept in order |
| ApiUtils.CollapseUnfold | lib/api/utils.ts:94 | one step: a leading run becomes a dash, any other first character is kept |
| ApiUtils.CollapseShape | lib/api/utils.ts:92-94 | collapsing cleaned text gives slug characters with no two dashes in a row |
| ApiUtils.TrimLeadingDashes | lib/api/utils.ts:95 | drops exactly the leading dashes: what is dropped is all dashes and the rest does not start with one |
| ApiUtils.LeadingDashes | lib/api/utils.ts:95 | the `^-+` run: every character before the count is a dash and the one at the count is not |
| ApiUtils.TrimTrailingDashes | lib/api/utils.ts:95 | drops exactly the trailing dashes: what is dropped is all dashes and the rest does not end with one |
| ApiUtils.CleanedAfterRemove | lib/api/utils.ts:92-93 | after lower-casing and the first replacement no upper-case letter or unsafe character remains |
| ApiUtils.SlugBodySlice | lib/api/utils.ts:95 | any slice of slug text is slug text |
| ApiUtils.TrimmedIsSlug | lib/api/utils.ts:95 | trimming the dashes of slug text gives a slug |
| ApiUtils.GenerateSlugIsSlug | lib/api/utils.ts:90-96 | every slug uses only `[a-z0-9-]`, never starts or ends with a dash and never holds `--` |
| ApiUtils.GenerateSlug | lib/api/utils.ts:90-96 | the five `generateSlug` stages in order; it has no contract of its own, and its properties are `GenerateSlugIsSlug`, `GenerateSlugFixesSlug` and `GenerateSlugIdempotent` |
| ApiUtils.CollapseKeepsSlugBody | lib/api/utils.ts:94 | collapsing leaves slug text unchanged |
| ApiUtils.RemoveUnsafeKeepsSlug | lib/api/utils.ts:93 | the first replacement leaves a slug unchanged |
| ApiUtils.GenerateSlugFixesSlug | lib/api/utils.ts:90-96 | `generateSlug` leaves a slug unchanged |
| ApiUtils.GenerateSlugIdempotent | lib/api/utils.ts:90-96 | `generateSlug(generateSlug(x)) == generateSlug(x)` |
| ApiUtils.AgeBucket | lib/api/utils.ts:126-131 | exactly one bucket by the thresholds 60, 3600, 86400 and 2592000 seconds, with floor counts |
| ApiUtils.FormatRelativeTime | lib/api/utils.ts:123-134 | "только что" under a minute, the formatted date from 30 days on |
| CandidatesRoute.FiltersOf | app/api/candidates/route.ts:11-21 | the defaults of the query values; the flags hold only for "true" |
| CandidatesRoute.NoOpenEndedRange | app/api/candidates/route.ts:52-62 | no mapped experience range splits into an upper bound `+`, so the `>=` branch is dead |
| CandidatesRoute.ExperienceRange | app/api/candidates/route.ts:52-60 | `expMap`: a range exactly for the five labels of the table |
| CandidatesRoute.SplitRanges | app/api/candidates/route.ts:53-61 | the pieces of each mapped range, "5+" giving a single piece |
| CandidatesRoute.WellBoundAppend | app/api/candidates/route.ts:24-84 | pushing more parameters never disturbs the placeholders already written |
| CandidatesRoute.Kinds | app/api/candidates/route.ts:23-92 | the conditions' kinds, one per condition |
| CandidatesRoute.WellBoundExtend | app/api/candidates/route.ts:145 | appending limit and offset leaves the filters' bindings intact |
| CandidatesRoute.BuiltAppend | app/api/candidates/route.ts:24-84 | a condition pushed with its parameters keeps the index one past the parameters |
| CandidatesRoute.AddSearch | app/api/candidates/route.ts:28-37 | a search adds one condition and two parameters, the raw text and `%text%`, and advances the index by 2 |
| CandidatesRoute.AddLocation | app/api/candidates/route.ts:39-43 | a selected location adds one condition and one parameter, the raw location |
| CandidatesRoute.AddSkill | app/api/candidates/route.ts:45-49 | a selected skill adds one condition and one parameter |
| CandidatesRoute.AddExperience | app/api/candidates/route.ts:51-72 | a mapped label adds one condition binding its parsed bounds; an unmapped label adds nothing |
| CandidatesRoute.AddSalary | app/api/candidates/route.ts:74-84 | each salary bound away from its default adds one condition and one parameter |
| CandidatesRoute.AddFlags | app/api/candidates/route.ts:86-92 | the availability and verification flags add parameterless conditions |
| CandidatesRoute.BuildWhere | app/api/candidates/route.ts:23-92 | the two base conditions come first; the switched-on filters follow in order; every placeholder binds its value and the index is one past the parameters |
| CandidatesRoute.ExperienceAlwaysTwoSided | app/api/candidates/route.ts:51-72 | every mapped experience label yields the two-sided range |
| CandidatesRoute.PremiumAddsNothing | app/api/candidates/route.ts:20 | `premium` changes neither the conditions nor the parameters |
| CandidatesRoute.OrderBy | app/api/candidates/route.ts:95-112 | the five known sort keys select their order; any other keeps `r.updated_at DESC` |
| CandidatesRoute.BuildQueries | app/api/candidates/route.ts:114-146 | the count query binds the filter parameters; the page query's LIMIT and OFFSET placeholders bind exactly the appended limit and offset |
| CandidatesRoute.PaginationMeta | app/api/candidates/route.ts:177-184 | page and limit as requested and the total; totalPages is the least page count covering the total (`Math.ceil(total / limit)`); hasNext iff offset + limit < total; hasPrev iff page > 1 |
| CandidatesRoute.HasNextBeforeLastPage | app/api/candidates/route.ts:182 | with the computed offset, there is a next page exactly when the page is below the last one |
| JobsRoute.WellBoundAppend | app/api/jobs/route.ts:74-105 | pushing a parameter never disturbs the placeholders already written |
| JobsRoute.AddFilter | app/api/jobs/route.ts:77-105 | a supplied filter bumps `paramCount` once and its `$paramCount` binds the value just pushed; an absent one adds nothing |
| JobsRoute.AddRemote | app/api/jobs/route.ts:107-109 | `is_remote=true` adds a clause and no parameter |
| JobsRoute.AddParameterFilters | app/api/jobs/route.ts:74-105 | the five parameter filters in order, each placeholder binding its value |
| JobsRoute.BuildJobsQuery | app/api/jobs/route.ts:65-112 | the clauses are the supplied filters in order, each `$i` binds `params[i − 1]`, and LIMIT and OFFSET are written into the text |
| JobsRoute.TotalPages | app/api/jobs/route.ts:122 | `Math.ceil(total / limit)`: the least page count covering the total for a positive limit; no number for a zero limit |
| JobsRoute.DatabasePagination | app/api/jobs/route.ts:116-124 | the database path reports the returned page's row count as `total` |
| JobsRoute.DatabaseReportsOnePage | app/api/jobs/route.ts:112-123 | when the database honours LIMIT, the database path reports 0 or 1 total pages |
| JobsRoute.FallbackJobs | app/api/jobs/route.ts:6-49 | the three built-in jobs |
| JobsRoute.FilterSameTest | app/api/jobs/route.ts:131-153 | filtering by tests that agree on every element gives the same list |
| JobsRoute.FilterKeepsAll | app/api/jobs/route.ts:131-153 | a filter that every element passes keeps the list |
| JobsRoute.FilterIfFirst | app/api/jobs/route.ts:131-133 | a filter applied only when its parameter is supplied is one filter whose test passes everything otherwise |
| JobsRoute.FilterIfAfter | app/api/jobs/route.ts:135-153 | a conditional filter after a filter is one filter by both tests |
| JobsRoute.FirstTwoFilters | app/api/jobs/route.ts:131-141 | the category and search filters together are one filter |
| JobsRoute.ThirdFilter | app/api/jobs/route.ts:143-145 | adding the location filter is one more conjunct |
| JobsRoute.FourthFilter | app/api/jobs/route.ts:147-149 | adding the employment-type filter is one more conjunct |
| JobsRoute.FifthFilter | app/api/jobs/route.ts:151-153 | adding the remote filter is one more conjunct |
| JobsRoute.AllFiltersArePassesAll | app/api/jobs/route.ts:131-153 | the combined test is "passes every supplied filter" |
| JobsRoute.FallbackFilterConjunctive | app/api/jobs/route.ts:129-153 | the fallback keeps exactly the jobs that pass every supplied filter, in their order; search matches title or company and location matches, both ignoring case |
| JobsRoute.FallbackFilter | app/api/jobs/route.ts:129-153 | the chain of `filter` calls, one per supplied filter; no contract of its own, and `FallbackFilterConjunctive` and `AllFiltersArePassesAll` state what it keeps |
| JobsRoute.FallbackIgnoresExperience | app/api/jobs/route.ts:129-153 | `experience_level` does not affect the fallback |
| JobsRoute.SliceIndex | app/api/jobs/route.ts:157 | a `slice` index: negative counts from the end, then clamped to the list |
| JobsRoute.FallbackResponse | app/api/jobs/route.ts:155-166 | the fallback's `total` is the number of filtered jobs, at most 3 |
| JobsRoute.PageContents | app/api/jobs/route.ts:155-157 | page `p` holds exactly the filtered jobs at positions (p − 1) · limit up to p · limit, clipped to the list |
| AuthMiddleware.EmailShape | lib/auth/middleware.ts:129-132 | an email matches iff it has no white space, a single `@` with text before it, and after it a `.` with text on both sides |
| AuthMiddleware.PasswordRule | lib/auth/middleware.ts:134-138 | a password matches iff it has at least 8 allowed characters, including a lower-case letter, an upper-case letter and a digit |
| AuthMiddleware.IsValidEmail | lib/auth/middleware.ts:129-132 | the email pattern as a predicate over positions; no contract of its own, and `EmailShape` states what it accepts |
| AuthMiddleware.IsValidPassword | lib/auth/middleware.ts:134-138 | the password pattern, lookaheads and the `{8,}` class; no contract of its own, and `PasswordRule` states what it accepts |
| AuthMiddleware.RequireAuth | lib/auth/middleware.ts:79-97 | no cookie or an empty one gives 401 "Unauthorized"; an admitted user is the active user the token verifies to, and holds one of the allowed roles when roles are given |
| AuthMiddleware.GetAuthUser | lib/auth/middleware.ts:59-77 | a user exactly when the cookie is present and non-empty, its token verifies and the user is active |
| AuthMiddleware.Authorize | lib/auth/middleware.ts:79-97 | no user gives 401; inactive gives 403 "Account deactivated"; a role outside `allowedRoles` gives 403 "Forbidden"; otherwise the user is admitted |
| AuthMiddleware.WithAuth | lib/auth/middleware.ts:99-123 | the handler runs, with the user attached, exactly when `requireAuth` admits; otherwise the same refusal is returned |
| AuthMiddleware.DeactivatedIsUnreachable | lib/auth/middleware.ts:69-89 | "Account deactivated" is never returned; an inactive user gets 401 |
| AuthMiddleware.RolesOmittedAdmitsActive | lib/auth/middleware.ts:91 | without `allowedRoles` every active authenticated user is admitted; an empty list admits nobody |
| UploadRoute.Extension | app/api/upload/route.ts:47 | `split(".").pop()` contains no dot, and is the whole name when the name has none |
| UploadRoute.JoinLast | app/api/upload/route.ts:47 | joining all pieces is the join of all but the last, a dot, and the last |
| UploadRoute.ExtensionFollowsLastDot | app/api/upload/route.ts:47 | a name with a dot is some text, a dot and the extension |
| UploadRoute.Upload | app/api/upload/route.ts:25-76 | the guards in order (no file, unknown type, then the MIME message "File type <mime> not allowed for <type>" before the size message "File size too large"), each a 400; an accepted file is named `<timestamp>-<random>.<extension>`, stored under `/uploads/<type>/` and is public iff the type is avatar or image |
| UploadRoute.StoredNameKeepsExtension | app/api/upload/route.ts:47-48 | the stored name's extension is the uploaded name's extension |
| UploadRoute.MaxSizeIsAccepted | app/api/upload/route.ts:40-42 | exactly 10 MiB is accepted; one byte more is refused |
| UploadRoute.AvatarRefusesGif | app/api/upload/route.ts:8-16 | a GIF is accepted as an image but refused as an avatar |
| UploadRoute.AllowedMimeTypes | app/api/upload/route.ts:8-16 | a MIME list exactly for the keys "image", "document" and "avatar", as `Object.keys(ALLOWED_TYPES)` checks |
| Translation.ValidLocale | hooks/useTranslation.ts:30 | a locale outside ru, tg and en becomes ru; a known one is kept |
| Translation.GetStaticTranslation | hooks/useTranslation.ts:32-65 | the loop over the key path, with its restart in Russian, returns the reference translation |
| Translation.WalkRussian | hooks/useTranslation.ts:41-48 | the restart over the Russian tree ends with the reference walk of the whole key path, and with nothing exactly where the source returns the key |
| Translation.MissStaysMissing | hooks/useTranslation.ts:36-47 | once a prefix of the path misses, the whole path misses |
| Translation.WordRun | hooks/useTranslation.ts:59 | the longest leading run of `\w` characters |
| Translation.NoPlaceholderUnchanged | hooks/useTranslation.ts:58-61 | text without `{` is returned unchanged by substitution |
| Translation.WordRunOfWord | hooks/useTranslation.ts:59 | the word run of a name followed by `}` is the name |
| Translation.PlaceholderReplacedOnce | hooks/useTranslation.ts:59-61 | a placeholder is replaced once and the scan resumes after it, so inserted text is not re-scanned |
| Translation.Substitute | hooks/useTranslation.ts:59-61 | the global `{(\w+)}` replace, scanning left to right; no contract of its own, and `NoPlaceholderUnchanged`, `PlaceholderReplacedOnce` and `MissingParameterKept` state its cases |
| Translation.MissingParameterKept | hooks/useTranslation.ts:60 | a placeholder whose parameter is missing or empty stays as written |
| Translation.UnknownLocaleIsRussian | hooks/useTranslation.ts:30 | an unknown locale translates as Russian |
| Translation.ChosenLocaleWins | hooks/useTranslation.ts:36-55 | a path present in the chosen locale is used; a non-string value there gives the key, with no Russian fallback |
| Translation.MissingEverywhereGivesKey | hooks/useTranslation.ts:42-47 | a path missing in the chosen locale and in Russian gives the key |
| Translation.RussianFallback | hooks/useTranslation.ts:39-49 | a path missing in the chosen locale but present in Russian gives the Russian string |
| JobsPage.JsRem | app/jobs/page.tsx:513-514 | JavaScript's `%`: the Euclidean remainder for a non-negative dividend, non-positive for a negative one |
| JobsPage.PluralIndex | app/jobs/page.tsx:512-523 | the first form iff n % 10 = 1 and n % 100 ≠ 11; the second iff n % 10 in 2..4 and n % 100 outside 10..19; the third otherwise |
| JobsPage.PluralForm | app/jobs/page.tsx:512-523 | the result is one of the three forms |
| JobsPage.PluralByLastTwoDigits | app/jobs/page.tsx:512-523 | the form depends only on n mod 100, and 11 to 14 take the third form |
| JobsPage.AgeBucket | app/jobs/page.tsx:494-507 | exactly one bucket by the thresholds 60, 3600, 86400 and 604800 seconds, with floor counts |
| JobsPage.FormatRelativeTime | app/jobs/page.tsx:491-510 | "Только что" under a minute; then the count with минуту/минуты/минут, час/часа/часов or день/дня/дней by the plural rule, followed by "назад"; the locale date from a week on |
| JobsPage.PeriodSuffix | app/jobs/page.tsx:465-473 | a known period gives its suffix; a missing or unknown one gives "/мес" |
| JobsPage.FormatSalary | app/jobs/page.tsx:462-484 | no salary or two falsy bounds give "По договоренности"; both bounds "a - b"; only min "от a"; only max "до b"; each with the period suffix |
| JobsPage.Label | app/jobs/page.tsx:525-550 | "Не указано" for a missing code, the name of a known code, the code itself otherwise |
| JobsPage.EmploymentTypeLabel | app/jobs/page.tsx:525-536 | the employment-type label by the same rule |
| JobsPage.ExperienceLevelLabel | app/jobs/page.tsx:538-550 | the experience-level label by the same rule |
| JobsPage.PageWindow | app/jobs/page.tsx:1115-1116 | min(5, totalPages) consecutive numbers within 1..totalPages that include a valid current page |
| JobsPage.ActiveFiltersCount | app/jobs/page.tsx:369-392 | between 0 and 9, and 0 exactly for the cleared filters |
| JobsPage.Toggled | app/jobs/page.tsx:405-429 | the saved flag becomes the server's verdict, or flips locally, and the count moves by one in that direction |
| JobsPage.ToggleJobs | app/jobs/page.tsx:404-432 | only the jobs with the given id change |
| JobsPage.LocalToggleTwice | app/jobs/page.tsx:422-432 | two local toggles restore every job whose count was set |
| JobsPage.JobsPageState.constructor | app/jobs/page.tsx:223-238 | the filters, the sort order and the page read from the URL's search parameters, with their defaults; no jobs |
| JobsPage.FreshPageIsCleared | app/jobs/page.tsx:223-238 | without search parameters the page starts with the cleared filters, sort "newest" and page 1 |
| JobsPage.NumberTextRoundTrip | app/jobs/page.tsx:254-255 | a number written into the URL with `toString()` reads back with `parseInt`, `NaN` included |
| JobsPage.UrlRestoresPage | app/jobs/page.tsx:223-266 | the URL `fetchJobs` pushes restores the filters, the sort order and the page when the page is created from it |
| JobsPage.JobsPageState.ClearFilters | app/jobs/page.tsx:356-367 | every filter back to its default and sort back to "newest", so the active count is 0 |
| JobsPage.JobsPageState.ToggleSaveJob | app/jobs/page.tsx:394-436 | the job list after the toggle; filters and sort unchanged |
| CandidatesPage.ActiveFiltersCount | app/candidates/page.tsx:173-183 | between 0 and 9, and 0 exactly for the cleared filters |
| CandidatesPage.Selection | app/candidates/page.tsx:99-102 | "all" is sent as the empty string; other values as they are |
| CandidatesPage.QueryParams | app/candidates/page.tsx:95-109 | the thirteen query parameters in order; a select is sent empty exactly when it is "all" or empty |
| CandidatesPage.ClearedSendsNoFilter | app/candidates/page.tsx:161-171 | after clearing, no search text and no select value is sent |
| CandidatesPage.Get | app/candidates/page.tsx:115-116 | a property read is defined exactly for a key the object has |
| CandidatesPage.BodyJson | lib/api/utils.ts:4-27 | the envelope object: `success`, `timestamp`, and the data under `data` or the error under `error` |
| CandidatesPage.PageInfoRoundTrip | app/api/candidates/route.ts:175-184 | the pagination object the route writes reads back as the same six values |
| CandidatesPage.EnvelopeHidesListing | app/candidates/page.tsx:114-116 | read off the top of the route's envelope, the cards and the pagination are both undefined |
| CandidatesPage.ListingRoundTrip | app/api/candidates/route.ts:175-184 | read through `data`, the route's cards and pagination arrive unchanged |
| CandidatesPage.FetchAsWrittenBreaksRender | app/candidates/page.tsx:114-121 | as written, a successful listing response leaves the cards and pagination undefined, so the render after loading fails |
| CandidatesPage.CandidatesPageState.constructor | app/candidates/page.tsx:66-89 | the initial filters, sort "relevance", page 1, no candidates, the default pagination, loading |
| CandidatesPage.CandidatesPageState.ClearFilters | app/candidates/page.tsx:161-171 | every counted control reset, so the count is 0; sort order kept |
| CandidatesPage.CandidatesPageState.Window | app/candidates/page.tsx:661-662 | the page buttons stay within 1..totalPages and include a valid current page |
| CandidatesPage.CandidatesPageState.BeginFetch | app/candidates/page.tsx:92-93 | while loading both buttons are disabled |
| CandidatesPage.CandidatesPageState.FinishFetchAsWritten | app/candidates/page.tsx:111-121 | as written: `data.candidates` and `data.pagination` are read off the top of the parsed body |
| CandidatesPage.CandidatesPageState.FinishFetch | app/candidates/page.tsx:111-121 | corrected: on an ok response the cards and pagination are read under the envelope's `data` and the page becomes current; on failure they stay; either way loading ends and the buttons follow hasPrev and hasNext |
| CandidatesPage.PrevThenFinish | app/candidates/page.tsx:111-121 | a successful fetch from "previous" makes the page before current and shows exactly the route's cards and pagination |
| CareerOrientation.QuestionCategory | app/career-orientation/page.tsx:62-196 | a category exactly for the ids 1..10 |
| CareerOrientation.CounterFor | app/career-orientation/page.tsx:200-226 | personality: 0 and 3 introvert, 1 and 4 extrovert, else balanced; other categories: 0..3 fixed keys, anything else the last key |
| CareerOrientation.Scores.Bump | app/career-orientation/page.tsx:202-225 | one counter of one category goes up by one; the other categories are unchanged |
| CareerOrientation.Record | app/career-orientation/page.tsx:194-227 | one answer's effect keeps the counter table's shape |
| CareerOrientation.Tally | app/career-orientation/page.tsx:194-228 | the counters after all answers keep the table's shape |
| CareerOrientation.SumOfZeros | app/career-orientation/page.tsx:186-191 | the initial counters sum to 0 |
| CareerOrientation.SumBump | app/career-orientation/page.tsx:202-225 | one increment adds one to a category's sum |
| CareerOrientation.RecordCountsOnce | app/career-orientation/page.tsx:194-227 | an answer adds one to its own category's sum and nothing to the others |
| CareerOrientation.TallyPerCategory | app/career-orientation/page.tsx:194-228 | each category's counters sum to the number of answers to its questions |
| CareerOrientation.CountAnswer | app/career-orientation/page.tsx:200-227 | one `switch` step increments the mapped counter |
| CareerOrientation.AnalyzeScores | app/career-orientation/page.tsx:186-228 | the scoring loop computes the tally of the answers |
| CareerOrientation.BestAmong | app/career-orientation/page.tsx:231-249 | the first index with the largest count, ties in declaration order |
| CareerOrientation.First | app/career-orientation/page.tsx:231 | the top key of a stable descending sort |
| CareerOrientation.TopTwo | app/career-orientation/page.tsx:234-249 | the two top keys of a stable descending sort, distinct |
| CareerOrientation.TopPositions | app/career-orientation/page.tsx:234-249 | two distinct valid positions |
| CareerOrientation.Names | app/career-orientation/page.tsx:237 | one key name per position |
| CareerOrientation.Fired | app/career-orientation/page.tsx:252-318 | the careers of the rules that fire, in rule order |
| CareerOrientation.FiredOfFive | app/career-orientation/page.tsx:252-318 | the five rules fire independently, in order |
| CareerOrientation.PushIfFires | app/career-orientation/page.tsx:253-265 | one rule adds its career at the end of the list exactly when its interest is among the top interests and its skill among the top skills |
| CareerOrientation.RecommendCareers | app/career-orientation/page.tsx:252-340 | the pushes of the five rules, the fallback and the final `slice(0, 5)` give the reference list |
| CareerOrientation.Recommended | app/career-orientation/page.tsx:252-340 | one to five careers: fewer than three fired rules get Business Analyst appended, otherwise the fired careers are cut to at most five |
| CareerOrientation.FiredSplits | app/career-orientation/page.tsx:252-318 | the rules fired for two top interests split by interest |
| CareerOrientation.AtMostOneRulePerInterest | app/career-orientation/page.tsx:252-318 | at most one rule fires per interest |
| CareerOrientation.FallbackAlwaysAdded | app/career-orientation/page.tsx:252-331 | at most two rules fire, so Business Analyst is always appended |
| CareerOrientation.AnswerEntries | app/career-orientation/page.tsx:194 | one entry per question id, answered exactly when the id has an answer |
| CareerOrientation.KeysBound | app/career-orientation/page.tsx:333 | at most ten answer keys, so the score is at most 100 |
| CareerOrientation.Summarize | app/career-orientation/page.tsx:230-342 | the part after the loop returns the reference result for the counters |
| CareerOrientation.AnalyzeResults | app/career-orientation/page.tsx:185-343 | `analyzeResults` returns the reference analysis of the answers |
| CareerOrientation.AnalysisShape | app/career-orientation/page.tsx:185-343 | two distinct top interests and skills, one to three careers ending in Business Analyst, a score in 0..100 |
| CareerOrientation.SummaryShape | app/career-orientation/page.tsx:230-342 | the same shape for any counters |
| CareerOrientation.CareerTestPage.constructor | app/career-orientation/page.tsx:57-60 | intro, first question, no answers, no result |
| CareerOrientation.CareerTestPage.HandleAnswer | app/career-orientation/page.tsx:345-347 | records the answer under the question id and changes nothing else |
| CareerOrientation.CareerTestPage.NextQuestion | app/career-orientation/page.tsx:349-358 | advances below the last question; at the last it stores the analysis and shows the results |
| CareerOrientation.CareerTestPage.PrevQuestion | app/career-orientation/page.tsx:360-364 | one question back, never below the first |
| CareerOrientation.CareerTestPage.RestartTest | app/career-orientation/page.tsx:366-371 | intro, first question, no answers, no result |
| OnboardingWizard.UpdatedUserData | components/onboarding-wizard.tsx:45-47 | the named field takes the value; every other field keeps its own |
| OnboardingWizard.Toggled | components/onboarding-wizard.tsx:49-56 | the value's membership flips, others keep theirs, and an absent value is appended at the end |
| OnboardingWizard.ToggleTwice | components/onboarding-wizard.tsx:49-56 | ticking and unticking an unticked box restores the list |
| OnboardingWizard.UntickKeepsOrder | components/onboarding-wizard.tsx:49-56 | unticking removes the value wherever it is; the others keep their order |
| OnboardingWizard.Wizard.constructor | components/onboarding-wizard.tsx:18-26 | step 1 with the initial answers |
| OnboardingWizard.Wizard.HandleNext | components/onboarding-wizard.tsx:31-37 | next step below 5; at step 5 the answers are handed to `onComplete` |
| OnboardingWizard.Wizard.HandleBack | components/onboarding-wizard.tsx:39-43 | one step back above step 1; the step stays in 1..5 |
| OnboardingWizard.Wizard.UpdateUserData | components/onboarding-wizard.tsx:45-47 | only the named field changes |
| OnboardingWizard.Wizard.HandleCheckboxChange | components/onboarding-wizard.tsx:49-56 | toggles the value in `lookingFor` and changes nothing else |
| Autocomplete.Matching | app/post-job/page.tsx:43-53 | the suggestions that contain the input ignoring case, and only those |
| Autocomplete.MatchingConcat | app/post-job/page.tsx:47-49 | the filter distributes over concatenation, so it keeps the suggestions' order |
| Autocomplete.LowerCharIdempotent | app/resume-builder/page.tsx:43-44 | lower-casing a character twice is lower-casing it once |
| Autocomplete.ToLowerIdempotent | app/resume-builder/page.tsx:43-44 | lower-casing twice is lower-casing once |
| Autocomplete.MatchingIgnoresCase | app/resume-builder/page.tsx:39-49 | the case of the typed text does not change the matches |
| Autocomplete.AutocompleteInput.constructor | app/post-job/page.tsx:38-42 | the list is hidden and empty |
| Autocomplete.AutocompleteInput.HandleInputChange | app/post-job/page.tsx:43-53 | non-empty input refilters and shows the list iff something matches; empty input hides it |
| Autocomplete.AutocompleteInput.HandleSuggestionClick | app/post-job/page.tsx:55-59 | a click closes the list |
| Autocomplete.AutocompleteInput.Focus | app/post-job/page.tsx:67-72 | focus reopens the previous list when the value and the list are non-empty |
| Autocomplete.AutocompleteInput.Blur | app/post-job/page.tsx:73 | blur closes the list |
| PostJob.RemovedAt | app/post-job/page.tsx:267-272 | deletes exactly the entry at the index, keeping the others in order; an index out of range changes nothing |
| PostJob.RemovedAtKeepsNoDuplicates | app/post-job/page.tsx:267-272 | removal keeps the skills duplicate-free |
| PostJob.QuestionsWithout | app/post-job/page.tsx:284-289 | exactly the questions with another id remain |
| PostJob.QuestionsWithoutConcat | app/post-job/page.tsx:284-289 | removal keeps the other questions in order |
| PostJob.BenefitAppended | app/post-job/page.tsx:531-535 | "• b" for empty text, otherwise the text followed by "\n• b" |
| PostJob.PreviewSalary | app/post-job/page.tsx:781-790 | no line unless an amount is set; "min - max TJS" when both are; otherwise "Договорная" or "Не указана" |
| PostJob.PostJobPage.constructor | app/post-job/page.tsx:96-118 | the empty form |
| PostJob.PostJobPage.AddSkill | app/post-job/page.tsx:257-265 | appends the trimmed input only when non-empty and new, clearing the input only then; the skills stay duplicate-free |
| PostJob.PostJobPage.AddPopularSkill | app/post-job/page.tsx:602-606 | appends a popular skill unless listed; the skills stay duplicate-free |
| PostJob.PostJobPage.RemoveSkill | app/post-job/page.tsx:267-272 | removes exactly the entry at the index |
| PostJob.PostJobPage.AddQuestion | app/post-job/page.tsx:274-283 | a non-blank input becomes an optional question with the trimmed text and the input clears |
| PostJob.PostJobPage.RemoveQuestion | app/post-job/page.tsx:284-289 | every question with the id goes |
| PostJob.PostJobPage.AddBenefit | app/post-job/page.tsx:531-535 | the benefits text gains the bullet line |
| ResumeBuilder.StepIndex | app/resume-builder/page.tsx:302 | `findIndex`: the position of the step, or −1 exactly when it is not a step |
| ResumeBuilder.NextStep | app/resume-builder/page.tsx:845-857 | the following step, or the same at the last |
| ResumeBuilder.PrevStep | app/resume-builder/page.tsx:835-843 | the preceding step, or the same at the first |
| ResumeBuilder.StepsMoveByOne | app/resume-builder/page.tsx:835-857 | each button moves the index by one within 0..5 |
| ResumeBuilder.BackUndoesNext | app/resume-builder/page.tsx:835-857 | "Back" undoes "Next" everywhere but at the last step |
| ResumeBuilder.AiSuggested | app/resume-builder/page.tsx:228-244 | only `summary` or `title` change, to their canned text; any other own field name changes nothing (inherited names are under "## Left out") |
| ResumeBuilder.ResumeBuilderPage.constructor | app/resume-builder/page.tsx:95-144 | the first step, empty personal data, no skills |
| ResumeBuilder.ResumeBuilderPage.AddSkill | app/resume-builder/page.tsx:277-284 | appends a non-empty new skill; the skills stay duplicate-free |
| ResumeBuilder.ResumeBuilderPage.RemoveSkill | app/resume-builder/page.tsx:286-291 | every occurrence goes, the rest keep their order |
| ResumeBuilder.ResumeBuilderPage.SkillInputChange | app/resume-builder/page.tsx:701-705 | a value is added only when it equals a suggestion exactly and is not yet listed |
| ResumeBuilder.ResumeBuilderPage.HandleAiSuggestion | app/resume-builder/page.tsx:228-244 | the personal data after the suggestion; skills and step unchanged |
| ResumeBuilder.ResumeBuilderPage.Next | app/resume-builder/page.tsx:845-857 | the next step; the step stays one of the six |
| ResumeBuilder.ResumeBuilderPage.Back | app/resume-builder/page.tsx:835-843 | the previous step; the step stays one of the six |
| ApplyPage.JobFor | app/apply/page.tsx:73-81 | the job carries the `job` parameter as its id, or "1" without one |
| ApplyPage.CurrentView | app/apply/page.tsx:256-268 | the error view exactly when the `job` parameter is missing or empty, otherwise the current step |
| ApplyPage.StatusLabel | app/apply/page.tsx:238-254 | each status has a non-empty label |
| ApplyPage.StatusLabelsDistinct | app/apply/page.tsx:238-254 | distinct statuses have distinct labels |
| ApplyPage.FindDefault | app/apply/page.tsx:198 | `find(r => r.isDefault)`: a default resume of the list, or none when there is none |
| ApplyPage.DefaultResumeSelection | app/apply/page.tsx:196-203 | the effect replaces a non-empty selection by the default resume and leaves an empty selection alone |
| ApplyPage.DefaultResumeNeverSelected | app/apply/page.tsx:196-203 | a default resume exists, yet the effect on the initial empty selection selects nothing |
| ApplyPage.NewApplication | app/apply/page.tsx:209-220 | status pending, no unread messages, the job's id, title, company and logo |
| ApplyPage.ApplyPageState.constructor | app/apply/page.tsx:65-71 | the resume step, no selection, no application, no messages |
| ApplyPage.ApplyPageState.ChooseResume | app/apply/page.tsx:471 | only the selection changes |
| ApplyPage.ApplyPageState.Continue | app/apply/page.tsx:500 | moves to the form only when a resume is selected |
| ApplyPage.ApplyPageState.Back | app/apply/page.tsx:569 | back to the resume step |
| ApplyPage.ApplyPageState.SubmitApplication | app/apply/page.tsx:205-222 | the success step with the new pending application |
| ApplyPage.ApplyPageState.OpenChat | app/apply/page.tsx:587 | the chat step |
| ApplyPage.ApplyPageState.EditMessage | app/apply/page.tsx:388 | only the input changes |
| ApplyPage.ApplyPageState.SendMessage | app/apply/page.tsx:224-236 | a non-blank input is appended untrimmed as a candidate message and the input clears; a blank one changes nothing |
| ApplyPage.FlowWithoutJob | app/apply/page.tsx:256-268 | without a `job` parameter every step of the flow shows the error view |

## Left out

- SQL and the database driver. Query results are oracles or method parameters: the chat access check, the participant rows, the insert and update outcomes, and the rows of the job query. Writes are ghost logs. The candidate route's SQL text is abstracted to condition kinds and placeholder numbers.
- The WebSocket transport: the `ws` events, JSON encoding and decoding, and real socket closing. Frames are abstract events appended to a ghost outbox. Handlers run as sequential steps.
- The order of a broadcast. JavaScript `Set` iteration order is not modelled: a broadcast is specified as one frame per target, in some order.
- `jsonwebtoken` and `bcryptjs` (`verifyToken`, `generateToken`, `hashPassword`, `verifyPassword`, `generateVerificationToken`). Token verification is a function parameter.
- The clock, `Math.random` and the `Intl` formatters (`formatCurrency`, `formatDate`, `toLocaleDateString`). Elapsed seconds, timestamps, random strings and formatted texts are parameters.
- `sanitizeHtml`, whose backtracking patterns with lookahead are not modelled, and `validateRequest`, which depends on the `zod` library.
- The file system writes of the upload route, and the `url` of its response.
- `NaN` from `Number.parseInt` on the routes' pagination and candidate filter values. Those numeric query inputs are integers or absent. The exceptions keep `NaN` as `None`: the candidate route's experience bounds, the salary bounds of `getSearchParams`, and the job listing page's URL values.
- Floating point: the progress-bar percentages and `Math.round` of the score. The score is `10 · answers`, which equals the rounded value for at most ten answers.
- Rendering, routing glue and the pages' remaining fetches (`fetchJobs`, the job listing's fallback loading, `shareJob`).
- The resume builder's experience, education and language lists and their handlers, and the descriptive fields of recommended careers. They are plain form bindings.
- Character encoding. JavaScript strings are UTF-16, while the model uses Dafny characters, so `substring(0, 100)` counts characters. `toLowerCase` is modelled for ASCII and the basic Cyrillic alphabet only.
- Deferred timers. The application page's one-second submit delay and the autocomplete's 200 ms blur delay are modelled as already fired. So after a suggestion click, `HandleSuggestionClick` leaves the list closed. In the source, the click also refocuses the input, and the focus handler reopens the list until the blur timer fires; the model gives the state after that timer.
- OnboardingWizard.Wizard.UpdateUserData: requires `lookingFor` to receive a list. The source casts `lookingFor` to `string[]` and never stores anything else there.
- JobsRoute.BuildJobsQuery: `page` and `limit` are integers, so the `NaN` and fractional values that `Number.parseInt` of a malformed query would give are not covered.
- CareerOrientation.AnswerEntries: answers are keyed by integer question ids, in ascending id order, as `Object.entries` lists integer-like keys. Keys outside 1..10 are not produced by the page's handlers and are not modelled.
- ChatServer.ChatWebSocketServer.HandleMessage: a parsed message with a missing field is not modelled. Messages are either well-formed, of an unknown type, or unparseable.
- CandidatesRoute.AddExperience: an `experience` value naming a property every object inherits ("constructor", "toString", "valueOf", "__proto__") is not modelled. In the source, `expMap[experience]` is then a function or an object, not a string, so `.split` throws and the route answers 500 through `handleApiError`. The model treats such a value like any other unmapped label and adds no condition.
- JobsPage.PeriodSuffix, JobsPage.Label, Translation.Substitute and ResumeBuilder.AiSuggested: the same inherited names are not modelled. In the source, `periodMap`, `typeMap`, `levelMap`, the `{param}` lookup and the `suggestions` object find the inherited function. The first four render its source text, and the resume builder writes it into the personal field. The model treats these names as absent keys. The resume builder only ever passes "title" and "summary".
- ChatServer.ChatWebSocketServer.HandleJoinConversation: the access oracle `hasAccess` is fixed for the whole run, so participants never change. The source queries access only at join time; a participant removed later keeps receiving the room's broadcasts and can still send, type and mark messages read, and the model does not follow such removals.
- JobsPage.QueryGet: the search parameters are a map from name to value, so a name repeated in the URL is not modelled. `URLSearchParams.get` returns the first of the repeated values.
- ApiUtils.HandleApiError: the error is modelled by its message text. The source calls `error.message.includes` on whatever was thrown, so a thrown value without a string `message` makes the handler itself throw, and the model does not cover that.
- CandidatesPage.PageInfoOf: JSON numbers are integers, and a `pagination` object with a missing or ill-typed field reads as undefined. The route always writes all six fields with numbers and booleans.

## Findings

| source | as written | input that shows it | evidently intended | confidence | as-written member | corrected member |
|---|---|---|---|---|---|---|
| app/candidates/page.tsx:114-116 | `fetchCandidates` reads `data.candidates` and `data.pagination` off the parsed body, but the candidates route wraps them in the `createApiResponse` envelope under `data` (app/api/candidates/route.ts:175-184, lib/api/utils.ts:4-13), so both become undefined and the render after loading throws at `pagination.total` and `candidates.length` | any successful listing response, e.g. `{"success": true, "data": {"candidates": [], "pagination": {...}}, "timestamp": "..."}` | read `data.data.candidates` and `data.data.pagination` | high (not executed) | CandidatesPage.FetchAsWrittenBreaksRender | CandidatesPage.PrevThenFinish |
