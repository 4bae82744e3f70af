# Monitor console: verified protocol core

A Dafny model of the parts of the monitoring console where order, time and aliasing matter:
the backend-for-frontend's session and sign-in protocols, its rate limiter and path guard, and the
browser client's event stream, paged decision log and step-up dialog.  The results are
about all inputs, all runs or all reachable states of the model; beside them stand single runs and
inputs that show where a property ends.

`dafny verify dfyconfig.toml` checks the whole project.

## What is modelled

**Sessions** (`SessionProtocol`, `SessionSafety`, `SessionDeletion`, `SessionTheorems`,
`SessionReturns`, `SessionAnswers`, `SessionStories`, `SessionLogout`, `SessionSharing`, `SessionOrder`,
`SessionRows`, `SessionTokens`, `SessionRevocation`, `SessionRefresh`, `SessionSequence`,
`SessionWitnesses`).  `/bff/session`, `/bff/logout`, `/bff/elevate`, the session
gateway, the sweeper and sign-ins as one state machine.  Each handler is cut into its atomic steps
(get, touch, put, CSRF check, revoke, counter load, delete, counter load, refresh, upstream call,
set tokens), and any number of handlers interleave with each other, with clock ticks, with sweeps
and with refreshes that outlive their request.  Both kinds of store are there: one hands out the
stored object, the other rehydrates a private copy on every read.

**Sign-in** (`LoginProtocol`, `LoginSafety`, `LoginTheorems`, `LoginOutcomes`).  `/bff/login`,
`/bff/callback` and the pending-login store, step by step: what every run keeps, how every request
ends, and when a sign-in can succeed.

**Rate limiter and addresses** (`RateLimiter`, `RateTraces`, `ClientAddress`).  The limiter as a
class over a map of shared counters, proved against a mathematical limiter; whole traces of
requests and sweeps; the derivation of the client address and the header the proxy sends on.

**Path guard** (`PathClean`, `PathGuard`, `PathUpstream`).  Go's `path.Clean` as its loop over an
output buffer, the guard's test, the allowlist decision, and what an upstream makes of a path: RFC
3986's remove_dot_segments and the merging of slashes.

**Event stream** (`SseReader`, `SseFrames`, `SseStandard`, `SseReconnect`,
`SseReconnectTheorems`, `SseReconnectWitnesses`).  The read loop with its line buffer and frame
parser over any chunking, the live feed it fills, and the connect/abort/backoff machine.

**Paged decision log** (`PolicyPaging`, `PolicyPagingTheorems`).  The list, its cursor and its
window against a server log that grows.

**Step-up** (`StepUp`, `StepUpTheorems`).  One promise shared by any number of waiting API calls.

**Storage purge** (`StoragePurge`).  Removal by index while the indices shift.

## What was found

* On a store that rehydrates a step-up can answer 204 and its token be lost: a `/bff/session` that
  read the session before it writes its older copy back after it (`StaleWriteBackUndoesAStepUp`), or
  the step-up's own write-back fails, which nobody looks at (`FailedWriteBackLosesAStepUp`).
  `RowServesTheLatest` is the exact condition over all reachable states: the last write of the row
  was in order and no token was given out since.  `WriteBackServesTheLatest` is the same for each
  write-back, whatever comes of its statement.  When requests follow each other and no write-back
  fails, nothing is lost (`NothingIsLost`), and on the memory store nothing ever is
  (`MemoryServesTheLatestToken`).
* The same race brings a spent refresh token back, and the session ends with the refresh that
  presents it (`SpentRefreshTokenEndsTheSession`).  It takes overlapping requests
  (`EveryRefreshPresentsTheLatest`) and the rehydrating store (`MemoryNeverPresentsASpentToken`).
* A logout that answers 204 may leave a token of the session unrevoked: on the rehydrating store
  because it works on an older copy (`StaleLogoutRevokesTheOlderToken`), on either because a token
  given out between revocation and deletion is nobody's to revoke
  (`TokenGivenAfterTheRevocation`).  `DurableLogoutRevokesTheLast` and `MemoryLogoutRevokesTheLast`
  say exactly when the last token is the one revoked.
* A tombstone protects a deleted session for its TTL and no longer: a request that is one tick late
  brings the session back (`LateRequestRevives`).  `NoResurrection` is for runs in which every
  request that read a session is done within the TTL; over all runs, a dead session can come back
  exactly when a request in flight holds it and can still get to a write-back
  (`DeadSessionsReturnExactlyIf`).
* The failure counter is compared modulo 2^64: 2^64 failures during one delete look like none
  (`ComparisonIsExact`, `WrappedCounterHidesTheFailure`).
* `canonicalPathOnly` accepts three odd paths: `//`, `.` and `./` (`AcceptedPaths`).  The
  rooted one does not change the allowlist decision (`SameDecisionUpstream`).
* A peer address that holds a comma or outer white space is not read back as sent
  (`SocrateReadsTheClient`, `CommaInThePeerIsCut`); an IP address always is.
* The event stream reader keeps an incomplete line for the next read, but not an incomplete event:
  one whose lines come in different reads is lost, or loses its type, and its type can then be given
  to the next event (`CutFrameMistypesTheNext`).  `EventsSurviveExactlyWhenUncut` is the exact
  condition.
* A stream with CR LF line ends, which the WHATWG standard allows, dispatches nothing at all
  (`CarriageReturnsSilence`).
* `disconnect()` does not cancel a scheduled reconnect (`TimerOutlivesDisconnect`;
  `DisconnectIsNotFinal` says exactly when a connection comes back).
* `isSSEConnected` is wrong after exactly three kinds of step (`FlagStaysTruthful`,
  `FlagStaysNoticed`): the stream ends (`EndedStreamLooksConnected`), a fetch is accepted although it
  was aborted and nothing took its place (`AbortedFetchLooksConnected`), or an aborted connection
  fails while a newer stream is open (`AbortedRefusalHidesTheStream`).
* An aborted connection may still schedule a reconnect, which then aborts the newer one: a refused
  response whose body is aborted ends in an ordinary error (`SchedulesExactlyIf`,
  `AbortedRefusalHidesTheStream`).
* A cursor of id 0 is dropped from the query and the newest page is fetched again
  (`CursorZeroRepeatsTheFirstPage`, `RowZeroComesAgain`).

## Assumptions

backendkit is not part of this model.  Its stores are assumed to behave as the comments in
`bff/server.go` and `bff/stores.go` say: Delete leaves a tombstone and re-stamps an older one, Put
never replaces a tombstone, tombstones are swept only when older than the TTL, a failed statement
is counted before the call returns, Take removes what it returns, Put on a full pending store
fails, random tokens never repeat, and a refresh may write back at any time, also after its request
has ended.  Which live rows the store calls expired is left to the store.  The clock never goes
back.  The policy server answers a query with the newest matching rows, appends only, and orders
ids like creation times.

## Model

| member | source | states |
|---|---|---|
| SessionSafety.NextKeeps | bff/auth.go:89-239 | every step of every handler, the sweeper and sign-in keeps the session invariant: rows, held objects and requests fit together, each session shows its own CSRF token and a token given to it, and nobody is past the CSRF check without that token |
| SessionDeletion.NextKeepsDeletion | bff/server.go:214-233 | every timely step keeps: a deleted id is a tombstone or one old enough to be swept, and whoever holds a deleted session read it before the delete |
| SessionTheorems.NoResurrection | bff/server.go:224-233 | once a session is deleted, no later state of any timely interleaving serves it, on either store, and nobody resolves it again |
| SessionReturns.DeadSessionsReturnExactlyIf | bff/server.go:224-233 | from any reachable state, a dead session can come back in some run, timely or not, if and only if a request in flight holds it and can still get to a write-back |
| SessionLogout.CleanLogoutDeletedItself | bff/auth.go:108-129 | a 204 for a resolved session means that this logout's own delete went through, in every run in which the counter does not wrap |
| SessionLogout.CleanLogoutIsFinal | bff/auth.go:108-129 | and the session is gone for good, if the run is timely as well |
| SessionLogout.ComparisonIsExact | bff/stores.go:114-121 | whatever run lies between the two loads, the answer is 204 if and only if the statements that failed in it number a multiple of 2^64, and 500 otherwise; so a 500 means that a statement failed between the loads |
| SessionTheorems.CsrfGuardsEveryDeed | bff/auth.go:110-163 | in every reachable state, tokens were revoked, sessions deleted by logout or elevate and step-up tokens stored only for a request that presented that session's CSRF token |
| SessionTheorems.ServedTokensBelong | bff/auth.go:217-237 | in every reachable state a live session has its own CSRF token and a non-empty access token that the exchange, a refresh or a step-up gave to that very session |
| SessionTheorems.OnlyTheseEndASession | bff/auth.go:166-215 | a step ends a live session if and only if it is a sweep of an expired row or a successful delete by a request that holds it (and matched its CSRF token, for logout and elevate); SessionStories.SessionsEndExactlyFor says how a request gets to its delete |
| SessionStories.SessionsEndExactlyFor | bff/auth.go:110-179 | over every run a live session ends if and only if it is swept as expired, a logout that presented its CSRF token deletes it, or a request whose own refresh the issuer rejected does; so no transient refresh or upstream failure ends one |
| SessionStories.TransientFailureChangesNothing | bff/auth.go:166-179 | a refresh that fails for any other reason answers 502 and leaves rows, objects, tokens and history as they were |
| SessionStories.UpstreamFailureChangesNothing | bff/auth.go:182-225 | so does a step-up whose upstream brings no usable token, with the status it asks for: 500, 502 or the upstream's own 4xx |
| SessionStories.EveryAnswerIsExplained | bff/auth.go:90-239 | in every reachable state the status of every finished request of every handler is told by what its own calls brought (the session it found, its CSRF token, its refresh, its upstream's answer), and it made exactly the write-backs, the revocation and the delete that go with that |
| SessionStories.FindsExactlyIf | bff/server.go:212-222 | a request finds a session if and only if its statement goes through and the store serves that id, and it works on what the store serves |
| SessionStories.SignInIsServed | bff/auth.go:76-84 | the session a callback stores is live from then on, with its own CSRF token and access token, and no other session's being live changes |
| SessionStories.UseSlidesTheWindow | bff/server.go:209-222 | over every run, a write-back that goes through and meets no tombstone leaves a live session that was seen when its request read it, or later |
| SessionStories.EveryHandlerEnds | bff/auth.go:90-239 | over every run no request takes more than ten steps, and it can take another one unless it has answered |
| SessionTheorems.OnlyTheseReviveASession | bff/server.go:224-233 | a minted session that is not live comes back if and only if a request that still holds it writes back after the tombstone is gone |
| SessionAnswers.StepUpAnswersAreHonest | bff/auth.go:151-239 | in every reachable state a finished step-up answered 204 if and only if the session object it held was given the step-up's token |
| SessionRows.StepUpTokenLands | bff/auth.go:236-238 | on either store, whatever comes of the write-back, the answer is 204; the object's token is served right after it if and only if the statement did not fail and met no tombstone, or the session served that token before |
| SessionAnswers.LogoutRevokesFirst | bff/auth.go:108-129 | in every reachable state a finished logout that resolved its session had the tokens it held revoked if and only if it answered 204 or 500, so not when the CSRF check failed |
| SessionRevocation.MemoryLogoutRevokesTheLast | bff/auth.go:115-116 | on the memory store, for every finished logout (204 or 500) of a session that it resolved: the token it revoked is the session's last if and only if none was given out after the revocation |
| SessionRevocation.DurableLogoutRevokesTheLast | bff/auth.go:115-116 | on the rehydrating store, if and only if none was given out after it and the logout's copy was in order at the revocation |
| SessionWitnesses.StaleLogoutRevokesTheOlderToken | bff/auth.go:134-145 | a run in which a logout answers 204 and has revoked an older token |
| SessionWitnesses.TokenGivenAfterTheRevocation | bff/auth.go:115-116 | a run on the memory store in which a token is given out between revocation and deletion and never revoked |
| SessionWitnesses.WrappedCounterHidesTheFailure | bff/stores.go:114-121 | a run in which a logout's delete fails, 2^64-1 other statements fail, and it answers 204 with the session still there |
| SessionSharing.MemoryServesTheLatestToken | bff/server.go:214-233 | on the memory store, in every reachable state, a live session serves the last token it was given |
| SessionOrder.CopyIsTheLatest | bff/server.go:214-233 | on the rehydrating store, at every step of every request that holds a session: its copy has the latest token if and only if no token was given out since it read an up to date row, or the last one since was given to it |
| SessionRows.RowServesTheLatest | bff/server.go:214-233 | on the rehydrating store, in every reachable state, a live session serves its latest token if and only if the last write of its row was in order and no token was given out since |
| SessionRows.WriteBackServesTheLatest | bff/server.go:219-233 | after any of the three write-backs (idle window, refresh, step-up), with any outcome, it does if and only if the writer's copy was in order, or, if the statement failed, the row was |
| SessionTokens.MemoryTokenChanges | bff/auth.go:166-237 | on the memory store a live session's token is replaced only by a granted token, in the step that grants it to a request that holds the session; no transient refresh or upstream failure replaces it |
| SessionTokens.DurableTokenChanges | bff/auth.go:166-237 | on the rehydrating store it is replaced only by a successful write-back, with the writer's token |
| SessionWitnesses.StaleWriteBackUndoesAStepUp | bff/auth.go:236-238 | a run on the rehydrating store in which a step-up answers 204 and its token is overwritten by an older copy |
| SessionWitnesses.FailedWriteBackLosesAStepUp | bff/auth.go:236-238 | a run in which its own write-back fails and the answer is 204 |
| SessionRefresh.MemoryNeverPresentsASpentToken | bff/auth.go:166-170 | on the memory store, in every reachable state, no request holds a token set that a refresh has spent |
| SessionRefresh.InOrderIsUnspent | bff/auth.go:166-170 | on the rehydrating store, no copy that is in order is spent |
| SessionSequence.NothingIsLost | bff/gateway_v112_test.go:64-96 | on the rehydrating store, over every run of requests that follow each other without a failed write-back, a live session serves its latest token whenever nobody is in flight |
| SessionSequence.EveryRefreshPresentsTheLatest | bff/gateway_v112_test.go:64-96 | over those runs every request in flight holds the latest token set, and never a spent one |
| SessionWitnesses.SpentRefreshTokenEndsTheSession | bff/server.go:214-233 | a run of overlapping requests in which a spent token set is written back, presented, and the session ends |
| SessionWitnesses.LateRequestRevives | bff/server.go:224-233 | for either store and every TTL, a run in which a request one tick late revives a session whose logout answered 204 |
| LoginSafety.NextKeeps | bff/auth.go:19-87 | every step of login, callback and sweep keeps the sign-in invariant: conservation of logins, distinct nonces, one exchange, session and cookie per state, and every record backed by the one before it |
| LoginOutcomes.CallbackAnswersExactly | bff/auth.go:47-87 | in every reachable state a finished callback answered 302 if and only if it set its cookie, which it did if and only if it took its login, presented a code and that login's nonce and was granted a token; 502 if it was refused one, 400 everywhere else |
| LoginOutcomes.SignsInExactlyIf | bff/auth.go:49-86 | from every state a new callback, left to itself, can get to its redirect with the cookie if and only if it has no error, a code, the state of a stored login within its time to live, and that login's non-empty nonce |
| LoginOutcomes.ErrorsSpendNothing | bff/auth.go:51-54 | in every reachable state a callback with an error took no login, exchanged nothing and got no cookie |
| LoginOutcomes.LoginAnswersExactly | bff/auth.go:19-45 | in every reachable state a finished login answered 302 if and only if it was put, and redirected; 503 if its tokens were drawn and it was not put, 429 if none were drawn |
| LoginOutcomes.RedirectsExactlyIf | bff/auth.go:29-44 | from every state a login that has drawn its tokens can redirect to the issuer if and only if the store has room |
| LoginOutcomes.LoginsAreTakenInTime | bff/auth.go:56-62 | over every run a login is taken, and so exchanged, only within its time to live, and dropped as expired only after it |
| LoginOutcomes.SweepDropsTheExpired | bff/stores.go:123-128 | the sweep drops exactly the stored logins whose time to live has passed, and changes no other |
| LoginTheorems.PendingLoginsAreConserved | bff/auth.go:29-58 | successful puts are exactly the stored, the taken and the expired logins, in number too, and the store never exceeds its bound |
| LoginTheorems.RedirectsAreBacked | bff/auth.go:29-44 | a redirect to the issuer is sent only for a stored state, with the S256 challenge of that login's verifier and its nonce cookie |
| LoginTheorems.RefusedLoginsLeaveNoTrace | bff/auth.go:20-43 | a login answered 429 or 503 stored nothing and redirected nobody |
| LoginTheorems.AtMostOneSessionPerLogin | bff/auth.go:55-85 | over every run, sessions map injectively to stored logins, each session has the one exchange of its state, and each state reaches the token endpoint at most once |
| LoginTheorems.SessionsHoldTheirExchangesToken | bff/oauth.go:91-127 | in every reachable state a created session has a non-empty access token that the exchange of that login's code and verifier was granted |
| LoginTheorems.VerifierMatchesChallenge | bff/oauth.go:42-64 | the verifier sent for a state is the one whose challenge was in that state's redirect (sections 4.1 to 4.6 of RFC 7636) |
| LoginTheorems.CookieGoesToTheBrowserThatBegan | bff/auth.go:63-86 | the session cookie goes only to a browser that presents the nonce drawn for the login behind that session, and of all redirects that nonce went out with that login's only |
| RateLimiter.Limiter.Allow | bff/ratelimit.go:41-60 | the method on the shared map and counters returns the mathematical limiter's verdict and leaves its map |
| RateLimiter.Limiter.Sweep | bff/ratelimit.go:62-75 | deleting while ranging removes exactly the windows that have rolled over |
| RateTraces.MapAgrees | bff/ratelimit.go:41-75 | after any trace, the map and one key's own fold agree on every open window |
| RateTraces.SweepsAndOtherKeysAreInvisible | bff/ratelimit.go:41-75 | every verdict and retry duration is the one the key would get alone and unswept |
| RateTraces.VerdictsDependOnTheKeyAlone | bff/ratelimit.go:41-75 | two traces that agree on one key's requests, whatever the sweeps and other keys, give it the same verdicts |
| RateTraces.SweepLeavesTheOpenWindows | bff/ratelimit.go:62-75 | right after a sweep the map holds exactly the keys whose window is open |
| RateTraces.SlidingWindowBound | bff/ratelimit.go:43-60 | any k windows admit at most (k+1)*limit-1 requests of a key, one window 2*limit-1, in every trace of allow and sweep |
| RateTraces.RefusedOnlyWhenSpent | bff/ratelimit.go:43-60 | in every trace a request is refused only if its key was admitted limit times in the one window of time that ends with it |
| RateTraces.DisabledAdmitsAll | bff/ratelimit.go:44-46 | a limit of zero or less admits every request of every trace and counts nothing |
| RateTraces.BoundIsSharp | bff/ratelimit.go:43-60 | for every budget (window of at least two clock units) and every k the bound is reached |
| RateTraces.RetryIsExact | bff/ratelimit.go:55-57 | a refusal's duration is positive and at most the window, and the key's next request is admitted if and only if it comes that much later |
| RateTraces.HeaderIsTheWait | bff/ratelimit.go:117-121 | for every refusal in every trace the header is the duration in whole seconds, truncated, and 1 below one second |
| RateTraces.AtMostOneMoreRefusal | bff/ratelimit.go:113-123 | in every trace, a client that waits the emitted whole seconds with no other request of its key is admitted if and only if nothing was truncated away, and if not, after waiting the second refusal's seconds |
| ClientAddress.Request.Attribute | bff/attribution.go:26-30 | the address recorded for the request is clientIP's; for a peer that is not loopback, the host it connects from, whatever the header |
| ClientAddress.ClientIsTheEntryOrThePeer | bff/ratelimit.go:87-104 | for every peer, with a port or without, and every header: the first entry if the peer's host is loopback and that entry is an address, and the host in every other case |
| ClientAddress.LeftmostIsTheFirstEntry | bff/ratelimit.go:94-99 | cutting at the first comma and trimming finds exactly the entry that stands there between white space, for every header |
| ClientAddress.Request.Direct | bff/attribution.go:39-46 | the director drops every inbound X-Forwarded-For, sets the attributed address and leaves the other headers |
| ClientAddress.Request.Proxy | bff/attribution.go:26-47 | what Socrate receives is one header that depends on the inbound one only through clientIP |
| ClientAddress.SocrateReadsTheClient | bff/ratelimit.go:87-104 | splitting the outgoing header at its first comma and trimming gives back clientIP if and only if that came from the header or the peer's host has no comma and no outer space |
| ClientAddress.CommaInThePeerIsCut | bff/ratelimit.go:88-91 | a peer for which it does not |
| ClientAddress.SocrateReadsTheClientOfAnIPPeer | bff/attribution.go:32-47 | so it always does for an IP peer, whatever headers came in, and the value is an IP address |
| ClientAddress.LoopbackClientIsTheFirstEntry | bff/ratelimit.go:92-102 | behind a loopback peer the first entry of the header, if an IP address, is the client, whatever follows it and whatever white space is on either side |
| ClientAddress.HeadersCannotDodgeTheBudget | bff/ratelimit.go:87-124 | a host that is not loopback gets at most 2*limit-1 requests through per window over all its connections, whatever their ports and whatever X-Forwarded-For it sends |
| PathClean.CleanLoop | bff/server.go:161 | the loop of path.Clean computes the fold of the path's segments over a stack |
| PathClean.FoldIsClean | bff/server.go:161 | the result has names only, behind ".." segments if the path is not rooted |
| PathGuard.AcceptedPaths | bff/server.go:158-170 | for every string, the guard lets it pass if and only if there is no RawPath and it is made of names (".." only in front of an unrooted path, an empty segment only last) or is one of three odd paths |
| PathGuard.DecidesBySegments | bff/server.go:15-18 | for every rooted path the prefix test is a test of whole segments: "/api/admin" and "/api/administrators" are out, "/api/admin/" and all below it are in |
| PathUpstream.NormalisationResolves | bff/server.go:151-157 | for every rooted path, accepted or not, remove_dot_segments and slash merging on strings are the resolving of dot segments and the dropping of empty ones on segments, and the upstream decides by what is left |
| PathUpstream.NormalisationIsTheIdentity | bff/server.go:151-157 | remove_dot_segments (section 5.2.4 of RFC 3986) leaves every accepted rooted path alone, and so does slash merging except for "//" |
| PathUpstream.SameDecisionUpstream | bff/server.go:103-115 | for every accepted rooted path the prefix decision holds if and only if its segments begin with api and admin and there is at least one more; and the normalised path is decided alike |
| PathUpstream.UnguardedDecisionsDiffer | bff/server.go:151-157 | without the guard "/api/admin/.." changes the decision; the guard refuses it |
| SseReader.LinesIgnoreTheChunking | src/composables/useSSE.ts:66-78 | for every chunking, the lines parsed so far followed by the buffer are the newline split of the input so far |
| SseReader.ParseLines | src/composables/useSSE.ts:80-94 | one read feeds what one pass of the frame parser over its lines dispatches |
| SseReader.ReadLoop | src/composables/useSSE.ts:64-95 | the read loop leaves the feed as the frames dispatched read by read make it |
| SseReader.LiveFeed.AddLiveEvent | src/stores/monitorStore.ts:177-183 | an event goes in front and the feed keeps a hundred |
| SseReader.FeedIsTheNewest | src/stores/monitorStore.ts:177-183 | the feed is the newest hundred of all events recognised, newest first |
| SseFrames.EventsSurviveExactlyWhenUncut | src/composables/useSSE.ts:68-95 | the events dispatched equal those of one pass over the whole stream if and only if no read boundary falls between a line that set a value of a frame and the frame's end; there are never more of them |
| SseFrames.WholeFramesAreUncut | src/composables/useSSE.ts:80-94 | in particular if every read ends between frames |
| SseStandard.CutFrameMistypesTheNext | src/composables/useSSE.ts:80-94 | a two-read stream in which one event is lost and the next gets its type |
| SseStandard.RoundTrip | src/composables/useSSE.ts:64-95 | however the rendering of (type, data) pairs is chunked, exactly those pairs are dispatched if and only if no frame is cut, and the buffer ends empty |
| SseStandard.FollowsTheStandard | src/composables/useSSE.ts:83-93 | on plain lines the parser dispatches what section 9.2.6 of the WHATWG HTML standard does |
| SseStandard.CarriageReturnsSilence | src/composables/useSSE.ts:77-94 | a stream whose lines end in CR LF dispatches nothing, however it is chunked |
| SseReconnect.UseSSE.Connect | src/composables/useSSE.ts:19-36 | connect() up to its first await, as the machine's step |
| SseReconnect.UseSSE.Disconnect | src/composables/useSSE.ts:175-182 | disconnect() aborts and forgets the current controller, as the machine's step |
| SseReconnect.UseSSE.OnResponse | src/composables/useSSE.ts:48-62 | the code behind fetch(), as the machine's steps |
| SseReconnect.UseSSE.Catch | src/composables/useSSE.ts:96-114 | the catch block: silent for an abort, otherwise at most one new timer |
| SseReconnectTheorems.AtMostOneConnection | src/composables/useSSE.ts:19-46 | in every reachable state at most one connection is unfinished and not aborted, and it is the one in abortController |
| SseReconnectTheorems.ConnectingEnds | src/composables/useSSE.ts:19-62 | in every reachable state isConnecting is set only while the connection in abortController is still to be answered and is not aborted |
| SseReconnectTheorems.BackoffIsBounded | src/composables/useSSE.ts:106-110 | attempts stay within 0..5 and every timer within 3 to 15 seconds |
| SseReconnectTheorems.TimersAreTheBackoff | src/composables/useSSE.ts:106-111 | over every run the timers fired and those scheduled are together exactly what its failures ask for: 3000 * k milliseconds for the k-th failure since the last opened stream, up to the fifth |
| SseReconnectTheorems.ConnectsExactlyIf | src/composables/useSSE.ts:19-46 | a step makes a connection if and only if the user or a timer calls connect() with a user signed in and no other attempt on its way; it makes one, which is the current one |
| SseReconnectTheorems.AbortsExactlyIf | src/composables/useSSE.ts:175-182 | a step aborts a connection if and only if that is the current one and disconnect() is called, by the user or by such a connect() |
| SseReconnectTheorems.RetriesAreBounded | src/composables/useSSE.ts:96-114 | fetches and timers are bounded by the user's connects plus five per opened stream; with none opened, by connects plus five; and the machine's own steps are bounded, so it comes to rest |
| SseReconnectTheorems.TimersSinceSuccess | src/composables/useSSE.ts:106-110 | from any state on, while no stream opens, the timers scheduled are the attempts counted, five at most |
| SseReconnectTheorems.FiveTimersSinceSuccess | src/composables/useSSE.ts:61-110 | after the last stream opened at most five timers are scheduled, however long the run |
| SseReconnectTheorems.SchedulesExactlyIf | src/composables/useSSE.ts:50-111 | a connection, aborted or not, schedules a reconnect if and only if it ends in an error other than an AbortError with attempts below five |
| SseReconnectTheorems.OnlyFailuresSchedule | src/composables/useSSE.ts:96-111 | over every run there are no more timers than such errors: AbortErrors, ended streams and disconnects schedule none |
| SseReconnectTheorems.DisconnectIsNotFinal | src/composables/useSSE.ts:175-182 | after disconnect() a new connection is made without the user if and only if a timer is scheduled or an unfinished connection can still schedule one |
| SseReconnectWitnesses.TimerOutlivesDisconnect | src/composables/useSSE.ts:110 | a run after whose disconnect a timer opens a new connection |
| SseReconnectTheorems.FlagStaysTruthful | src/composables/useSSE.ts:60-74 | a step makes isSSEConnected claim a stream that is not there if and only if the current stream ends, or an aborted fetch is accepted with no stream there |
| SseReconnectTheorems.FlagStaysNoticed | src/composables/useSSE.ts:96-104 | a step hides a stream that is there if and only if another, aborted connection fails |
| SseReconnectTheorems.FlagIsRightUntil | src/composables/useSSE.ts:60-114 | over every run without such steps the flag is set if and only if the current connection is reading its stream, and it is wrong for the first time exactly after one |
| SseReconnectWitnesses.EndedStreamLooksConnected | src/composables/useSSE.ts:71-74 | a run of the first kind, after which nothing will reconnect |
| SseReconnectWitnesses.AbortedFetchLooksConnected | src/composables/useSSE.ts:60-62 | a run of the second kind |
| SseReconnectWitnesses.AbortedRefusalHidesTheStream | src/composables/useSSE.ts:48-53 | a run of the third kind: the late error of an aborted refused connection clears the flag and schedules a reconnect that aborts the stream |
| PolicyPaging.PolicyDecisions.Load | src/composables/usePolicyDecisions.ts:54-72 | the new list, exhausted and error for every reply |
| PolicyPaging.PolicyDecisions.LoadOlder | src/composables/usePolicyDecisions.ts:75-89 | the same for loadOlder, with its early return |
| PolicyPaging.PolicyDecisions.Fetch | src/composables/useApi.ts:451-465 | the page is the server's answer to the query as encoded, without a before_id of 0 |
| PolicyPagingTheorems.ListHasNoGaps | src/composables/usePolicyDecisions.ts:54-89 | after any run of load and loadOlder, some failing, while the log grows, the list is strictly descending and holds exactly the rows between its ends that the view's filters ask for |
| PolicyPagingTheorems.ExhaustedIsComplete | src/composables/usePolicyDecisions.ts:27-83 | when exhausted, the list has every row asked for that is no newer than its first and inside the window of the last answer; without a window, or with a correlation id, every one |
| PolicyPagingTheorems.LoadShowsTheNewest | src/composables/usePolicyDecisions.ts:54-72 | after load() every row asked for is in the list, unless that is a full page of newer ones |
| PolicyPagingTheorems.StatusFollowsTheLastRequest | src/composables/usePolicyDecisions.ts:54-89 | after any calls loading is off, and error is the message of the last request if that failed and empty otherwise |
| PolicyPagingTheorems.FailuresChangeNoList | src/composables/usePolicyDecisions.ts:54-89 | the list and exhausted are what they would be had the failed calls not been made |
| PolicyPagingTheorems.PagesAreBounded | src/composables/usePolicyDecisions.ts:75-83 | pages fetched since the last load are at most matching rows / 100 + 1 |
| PolicyPagingTheorems.CursorZeroRepeatsTheFirstPage | src/composables/useApi.ts:459 | loadOlder keeps the list in order if and only if the last id is not 0 or the log has no row that the filters ask for inside the window |
| PolicyPagingTheorems.RowZeroComesAgain | src/composables/useApi.ts:459 | with rows 0 to 99 the second page is the first one again |
| StepUp.StepUpStore.Request | src/stores/stepUpStore.ts:19-27 | returns the pending promise, or opens the dialog with a new one |
| StepUp.StepUpStore.Complete | src/stores/stepUpStore.ts:30-34 | closes the dialog, resolves the pending promise, if any, and forgets it |
| StepUp.StepUpStore.Cancel | src/stores/stepUpStore.ts:37-41 | closes the dialog, rejects the pending promise, if any, and forgets it |
| StepUpTheorems.OneDialogAtATime | src/stores/stepUpStore.ts:10-50 | in every reachable state the dialog is open if and only if a promise is pending, and dialogs opened are promises settled plus the open one |
| StepUpTheorems.WaitersShareTheDialog | src/stores/stepUpStore.ts:19-27 | a waiting call cannot go on if and only if it waits for the open dialog's promise |
| StepUpTheorems.AtMostTwoFetches | src/composables/useApi.ts:39-79 | a call sends one or two requests, the second if and only if the dialog it asked for was completed; it gives up if and only if that was cancelled |
| StepUpTheorems.CallersGetTheirAnswer | src/composables/useApi.ts:39-79 | over every run what a call has come to is what last happened to it: the response with its status, unless that was a 401 or a first 403 that asks for elevation; the network's failure if and only if that was the last; expired, cancelled, waiting, reading or fetching if and only if the event for it was |
| StepUpTheorems.NextAnswerDecides | src/stores/stepUpStore.ts:30-41 | the next complete() or cancel() settles every waiter once and for all, leaves no promise unsettled, and decides between retry and giving up |
| StepUpTheorems.LoginsMatchExpiredCalls | src/composables/useApi.ts:61-65 | over every run the 401 answers, to first requests and to retries, are as many as the calls that end as expired and the navigations to the login |
| StoragePurge.PurgePersistedLevels | src/utils/logger.ts:30-40 | for every storage content, the keys left are the others, in order |
| StoragePurge.KeptMembers | src/utils/logger.ts:35 | a key is left if and only if it was there and is neither "loglevel" nor begins with "loglevel:" |
| StoragePurge.KeptInPlace | src/utils/logger.ts:33-36 | each key is kept or dropped where it stands |

## Left out

- backendkit: gateway, EnsureFresh, cookie encoding, encryption and SQL are only the assumptions above.
- Go handlers: they are steps of a state machine over an explicit heap, not methods of a class, because they interleave; `deleteSession` is three of those steps.
- Session contents: id tokens, the user and the idle and absolute deadlines; lastSeen is there and never read. A token set is named by its access token.
- SessionRefresh: a refresh token goes with its token set and is spent by a successful refresh from it; whether a step-up without a refresh token keeps the old one, and when the issuer rejects a refresh, is left open.
- SessionRows.WriteBackServesTheLatest: assumes, like the other results on latest tokens, that an issuer never grants one session the same token twice; without that, an older token could equal the latest by chance.
- Gateway handler: its CSRF check for proxied unsafe methods and its pass-through without a session; it is there as a reader, refresher and deleter of sessions.
- Sign-in and sessions are two machines; a sign-in enters the session machine as one step with a fresh id and a non-empty token, and a failed put of a new session is not modelled.
- Login store: on Postgres it has no capacity (None in the model); which callback the browser sends is free.
- LoginProtocol: exchanges time out or fail as one refusal; the OAuth parameters other than state, code, challenge and verifier are not modelled.
- ClientAddress: SplitHostPort, ParseIP and IsLoopback are parameters, and an IP address is assumed to have no comma and no space; the header list before X-Forwarded-For is not canonicalised.
- ClientAddress.Request.Proxy: ReverseProxy's removal of the headers that the inbound Connection header names; the contract is for requests whose Connection header does not name X-Forwarded-For.
- RateTraces: the clock is an integer of nanoseconds that never goes back, and the float division of Retry-After is the exact floor; an integer overflow of the count is not modelled.
- PathGuard: paths are strings of characters after percent-decoding; the mux's own redirects are not modelled.
- SseReader: the byte decoder and JSON are outside; processEvent is any function from a frame to an event or none, called once per frame.
- SseStandard.FollowsTheStandard: lines end in line feeds only, and the default type is left empty rather than "message".
- SseReconnect: one instance of the composable; the store's connected flag is not shared with another; timers fire in any order.
- PolicyPaging: mode and summary, filters that change between load and loadOlder, and overlapping calls, which the code does not guard against.
- StepUp: fetchWithAuth is a step machine between its awaits, not an async method; headers, CSRF and what setUnauthenticated clears are not modelled.
- StoragePurge: a storage that throws is left as it is by the catch block, and removal is assumed to keep the order of the other keys.
- Configuration, role and period tables, version probe, other stores, views and deployment: they would only add easy members.
