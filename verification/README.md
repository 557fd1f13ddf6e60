# A verified model of the assistant's protocols and transformations

This project models six parts of the application and proves what they promise.
`dafny verify dfyconfig.toml` checks all of it.

- **Sessions.dfy, AuthSession.dfy**: refresh-token families on the server (the
  rotation of section 10.4 of RFC 6749) and the browser controller that drives
  them, composed into one asynchronous system with cookies, lost and abandoned
  messages, logins, logouts, page reloads and other users' traffic.
- **Utf8.dfy, OutputBudget.dfy, Snapshot.dfy, PolicyReview.dfy, DockerArgv.dfy,
  DockerWords.dfy, LaunchSpecs.dfy, ExecutionResult.dfy, Supervisor.dfy**: the Python sandbox.
  Output budget over two buffers, greedy state snapshot, syntax-tree review, the
  argument list printed by one program and parsed by another, one-use
  capabilities, containers, and the rule every result obeys.
- **SearchModel.dfy, Answers.dfy, Grounding.dfy**: search evidence from provider
  chunks to the citation markers on screen.
- **Lifecycle.dfy, Conversations.dfy, ChatSession.dfy**: chat turns on the server
  under two services, and the client-side list with its rollback.
- **Base64url.dfy, MessageEncryption.dfy, Migration.dfy**: encrypted messages
  (sections 3.2 and 5 of RFC 4648) and the migration over their table.
- **Redaction.dfy, KeptEvidence.dfy, SensitiveKeys.dfy, MarkedText.dfy,
  RedactionRules.dfy**: redaction of evidence trees.
- **Prelude.dfy, Text.dfy**: options and results, numbers and strings.

Code that updates state is a class or a method with loops, proved equal to a
function of the old state; the lemmas are about that function. A call that
suspends at an `await`, and a transaction under a lock, is one step; steps
interleave in any order.

## What the code does not promise

Where a promise fails on some inputs, the members named here give an input or a
run on which it fails and, where an "exactly" stands, the condition under which
it holds, proved in both directions.

- The server never answers replay if no rotated reply is lost, by a failing network
  or a reload, and no refresh the browser gave up on is served afterwards
  (AuthSession.NeverReplays); either is enough for a replay, which revokes the
  family. From every state about to lose a rotated reply, losing it and refreshing
  again is one (AuthSession.LostRotationReplays, reached by
  AuthSession.LossIsReachable). From every state with a refresh on its way that would
  rotate, so is giving it up, refreshing again and serving the abandoned request last,
  though every rotation was delivered (AuthSession.AbandonedRefreshReplays, reached by
  AuthSession.AbandonIsReachable); AuthSession.StrayReplaysExactly says when.
- With key binding, `last_rotated_at` moves without a rotation on a logout
  (Sessions.LogoutStampsRotation) and on a refused refresh
  (Sessions.RefusedRefreshStampsRotation); exactly then it is not the time of the
  last rotation (Sessions.HonestExactly).
- Citations with negative ends repeat text (Answers.NegativeEndRepeatsText); text is
  kept exactly when the clamped cuts never step back (Answers.RenderedTextExactly).
- A turn whose executor ends by any error but a provider error blocks its
  conversation (Conversations.OrphanIsReachable, Conversations.OrphanBlocksSends);
  so does a deletion that was not undone in time
  (Conversations.ExpiredDeletionIsReachable, Conversations.ExpiredDeletionBlocksSends).
  A send can open a turn again exactly when every pending row has its executor and a
  deletion, if any, can still be undone (Conversations.CanSendAgainExactly).
- Two retries may be pending together (Conversations.TwoRetriesCanBePending); one
  turn at a time is pending exactly when no retry opened beside a pending row
  (Conversations.OnePendingExactly).
- The migration and its way back lose a row whose plaintext began with the prefix
  (Migration.BarePrefixStopsDowngrade); they restore the table exactly when there is
  none (Migration.TableRestoredExactly).
- The container client's retry can never succeed (Supervisor.RetryIsRefused).
- A scalar in a mapping under a sensitive key is shown
  (RedactionRules.NestedPasswordSurvives); every scalar there is replaced exactly
  when none survives in a kept mapping (SensitiveKeys.StrictlyCleanExactly). The log
  sanitizer has no such gap (SensitiveKeys.LogValueIsSealed).
- Text of paths and exceptions is not tested against the log markers
  (RedactionRules.PathPassesOnce); the result is clean and stable exactly when no
  such text needs it (Redaction.CleanExactly, Redaction.IdempotentExactly).
- Mapping keys are never tested against the markers (RedactionRules.BearerKeySurvives,
  MarkedText.MarkedKeySurvives); no marked text is left, keys included, exactly when
  no such text needs it and no kept key carries a marker (MarkedText.UnmarkedExactly).
- Of the listed key names those with an underscore are never matched, since the
  comparison is made after the underscores were removed
  (RedactionRules.ListedNameIsDroppedExactly).
- A draft typed while a direct submit is in flight is lost if it fails
  (ChatSession.FailedDirectSubmitRestores), and a search that failed in transport is
  retried under an id the server never gave (ChatSession.FailedSearchIsRetriedByLocalId).

## Model

| member | source | states |
|---|---|---|
| Sessions.SessionsService.Refresh | backend/app/services/sessions.py:49-145 | The transaction over the mutable tables is the step all results below are about: checks in the source's order, reuse revokes the family, otherwise the presented token is used up and one child is created |
| Sessions.SessionsService.Logout | backend/app/services/sessions.py:147-184 | Logout over the mutable tables: the family is revoked if it is live, nothing else changes but stamps |
| Sessions.SessionsService.ValidateFamilyBinding | backend/app/services/sessions.py:186-212 | With key binding on, exactly the family's own key is accepted and stamps the family, and any other is recorded as an event; with it off every request is accepted |
| Sessions.SessionsService.Login | backend/app/services/authentication.py:76-93 | Login adds one family with one unused token, both expiries clipped to the family's deadline |
| Sessions.FamiliesAreChains | backend/app/services/sessions.py:101-120 | In every reachable state the tokens of a family are one parent-to-child chain, links agreeing in both directions, all used but the last, every expiry the clipped one |
| Sessions.RotationSpacing | backend/app/security/refresh_tokens.py:35-43 | Along a chain every token expires by the absolute deadline, and each rotation comes less than the idle lifetime after the one before (or the login) and before the deadline |
| Sessions.RotationBeforeDeadline | backend/app/security/refresh_tokens.py:35-43 | Over every run, expiry and use of any token come no later than the absolute lifetime after the family was bound |
| Sessions.UnconsumedIsHead | backend/app/services/sessions.py:84-99 | A token is unused if and only if it is the last of its family's chain |
| Sessions.RotatedExactly | backend/app/services/sessions.py:62-145 | A refresh rotates if and only if it comes from an allowed origin with the CSRF value and key of the family, presents the head of a live chain, unexpired, and the user is active |
| Sessions.ReplayExactly | backend/app/services/sessions.py:84-99 | A refresh is answered as replay if and only if an admitted request to a live family before its deadline presents a token that is not the head |
| Sessions.RefusedExactly | backend/app/services/sessions.py:62-106 | The other answers, exactly: a CSRF error if and only if the origin or the family's CSRF value is wrong, expired if and only if the head of a live family comes too late, invalid otherwise |
| Sessions.RefreshRevokesExactly | backend/app/services/sessions.py:82-106 | A refresh revokes a family if and only if it is admitted to it, live, with a token that is not the head, or with the head in time for a user who is not active; the reason says which; owner, deadline and key stay, and every other family is unchanged |
| Sessions.RefreshRecordsExactly | backend/app/services/sessions.py:84-99 | A refresh records a wrong key or a reuse, of the family shown, and nothing else |
| Sessions.InactiveUserKillsFamily | backend/app/services/sessions.py:103-106 | After a refresh that is refused for an inactive user no later step of the run rotates a token of that family, whoever is active again |
| Sessions.FirstRefreshExactly | backend/app/services/authentication.py:76-93 | The token of a login rotates if and only if it comes with the CSRF value of its family, the key of the login where keys are bound, within both lifetimes and for an active user |
| Sessions.LoginBelongsToUser | backend/app/services/authentication.py:76-93 | The new family is revoked with its user and with no other; a login touches no other family |
| Sessions.AtMostOneRotation | backend/app/services/sessions.py:84-120 | In any run no refresh token rotates at two different steps |
| Sessions.DeadFamilyNeverRotates | backend/app/services/sessions.py:182-183 | Once a family is revoked no token of it ever rotates again, and no login brings it back |
| Sessions.ReplayKillsFamily | backend/app/services/sessions.py:84-99 | After a replay answer no token of the presented token's family rotates at any later step |
| Sessions.RevokedStaysDead | backend/app/services/sessions.py:182-183 | A family found revoked after any step of a run never rotates in the rest of it |
| Sessions.LogoutRevokesExactly | backend/app/services/sessions.py:147-184 | Logout revokes exactly the family of the token it shows, a used one included, if CSRF value and key are accepted, and touches no token and no other family |
| Sessions.RevokeUserExactly | backend/app/db/repositories/provisioning.py:278-300 | Revoking a user revokes exactly that user's families and leaves the others as they are |
| Sessions.HonestExactly | backend/app/services/sessions.py:186-212 | Over any run last_rotated_at is in every state the time of the family's last rotation if and only if no admitted refresh or logout ever moved it without rotating |
| Sessions.StampHonestWithoutBinding | backend/app/services/sessions.py:186-196 | Without key binding none ever does, so the stamp stays the time of the last rotation |
| Sessions.LogoutStampsRotation | backend/app/services/sessions.py:186-212 | With key binding it is not: a concrete login and logout stamp last_rotated_at though nothing rotated |
| Sessions.RefusedRefreshStampsRotation | backend/app/services/sessions.py:78-106 | Nor is it when a concrete refresh is refused for an inactive user |
| Sessions.RunKeepsInv | backend/app/services/sessions.py:49-184 | Every run of login, refresh, logout and user revocation keeps the chain invariant, with the chains it extends given explicitly |
| AuthSession.AuthSessionController.RefreshAccessToken | frontend/lib/auth-session.ts:450-493 | Joins the refresh in flight, or starts one and remembers it |
| AuthSession.AuthSessionController.RequestUnauthorized | frontend/lib/auth-session.ts:400-448 | A 401 retries at once with a token newer than the refused one, otherwise waits for the one refresh |
| AuthSession.AuthSessionController.RefreshSettled | frontend/lib/auth-session.ts:450-512 | The end of a refresh frees the slot and stores the token, or ends the session unless told to be silent |
| AuthSession.AuthSessionController.RestoreBegin | frontend/lib/auth-session.ts:242-262 | Restoring shares the refresh in flight |
| AuthSession.RunKeepsSystemInv | frontend/lib/auth-session.ts:400-493 | Every interleaving of requests, 401s, refreshes, restores, logins, logouts, page reloads and foreign traffic in which no rotated reply is lost and no abandoned refresh is served later keeps the joint invariant of client, cookies and server |
| AuthSession.NeverReplays | frontend/lib/auth-session.ts:400-493 | In every such run the server never answers this browser with replay |
| AuthSession.AtMostOneFlight | frontend/lib/auth-session.ts:450-493 | At most one refresh is in flight, and it is the one the controller remembers, whatever is lost or abandoned |
| AuthSession.RunKeepsClientInv | frontend/lib/auth-session.ts:400-493 | Every interleaving at all, spoiled or not, keeps what the controller relies on: one flight, no lost waiter, tokens on their way unknown to it, retries with fresh tokens |
| AuthSession.UnauthorizedExactly | frontend/lib/auth-session.ts:418-431 | A 401 in any reachable state: with another token at hand the request retries with that one at once and nothing else changes; otherwise it waits for the one refresh, started if there is none |
| AuthSession.RetriesWithFreshToken | frontend/lib/auth-session.ts:423-447 | Over every run, whoever retries, at once or after waiting, does so with a token the server issued other than the one it was refused with |
| AuthSession.RestoreExactly | frontend/lib/auth-session.ts:242-262 | Restoring always waits for the one refresh, shows that it is checking, and starts a silent refresh if there is none |
| AuthSession.FlightEndShows | frontend/lib/auth-session.ts:466-493 | When a refresh ends its waiters are handed exactly the token the controller then holds, the one its reply brought; without one the user is signed out, as expired unless the refresh was silent and was sent |
| AuthSession.ResumeShows | frontend/lib/auth-session.ts:250-262 | A waiter that goes on with nothing signs the user out, to the form that was open if it restored the session and as expired if it was refused |
| AuthSession.SilenceIsKept | frontend/lib/auth-session.ts:450-493 | A refresh stays as silent as it was started, until it ends |
| AuthSession.ProofFailureShows | frontend/lib/auth-session.ts:514-521 | A request whose proof cannot be made signs the user out as expired and is over |
| AuthSession.ReloadExactly | frontend/lib/auth-session.ts:172-200 | Loading the page anew leaves nothing of the controller but the cookies; every refresh that was sent may still be served, with the cookies it was sent with |
| AuthSession.LoginShows | frontend/lib/auth-session.ts:293-318 | A login that arrives whole gives the controller its token and the browser its cookies, one cut short the cookies alone; a request begun then carries the token held |
| AuthSession.LogoutShows | frontend/lib/auth-session.ts:320-356 | Signing out clears cookies, user and token if and only if the server answered without a CSRF error |
| AuthSession.EveryWaiterIsServed | frontend/lib/auth-session.ts:400-448 | Every waiting caller waits for a refresh that is in flight or settled, never both; once settled it can go on, with an issued token other than the refused one if the refresh succeeded |
| AuthSession.WaiterCanGoOn | frontend/lib/auth-session.ts:400-493 | No caller is stuck: from every reachable state in which it waits, at most two steps end its refresh and let it go on |
| AuthSession.WaiterGoesOnWithToken | frontend/lib/auth-session.ts:400-493 | If its refresh is served with a rotation and delivered, the caller goes on with the token that refresh brought |
| AuthSession.WaitersShareToken | frontend/lib/auth-session.ts:450-493 | All callers of one refresh get the same: whenever in any continuation one goes on, it retries with the token the refresh settled with |
| AuthSession.RefreshRotatesExactly | frontend/lib/auth-session.ts:450-493 | In every unspoiled run a refresh rotates if and only if it shows a known, unexpired token of a family neither revoked nor past its deadline, for an active user, with a key if keys are bound |
| AuthSession.CsrfNeverRefused | frontend/lib/auth-session.ts:466-480 | Over every run the server never answers this browser with a CSRF error: its cookies always belong together |
| AuthSession.LogoutWorks | backend/app/services/sessions.py:147-184 | Over every run signing out clears the cookies, and revokes the family they belong to if the browser has its key |
| AuthSession.RefreshPresentsHead | frontend/lib/auth-session.ts:450-493 | Each refresh on its way presents the head of its family's chain, unless the family is revoked |
| AuthSession.SystemServerInv | backend/app/services/sessions.py:49-184 | The server's chain invariant holds in every reachable state of the composed system, delivered replies or not |
| AuthSession.LostRotationReplays | frontend/lib/auth-session.ts:450-493 | The delivery condition is needed: from any state about to lose a rotated reply, losing it and refreshing again is answered as replay |
| AuthSession.LoginReaches | frontend/lib/auth-session.ts:293-318 | A login leads from the start to a logged-in browser |
| AuthSession.LossIsReachable | frontend/lib/auth-session.ts:450-493 | From there one refresh reaches such a state |
| AuthSession.StrayReplaysExactly | backend/app/services/sessions.py:84-99 | A refresh the browser gave up on is answered as replay if and only if, when the server gets to it, the token it shows is no longer the head of a live family, its origin, CSRF value and key being accepted |
| AuthSession.AbandonedRefreshReplays | frontend/lib/auth-session.ts:450-493 | The second condition is needed too: from any state in which a refresh on its way would rotate, giving it up, refreshing again and serving the abandoned request last is a run that delivers every rotation and is answered as replay |
| AuthSession.AbandonIsReachable | frontend/lib/auth-session.ts:450-493 | The first refresh after a login is in such a state |
| Utf8.DecodeEncode | sandbox/runtime/runner.py:229-243 | Strict UTF-8 decoding undoes encoding (section 3 of RFC 3629) |
| Utf8.EncodeDecode | backend/app/security/message_encryption.py:55-64 | And it accepts nothing else: what it reads encodes back to the same bytes, no overlong form, no surrogate |
| Utf8.CutDecodesToFit | sandbox/runtime/runner.py:234-239 | Cutting an encoding at any byte and dropping what is malformed leaves exactly the longest prefix of whole characters that fits |
| Utf8.FitIsLongest | sandbox/runtime/runner.py:234-239 | That prefix fits, and no longer prefix does |
| OutputBudget.BoundedTextBuffer.Write | sandbox/runtime/runner.py:224-249 | Each write keeps what fits, takes it from the shared count, and raises exactly when something did not fit or nothing was left |
| OutputBudget.WriteAll | sandbox/runtime/runner.py:219-249 | Any sequence of writes to the two buffers over one budget ends in the state the specification gives |
| OutputBudget.BuffersRefinePrefix | sandbox/runtime/runner.py:219-249 | The two buffers together hold exactly the longest fitting prefix of everything written, interleaved, each stream its own characters |
| OutputBudget.NeverOverLimit | sandbox/runtime/runner.py:229-243 | The bytes of stdout plus stderr never exceed the limit, writes after an overflow included |
| OutputBudget.EachBufferIsPrefix | sandbox/runtime/runner.py:229-249 | Each buffer holds a prefix of what was written to it |
| OutputBudget.RaisesExactly | sandbox/runtime/runner.py:229-243 | A write raises if and only if the bytes before it reach the limit or the bytes up to it pass the limit |
| Snapshot.EncodeStateSnapshot | sandbox/runtime/runner.py:453-491 | The greedy loop computes the greedy choice over the sorted names |
| Snapshot.RestoreStateNamespace | sandbox/runtime/runner.py:430-450 | The restore loop keeps exactly the eligible names of what was loaded |
| Snapshot.SnapshotWithinLimit | sandbox/runtime/runner.py:453-491 | A snapshot always exists and its envelope is within the byte limit |
| Snapshot.EnvelopeMeasured | sandbox/runtime/runner.py:466-477 | The length held against the limit is that of the JSON text, escapes and surrogate pairs included |
| Snapshot.RestoreGivesRecorded | sandbox/runtime/runner.py:430-491 | Restoring gives exactly the namespace restricted to the recorded names |
| Snapshot.KeptExactly | sandbox/runtime/runner.py:453-479 | A name is kept if and only if it is eligible and the envelope of it with those kept before can be dumped and fits |
| Snapshot.NothingDropped | sandbox/runtime/runner.py:453-479 | Over a whole namespace, ineligible names and all, the snapshot records every eligible name in order if and only if each leading run of them fits |
| Snapshot.EncodeIsFixpoint | sandbox/runtime/runner.py:430-491 | Encode, restore, encode again gives the first snapshot, also with ineligible names added in between |
| PolicyReview.AttributeChain | sandbox/runtime/runner.py:148-156 | The loop over nested attributes collects exactly the trailing names, outermost last |
| PolicyReview.PolicyVisitor.Visit | sandbox/runtime/runner.py:159-216 | Visiting a tree records the denials of its nodes in pre-order, keeping the first |
| PolicyReview.ReviewPythonSource | sandbox/runtime/runner.py:260-263 | The mutable visitor gives the recorded review of the whole tree |
| PolicyReview.PreOrderIsTree | sandbox/runtime/runner.py:159-216 | Pre-order lists exactly the nodes of the tree, at any depth |
| PolicyReview.ReviewExactly | sandbox/runtime/runner.py:148-216 | A program is allowed if and only if no node anywhere in it violates the rules; otherwise the review is that of the first violating node in pre-order |
| PolicyReview.ReviewReportsFirst | sandbox/runtime/runner.py:159-216 | In terms of the source: allowed if and only if nothing at any place violates the rules, otherwise the denial of the violation that no other stands before, above it or to the left |
| PolicyReview.DenialTells | sandbox/runtime/runner.py:167-216 | A denial names the root of the first refused name of an import, or the forbidden name or chain of a call |
| PolicyReview.FirstRefusedExactly | sandbox/runtime/runner.py:167-179 | An import is denied if and only if one of its names has a root that is not approved |
| PolicyReview.ChainIgnoresItsBase | sandbox/runtime/runner.py:148-156 | Whatever expression other than a name or attribute a chain starts from, a call on it is denied if and only if its trailing attributes are a forbidden chain, as if the first of them were a name |
| DockerArgv.BuildDockerCreateCommand | sandbox/server.py:370-412 | The imperative printer emits exactly the printed word list, option groups in order, image and command last |
| DockerArgv.Create | sandbox/docker_shim.py:133-264 | The option loop terminates and computes the parse of its words, with the source's errors |
| DockerArgv.ParseUndoesPrint | sandbox/docker_shim.py:133-264 | For every launch spec, parsing the printed words gives back every field if and only if the image does not start with a dash, label keys hold no equals sign, tmpfs paths and host names no colon, hosts and values are not empty, and the CPU share is whole hundredths |
| DockerArgv.CpusRoundTrip | sandbox/server.py:370-386 | The printed CPU share reads back as the share rounded to hundredths, so as itself exactly for whole hundredths |
| DockerArgv.TmpfsRoundTrip | sandbox/docker_shim.py:44-49 | Tmpfs mounts survive if and only if no path holds a colon |
| DockerArgv.LabelsRoundTrip | sandbox/docker_shim.py:34-41 | Labels survive if and only if no key holds an equals sign |
| DockerArgv.HostsRoundTrip | sandbox/docker_shim.py:52-59 | Extra hosts survive if and only if no name holds a colon and no part is empty |
| DockerWords.OptionsExactly | sandbox/docker_shim.py:154-236 | Any argument list reads as options and a rest at which reading stops, and the rest decides: no image, an unsupported word, a flag without a value, a value that does not suit its flag, or the image and its command |
| DockerWords.AppliedTells | sandbox/docker_shim.py:150-236 | A repeatable option collects all its values in order; of the others the last one counts |
| DockerWords.CreateExactly | sandbox/docker_shim.py:133-264 | The container is assembled from what was collected up to the image |
| DockerWords.AssembledExactly | sandbox/docker_shim.py:34-59 | It is refused if and only if a host or a label is bad, for the first bad host or else the first bad label |
| LaunchSpecs.LaunchArrivesConfined | sandbox/server.py:328-367 | Every launch the supervisor builds arrives as it was meant if and only if the configured image does not start with a dash, and what is meant has no network, capability, host mount, device or extra host, a read-only root and the profile's limits, and the execution's own name, labels, runner and encoded spec |
| SearchModel.LinkIsUnique | frontend/lib/chat-session.ts:211-225 | A citation of a numbered list links to one rendered source, the one it names, and no other |
| Answers.BuildSourcedAnswer | backend/app/ai/search_worker/firecrawl_client.py:137-174 | The building loop and its fallback compute the specified answer, sources and spans |
| Answers.FittingIsLongest | backend/app/ai/search_worker/firecrawl_client.py:146-153 | The lines kept are the longest leading run that fits in the bound |
| Answers.LineShows | backend/app/ai/search_worker/firecrawl_client.py:146-151 | A line shows its source's title, then the words of its description, or as much of their beginning as 240 characters hold, or that there are none |
| Answers.FallbackShows | backend/app/ai/search_worker/firecrawl_client.py:169-174 | The fallback shows the title, and the description's words in 120 characters if there are any, all of it if the bound allows |
| Text.CollapseKeepsWords | backend/app/ai/search_worker/firecrawl_client.py:147-147 | Collapsing white space keeps the words, in order, with single blanks between them and none at the ends |
| Text.StripExactly | backend/app/ai/search_worker/grounding.py:172-174 | Stripping takes white space off both ends, all of it and nothing else |
| Answers.AnswerWithinBound | backend/app/ai/search_worker/firecrawl_client.py:137-174 | A built answer is not empty and stays within the length bound, given a first title that does not start with white space |
| Grounding.SummarizedAnswerFits | backend/app/ai/search_worker/firecrawl_client.py:97-174 | Which the filter guarantees: an answer built from kept items is never empty and within the bound |
| Answers.SpansDenoteLines | backend/app/ai/search_worker/firecrawl_client.py:146-164 | The i-th span denotes exactly the i-th source's line, and spans are disjoint and increasing |
| Answers.RenderAnswerWithCitations | frontend/components/chat/GroundedAnswer.tsx:20-68 | The rendering loop cuts the answer at the sorted ends, a marker after each piece |
| Answers.SortByEndSorts | frontend/components/chat/GroundedAnswer.tsx:28-30 | The cuts used are in order of their ends |
| Answers.SortByEndPermutes | frontend/components/chat/GroundedAnswer.tsx:28-30 | Sorting keeps every cut, repeated ones included |
| Answers.RenderedTextExactly | frontend/components/chat/GroundedAnswer.tsx:46-68 | The text read is the answer if and only if the clamped cut points never step back |
| Answers.MarkersExactly | frontend/components/chat/GroundedAnswer.tsx:20-68 | The markers shown are those of the citations with an end, each as often as it is given; if none has one, those of all citations, in order, at the end |
| Answers.NonNegativeEndsKeepText | frontend/components/chat/GroundedAnswer.tsx:46-68 | For any non-negative ends, in any order and beyond the text, the pieces concatenate to the answer |
| Answers.NegativeEndRepeatsText | frontend/components/chat/GroundedAnswer.tsx:49-61 | With a negative end they need not: a concrete pair of citations repeats text |
| Answers.MarkersFollowLines | frontend/components/chat/GroundedAnswer.tsx:46-68 | In any text whose spans denote its lines, rendering puts each marker directly after its own source's line |
| Answers.BuiltMarkersFollowLines | backend/app/ai/search_worker/firecrawl_client.py:146-164 | From the sources to the screen: each kept source's line is followed by its own marker, the header before the first |
| Answers.FallbackIsMarked | backend/app/ai/search_worker/firecrawl_client.py:169-174 | When no line fits, the answer is the first source's text alone, its one citation denotes all of it and its marker ends it |
| Answers.BuiltTextIsKept | frontend/components/chat/GroundedAnswer.tsx:20-68 | Rendering a built answer shows its text unchanged |
| Grounding.NormalizeGroundingEvidence | backend/app/ai/search_worker/grounding.py:154-258 | The filtering, mapping and citation loops compute the specified evidence; it raises if and only if a kept URI is too long |
| Grounding.SourcesShowChunks | backend/app/ai/search_worker/grounding.py:164-190 | A chunk gives a source if and only if it is a page with a title and a domain, neither sensitive, and an address that can be followed; the sources show those chunks, one each and in order: the first 500 characters of the title, the first 255 of the domain, the sanitized address |
| Grounding.ScreenShowsChunks | frontend/lib/chat-session.ts:211-216 | What is rendered shows those chunks, one each; nothing with a sensitive title or domain reaches the screen |
| Grounding.OversizedExactly | backend/app/ai/search_worker/grounding.py:181-190 | Normalizing raises if and only if a chunk that would be shown has an address of more than 2048 characters |
| Grounding.SummariesShowItems | backend/app/ai/search_worker/firecrawl_client.py:102-110 | A Firecrawl item gives a summary if and only if it has an address that can be followed, a title and a domain of its own or its host; the summaries show those items, one each and in order, with their descriptions |
| Grounding.NormalizedAnswer | backend/app/services/chat_turns.py:593-651 | A failure that says nothing for itself is given the copy of its own kind, every other answer is shown as it is |
| Grounding.SurvivorsInOrder | backend/app/ai/search_worker/grounding.py:164-190 | Surviving sources are numbered 1..k in the order of their chunks, with none left out and none made up |
| Grounding.MapLeadsToSource | backend/app/ai/search_worker/grounding.py:181-190 | The index map names exactly the survivors, and each number leads to its own chunk's source |
| Grounding.CitationsFollowSupports | backend/app/ai/search_worker/grounding.py:192-224 | Each support that lists a survivor gives one citation, numbered in order, of the first surviving chunk it lists; the others give none |
| Grounding.GroundedExactly | backend/app/ai/search_worker/grounding.py:248-250 | Evidence is grounded if and only if some support lists a surviving chunk |
| Grounding.LinkReachesFirstSurvivor | frontend/lib/chat-session.ts:211-225 | On screen a citation links to a source if and only if that is the source of the first surviving chunk its support lists, whatever was filtered out |
| Grounding.NormalizedIsShowable | backend/app/services/chat_turns.py:593-651 | Normalizing a worker result makes it showable, changes no grounded result that is, and is stable |
| Grounding.ShownAsGroundedExactly | backend/app/services/chat_turns.py:593-613 | A turn is shown as grounded if and only if some support lists a surviving chunk, and then with the evidence unchanged; what the evidence gives is normal already |
| Grounding.SummarizeSources | backend/app/ai/search_worker/firecrawl_client.py:97-110 | At most the limit of result items is kept, numbered from 1; it raises if and only if a kept URI is too long |
| Lifecycle.BuildLifecycle | backend/app/services/chat_turns.py:677-695 | The log keeps its events and gains some of one state, the last of them final; with the final event of that state they are one attempt |
| Lifecycle.ParseUnroll | backend/app/services/chat_turns.py:677-703 | A log reads back as the attempts it was made from: the grammar is unambiguous |
| Lifecycle.RetryKeepsLog | backend/app/services/chat_turns.py:677-703 | A retry makes the old log a proper prefix of the new one, and only the last attempt may have a final state |
| Lifecycle.FinalStatusTells | backend/app/services/chat_turns.py:43-51 | A log ends with a status that tells an answer, a denial, a failure and a timeout apart, and the turn can be retried if and only if it is one of the last two |
| Conversations.ConversationStore.SendMessage | backend/app/services/chat.py:145-207 | A send over the mutable rows is the send step |
| Conversations.ConversationStore.RetryMessage | backend/app/services/chat.py:209-264 | A retry over the mutable rows is the retry step |
| Conversations.ConversationStore.CompleteTurn | backend/app/services/chat.py:297-304 | Completion updates only the row its executor was given |
| Conversations.ConversationStore.FailTurn | backend/app/services/chat.py:283-296 | A provider error fails only that row |
| Conversations.ConversationStore.SubmitTurn | backend/app/services/chat_turns.py:162-282 | A turn in one transaction over the mutable rows is the submit step, retries in place |
| Conversations.RunKeepsInv | backend/app/services/chat.py:145-304 | Under all interleavings rows are numbered 1..2n as user/assistant pairs, a client id names one row, each pending row has at most one executor and an executor's row is pending, lifecycles parse with only the last attempt final |
| Conversations.EveryReachableConversation | backend/app/services/chat.py:145-304 | The same from an empty conversation, spelled out row by row |
| Conversations.RetriesOnlyGrowLogs | backend/app/services/chat_turns.py:677-703 | Over any series of retries in place the list keeps its length, and the old log is a proper prefix of the new one unless the guardrail replaced it |
| Conversations.SendOpensExactly | backend/app/services/chat.py:145-190 | A send opens a turn if and only if the caller owns the conversation, the client id is new and nothing is pending; it then adds exactly a pair and gives the executor a context that ends with its prompt |
| Conversations.RetryReopensOwnPair | backend/app/services/chat.py:209-264 | A retry reopens the failed answer in its own place, changing no other row, and answers pending and completed ones without change |
| Conversations.OthersCannotRetry | backend/app/services/chat.py:209-225 | Nobody else, and no other client id, retries anything |
| Conversations.OpenedContextExactly | backend/app/db/repositories/conversations.py:308-324 | The executor of a turn opened by a send or a retry is told exactly the completed rows up to its prompt, each once, in order |
| Conversations.CloseExactly | backend/app/services/chat.py:283-304 | Closing a turn makes its own row completed with exactly what the executor brought, or failed and empty, changes no other row and ends that executor alone |
| Conversations.AnswerReachesLaterTurns | backend/app/services/chat.py:297-304 | Whatever happens while an executor works and after it finished, every turn a send opens later has its answer, unchanged and in its place, in its context; only a search that may be retried is excepted |
| Conversations.SubmitAnswersExactly | backend/app/services/chat_turns.py:162-204 | A turn in one transaction is answered if and only if the caller owns the conversation and it is new or a search that retries a retryable one; otherwise nothing changes |
| Conversations.SubmitRecordsExactly | backend/app/services/chat_turns.py:204-282 | It then adds its pair, the prompt as asked and the result as found, with one more attempt in the log, or rewrites the one answer it retries |
| Conversations.CompletedIsAbsorbing | backend/app/services/chat.py:266-304 | A completed row stays completed over every continuation, and unchanged unless it is a retryable search |
| Conversations.StepEvolvesRow | backend/app/services/chat_turns.py:308-344 | One step never removes or renumbers a row, and rewrites a completed one only by a search retry, which extends its log or replaces it with a guardrail record |
| Conversations.OrphanBlocksSends | backend/app/services/chat.py:266-304 | A pending row whose executor ended otherwise than by completion or provider error stays pending for ever, and no later send opens a turn |
| Conversations.OrphanIsReachable | backend/app/services/chat.py:266-304 | A send whose executor dies reaches such a row |
| Conversations.CanSendAgainExactly | backend/app/services/chat.py:170-172 | In every reachable state some continuation lets a send open a turn again if and only if every pending row has its executor and a deletion, if any, can still be undone |
| Conversations.ConversationStore.DeleteConversation | backend/app/db/repositories/conversations.py:420-432 | Only the owner of a conversation deletes it, and opens the time in which that can be undone |
| Conversations.ConversationStore.UndoDeleteConversation | backend/app/db/repositories/conversations.py:434-454 | Undoing restores the conversation if and only if its owner asks within that time |
| Conversations.DeletionUndoneExactly | backend/app/services/chat.py:125-143 | Only the owner deletes a conversation, which keeps its turns; until the window closes the owner, and nobody else, gets it back as it was |
| Conversations.ExpiredDeletionBlocksSends | backend/app/services/chat.py:132-143 | After that time a deletion is final and no later send opens a turn |
| Conversations.ExpiredDeletionIsReachable | backend/app/services/chat.py:125-143 | A deletion and the end of its time reach a state with no pending row in which no send opens a turn again |
| Conversations.OnePendingExactly | backend/app/services/chat.py:230-242 | Over any run at most one row is ever pending if and only if no retry opened a turn while another row was pending |
| Conversations.TwoRetriesCanBePending | backend/app/services/chat.py:230-242 | A run in which a retry does: two sent turns fail and are retried together |
| Conversations.ContextIsCompleted | backend/app/db/repositories/conversations.py:308-324 | A row is in an executor's context if and only if it is completed and no later than its prompt |
| Conversations.ContextInOrder | backend/app/db/repositories/conversations.py:308-324 | In a numbered conversation the context is in strictly increasing order, so each such row is in it once |
| Conversations.CreateIsFirstSend | backend/app/services/chat.py:71-112 | Creating a conversation with a message is sending to an empty one |
| ChatSession.ChatSessionController.SubmitTurn | frontend/lib/chat-session.ts:406-432 | Submitting appends the user's turn and suspends, or does nothing while a call is pending or the draft is blank |
| ChatSession.ChatSessionController.SubmitSettled | frontend/lib/chat-session.ts:434-464 | The answer, or for a search its failure, is appended and can be retried; a failed direct turn is taken back |
| ChatSession.ChatSessionController.RetryTurn | frontend/lib/chat-session.ts:466-502 | A retry starts only for a known retryable turn while nothing is pending |
| ChatSession.ChatSessionController.RetrySettled | frontend/lib/chat-session.ts:504-530 | The retried entry alone is replaced |
| ChatSession.EveryReachableState | frontend/lib/chat-session.ts:333-531 | Turns alternate, their number is odd exactly while a submit is in flight, at most one call is in flight, the answer shown as being retried is the one it retries, and every answer can be retried with the prompt and mode it answered |
| ChatSession.SubmitExactly | frontend/lib/chat-session.ts:406-434 | A submit starts if and only if nothing is pending and something is typed: the trimmed draft becomes the user's turn and is sent in the mode chosen |
| ChatSession.TrimExactly | frontend/lib/chat-session.ts:411-411 | Trimming takes white space off both ends, all of it and nothing else |
| ChatSession.AnsweredSubmitAdds | frontend/lib/chat-session.ts:434-442 | An answered submit adds the user's turn and the answer as it came, keeps what was typed meanwhile, and the answer can be retried with its own prompt and mode |
| ChatSession.EditsExactly | frontend/lib/chat-session.ts:371-404 | Edits change draft and mode alone, the mode only while nothing is pending or by filling in a suggestion, and take a notice off the screen |
| ChatSession.RetryStartsExactly | frontend/lib/chat-session.ts:466-494 | A retry starts if and only if nothing is pending and the id is that of an answer that can be retried |
| ChatSession.OnlyEditsInFlight | frontend/lib/chat-session.ts:371-404 | While a call is in flight edits, suggestions, submits and retries change neither turns nor calls nor requests |
| ChatSession.FailedDirectSubmitRestores | frontend/lib/chat-session.ts:443-461 | A failed direct submit restores the earlier turns and its own prompt as draft, overwriting whatever was typed meanwhile |
| ChatSession.RetryReplacesOwnEntry | frontend/lib/chat-session.ts:466-530 | A retry resends the original prompt and mode and replaces only its own entry, by the new answer or a transport failure under the same id |
| ChatSession.FailedSearchIsRetriedByLocalId | frontend/lib/chat-session.ts:444-451 | A search that failed in transport is retried under a local id the server never gave |
| Base64url.DecodeEncode64 | backend/app/security/message_encryption.py:22-28 | Unpadded decoding inverts encoding for every byte string, and the code holds no colon and no pad |
| Base64url.PaddingComesBack | backend/app/security/message_encryption.py:22-28 | Padding to a multiple of four puts back exactly the pads that were stripped |
| Base64url.DecodesExactly | backend/app/security/message_encryption.py:25-28 | Decoding refuses every text that is not ASCII, and of texts of symbols alone exactly those that end one symbol into a group |
| Base64url.PaddedLength | sandbox/runtime/runner.py:466-466 | Base64 takes four characters for every three bytes and for what is left of them |
| MessageEncryption.DecryptEncrypt | backend/app/security/message_encryption.py:41-64 | Decrypting undoes encrypting for every plaintext and nonce, also one that starts like an encrypted value |
| MessageEncryption.DecryptShrinks | backend/app/security/message_encryption.py:50-64 | What a prefixed value decrypts to is shorter than the value |
| MessageEncryption.PlainIsReadAsItIs | backend/app/security/message_encryption.py:50-64 | Only a value that starts with the prefix and its colon is taken for an encrypted one; any other is read as it is |
| Migration.MessageTable.Upgrade | backend/alembic/versions/0005_encrypt_message_content.py:34-45 | The loop encrypts exactly the rows that are in the clear |
| Migration.MessageTable.Downgrade | backend/alembic/versions/0005_encrypt_message_content.py:48-59 | The loop decrypts exactly the prefixed rows, or raises and changes nothing |
| Migration.UpgradeIsIdempotent | backend/alembic/versions/0005_encrypt_message_content.py:34-45 | After upgrade nothing is in the clear, and a second upgrade changes nothing |
| Migration.TableRestoredExactly | backend/alembic/versions/0005_encrypt_message_content.py:34-59 | Downgrade after upgrade restores the table if and only if no row was prefixed before |
| Migration.BarePrefixStopsDowngrade | backend/alembic/versions/0005_encrypt_message_content.py:48-59 | With a row that held the bare prefix the way back raises |
| Migration.UpgradeKeepsWhatIsRead | backend/app/security/message_encryption.py:82-94 | Read through the column type, no row changes by the upgrade |
| Supervisor.TrustedSupervisor.VerifyCapabilityToken | sandbox/server.py:243-325 | A capability passes if and only if its claims match, its times are in order and its id is unused; passing uses up the id and refusal uses up nothing |
| Supervisor.IssuedPassesExactly | backend/app/security/tool_capabilities.py:28-61 | Between the two programs: a capability the backend issued opens the request it was issued for and no other, while unused, from five seconds before its time to five seconds after its end, and only if it lasts at most a minute |
| Supervisor.TrustedSupervisor.ExecuteRequest | sandbox/server.py:546-600 | The commands issued and the answer are the specified ones, and a refused request issues none |
| Supervisor.ExecutionBalances | sandbox/server.py:546-600 | Whatever the daemon does, a container that was created is removed exactly once, last of all, and nothing else is removed |
| Supervisor.CommandsExactly | sandbox/server.py:546-600 | The commands issued are exactly those that are due, each once and in order: start if and only if the container was made, wait if and only if it started, kill if and only if the wait timed out, load if and only if it ended well, remove if and only if it was made |
| Supervisor.LoadedExactly | sandbox/server.py:576-578 | A result that was loaded is the answer if and only if the container ran to its end and could be removed |
| Supervisor.VerdictExactly | sandbox/server.py:563-598 | When the supervisor answers with a verdict of its own, and which: the wall time in milliseconds, a final failure to start or wait, or a failure to make the container or find a result, which may be retried |
| Supervisor.OtherwiseExactly | sandbox/server.py:634-671 | Every other answer: what a command raised, that of the removal first; where nothing did, a failed build or an unreadable result |
| Supervisor.RunReachesClient | backend/app/tools/python_client.py:148-247 | When the container ran to its end the client is told how the run ended and shown what it wrote |
| Supervisor.RetriedExactly | backend/app/tools/python_client.py:142-194 | The client retries if and only if the supervisor ran out of time, made no container or found no result; every other reply without a result is a failure for good |
| Supervisor.EveryRunBalances | sandbox/server.py:294-325 | Under any interleaving no two requests pass with one capability, each creates at most one container, and once it has ended it has removed exactly what it created |
| Supervisor.CanEnd | sandbox/server.py:546-600 | From every reachable state any request can still issue all its commands, and has then removed what it created |
| Supervisor.OneContainerPerCapability | sandbox/server.py:546-600 | Two containers are never created for one capability |
| Supervisor.RetryIsRefused | backend/app/tools/python_client.py:142-146 | Whenever the client retries, its capability was consumed, so in every later state the second attempt is refused, creates nothing and ends as a failure that is not retried |
| Supervisor.EveryAttemptIsValid | backend/app/tools/python_client.py:148-247 | Whatever the daemon does with the runner's own results, the client gets a result that satisfies the state rule |
| ExecutionResult.ValidExactly | backend/app/schemas/python.py:68-127 | The chain of checks raises nothing if and only if each status carries its own evidence and no other's |
| ExecutionResult.RunnerResultsAreValid | sandbox/runtime/runner.py:266-402 | Every result the runner builds satisfies the rule and the bounds of the reply |
| ExecutionResult.RunnerTells | sandbox/runtime/runner.py:266-402 | Every run that ends with a result reports how it ended, its duration and artifacts, and shows what it wrote to each stream, all of it or its beginning |
| ExecutionResult.SupervisorResultsAreValid | sandbox/server.py:494-543 | So do the supervisor's wall-time and failure results, and the client's own failures |
| ExecutionResult.DeniedResultsAreValid | backend/app/agent/policy.py:186-216 | So do the results built for denied executions |
| ExecutionResult.AttachedIsValid | backend/app/services/python_sessions.py:82-143 | Attaching artifacts without validating again keeps the rule, exactly because only two statuses get any |
| ExecutionResult.TranslateNeverRaises | backend/app/tools/python_client.py:196-247 | Translating a valid reply never fails the rule and gives a valid result |
| Redaction.SanitizeAdminEvidence | backend/app/identity/redaction.py:53-74 | The recursive sanitizer with its loops computes the specified tree |
| Redaction.CleanExactly | backend/app/identity/redaction.py:53-112 | The result has no droppable key, no text value with a marker of either list (keys are MarkedText.UnmarkedExactly), and nothing but the replacement where the nearest key is sensitive, lists included, if and only if no path, time or exception text carries a marker of the log list alone |
| SensitiveKeys.StrictlyCleanExactly | backend/app/identity/redaction.py:53-74 | Clean, and nothing but the replacement below a sensitive key at any depth, if and only if in addition no kept mapping with a surviving scalar lies under a sensitive key |
| SensitiveKeys.SealedExactly | backend/app/identity/redaction.py:56-65 | Every scalar below a sensitive key is replaced if and only if none survives in a kept mapping there |
| SensitiveKeys.NestedTextSurvives | backend/app/identity/redaction.py:56-65 | It fails on every tree with unmarked text under a harmless key in a mapping under a sensitive one, which is returned as it is |
| SensitiveKeys.LogValueIsSealed | backend/app/core/logging.py:91-112 | The log sanitizer replaces such a mapping whole, so all it gives is sealed |
| Redaction.FixedExactly | backend/app/identity/redaction.py:53-104 | Sanitizing changes nothing if and only if the tree is already clean |
| Redaction.IdempotentExactly | backend/app/identity/redaction.py:53-104 | Sanitizing twice is sanitizing once if and only if that same condition holds |
| KeptEvidence.KeepsTheRest | backend/app/identity/redaction.py:53-104 | The leaves of the result are exactly the leaves of the evidence outside droppable keys, in order and under their own keys, each as it was or replaced; nothing else is lost and nothing is made up |
| Redaction.JsonIsSanitized | backend/app/core/logging.py:79-112 | For every JSON tree the result is clean, by nearest keys and in its text values, and sanitizing again changes nothing |
| MarkedText.UnmarkedExactly | backend/app/identity/redaction.py:53-104 | The result holds no string with a marker of either list at any depth, mapping keys included, if and only if no path, time or exception text carries one of the log list alone and no kept mapping key carries any |
| MarkedText.FullyCleanExactly | backend/app/identity/redaction.py:53-112 | Strictly clean and without marked text, keys included, if and only if the conditions on texts, on nesting and on keys hold together |
| MarkedText.MarkedKeySurvives | backend/app/identity/redaction.py:56-65 | It fails on every mapping with a marked key that is neither droppable nor sensitive, a JSON tree that is returned as it is |
| RedactionRules.ListedRulesAreSound | backend/app/identity/redaction.py:13-40 | The replacement text carries no marker of either list |
| RedactionRules.ListedRulesSanitizeJson | backend/app/identity/redaction.py:53-112 | With the repository's own keys and markers, for every JSON tree: clean by nearest keys and stable, strictly clean if and only if no kept mapping with a surviving scalar lies under a sensitive key, and free of marked text if and only if no kept key is marked |
| RedactionRules.BearerKeySurvives | backend/app/identity/redaction.py:56-65 | With those lists the tree with the one key 'bearer abc' over a number comes back unchanged, its marked key shown |
| RedactionRules.NestedPasswordSurvives | backend/app/identity/redaction.py:53-65 | A concrete tree with a password one mapping down is shown by the evidence sanitizer and replaced by the log sanitizer |
| RedactionRules.PathPassesOnce | backend/app/identity/redaction.py:96-104 | A path that reads like a key file passes the first time and is replaced the second |
| RedactionRules.NameMatchesExactly | backend/app/identity/redaction.py:107-112 | A listed key name matches some key if and only if it holds no underscore |
| RedactionRules.SensitiveExactly | backend/app/core/logging.py:79-83 | A key is sensitive if and only if a listed part stands anywhere in it or it ends in _key, whatever its case and dashes |
| RedactionRules.MarkedExactly | backend/app/core/logging.py:86-88 | A text is marked if and only if a listed marker stands anywhere in it, whatever its case |
| RedactionRules.ListedNameIsDroppedExactly | backend/app/identity/redaction.py:107-112 | A key spelled like a listed name is dropped if and only if the name holds no underscore, so raw_prompt is kept |
| RedactionRules.UnderscoredNamesMatchNothing | backend/app/identity/redaction.py:16-28 | Five of the listed names match no key at all |

## Left out

- AuthSession.NeverReplays: assumes that a reply carrying rotated tokens is delivered and that no abandoned refresh is served later; without either the property is false (AuthSession.LostRotationReplays, AuthSession.AbandonedRefreshReplays). One controller owns the cookies at a time: a reload starts a new one, two tabs on one cookie jar are not modelled. After a reload, logins and logouts of the old page may still set cookies.
- DockerArgv.ParseUndoesPrint: tmpfs and extra-host strings are pairs joined by a colon, so a mount without options is not representable; the CPU share is an exact decimal, and int() and float() are read on plain decimal text only.
- Supervisor.EveryRunBalances: a create that times out or cannot be run counts as not created, as in the source, whatever the daemon did; the set of used ids lives as long as the process.
- ExecutionResult.RunnerResultsAreValid: assumes the collected artifacts keep the profile's limit of four; artifact collection itself is not modelled, and code that does not parse ends without a result.
- Redaction.CleanExactly: mappings have string keys, each once; sets and byte arrays are not modelled; case folding is on ASCII letters.
- Redaction.JsonIsSanitized: Clean judges a scalar by its nearest key and only values for markers, because the code does; SensitiveKeys.StrictlyCleanExactly gives the condition for every depth and MarkedText.UnmarkedExactly the one for keys.
- MessageEncryption.DecryptEncrypt: AES-GCM is any cipher whose opening undoes sealing and whose tag takes 16 bytes; the nonce is an argument.
- Snapshot.RestoreGivesRecorded: pickle is any pair where loading undoes dumping, objects without shared references; keys are strings, and JSON and base64 enter by their exact lengths.
- Answers.SpansDenoteLines: one index unit for Python and JavaScript strings; the coordinator path, which replaces the answer by a summary, is not modelled.
- Grounding.NormalizeGroundingEvidence: the sensitivity test and URL sanitizing are parameters; chunk indices are integers; suggestions and query lists are dropped.
- Conversations.RunKeepsInv: one conversation; paging, titles, timestamps and tool executions are dropped; the row lock makes each transaction one step.
- ChatSession.EveryReachableState: the server's ids for new turns are assumed new; suggestions, citations and correlation ids of an answer are not carried.
- Utf8.DecodeEncode: Unicode scalar values only, no lone surrogates.
- Cryptography, hashing, signatures, JWT decoding, HTTP, cookies' attributes, SQL and Docker calls are outcomes of steps or abstract functions.
- React components, styling, settings, tracing, the command line, OAuth exchanges, planners, prompts, intent patterns and the other schema migrations.
- Allow-listing of persisted search metadata, and the summaries of evidence snippets with their length limit.
