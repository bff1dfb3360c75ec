# Volt Fleet back end: a verified model

A Dafny model of the parts of the NestJS back end that carry state or recursion, below the controllers, with
proofs of what they keep. `dafny verify dfyconfig.toml` checks the whole project.

- **Accounts and tokens.** `AuthMachine` gives every `AuthService` call as a sequence of turns, one for each
  awaited action (`set` is two: SET, then EXPIRE). Turns of different calls, clock ticks, stores of reset tokens
  and lost Redis commands or replies interleave freely. `AuthInvariants`, `AuthPreservation` and `AuthRuns`
  prove one invariant of every run; `AuthTheorems` reads off it what the service promises. `AuthSequential` and
  `AuthHistory` treat calls that run alone, against a specification that sees only the history of requests and
  answers; `AuthInterleaving` ties each completed call of a concurrent run to one that runs alone. `AuthCorners`
  holds the promises that fail in flight, each with a reachable run or the exact condition. `AuthEffects` writes out
  what turns and whole calls do to accounts, cache and tokens, and `AuthClaims` what the tokens of a concurrent run
  carry. `AuthService.dfy` (module `AuthServices`) has the classes themselves, tied to the machine.
- **Pages.** `UrlEncoded` is the form-urlencoded format (sections 5.1, 5.2 and 6.2 of the WHATWG URL Standard)
  over UTF-8; `Pagination` is `generatePagination` and the walk along `nextUrl`; `PageWalk` is what pages fetched
  by separate queries add up to; `UserListing` applies it to the accounts of any run.
- **Telemetry.** `Gateway` is the subscription index beside the socket.io rooms; `Telemetry` is ingestion,
  as concurrent steps and as a class, and reading back.
- **TrimInputPipe.** `TrimPipe` is the in-place rewrite of a heap tree against a function on trees.
- **Privileges.** `Privileges` is `assignPrivilege` as event-loop turns over one shared array, and the guard.
- **Fleets.** `Fleets` is membership over tables with unique and foreign keys.

`Accounts`, `CacheKeys`, `Tokens`, `Redis`, `Sequences` and `Wrappers` are what these share.

Assumptions. A signed token carries its claims and `verify` accepts it while the clock is before `exp` (sections
4.1.4 and 4.1.6 of RFC 7519); lower-casing is idempotent; no generated user id holds a colon; `EXPIRESIN` keeps its
default of 10 hours; Redis and the server read one clock, in milliseconds. The store's answers, generated ids,
password hashes and instants are parameters.

Where a promise fails, and exactly when:

- A refresh verified in the last instant of its token may read the cache after it (`AuthCorners.LateRead`); that is
  the only way in which a refresh in flight differs from one made whole at its read
  (`AuthSequential.EveryReadLinearises`, `AuthInterleaving.CompletedRefreshLinearises`).
- A logout whose token expires before its delete still deletes, and so turns away a refresh of that token that was
  verified in time and has not read yet (`AuthSequential.LateDelete`).
- `resetPassword` writes back the whole account it loaded, so a confirmation that came in between is lost
  (`AuthCorners.ConfirmationLost`, with the exact condition in `AuthCorners.ConfirmationStays`).
- Nothing checks the type of a message's `fleetId`. The index keeps the value, the rooms its print: an unsubscription
  without an id, with `null` or with `["A"]` leaves the room of the fleet `undefined`, `null` or `A` and takes nothing
  from the index (`Gateway.IndexOutlivesRoom`, with the exact conditions in `Gateway.IndexAgreesWithRooms` and
  `Gateway.StepKeepsConsistent`); a subscription with `[]` joins the room of the empty fleet id
  (`Gateway.EmptyRoomJoined`, `Telemetry.SkippingLosesNothing`).
- Rows that tie on the sort key, as `createdAt` may, can repeat and go missing across pages
  (`PageWalk.TieRepeats`, with the exact condition in `PageWalk.WalkExactlyOnce`).
- `assignPrivilege` stores whatever its lookups have found by the time the save reads the list, which may be nothing
  (`Privileges.PromptSaveStoresNone`, with the exact condition in `Privileges.StoredList`).
- `createVehicle` takes a `fleetId` that names no column of the entity; the vehicle starts unassigned.

## Model
| member | source | states |
|---|---|---|
| `CacheKeys.RefreshKeyInjective` | src/auth/auth.service.ts:149-174 | two refresh keys are one string exactly when both the users and the tokens agree, for ids without a colon |
| `CacheKeys.SessionKeyInjective` | src/auth/auth.service.ts:143-147 | the same for session keys |
| `CacheKeys.ResetKeyInjective` | src/auth/auth.service.ts:213-228 | two reset keys are one string exactly when the users agree |
| `CacheKeys.FamiliesDisjoint` | src/auth/auth.service.ts:143-213 | the three families of keys never meet, whatever their arguments hold |
| `CacheKeys.ColonBreaksInjectivity` | src/auth/auth.service.ts:149 | the no-colon condition is needed: two arguments with one key |
| `CacheKeys.KeyTexts` | src/auth/auth.service.ts:143-213 | the three keys as text, on sample arguments |
| `Redis.LivesUntil` | src/cache/cache.service.ts:11-29 | a value set with a lifetime is read back until its deadline and not from then on, without one always, a deleted one never; no command touches another key |
| `Accounts.OwnerFound` | src/auth/entities/user.entity.ts:14 | with unique emails and ids the email in a payload leads back to the one account it was signed for |
| `Accounts.SaveWritesOne` | src/auth/repositories/user.repository.ts:65-67 | a save keeps every row in its place, makes the row with the id the given account, and leaves every other row the same value |
| `Accounts.SaveKeeps` | src/auth/repositories/user.repository.ts:58-70 | saving a loaded account keeps every id and email, and both unique |
| `AuthRuns.AdvanceKeeps` | src/auth/auth.service.ts:47-233 | each turn of each call, with any cache error, keeps the invariant and only adds to what other calls rely on |
| `AuthRuns.CallStable` | src/auth/auth.service.ts:47-233 | what a call in flight relies on survives any turn of any other call |
| `AuthEffects.TurnConfined` | src/auth/auth.service.ts:47-233 | in every state and under every error a turn writes at most the account it loaded and one cache key, both written out, and adds at most the account being registered |
| `AuthEffects.CallsBegin` | src/auth/auth.service.ts:47-206 | every one of the six calls may begin at any time, under any unused number, and changes nothing by that |
| `AuthRuns.EveryRunOk` | src/auth/auth.service.ts:47-233 | the invariant holds after every run, whatever the interleaving and the errors |
| `AuthTheorems.HeldMeans` | src/auth/auth.service.ts:148-201 | the recursive reading of the log used by the invariant means: some SET of the key took effect and no DEL after it did |
| `AuthTheorems.EveryRunAnchored` | src/auth/auth.service.ts:160-166 | in every run each instant of expiry that a refresh or its event carries is the clock at a step of that call at which it checked that token |
| `AuthTheorems.RefreshIsJustified` | src/auth/auth.service.ts:157-204 | in every run, a refresh that answered with a token had a sign-in that issued it, a step of its own that checked it unexpired by the clock of that step, and a read after an effective SET with no effective DEL in between |
| `AuthTheorems.HeldIsLive` | src/auth/auth.service.ts:148-152 | a token set, not deleted and still accepted by verify has a live cache entry: the TTL never turns it away |
| `AuthTheorems.SessionIsLive` | src/auth/auth.service.ts:187-191 | the same for session entries of access tokens |
| `AuthTheorems.ReadDecides` | src/auth/auth.service.ts:173-180 | under any errors a pending refresh passes its read exactly when the read succeeds, the key was set and not deleted, and the entry is live; for an unexpired token liveness is implied |
| `AuthTheorems.AccessIsNotRefresh` | src/auth/auth.service.ts:131-180 | a token that lives less than a week never has a refresh entry, so an access token cannot refresh |
| `AuthTheorems.CompletedSignInIsCached` | src/auth/auth.service.ts:131-154 | after any error-free run a completed sign-in has its session entry while verify accepts its access token; it had set its refresh entry before it completed; and that entry is live while verify accepts the token and any SET of it has no DEL after it |
| `AuthTheorems.CompletedRefreshIsCached` | src/auth/auth.service.ts:182-193 | after any error-free run a completed refresh has a session entry for its new access token while verify accepts it, under the account whose entry it read |
| `AuthTheorems.AccountsUnique` | src/auth/repositories/user.repository.ts:27-56 | in every run stored emails are lower-case and unique, and one completed sign-up at most has each |
| `AuthTheorems.DuplicateConflicts` | src/auth/auth.service.ts:47-78 | once an account has the lower-cased email, a sign-up with it in any casing and an existing role can only end in a conflict, under any interleaving |
| `AuthTheorems.SignInFinds` | src/auth/auth.service.ts:87-89 | a sign-in under E' loads the account registered as E exactly when their lower-cased forms agree |
| `AuthTheorems.SignInNeedsConfirmation` | src/auth/auth.service.ts:106-116 | in every run a completed sign-in comes after a registration of that account and a later confirmation of it |
| `AuthTheorems.ChangesAreCalls` | src/auth/auth.service.ts:225-226 | the changes a reset token authorised are counted by the distinct calls that made them |
| `AuthTheorems.ResetChangesBounded` | src/auth/auth.service.ts:206-233 | under any interleaving those changes are at most the calls whose read found the token, and each such read came before the first effective delete after it was stored |
| `AuthSequential.AloneIsRun` | src/auth/auth.service.ts:47-233 | running one call alone ends it and is a run of the machine |
| `AuthSequential.SignUpAdmits` | src/auth/auth.service.ts:47-78 | how a whole sign-up ends: conflict on the email as given, bad request without the role, conflict on its lower case, or one new unconfirmed account |
| `AuthSequential.RefreshAlone` | src/auth/auth.service.ts:157-194 | a whole refresh succeeds exactly when the token verifies, its email belongs to an account and that account's entry for it is active; else it is a bad request exactly when the token verifies and its email is none, and unauthorized otherwise |
| `AuthEffects.RefreshGrants` | src/auth/auth.service.ts:168-193 | the access token of a whole granted refresh carries the email and the role of the account as stored now, for 900 seconds; its session entry lives 86400 seconds; nothing else of accounts or cache changes |
| `AuthSequential.SignInAlone` | src/auth/auth.service.ts:81-155 | a whole sign-in either fails its checks and changes nothing, or issues two tokens and leaves both entries active with lifetimes of a day and a week, and no other change to accounts or cache |
| `AuthSequential.SignInAdmits` | src/auth/auth.service.ts:87-124 | a whole sign-in issues tokens exactly when the lower-cased email is one and an account with it is confirmed, no admin, and has the password; and to that account |
| `AuthEffects.SignInGrants` | src/auth/auth.service.ts:126-154 | both tokens of a whole sign-in carry the lower-cased email and the stored role of the account for 36000 and 604800 seconds, their entries live 86400 and 604800 seconds, and nothing else of accounts or cache changes |
| `AuthEffects.SignInRefuses` | src/auth/auth.service.ts:87-124 | which error a whole sign-in answers: no email, no account, admin, not confirmed, wrong password, in that order |
| `AuthSequential.LogoutAlone` | src/auth/auth.service.ts:196-204 | a whole logout deletes the refresh entry of the account the token leads to, and answers the same when there is none |
| `AuthEffects.LogoutDeletes` | src/auth/auth.service.ts:196-204 | a whole logout of a valid token deletes the entry of the account whose email it carries and no other; else it changes nothing |
| `AuthSequential.ResetAdmits` | src/auth/auth.service.ts:206-233 | how a whole reset ends: bad request unless the live entry is the non-empty token given, not found without the account, else the password is changed and the entry gone; otherwise accounts and cache stay as they were |
| `AuthEffects.ResetWritesOne` | src/auth/auth.service.ts:206-233 | a whole reset that goes through changes the password of its account only, and nothing else of any account; every cache entry but the token stays |
| `AuthEffects.ConfirmWritesOne` | src/auth/repositories/user.repository.ts:58-70 | a whole confirmation makes its account confirmed and active and leaves every other account the same value; not found without one of that email |
| `AuthSequential.EveryReadLinearises` | src/auth/auth.service.ts:157-194 | at any point of any run the next cache read of a refresh in flight lets it through exactly when a whole refresh now would succeed, or its token has expired and the entry is still live |
| `AuthSequential.EveryDeleteLinearises` | src/auth/auth.service.ts:196-204 | at any point of any run the delete of a logout in flight does what a whole logout now would do; or its token has expired, a whole logout would do nothing, and it deletes the entry |
| `AuthSequential.LateDelete` | src/auth/auth.service.ts:196-204 | what such a late delete changes: no whole refresh of any token, and of the refreshes in flight exactly those of that token and account |
| `AuthInterleaving.CompletedRefreshLinearises` | src/auth/auth.service.ts:157-194 | in every error-free run each completed refresh, granted or refused, ended as a whole refresh made at one of its own steps would have, with the same error; only a granted one may instead have read the live entry of a token just expired |
| `AuthInterleaving.CompletedLogoutLinearises` | src/auth/auth.service.ts:196-204 | in every error-free run each completed logout changed the world at its last step only, as a whole logout made at that step would have, or deleted the entry of a token expired since it was verified |
| `AuthClaims.CompletedRefreshCarries` | src/auth/auth.service.ts:168-185 | in every run the access token of a completed refresh carries the email and role of the account its old token names, as stored at the step that loaded it, for 900 seconds from the step that signed it |
| `AuthClaims.CompletedSignInCarries` | src/auth/auth.service.ts:89-135 | in every run both tokens of a completed sign-in carry the email and role of its account as stored at the step that loaded it, for 36000 and 604800 seconds from the steps that signed them |
| `AuthHistory.SequenceIsRun` | src/auth/auth.service.ts:47-233 | a sequence of whole calls is an error-free run of the machine |
| `AuthHistory.AcceptedMeansHeld` | src/auth/auth.service.ts:157-194 | a refresh of a token succeeds exactly when it verifies and some account's key for it was set and not deleted |
| `AuthHistory.RefreshFollowsHistory` | src/auth/auth.service.ts:126-204 | in every error-free sequential run a refresh succeeds exactly when the history of answers says so: a sign-in handed the token out, no logout of it was asked since, and less than seven days have passed |
| `AuthHistory.ResetTokenUsedOnce` | src/auth/auth.service.ts:206-233 | in every error-free sequential run a stored reset token authorises at most one change, and once used it is gone |
| `AuthCorners.LateRead` | src/auth/auth.service.ts:163-180 | a reachable error-free run in which a refresh in flight is let through although a whole one at that instant is refused |
| `AuthCorners.StaleSave` | src/auth/auth.service.ts:218-226 | one save of a reset leaves the account confirmed exactly when the copy it loaded was, with the new password |
| `AuthCorners.ConfirmationStays` | src/auth/auth.service.ts:206-233 | in every state that keeps the invariant, so in every reachable one: a confirmed account stays confirmed in every continuation if and only if no reset about to save it holds a copy loaded before its confirmation |
| `AuthCorners.ConfirmationLost` | src/auth/auth.service.ts:218-226 | a reachable error-free run that ends with a confirmed account unconfirmed again |
| `AuthCorners.ResetKeepsVerified` | src/auth/auth.service.ts:206-233 | a reset that runs alone leaves every confirmed account confirmed |
| `AuthServices.CacheService.Set` | src/cache/cache.service.ts:11-20 | the value is stored unless the SET was lost; the lifetime follows only when the SET was answered, a lifetime was given and the EXPIRE arrived; no error escapes |
| `AuthServices.CacheService.Get` | src/cache/cache.service.ts:22-29 | the live value, or nothing when the command failed |
| `AuthServices.CacheService.Delete` | src/cache/cache.service.ts:58-64 | the key goes unless the command was lost; no error escapes |
| `AuthServices.UserRepository.RegisterAccount` | src/auth/repositories/user.repository.ts:27-56 | adds one unconfirmed account under the lower-cased email, exactly when neither that email nor the id is taken; else nothing changes |
| `AuthServices.UserRepository.ConfirmAccount` | src/auth/repositories/user.repository.ts:58-70 | marks the account of the email confirmed and active, or changes nothing when there is none |
| `AuthServices.UserRepository.GetUserByEmail` | src/auth/repositories/user.repository.ts:72-86 | tells apart a string that is no email, an unknown email, and the account |
| `AuthServices.AuthService.SignUp` | src/auth/auth.service.ts:47-79 | result and new state are those of the machine's call run alone |
| `AuthServices.AuthService.ConfirmAccount` | src/auth/repositories/user.repository.ts:58-70 | the same |
| `AuthServices.AuthService.SignIn` | src/auth/auth.service.ts:81-155 | the same, for any pattern of cache errors |
| `AuthServices.AuthService.RefreshAccessToken` | src/auth/auth.service.ts:157-194 | the same, for any pattern of cache errors |
| `AuthServices.AuthService.Logout` | src/auth/auth.service.ts:196-204 | the same, for any pattern of cache errors |
| `AuthServices.AuthService.ResetPassword` | src/auth/auth.service.ts:206-233 | the same, for any pattern of cache errors |
| `AuthServices.AuthService.GetAllUsers` | src/auth/auth.service.ts:235-261 | a server error exactly for a page or page size below 1; else that page of the matching accounts by email, field by field without the password, with its numbers and both links |
| `UserListing.AnswerIs` | src/auth/auth.service.ts:244-253 | the answer holds each account whose email matches the search, all without one, as often as the table does and nothing else, by email |
| `UserListing.UsersWalk` | src/auth/auth.service.ts:242-257 | after any run of the account service the pages, each from a query of its own, concatenate to every matching account once in the order of emails |
| `UrlEncoded.Utf8Shape` | common/utils/pagination.ts:35-45 | the bytes of a character carry its code point as section 3 of RFC 3629 lays out |
| `UrlEncoded.Utf8RoundTrip` | common/utils/pagination.ts:35-45 | decoding undoes encoding for every string of Unicode scalar values |
| `UrlEncoded.EncodedPlain` | common/utils/pagination.ts:42-45 | letters, digits and four marks are written as they are, a space as a plus |
| `UrlEncoded.EncodedOther` | common/utils/pagination.ts:42-45 | any other character is written as its UTF-8 bytes, each a percent sign and two upper-case hexadecimal digits |
| `UrlEncoded.DecodedPercent` | common/utils/pagination.ts:35 | a percent sign with two hexadecimal digits of either case reads as that byte |
| `UrlEncoded.DecodedStray` | common/utils/pagination.ts:35 | a percent sign without them reads as itself |
| `UrlEncoded.ParsePieces` | common/utils/pagination.ts:35 | any query parses piece by piece between ampersands |
| `UrlEncoded.ParsePiece` | common/utils/pagination.ts:35 | a piece is cut at its first equals sign; without one its value is empty |
| `UrlEncoded.ParseUndoesSerialise` | common/utils/pagination.ts:35-45 | the query a link shows parses back to the very list it was printed from |
| `UrlEncoded.SetReplaces` | common/utils/pagination.ts:36-44 | `set` gives its key one value and leaves every other key's values alone |
| `UrlEncoded.SetInPlace` | common/utils/pagination.ts:36-44 | `set` puts the value in the place of the first pair of the name, drops its later pairs and keeps all others in order |
| `UrlEncoded.SetAtEnd` | common/utils/pagination.ts:36-44 | `set` adds a new name at the end |
| `Pagination.TotalPagesLeast` | common/utils/pagination.ts:24 | totalPages is the least number of pages that hold every item |
| `Pagination.PrevNext` | common/utils/pagination.ts:25-26 | prev undoes next always; next undoes prev exactly for pages 2 to totalPages |
| `Pagination.WalkBackReachesOne` | common/utils/pagination.ts:25 | following prev from any page, even past the end, reaches page 1 in page - 1 steps |
| `Pagination.DecimalRoundTrip` | common/utils/pagination.ts:36-44 | a page number is printed without leading zeros and reads back as the same number |
| `Pagination.BaseIs` | common/utils/pagination.ts:39-40 | the base of a link is exactly the text of the address up to its first question mark |
| `Pagination.Defaults` | src/auth/auth.service.ts:236-237 | a request that does not name them asks for page 1 and ten items |
| `Pagination.GeneratePagination` | common/utils/pagination.ts:17-59 | which inputs are rejected and how; each link exists exactly when it should and leads to its page: it begins with the address up to its first question mark and a question mark, and keeps every other pair of the query |
| `Pagination.WalkVisitsAll` | common/utils/pagination.ts:35-45 | following nextUrl from page p ends and visits p to totalPages once each in order, every request beginning with the same address, with the same page size and every other pair of the query |
| `PageWalk.ArrangementUnique` | src/auth/auth.service.ts:248-253 | a strictly sorted arrangement of rows has no other sorted arrangement |
| `PageWalk.WindowIs` | src/auth/auth.service.ts:242-253 | item i of a page is item (page - 1) * perPage + i of the list, and a page is full unless the list ends |
| `PageWalk.UniqueKeyWalk` | src/auth/auth.service.ts:242-257 | with different sort keys the pages, from queries answering in any order allowed, concatenate to the whole sorted list |
| `PageWalk.WalkExactlyOnce` | src/telemetry/telemetry.service.ts:81-93 | every choice of order among ties gives every row exactly once if and only if no tie falls across a page boundary |
| `PageWalk.TieRepeats` | src/vehicle/services/fleet.service.ts:48-57 | across any tie at a page boundary there are answers whose pages give the row before it, which the table holds once, at least twice |
| `PageWalk.WalkGathersAll` | common/utils/pagination.ts:24-45 | a client that follows nextUrl from page 1 over unchanged data with different sort keys gathers the whole list once, in order |
| `TrimPipe.TrimCuts` | config/validations/index.ts:14 | trim cuts white space off both ends and leaves none at either |
| `TrimPipe.SpacesAre` | config/validations/index.ts:14 | the code points trimmed are exactly those of WhiteSpace and LineTerminator |
| `TrimPipe.Transform` | config/validations/index.ts:5-22 | on any tree the same reference comes back, the heap then holds the trimmed tree, and no cell outside it changes |
| `TrimPipe.TransformSlots` | config/validations/index.ts:8-18 | the in-place loop over elements or keys leaves the node's tree trimmed |
| `TrimPipe.TransformSlot` | config/validations/index.ts:9-17 | a string is trimmed as the value of a key and left alone as an array element; a reference stays and its tree is trimmed |
| `TrimPipe.TrimmedAt` | config/validations/index.ts:5-22 | path by path: same nodes, keys and lengths, same leaves, except that a string under an object's key is trimmed |
| `TrimPipe.TrimmedKeepsCells` | config/validations/index.ts:5-22 | the trimmed tree has the same cells and the same root |
| `TrimPipe.TrimmedIdempotent` | config/validations/index.ts:5-22 | applying the pipe twice is applying it once |
| `Gateway.RunAgrees` | src/telemetry/telemetry.gateway.ts:28-66 | after every run, whatever JSON values the ids are, the connected set, the index and the rooms agree with the event history, and a client without a set is in no room |
| `Gateway.IdsAre` | src/telemetry/telemetry.gateway.ts:44-63 | which ids are falsy, and what each prints |
| `Gateway.FalsySubscription` | src/telemetry/telemetry.gateway.ts:45 | a subscription with a falsy id leaves index and rooms as they were |
| `Gateway.BroadcastReaches` | src/telemetry/telemetry.gateway.ts:39-70 | the room of a fleet holds exactly the connected clients whose latest event with an id that prints the fleet, since connecting, was an accepted subscription |
| `Gateway.EmptyRoom` | src/telemetry/telemetry.gateway.ts:44-49 | the room of the empty id holds exactly the clients that joined it with an array or object that prints nothing and have not left it |
| `Gateway.EmptyRoomJoined` | src/telemetry/telemetry.gateway.ts:44-49 | a run in which a client is in that room |
| `Gateway.IndexAgreesWithRooms` | src/telemetry/telemetry.gateway.ts:46-63 | a client in a room has an id that prints it in the index; the converse holds exactly unless each such subscription still in force was followed by an unsubscription whose other id prints the same |
| `Gateway.StepKeepsConsistent` | src/telemetry/telemetry.gateway.ts:54-66 | from agreement of index and rooms one message leads out of it exactly when it unsubscribes an id that prints like another one in the client's set |
| `Gateway.TypedAgrees` | src/telemetry/telemetry.gateway.ts:39-66 | for a client whose ids are all text, as declared, index and rooms always agree and follow its latest word on the fleet |
| `Gateway.IndexOutlivesRoom` | src/telemetry/telemetry.gateway.ts:59-63 | for every non-empty fleet and every other id that prints it, such as null for `null`, a run in which index and room disagree |
| `Gateway.TelemetryGateway.HandleDisconnect` | src/telemetry/telemetry.gateway.ts:34-37 | the client leaves index and rooms, and nothing else changes |
| `Gateway.TelemetryGateway.HandleSubscribe` | src/telemetry/telemetry.gateway.ts:39-52 | for any JSON id the new state is that of the event machine; silence for a falsy id, an exception for one that cannot be printed, else the acknowledgement |
| `Gateway.TelemetryGateway.HandleUnsubscribe` | src/telemetry/telemetry.gateway.ts:54-66 | for any JSON id the new state is that of the event machine; acknowledged unless the client has a set and the id cannot be printed |
| `Gateway.TelemetryGateway.BroadcastToFleet` | src/telemetry/telemetry.gateway.ts:68-70 | one copy of the payload to each member of the room |
| `Telemetry.DeliveredOnce` | src/telemetry/telemetry.service.ts:31-47 | in every run of messages and concurrent ingests each client has been sent each payload as often as accepted readings with it came while the client was subscribed |
| `Telemetry.SkippingLoses` | src/telemetry/telemetry.service.ts:41 | broadcasting a payload without a fleet id as well would deliver it once to each client in the room of the empty id, and nothing more |
| `Telemetry.SkippingLosesNothing` | src/telemetry/telemetry.service.ts:41 | so skipping it loses no delivery exactly when no client joined that room with an array or object and stayed |
| `Telemetry.AnswerIs` | src/telemetry/telemetry.service.ts:83-93 | the answer holds each stored record of the vehicle within the bounds, written out, as often as it is stored and nothing else, newest first, and their number |
| `Telemetry.RecordsAgreeWithPayloads` | src/telemetry/telemetry.service.ts:31-62 | in every run, in whatever order saves settle, the records stored, being saved or lost are one for one and field by field what the accepted payloads said |
| `Telemetry.LatestHeadsHistory` | src/telemetry/telemetry.service.ts:67-93 | getLatest and the first item of the first unbounded history page have the same time, and are the same record when no two times are equal |
| `Telemetry.HistoryWalk` | src/telemetry/telemetry.service.ts:75-96 | with different times the pages of a history concatenate to exactly its records within the bounds, newest first |
| `Telemetry.TelemetryService.IngestTelemetry` | src/telemetry/telemetry.service.ts:24-65 | an unknown vehicle changes nothing; else payload, record and deliveries are given field by field, the state is that of the machine's two steps, and the caller is told of success whatever failed |
| `Telemetry.TelemetryService.GetLatest` | src/telemetry/telemetry.service.ts:67-73 | a newest record of the vehicle, or nothing exactly when it has none |
| `Telemetry.TelemetryService.GetHistory` | src/telemetry/telemetry.service.ts:75-96 | a bad request exactly for a page or page size below 1; else a window of the vehicle's records within the bounds, newest first, none missing and none added, with its numbers and links |
| `Privileges.RunAgrees` | src/auth/auth.service.ts:317-343 | after every interleaving the shared array holds exactly the existing privileges whose lookups were answered |
| `Privileges.StepsAre` | src/auth/auth.service.ts:327-341 | what each step does: lookups are issued once the role has answered, each callback pushes at the end what its id found, and the save reads the list as it is |
| `Privileges.ExistingIs` | src/auth/auth.service.ts:327-336 | existing are exactly the privileges stored under a requested id, one for each id in order when all exist |
| `Privileges.StoredList` | src/auth/auth.service.ts:327-341 | the stored list is a sub-multiset of the requested privileges that exist, and all of them if and only if each one's lookup was answered before the save read the list |
| `Privileges.StoredAtSnapshot` | src/auth/auth.service.ts:338-341 | what the save reads is what is stored, and later answers change nothing |
| `Privileges.NothingStored` | src/auth/auth.service.ts:338-342 | nothing is stored without a role found and a save that succeeded |
| `Privileges.PromptSaveStoresNone` | src/auth/auth.service.ts:327-340 | a run in which the role loses every privilege |
| `Privileges.AllowedExactly` | src/auth/guards/privileges.guard.ts:14-37 | a request passes exactly when each required name is among the user's privileges |
| `Privileges.AllowedBare` | src/auth/guards/privileges.guard.ts:19-30 | without user, role or list only a handler that requires nothing is open |
| `Privileges.AssignedThenAllowed` | src/auth/auth.service.ts:317-343 | after an assignment the guard lets a user of the role past no name that was not requested, and past all of them when every lookup was answered in time |
| `Privileges.AssignPrivilege.OnRole` | src/auth/auth.service.ts:320-339 | issues one lookup for each id and makes the role hold the array they push onto |
| `Privileges.AssignPrivilege.OnLookup` | src/auth/auth.service.ts:328-335 | one callback: the machine's step |
| `Privileges.AssignPrivilege.OnSnapshot` | src/auth/auth.service.ts:340-343 | the save reads the shared array through the role: the machine's step |
| `Fleets.EveryRunSane` | src/vehicle/services/fleet.service.ts:85-102 | whatever writes concurrent calls make, no vehicle refers to a missing fleet and all unique columns stay unique |
| `Fleets.PutIs` | src/vehicle/services/fleet.service.ts:100-101 | a save writes the first row with the id and no other, or adds one at the end |
| `Fleets.Conservation` | src/vehicle/services/fleet.service.ts:104-116 | in every run the fleets' counts and the unassigned vehicles add up to all vehicles, for any kind of vehicle |
| `Fleets.ReassignMovesOne` | src/vehicle/services/fleet.service.ts:90-102 | a reassignment takes one unit from the old fleet, gives one to the new and touches no other |
| `Fleets.RefusedWhenCounted` | src/vehicle/services/fleet.service.ts:85-88 | the store refuses to delete a fleet exactly when its summary counts a vehicle |
| `Fleets.RemoveFleetIs` | src/vehicle/services/fleet.service.ts:85-88 | removing a fleet leaves every other fleet, in order, all users and all vehicles |
| `Fleets.RemoveVehicleIs` | src/vehicle/services/vehicle.service.ts:62-65 | removing a vehicle leaves every other vehicle, in order, all users and all fleets |
| `Fleets.FleetService.CreateFleet` | src/vehicle/services/fleet.service.ts:29-43 | not found exactly when the manager is missing; refused exactly when the id or the name is taken; else one new fleet |
| `Fleets.FleetService.DeleteFleet` | src/vehicle/services/fleet.service.ts:85-88 | not found without the fleet, refused exactly while a vehicle is in it; else it is gone and every other fleet, in order, all users and all vehicles stay |
| `Fleets.FleetService.AssignVehicleToFleet` | src/vehicle/services/fleet.service.ts:90-102 | the fleet is looked up first; on success that vehicle's row alone changes and one unit moves; on sane tables the store refuses nothing |
| `Fleets.FleetService.GetFleetSummary` | src/vehicle/services/fleet.service.ts:104-116 | the three counts are the numbers of the fleet's rows, of the active ones and of all others |
| `Fleets.VehicleService.CreateVehicle` | src/vehicle/services/vehicle.service.ts:22-25 | refused exactly when another vehicle has the number; else one new vehicle, which counts in no fleet whatever fleet the request names |
| `Fleets.VehicleService.UpdateVehicle` | src/vehicle/services/vehicle.service.ts:56-60 | exactly the given columns of that vehicle's row change and no fleet's count does; refused, on sane tables, exactly when a given number is taken |
| `Fleets.VehicleService.DeleteVehicle` | src/vehicle/services/vehicle.service.ts:62-65 | not found, refused while telemetry refers to it, or gone with every other vehicle, in order, all users and all fleets kept |

## Left out

- Controllers, modules, guards other than the privileges guard, validation decorators, Swagger, logging, throttling and the error filter: wiring.
- bcrypt, JWT cryptography, SQL generation, ILIKE, Redis and socket.io themselves: each is a stated contract (a relation on passwords, tokens that carry their claims, unique and foreign keys, a map with deadlines, rooms as sets).
- Errors of the relational store other than constraint violations, which most services turn into a server error.
- The session cookie that `signIn` fills, and `otp`, which it ignores.
- The flow that stores password-reset tokens: no code of the repository does it, so any store of one may happen at any time.
- The concurrency of whole-row saves is modelled for accounts; a role's snapshot is taken to be one read of the list.
- `AuthServices.AuthService.SignIn`: one method runs the whole call without yielding; what other calls may do at its awaits is in `AuthMachine`.
- `Pagination.GeneratePagination`: fractional, infinite and NaN numbers are not modelled, nor queries with repeated keys or nested values, nor integer-like keys that an object lists first.
- `Pagination.WalkVisitsAll`: the endpoints that declare `req` without `@Req()` (fleets and vehicles) receive no request and have no walk; the audit search takes `limit` where the link says `perPage`.
- `UrlEncoded.ParseUndoesSerialise`: strings with lone surrogates, which the serialiser replaces, are not among the model's strings.
- `TrimPipe.Transform`: trees only; a value shared by two parents, class instances and setters are not modelled.
- `PageWalk.WalkExactlyOnce`: data that changes between two pages.
- `Telemetry.TelemetryService.GetHistory`: bounds are instants; the store's parsing of dates is not part of this model. A page or page size below 1 is answered as the validation of the request and `generatePagination` answer it.
- `Privileges.StoredList`: the join table's own key, which refuses a list with repeats, appears only as a save that may fail; a lookup that rejects is not modelled.
- `updateFleet`: it saves the fleet with the list of vehicles it loaded, and what the store does with that list is not modelled.
- The descriptive columns of vehicles (model, manufacturer, year) and the time stamps of all tables but telemetry.
- `CacheService` list, hash and pattern methods, notifications and their queue, audit logs, `RolesGuard` and plain reads: each is one call to Redis, to a queue or to the store, or one comparison, and keeps no state of its own.
