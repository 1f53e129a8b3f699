# BorealValley: a verified model

BorealValley is a ticket tracker whose tickets are worked on by LLM agents. This project models the
parts of it that carry state, arithmetic or round trips, and proves what they promise over every
input and every run. It is plain Dafny 4.11 without libraries:

    dafny verify dfyconfig.toml

## What is modelled

* **Base58 and multibase** (`Radix`, `Base58`). The in-place long division over a byte buffer, its
  moving start index and the final reversal are loops over arrays, proved against base conversion
  (`Encode`). `Encode` and an independently defined decoder are inverse on all byte strings and all
  base-58 texts.
* **The OAuth store** (`Scopes`, `Requests`, `OAuthTables`, `OAuthStore`, `OAuthReads`, `OAuthRuns`,
  `OAuthFlows`, `OAuthReuse`, `OAuthRaces`, `OAuthIssuing`). `OAuthTables` says what each call does
  to the tables of clients, grants, codes, access and refresh tokens; `OAuthStore` is the class
  whose methods run the statements, with rollback. `OAuthReads` says, row by row and without those
  definitions, which calls end a code or token, what a new row holds, and what reading one promises.
  `OAuthRuns` interleaves the consent page's flow and the exchange and refresh flows with every
  other call and proves an invariant of all runs. A history variable, the thread of a grant, records
  its request and how far its flow has come; `OAuthFlows` says what each flow stores. `OAuthRaces`
  takes exchange and rotation apart into their statements, and `OAuthIssuing` all flows into their
  calls.
* **The ticket store** (`Objects`, `TicketTables`, `TicketStore`, `TicketContents`, `TicketRuns`,
  `TicketHistories`, `Assignments`, `LostAccess`). Comments and their parents, append-only updates
  with snapshots of earlier versions, assignments with notifications; over all stores reachable by
  any sequence of operations. `TicketContents` says exactly when each operation is accepted and what
  it stores, key by key.
* **The agent** (`AgentLoop`, `AgentTranscript`, `AgentFiles`, `AgentQueue`, `AgentRun`,
  `AgentSafety`, `AgentErrors`, `AgentAnswers`, `AgentCompletion`). The bounded model/tool loop with
  its approval gate, for every transcript of replies, and what it leaves in the files; and runs
  against the ticket store, for every schedule, down to the text of the stored comments. A schedule
  decides for each step what everyone else does to the server first, and whether the step succeeds,
  is lost on its way, or is applied and then reported as an error.
* **Login rate limiter** (`RateLimiter`). The map of slices, filtered into their own backing arrays,
  refines a map of sequences, which answers as a never-pruned log would.
* **Notification paging** (`Notifications`, `Pagination`). Cursor walks over tables that change
  between requests, and the next link's round trip.
* **Plan tags and paths** (`PlanParse`, `Paths`). Non-greedy tag matching, the sandbox check and the
  repository path mapper, on characters; `filepath.Clean` is modelled in full.

`Sequences`, `Text` and `Wrappers` hold what these share.

## Conventions

Random identifiers, times, signatures and error texts are arguments. Where the program draws them at
random, a predicate `Fresh` says that the draw is new (and, for slugs, without white space); it is
the only assumption about them. A database transaction is one step that keeps all of its writes or
none. The keys, uniqueness rules and references of the OAuth tables in
src/internal/assets/sql/create.sql are modelled as errors. JSON objects are maps from keys to
values, white space is the set `IsSpace`. Strings are sequences of characters; lengths count
characters.

## What the proofs say about the code

* `RotateRefreshToken` revokes a whole token family when a spent token is presented, but then
  returns an error, and `withTx` undoes the revocation (`OAuthStore.RotateInTx`,
  `OAuthReuse.ReuseChangesNothing`). So the family keeps a live token exactly when its newest one
  was live (`OAuthReuse.ReuseRevokesFamily`); `OAuthReuse.ReusedTokenKeepsItsFamily` is such a run.
* `InvalidateAuthorizeCodeSession` does not ask whether the code is still active, and
  `RotateRefreshToken` asks in one statement and updates in another without locking the row. Two
  flows that both look at a code or token before either spends it both go ahead, and only then
  (`OAuthRaces.TwoFlows`, `OAuthRaces.SpentTwiceExactly`). Taken as transactions one at a time, a
  token rotates at most once (`OAuthRuns.RotatedAtMostOnce`).
* The calls that create codes and tokens look at neither the grant nor earlier tokens. A flow that
  is suspended while its grant is revoked leaves a live token on a revoked grant, and two flows that
  spent one code leave two active tokens in a family (`OAuthIssuing.RevokedBeforeIssue`,
  `OAuthIssuing.IssuedTwice`); the exact condition is `OAuthIssuing.SoundThroughoutExactly`.
* Restoring a stored request drops repeated scopes, so storing it again gives the same snapshot
  exactly when nothing repeats and the client id is trimmed (`Requests.SnapshotRoundTrip`, failing
  at `Requests.RepeatedScopeIsLost`); after one restore it always does
  (`Requests.RestoreStabilises`).
* The sandbox check is exact for roots without a trailing ".." (`Paths.SandboxContains`); the
  relative root ".." lets a path out (`Paths.ParentRootLeaks`).
* Translating a repository path back fails when `to` is "/", below which nothing is recognised, and
  when what is translated ends in white space, which `Translate` trims (`Paths.TranslateRoundTrip`
  with its exact condition; `Paths.MappedToRootIsLost` and `Paths.TrailingSpaceIsLost`).
* An assignment can be removed exactly while both the acting user and the assignee have access
  (`Assignments.RemovalExact`); `LostAccess.RemovalRefused` is a reachable store in which the
  assignee has left the repository and an administrator's removal is refused.
* A failing run posts no error update exactly when a progress post failed, the collaboration mode is
  unknown or the completion failed (`AgentErrors.ErrorUpdateExact`; `AgentErrors.SilentRun` is one).
* A completion that was applied but reported as an error takes its ticket out of the queue all the
  same, so it is not repeated (`AgentCompletion.RunEffect`).

## Model

| member | source | states |
|---|---|---|
| `Base58.DivideInPlace` | src/internal/common/control_user_actor.go:133-142 | one pass of long division in place: from `start` on, the buffer's base-256 value becomes its quotient by 58, the result is the remainder, and the bytes before `start` are untouched; the byte cast is proved to lose nothing |
| `Base58.ByteDivided` | src/internal/common/control_user_actor.go:137-141 | one step of the division: no intermediate exceeds 57 * 256 + 255, the quotient fits a byte, and the running division stays exact |
| `Base58.SkipZeros` | src/internal/common/control_user_actor.go:144-146 | the moving start index stops at the first non-zero byte and skipping does not change the value |
| `Base58.CountZeros` | src/internal/common/control_user_actor.go:128-131 | counts exactly the leading zero bytes |
| `Base58.CollectDigits` | src/internal/common/control_user_actor.go:136-147 | the outer loop terminates on the value left in the buffer and leaves, reversed, exactly the base-58 numeral of that value, within the reserved capacity |
| `Base58.ReverseInPlace` | src/internal/common/control_user_actor.go:152-154 | the swapping loop reverses the first n cells |
| `Base58.Finish` | src/internal/common/control_user_actor.go:149-155 | appending one '1' per zero byte and reversing gives the zeros followed by the numeral |
| `Base58.Base58EncodeRaw` | src/internal/common/control_user_actor.go:123-156 | the byte loops compute the base conversion `Encode`, in at most twice the input's length, the capacity reserved |
| `Base58.DecodeEncode` | src/internal/common/control_user_actor.go:123-156 | every output is base-58 text and an independent decoder recovers the input from it |
| `Base58.EncodeDecode` | src/internal/common/control_user_actor.go:123-156 | every base-58 text is the encoding of what it decodes to, so that encoding is onto the base-58 texts |
| `Base58.EncodeInjective` | src/internal/common/control_user_actor.go:123-156 | two inputs with one encoding are equal |
| `Base58.AlphabetIncreasing` | src/internal/common/control_user_actor.go:158 | the alphabet is in increasing order |
| `Base58.AlphabetExact` | src/internal/common/control_user_actor.go:158 | the alphabet has 58 characters and holds exactly the digits and letters without 0, O, I and l |
| `Base58.LeadingOnesCountZeros` | src/internal/common/control_user_actor.go:128-151 | the output has exactly as many leading '1's as the input has leading zero bytes |
| `Base58.DigitsFit` | src/internal/common/control_user_actor.go:135 | a value of n bytes needs at most 2n digits in base 58 |
| `Base58.EncodeLength` | src/internal/common/control_user_actor.go:135-151 | the output is never longer than 2n less the number of leading zero bytes |
| `Base58.Ed25519PublicKeyToMultibase` | src/internal/common/control_user_actor.go:116-121 | 'z' and the encoding of the prefix 0xed 0x01 and the key |
| `Base58.MultibaseRecoversKey` | src/internal/common/control_user_actor.go:116-121 | stripping the 'z' and decoding gives back prefix and key, for a key of any length |
| `Base58.MultibaseShape` | src/internal/common/control_user_actor.go:116-121 | every multibase of a 32-byte key has 48 characters and starts "z6Mk" |
| `Radix.ConvertRoundTrip` | src/internal/common/control_user_actor.go:123-156 | conversion between any two bases of at least 2, leading zeros counted apart, is undone by converting back |
| `Text.TrimExact` | src/internal/common/oauth.go:126 | trimming takes off exactly the white space at both ends |
| `Text.StringLeMeans` | src/internal/common/oauth.go:143 | the order of strings is decided by the first difference, and a prefix comes first |
| `Scopes.NormalizeOAuthScopes` | src/internal/common/oauth.go:120-145 | the map-and-sort loop computes the reference normal form, including which error it reports |
| `Scopes.IsSubset` | src/internal/common/oauth.go:390-404 | true exactly when every element of the first list is in the second |
| `Scopes.ApprovedScopesSubset` | src/cmd/web/oauth_authorize.go:204-226 | the loop computes the approved list |
| `Scopes.NormalizeExact` | src/internal/common/oauth.go:120-145 | it succeeds exactly when some name remains after trimming and all names are supported; the result is strictly ascending and holds exactly those names |
| `Scopes.RefusedFirst` | src/internal/common/oauth.go:125-132 | a refusal names the first trimmed, non-blank name in the list that is not supported, and exactly such a name is refused |
| `Scopes.NormalizeIgnoresOrder` | src/internal/common/oauth.go:120-145 | two lists with the same trimmed names normalise to the same list |
| `Scopes.NormalizeIdempotent` | src/internal/common/oauth.go:120-145 | a normal form normalises to itself |
| `Scopes.ApprovedElements` | src/cmd/web/oauth_authorize.go:204-226 | exactly the requested scopes that were selected |
| `Scopes.ApprovedInOrder` | src/cmd/web/oauth_authorize.go:204-226 | approved names stand in the order in which the form first mentions them, each once |
| `Scopes.GrantScopesExact` | src/internal/common/oauth.go:1261-1274 | a consent's lists pass exactly when both normalise and the granted names are among the requested ones |
| `Scopes.ApprovalPassesValidation` | src/cmd/web/oauth_authorize.go:154-170 | a non-empty approval of a request that normalises always passes the consent grant's validation and is stored without loss |
| `Requests.AddAllDistinct` | src/internal/common/oauth.go:731-799 | restoring an argument list through a set-like append keeps it exactly when nothing repeats |
| `Requests.SessionRoundTrip` | src/internal/common/oauth.go:246-284 | a stored session survives being restored and stored again |
| `Requests.SnapshotHolds` | src/internal/common/oauth.go:286-318 | a snapshot is refused exactly without a client and otherwise holds, field by field, the request's data, the trimmed session with the expiry times that are set, and what its kind adds |
| `Requests.RestoreHolds` | src/internal/common/oauth.go:731-799 | which snapshots are restored and with which error the others fail; the restored request has, field by field, the snapshot's data, the client its trimmed id names, and its argument lists without repetitions, each value where it first occurs |
| `Requests.IdsNamed` | src/internal/common/oauth.go:346-378 | the grant and the family are the session's trimmed extra values; without one the family is the request itself |
| `Requests.SnapshotRoundTrip` | src/internal/common/oauth.go:286-328 | a snapshot can be restored exactly while its client row exists, and storing the restored request again gives the same snapshot exactly when no argument list repeats a value and the client id is trimmed |
| `Requests.RepeatedScopeIsLost` | src/internal/common/oauth.go:731-799 | a request with scopes s, s at which the round trip fails |
| `Requests.RestoreStabilises` | src/internal/common/oauth.go:731-799 | after one restore every further round trip is the identity |
| `OAuthTables.RunKeeps` | src/internal/common/oauth.go:857-1069 | over any calls that do not create the signature again, a dead code or token stays dead and a set revocation time keeps its value; enabling a client again is such a call |
| `OAuthTables.RunKeepsGrant` | src/internal/common/oauth.go:1253-1481 | over any calls whatever, no grant is lost and its revocation time, once set, never changes |
| `OAuthStore.OAuthStore.CreateOAuthClient` | src/internal/common/oauth.go:411-479 | adds the client, enabled, with normalised scopes; refuses a blank name, a redirect URI that fails its check, scopes that do not normalise and a taken id |
| `OAuthStore.OAuthStore.SetOAuthClientEnabled` | src/internal/common/oauth.go:517-581 | disabling revokes, in one transaction, every grant, code and token of the client that is not yet dead; enabling changes only the flag |
| `OAuthStore.OAuthStore.CreateAuthorizeCodeSession` | src/internal/common/oauth.go:857-899 | upserts an active code row with its grant and expiry; a request that cannot be stored, a missing client or grant, and a second code for one request are errors without a change |
| `OAuthStore.OAuthStore.GetAuthorizeCodeSession` | src/internal/common/oauth.go:901-930 | the stored request, marked unusable when the code is no longer active |
| `OAuthStore.OAuthStore.InvalidateAuthorizeCodeSession` | src/internal/common/oauth.go:932-951 | the code becomes inactive with its time of use, or is not found and nothing changes |
| `OAuthStore.OAuthStore.CreateAccessTokenSession` | src/internal/common/oauth.go:997-1037 | an upsert by signature, with its expiry, live again even after revocation; refused when its client or grant is missing |
| `OAuthStore.OAuthStore.GetAccessTokenSession` | src/internal/common/oauth.go:1039-1059 | finds the stored request of unrevoked tokens only |
| `OAuthStore.OAuthStore.DeleteAccessTokenSession` | src/internal/common/oauth.go:1061-1069 | sets a first revocation time |
| `OAuthStore.OAuthStore.CreateRefreshTokenSession` | src/internal/common/oauth.go:1071-1122 | an upsert by signature, active, with its expiry and the family of the session or else of the request; refused when its client or grant is missing |
| `OAuthStore.OAuthStore.GetRefreshTokenSession` | src/internal/common/oauth.go:1124-1155 | the stored request, marked unusable when the token is inactive, revoked or past expiry |
| `OAuthStore.OAuthStore.DeleteRefreshTokenSession` | src/internal/common/oauth.go:1157-1167 | inactive, with a first revocation time |
| `OAuthStore.OAuthStore.RotateInTx` | src/internal/common/oauth.go:1170-1227 | the statements inside the transaction: on a spent token they do revoke its whole family, before returning the error |
| `OAuthStore.OAuthStore.RotateRefreshToken` | src/internal/common/oauth.go:1169-1229 | an active token is spent and the access tokens of its request are revoked; a spent one is an error that leaves no write |
| `OAuthStore.OAuthStore.RevokeRefreshToken` | src/internal/common/oauth.go:1231-1241 | every refresh token of the request becomes inactive and revoked |
| `OAuthStore.OAuthStore.RevokeAccessToken` | src/internal/common/oauth.go:1243-1251 | every access token of the request gets a first revocation time |
| `OAuthStore.OAuthStore.UpsertOAuthConsentGrant` | src/internal/common/oauth.go:1253-1307 | inserts a grant with normalised scopes, only when the granted ones are among the requested, the client exists and the id is unused |
| `OAuthStore.OAuthStore.RevokeOAuthConsentGrant` | src/internal/common/oauth.go:1427-1481 | revokes the user's grant with every code and token it carries, or nothing |
| `OAuthStore.OAuthStore.EndTx` | src/internal/common/util.go:147-157 | a transaction that ends in an error keeps none of its writes, and one that succeeds keeps them all |
| `OAuthReads.AccessAfter` | src/internal/common/oauth.go:517-1481 | what each call does to each access token: a first revocation time by disabling its client, its user revoking its grant, deleting it, revoking its request's tokens or rotating within its request, and nothing by any other call |
| `OAuthReads.RefreshAfter` | src/internal/common/oauth.go:517-1481 | likewise a refresh token: revoked by exactly the first four kinds of call, spent without revocation by its own rotation, else untouched |
| `OAuthReads.CodeAfter` | src/internal/common/oauth.go:517-1481 | likewise a code: ended by disabling its client or revoking its grant, invalidated with the time of use, else untouched |
| `OAuthReads.GrantAfter` | src/internal/common/oauth.go:517-1481 | a grant is revoked by exactly the disabling of its client and its own user's revocation, once |
| `OAuthReads.RefusedExactly` | src/internal/common/oauth.go:517-1481 | when each call that creates no row is refused, and with which error a rotation is |
| `OAuthReads.CreationsAccepted` | src/internal/common/oauth.go:857-1122 | a code or token is stored exactly when its request names a stored client and, if any, a stored grant, and a code only while no other code has its request |
| `OAuthReads.CodeCreated` | src/internal/common/oauth.go:857-899 | the whole new row of a code: its request's snapshot, active, the session's expiry or fifteen minutes after the request |
| `OAuthReads.AccessCreated` | src/internal/common/oauth.go:997-1037 | the whole new row of an access token, unrevoked, with the session's expiry or an hour |
| `OAuthReads.RefreshCreated` | src/internal/common/oauth.go:1071-1122 | the whole new row of a refresh token, with the session's expiry or thirty days, and the family the session names or else its request's id |
| `OAuthReads.GrantCreated` | src/internal/common/oauth.go:1253-1307 | exactly when a consent is stored, and the whole row: its client and user, both scope lists normalised, unrevoked |
| `OAuthReads.AccessReads` | src/internal/common/oauth.go:1039-1059 | reading an access token finds exactly an unrevoked row whose request can be restored, and returns that request |
| `OAuthReads.RefreshReads` | src/internal/common/oauth.go:1124-1155 | reading a refresh token returns its request, usable exactly when it is active, unrevoked and not past its expiry |
| `OAuthReads.TokensFound` | src/internal/common/oauth.go:1039-1059 | in a reachable store exactly the unrevoked tokens are found, each with the request and client of its row |
| `OAuthReads.OnlyLiveTokensFound` | src/internal/common/oauth.go:1039-1059 | after every run from an empty store, a token that is found belongs to an enabled client and an unrevoked grant of that client |
| `OAuthReads.EndedTokensStayLost` | src/internal/common/oauth.go:517-1481 | once a call has ended an access token, reading it says it is missing, over any further calls that do not create it again |
| `OAuthReads.EndedRefreshStaysUnusable` | src/internal/common/oauth.go:517-1481 | once revoked or rotated, a refresh token is never read as usable again over any such calls |
| `OAuthRuns.CallKeepsInv` | src/internal/common/oauth.go:517-581 | the store invariant survives every single call that creates no row |
| `OAuthRuns.AuthoriseKeepsInv` | src/cmd/web/oauth_authorize.go:154-190 | it survives the consent page's flow |
| `OAuthRuns.ExchangeKeepsInv` | src/internal/common/oauth.go:932-951 | it survives a code exchange |
| `OAuthRuns.RefreshKeepsInv` | src/internal/common/oauth.go:1169-1229 | it survives a refresh with rotation |
| `OAuthRuns.ConsentSucceeds` | src/cmd/web/oauth_authorize.go:154-190 | in a reachable store a consent by a signed-in user of an enabled client, with a request that normalises and something approved, passes every check of the store and of its schema |
| `OAuthRuns.ExchangeSucceeds` | src/internal/common/oauth.go:901-951 | in a reachable store the store calls of an exchange all succeed exactly when the code is active |
| `OAuthRuns.RefreshSucceeds` | src/internal/common/oauth.go:1124-1229 | in a reachable store the store calls of a refresh all succeed exactly when the token is active, unrevoked and not past its expiry |
| `OAuthFlows.ConsentStores` | src/cmd/web/oauth_authorize.go:154-190 | a consent that succeeds stores one grant, of the signed-in user for the enabled client, whose granted names are exactly the requested ones that were selected, and one active code for it, with the session's ids and fifteen minutes to live; nothing else |
| `OAuthFlows.ExchangeStores` | src/internal/common/oauth.go:901-1122 | the store calls of an exchange use up the code and issue one access and one refresh token on its request, client and grant, each storing that request; nothing else |
| `OAuthFlows.RefreshStores` | src/internal/common/oauth.go:1124-1229 | those of a refresh spend the token, revoke what is left of its request's access tokens and issue the next two on the same request, grant and family; nothing else |
| `OAuthRuns.RunKeepsInv` | src/internal/common/oauth.go:857-1251 | the invariant holds along every run of the three flows interleaved with every other call |
| `OAuthRuns.RunsAreSafe` | src/internal/common/oauth.go:857-1481 | after every run from an empty store: a live code or token belongs to an enabled client and an unrevoked grant of that client; a family has at most one active refresh token; a request has at most one live access token; no stored request holds a scope that its grant lacks |
| `OAuthRuns.RotatedAtMostOnce` | src/internal/common/oauth.go:1169-1229 | in every run of transactions taken one at a time a refresh token rotates successfully at most once (sections 6 and 10.4 of RFC 6749) |
| `OAuthRuns.ExchangedAtMostOnce` | src/internal/common/oauth.go:932-951 | in every run of whole flows a code is exchanged at most once (section 4.1.2 of RFC 6749) |
| `OAuthReuse.ReuseChangesNothing` | src/internal/common/oauth.go:1188-1207 | rotating a spent token is an error and leaves every table as it was |
| `OAuthReuse.ReuseRevokesFamily` | src/internal/common/oauth.go:1188-1207 | in a reachable store, the family of a spent token has a live token after it is presented again exactly when the newest refresh token of its grant was live before |
| `OAuthReuse.SuccessorSurvivesReuse` | src/internal/common/oauth.go:1169-1229 | after any successful refresh, presenting the old token leaves its successor, of the same family, active |
| `OAuthReuse.ReusedTokenKeepsItsFamily` | src/internal/common/oauth.go:1188-1207 | a run from the empty store (client, consent, exchange, refresh, reuse) after which the family of the reused token is live |
| `OAuthRaces.SpentTwiceExactly` | src/internal/common/oauth.go:901-951 | statement by statement, over any interleaving: a code is exchanged more than once exactly when some exchange spends it while another that also goes ahead has already looked at it; and likewise for the rotation of a refresh token, whose check and update are two statements without a lock on the row |
| `OAuthRaces.TwoFlows` | src/internal/common/oauth.go:1170-1217 | wherever a code or a refresh token is usable, two flows that look before either spends both go ahead |
| `OAuthRaces.UndisturbedRotation` | src/internal/common/oauth.go:1169-1229 | with nothing in between, looking and spending is the rotation as one transaction, in success and in effect |
| `OAuthIssuing.IssueExactly` | src/internal/common/oauth.go:857-1122 | creating a code or token keeps the store safe exactly when its client is enabled and its grant stands, and keeps live tokens unique exactly when no other of the same family or request is live |
| `OAuthIssuing.SoundThroughoutExactly` | src/internal/common/oauth.go:857-1481 | over single calls in any interleaving: live rows keep an enabled client and a standing grant, families one active refresh token and requests one live access token, all along, exactly when each row was stored while that held for it |
| `OAuthIssuing.RevokedBeforeIssue` | src/internal/common/oauth.go:997-1037 | a grant revoked before an exchange under way creates its token: the token is live on a revoked grant |
| `OAuthIssuing.IssuedTwice` | src/internal/common/oauth.go:1071-1122 | two flows that issue for one request leave two active tokens in one family |
| `TicketStore.TicketStore.CreateTicketWithPriority` | src/internal/common/store_ticket.go:232-315 | the transaction does what the table operation says, including the member row it adds first and gives up on failure |
| `TicketStore.TicketStore.CreateTicketComment` | src/internal/common/store_ticket.go:447-565 | the new comment's row, note and returned id, parent, recipient, author, content and time, or one of the errors and no change; what row and note hold is `TicketContents.RowStored` and `NoteStored` |
| `TicketStore.TicketStore.CreateTicketUpdate` | src/internal/common/store_ticket.go:573-636 | snapshots the old body, then appends the update, and returns the logged update's record; or an error and no change |
| `TicketStore.TicketStore.CreateTicketCommentUpdate` | src/internal/common/store_ticket.go:638-709 | the same for a comment's note |
| `TicketStore.TicketStore.UpdateTicketAssigneeByUsername` | src/internal/common/store_ticket.go:317-398 | adds with one notification only when not yet assigned, removes, or fails; both parties need access |
| `TicketStore.TicketStore.ListObjectVersionsByPrimaryKey` | src/internal/common/store_ticket.go:711-763 | the newest versions of the object, newest first, 20 when no limit is given and at most 200 |
| `TicketContents.CommentAccepted` | src/internal/common/store_ticket.go:447-515 | exactly when a comment is accepted: content, kind, a local ticket with a target, access, an actor, and a parent that is the ticket or a comment of it with the same recipient |
| `TicketContents.NoteStored` | src/internal/common/object_builders.go:138-153 | the new note key by key: content and source.content are the trimmed text, published the time drawn, attributedTo the author's actor, to the recipient, inReplyTo the resolved parent, context the ticket, and the kind only when there is one |
| `TicketContents.RowStored` | src/internal/common/store_ticket.go:517-555 | the new row: slug, ticket, repository, author, the ticket's target as recipient, and the parent column empty exactly where the ticket itself is answered |
| `TicketContents.CommentStored` | src/internal/common/store_ticket.go:447-565 | and a successful comment changes nothing else |
| `TicketContents.TicketAccepted` | src/internal/common/store_ticket.go:232-285 | exactly when a ticket is accepted, including the tracker of its repository and the bounds of its priority |
| `TicketContents.TicketStored` | src/internal/common/object_builders.go:116-136 | the new ticket's row with priority and creation time, its object key by key (summary, content, source, target, author, tracker, time), its author's membership, and nothing else |
| `TicketContents.TicketUpdateAccepted` | src/internal/common/store_ticket.go:573-612 | exactly when an update of a ticket is accepted |
| `TicketContents.TicketUpdateStored` | src/internal/common/store_ticket.go:612-636 | it snapshots the old object, appends the text under it and logs the update, with every other key, row and table as before |
| `TicketContents.CommentUpdateAccepted` | src/internal/common/store_ticket.go:638-684 | exactly when an update of a comment is accepted |
| `TicketContents.CommentUpdateStored` | src/internal/common/store_ticket.go:684-709 | the same of the comment's note |
| `TicketContents.AssignAccepted` | src/internal/common/store_ticket.go:317-362 | exactly when an assignment call succeeds |
| `TicketContents.AssignStored` | src/internal/common/store_ticket.go:362-398 | adding assigns and notifies once, naming ticket, repository and who did it; removing only unassigns |
| `TicketRuns.OpChange` | src/internal/common/store_ticket.go:232-709 | every operation makes one of five changes to tickets, comments, notes and versions, and nothing else |
| `TicketRuns.StepThreads` | src/internal/common/store_ticket.go:447-565 | every operation keeps the reply invariant and never rewrites a stored parent, ticket, recipient or ticket target |
| `TicketRuns.RunThreads` | src/internal/common/store_ticket.go:232-709 | so does every run |
| `TicketRuns.RepliesFormAForest` | src/internal/common/store_ticket.go:472-565 | from every comment, following parents reaches a root in finitely many steps without a repeat, on one ticket, with one recipient, which is the ticket's target |
| `TicketRuns.ReachableForest` | src/internal/common/store_ticket.go:472-565 | so in every store reachable from an empty one |
| `TicketRuns.ParentRecipientAlwaysMatches` | src/internal/common/store_ticket.go:504-515 | in a reachable store the check of the parent's recipient cannot fail |
| `TicketRuns.ParentRoundTrip` | src/internal/common/util.go:103-112 | the NULL encoding of the parent and the listing's view of it are inverse |
| `TicketRuns.ListedParents` | src/internal/common/oauth.go:1741-1747 | the listing shows a comment as a reply to its ticket exactly when its row has no parent |
| `Objects.AppendPlainTextUpdate` | src/internal/common/object_builders.go:168-202 | the in-place edit of the parsed body computes `Appended`; blank content is its only error |
| `Objects.AppendedContent` | src/internal/common/object_builders.go:176-183 | the new content is the old content and the update, a blank line apart |
| `Objects.AppendedEffect` | src/internal/common/object_builders.go:184-201 | content and source.content agree, and every key but content, mediaType, updated and source is as before |
| `Objects.ChainContent` | src/internal/common/object_builders.go:168-202 | after updates u1..un the content is the first content and u1..un joined by blank lines, source.content repeats it and the other keys are untouched |
| `TicketHistories.RunVersioned` | src/internal/common/store_ticket.go:573-709 | along every run the versions of each object and its body are linked by the logged updates, and versions are numbered and dated in order |
| `TicketHistories.ReachableHistories` | src/internal/common/store_ticket.go:573-709 | in every store reachable from an empty one, each ticket's and note's body is its first version with all logged updates appended |
| `TicketHistories.VersionsAreOrdered` | src/internal/common/store_ticket.go:711-763 | a listing is the newest of the versions of exactly that object, 20 when no limit is given and at most 200, in strictly descending (created_at, id) order; what it leaves out is older, and a blank key lists nothing |
| `Assignments.StepNotices` | src/internal/common/store_ticket.go:317-398 | an operation adds one notification for a user and ticket exactly when it newly assigns them |
| `Assignments.AssignmentLaw` | src/internal/common/store_ticket.go:317-398 | over every run, notifications minus effective removals moves exactly with the assignment |
| `Assignments.AssignmentsConserved` | src/internal/common/store_ticket.go:317-398 | from a store without assignments, notifications minus effective removals is 1 for an assigned user and 0 otherwise, whatever happens to memberships |
| `Assignments.ChangesNeedAccess` | src/internal/common/store_helpers_tx.go:422-454 | an assignment is only added or removed while the acting user and the assignee both have access to the repository |
| `Assignments.RemovalExact` | src/internal/common/store_ticket.go:317-398 | removing an existing assignment succeeds exactly while the acting user and the assignee both have access |
| `LostAccess.RemovalRefused` | src/internal/common/store_ticket.go:317-398 | a valid run from an empty store after which a user who has left the repository is assigned and the administrator's removal is refused |
| `Notifications.ReverseNotifications` | src/internal/common/util.go:97-101 | the swapping loop reverses the whole slice |
| `Notifications.ListNotificationsForUser` | src/internal/common/store_notification.go:25-147 | the row loop, truncation and reversal compute the specified page |
| `Notifications.ListingHolds` | src/internal/common/store_notification.go:60-118 | an ordered, limited query returns the first rows in that order and only those |
| `Notifications.PageContents` | src/internal/common/store_notification.go:25-147 | a max_id page holds the greatest ids below it, a min_id page the smallest ids above it, both newest first; hasMore tells exactly whether more than the limit matched |
| `Notifications.PageExact` | src/internal/common/store_notification.go:25-147 | the page in terms of the stored rows and the raw options: rows of the user that an administrator or a member of the row's local repository may read, between the cursors, the default limit 20 and the maximum 100, newest first, and whether more remain |
| `Notifications.WalkSound` | src/internal/common/store_notification.go:30-147 | following max_id lists strictly descending ids, so none twice, and only visible ones, while rows come and go |
| `Notifications.WalkComplete` | src/internal/common/store_notification.go:30-147 | a finished walk has listed every notification that stayed visible throughout |
| `Notifications.WalkExact` | src/internal/common/store_notification.go:30-147 | over a settled set the walk finishes within one page per row and lists exactly that set |
| `Notifications.WalkListsEachOnce` | src/internal/common/store_notification.go:30-147 | when only newer ids arrive mid-walk, the walk lists each originally visible notification exactly once and nothing else |
| `Pagination.NextQuery` | src/cmd/web/pagination.go:57-71 | the loop over the query copies every other parameter, sets max_id and limit, and gives no link without a last id |
| `Pagination.FormatParses` | src/cmd/web/pagination.go:22-32 | parsing a formatted number gives it back |
| `Pagination.ReadsExactly` | src/cmd/web/pagination.go:22-32 | a text is read as the number whose digits it spells after leading zeros, and as no number otherwise |
| `Pagination.Int64Exactly` | src/cmd/web/pagination.go:27 | with a sign, and exactly within 64 bits |
| `Pagination.QueryRead` | src/cmd/web/pagination.go:22-55 | how cursor and limit are read from any text: below one no limit and no cursor, at most 100, and no number leaves the default and is refused as a cursor unless blank |
| `Pagination.LinkRoundTrip` | src/cmd/web/pagination.go:57-71 | the next link is read back as exactly that cursor and limit; every other parameter that occurs keeps its whole list of values, and none is added |
| `RateLimiter.LoginRateLimiter.Prune` | src/cmd/web/ratelimit.go:50-62 | the filter into the slice's own backing array equals a filter of the old contents |
| `RateLimiter.LoginRateLimiter.Append` | src/cmd/web/ratelimit.go:88-90 | appending writes the spare cell or a larger copy, and the result is the old entries and the new one |
| `RateLimiter.LoginRateLimiter.Allow` | src/cmd/web/ratelimit.go:68-92 | answers and prunes exactly as the map specification says |
| `RateLimiter.LoginRateLimiter.Reset` | src/cmd/web/ratelimit.go:94-98 | forgets the key and nothing else |
| `RateLimiter.LoginRateLimiter.Sweep` | src/cmd/web/ratelimit.go:47-66 | drops every expired entry and every key left empty |
| `RateLimiter.AllowExact` | src/cmd/web/ratelimit.go:68-92 | an attempt passes exactly while fewer than max stored attempts lie less than a window back, and is then stored; its key keeps the recent entries only and other keys are as before |
| `RateLimiter.CleanupExact` | src/cmd/web/ratelimit.go:47-98 | a sweep keeps of every key exactly the recent entries and drops keys with none; a reset forgets its key only |
| `RateLimiter.LimiterIsFaithful` | src/cmd/web/ratelimit.go:47-98 | over every history of Allow, Reset and sweep at nondecreasing times, each answer is that of the unpruned history: fewer than max accepted since the last reset within the window |
| `RateLimiter.WindowBound` | src/cmd/web/ratelimit.go:68-92 | every window holds at most max accepted attempts between resets |
| `RateLimiter.SweepsDoNotMatter` | src/cmd/web/ratelimit.go:47-66 | leaving out all sweeps changes no answer |
| `PlanParse.ScanIsReported` | src/internal/common/agent/plan_parse.go:19 | the scanner reports the leftmost opening tag that can be closed and the nearest closing tag after it, or there is no match at all |
| `PlanParse.ParseProposedPlans` | src/internal/common/agent/plan_parse.go:23-38 | the loop keeps the trimmed non-blank contents of the matches, in order |
| `PlanParse.KeptExact` | src/internal/common/agent/plan_parse.go:29-36 | those are the contents trimmed one by one, without the blank ones |
| `PlanParse.TagsDoNotOverlap` | src/internal/common/agent/plan_parse.go:19 | no proper suffix of either tag is a prefix of it |
| `PlanParse.MatchesOfRendered` | src/internal/common/agent/plan_parse.go:19 | contents free of the closing tag, wrapped and separated by texts free of the opening tag, are exactly the matches |
| `PlanParse.ParseRoundTrip` | src/internal/common/agent/plan_parse.go:23-38 | trimmed non-empty plans so written come back exactly |
| `PlanParse.EveryTextIsRendered` | src/internal/common/agent/plan_parse.go:19 | every text is its own matches wrapped in tags between such separators |
| `Paths.CleanIdempotent` | src/internal/common/agent/tools.go:28 | a cleaned path is clean |
| `Paths.ComponentRules` | src/internal/common/agent/tools.go:28 | the components of any path by its last one: "" and "." say nothing, ".." takes back a name, stays at the root and is kept where a relative path has no name left, anything else is one name more |
| `Paths.ShowRules` | src/internal/common/agent/tools.go:28 | the clean path of every list of components |
| `Paths.ShowResolves` | src/internal/common/agent/tools.go:28 | a clean component list is what its path resolves to |
| `Paths.PrefixIsComponentPrefix` | src/internal/common/agent/tools.go:29 | for clean paths, "equal or has root plus separator as prefix" is component prefix, except under the root directory |
| `Paths.SandboxExact` | src/internal/common/agent/tools.go:24-33 | a path is accepted exactly when it is relative and resolves to the root or, for a root with a name, below it; the accepted path is clean and is that resolution |
| `Paths.SandboxContains` | src/internal/common/agent/tools.go:24-33 | a clean root keeps every accepted path inside exactly when it does not end in "..", so every absolute root does |
| `Paths.ParentRootLeaks` | src/internal/common/agent/tools.go:24-33 | with the relative root ".." the path ".." is accepted and leads outside |
| `Paths.NewMapperExact` | src/cmd/web/repo_path.go:37-50 | both ends or neither must be set, and a mapper holds the cleaned, trimmed ends, from and to in their places |
| `Paths.TranslateResolves` | src/cmd/web/repo_path.go:52-72 | for any clean ends and any path, relative or absolute: `from` becomes `to`, what lies below a named `from` is resolved from `to`, and every other path is only cleaned |
| `Paths.TranslateRebases` | src/cmd/web/repo_path.go:52-72 | so on absolute ends and paths the leading components of `from` are exchanged for those of `to` |
| `Paths.RebaseBack` | src/cmd/web/repo_path.go:52-72 | when mapping back restores the original, on components, for every `from` and `to` |
| `Paths.TranslateRoundTrip` | src/cmd/web/repo_path.go:52-72 | exchanging from and to undoes the translation of a path at or under `from` exactly when `Recoverable(from, to, path)`, a test on the inputs: `to` is not "/" and the path (or `to`, for `from` itself) does not end in white space, with the two coincidences spelled out; for `from` "/", the path must lie outside `to` |
| `Paths.MappedToRootIsLost` | src/cmd/web/repo_path.go:58-72 | with from "/a" and to "/", the path "/a/b" does not come back |
| `Paths.TrailingSpaceIsLost` | src/cmd/web/repo_path.go:56-72 | with from "/a" and to "/c", the path given as "/a/b /" does not come back |
| `AgentLoop.CallTools` | src/cmd/agent/llm.go:158-191 | the inner loop over a reply's calls, with gate and callbacks, computes its specification; what one call does is `AgentFiles.PerformWrites` |
| `AgentLoop.CloseWith` | src/cmd/agent/llm.go:193-217 | the closing callbacks: the text, then each plan parsed from it |
| `AgentLoop.RunLMStudioTicketLoop` | src/cmd/agent/llm.go:73-217 | the whole loop computes the specification the lemmas below are about |
| `AgentFiles.PerformWrites` | src/cmd/agent/llm.go:219-247 | an unblocked write_file call whose arguments parse, whose path the sandbox accepts and which can be written leaves exactly its "content" argument in that file; any other call leaves every file alone |
| `AgentFiles.PerformAnswers` | src/cmd/agent/llm.go:158-247 | what the model is told about every call: the tool's result, the refusal of the plan mode, or one of the errors |
| `AgentFiles.PerformedFiles` | src/internal/common/agent/tools.go:86-95 | after any sequence of calls each file holds the content last written to it, and is as before where nothing was written |
| `AgentFiles.LoopFiles` | src/cmd/agent/llm.go:73-247 | after any transcript each file holds the content of the last successful write to it among the calls that ran, and every other file is as before; which calls ran is told by the callbacks, by the answer or by the limit |
| `AgentTranscript.CallsEffect` | src/cmd/agent/llm.go:158-191 | a reply's calls perform the tools in order and append one tool message each; a failing callback cuts the run short between two tools |
| `AgentTranscript.TranscriptShape` | src/cmd/agent/llm.go:73-217 | for every transcript and every fate of the callbacks: at most maxIter requests (3 if it is not positive); request k is system, user, then for each of the first k replies its message and exactly one tool message per call, in order, with its id and that tool's own result; tool callbacks follow the calls in order and are only cut short by a failure; the files are what exactly the tools reported as finished made of them; the answer is the closing text, or else the last text that was not blank; and the closing callbacks are that text and the plans in it, or a part of them when one fails |
| `AgentTranscript.OutcomeExact` | src/cmd/agent/llm.go:98-217 | with callbacks that succeed, the transcript alone decides the outcome and the number of requests: the limit is reported exactly when that many replies ask for tools, an error exactly when an earlier exchange is missing or broken, an answer otherwise |
| `AgentTranscript.SettingsNeeded` | src/cmd/agent/llm.go:80-91 | the same for the whole loop, which sends nothing and fails without an address, a model or a workspace |
| `AgentTranscript.CallbacksPair` | src/cmd/agent/llm.go:159-185 | call and result callbacks alternate and name the same call |
| `AgentTranscript.LeadingPrefix` | src/cmd/agent/llm.go:148-150 | the rounds are those of the longest run of tool_calls replies |
| `AgentTranscript.PlanModePerformsNothing` | src/cmd/agent/tool_policy.go:35-46 | with the plan-mode gate no sequence of calls changes a file, including calls whose arguments do not parse |
| `AgentTranscript.PlanModeKeepsWorkspace` | src/cmd/agent/llm.go:158-171 | so the whole loop leaves every file as it was, for every transcript |
| `AgentTranscript.PerformedStaysInside` | src/cmd/agent/llm.go:219-247 | no sequence of calls changes a file outside an absolute root |
| `AgentTranscript.LoopWritesInside` | src/internal/common/agent/tools.go:86-95 | so the whole loop only creates or changes files at or under the workspace root |
| `AgentQueue.ListAssignedTicketsForUser` | src/internal/common/oauth.go:1553-1659 | the first rows, up to the clamped limit, of the selected tickets in the queue's order; what selection, limit and order are is `SelectedExact` and `ListingMeans` |
| `AgentQueue.SelectedExact` | src/internal/common/oauth.go:1590-1621 | exactly which tickets are selected: local, assigned to the user, with tracker and repository, readable by an administrator or a member, and passing the filters on the user's own comments |
| `AgentQueue.ListingMeans` | src/internal/common/oauth.go:1553-1659 | of every listing: created times do not decrease, at equal times priorities do not increase, at equal priorities ids do not decrease, and whatever the limit (20, at most 100) cuts off comes after every row |
| `AgentQueue.PendingExact` | src/internal/common/oauth.go:1611-1621 | a ticket is pending exactly when it is visible to its assignee and has no stored completion comment of that user |
| `AgentQueue.FindLeast` | src/internal/common/oauth.go:1622 | the first ticket of a non-empty selection |
| `AgentQueue.First` | src/cmd/agent/run.go:115-124 | the ticket that a run takes is the least pending one, and there is none exactly when nothing is pending |
| `AgentQueue.FirstPrecedes` | src/internal/common/oauth.go:1622 | it is the oldest pending ticket, of the highest priority among those of its time, of the lowest id among those |
| `AgentQueue.ListingOfOne` | src/cmd/agent/run.go:115-124 | asking with limit 1 gives that ticket |
| `AgentQueue.CompletionsStep` | src/internal/common/oauth.go:1611-1621 | a user's completions of a ticket grow by exactly one comment when the user's completion comment on it succeeds, and never change otherwise |
| `AgentQueue.QueueStep` | src/internal/common/oauth.go:1611-1623 | acknowledgements, ordinary comments and updates leave the pending queue and its order as they are; a completion takes out its own ticket and nothing else |
| `AgentQueue.ReachableKeysTrimmed` | src/internal/common/store_ticket.go:232-315 | slugs of stored tickets are trimmed and not empty, so that a ticket is found again by its slugs |
| `AgentRun.RunTestSteps` | src/cmd/agent/run.go:146-151 | the counting loop posts three updates and stops at the first failure |
| `AgentRun.ProcessTicket` | src/cmd/agent/run.go:126-203 | the sequence of effects and early exits computes its specification; what a successful run does and stores is `AgentAnswers.SuccessfulRun` and `AgentAnswers.AnswerStored` |
| `AgentRun.AcquireNextTicket` | src/cmd/agent/run.go:115-124 | takes the first pending ticket |
| `AgentRun.RunAgentOnce` | src/cmd/agent/run.go:72-113 | one run computes its specification, which is `AgentAnswers.RunExact` |
| `AgentAnswers.RunExact` | src/cmd/agent/run.go:72-113 | a run does nothing without settings; else it lists once, fails when that fails, succeeds at once when nothing is pending, and otherwise processes the first pending ticket |
| `AgentSafety.ProcessEnds` | src/cmd/agent/run.go:126-203 | whatever fails: a run that is not acknowledged stops; otherwise it does only repository, workspace and update steps on that ticket and that acknowledgement, and attempts at most one completion, after repository, workspace and, directly before, finalize have succeeded; it reports success only if that completion did |
| `AgentSafety.RunsGrounded` | src/cmd/agent/run.go:72-203 | over every sequence of runs: acknowledgements follow a successful listing; every update goes to the comment that acknowledged the same ticket in the same run; every completion follows that acknowledgement, a prepared workspace and a successful finalize, and is the last step of its run |
| `AgentSafety.RunKeepsToItsFiles` | src/cmd/agent/run.go:182-186 | a plan-mode run leaves the prepared files alone; any run changes only files under the workspace root |
| `AgentAnswers.SuccessfulRun` | src/cmd/agent/run.go:126-203 | the whole trace of a successful run: acknowledgement, repository, workspace, the progress posts, finalize, and the completion with the loop's final answer (none in test-counter mode), which was applied and is the last entry; the posts are the three counted steps, or the announcement and one update per callback with its text cut to the source's lengths |
| `AgentAnswers.RunTranscript` | src/cmd/agent/run.go:165-189 | the loop of a run is the one of `TranscriptShape`: opened with its prompt and envelope, under the callbacks of its mode, for its limit |
| `AgentAnswers.AnswerStored` | src/cmd/agent/run.go:197-201 | after a successful run the stored completion comment of this user on this ticket holds the completion line, a blank line and the trimmed answer, or the line alone when the answer is blank |
| `AgentAnswers.AcknowledgementStored` | src/cmd/agent/run.go:129-133 | an applied acknowledgement is stored with its line, its kind and the slug that updates name |
| `AgentAnswers.UpdateAppended` | src/cmd/agent/run.go:135-193 | an applied update appends its trimmed text, a blank line below, to the note of the comment it names |
| `AgentAnswers.AppliedStep` | src/cmd/agent/run.go:126-203 | when a step is applied, what the server's tables then are, and when the step reports success, for each of the three fates |
| `AgentAnswers.ModesExact` | src/cmd/agent/run.go:178-187 | "plan", "default" and blank are the only modes; plan mode alone sets the plan callback and the gate |
| `AgentErrors.ErrorUpdateExact` | src/cmd/agent/run.go:126-203 | an acknowledged run that fails attempts an "agent_error" update, as its last step, exactly when the repository, the workspace, the model loop or the finalize failed; it attempts none exactly when a progress post failed, the collaboration mode is unknown after the work was announced, or the completion failed |
| `AgentErrors.ErrorTextExact` | src/cmd/agent/run.go:135-193 | such an update goes to the run's acknowledgement and says the error of the step that failed, or after how many round-trips the loop was stopped |
| `AgentErrors.UnknownModeIsSilent` | src/cmd/agent/run.go:178-181 | a prepared run with mode "x" fails without attempting one |
| `AgentErrors.SilentRun` | src/cmd/agent/run.go:178-181 | one such run on a concrete store, in which nothing is lost |
| `AgentCompletion.RunEffect` | src/cmd/agent/run.go:72-203 | a run completes nothing, or one ticket without a completion by this user; when others only comment and post updates it is the first of the queue, and a successful run has completed it |
| `AgentCompletion.AtMostOneCompletion` | src/internal/common/oauth.go:1611-1621 | whatever fails, is lost or is applied and reported lost, and whatever others do in between, no number of runs completes a ticket twice |
| `AgentCompletion.FailedRunIsRetried` | src/cmd/agent/run.go:115-124 | a run whose completion was not applied leaves the queue as it was, so that the next run takes the same ticket |
| `AgentCompletion.SuccessfulRunsDrain` | src/cmd/agent/run.go:72-203 | n successful runs complete exactly the first n tickets that the queue listed at the start, in its order, and leave the rest pending |
| `AgentCompletion.DrainOrder` | src/internal/common/oauth.go:1622 | the tickets so completed are in order of creation, then priority from high to low, then id, and precede in that order whatever stays pending |

## Left out

- HTTP handlers, templates, sessions, cookies, TLS, command lines, logging: plumbing without a loop or state
  of its own.
- fosite, password and secret hashing, key generation and random tokens: foreign code; identifiers are drawn
  fresh, and the three flows of fosite are single steps of `OAuthRuns`. In a reachable store each flow fails
  at its first store call or succeeds as a whole (`ConsentSucceeds`, `ExchangeSucceeds`, `RefreshSucceeds`),
  so what is lost is that flows may interleave between their calls; `OAuthRaces` and `OAuthIssuing` interleave
  these.
- `OAuthRuns.ExchangeSucceeds`: speaks of the store's calls; fosite's own refusals (code expiry, client and
  redirect mismatch, PKCE) are not modelled.
- `OAuthRuns.RefreshSucceeds`: speaks of the store's calls; fosite's own refusals (client mismatch, scopes)
  are not modelled.
- `OAuthStore.OAuthStore.CreateOAuthClient`: the URL check of redirect URIs is a verdict given to the method;
  description, secret and stored URIs are not modelled.
- Users: the `user_id` references of the schema, and deleting a user, which would remove grants, tokens and
  assignments and clear authors; `Assignments` and `AgentCompletion` speak of stores whose users stay.
- Revocation of a family after a spent code or token is presented again: fosite's decision; the model lets the
  revoke calls happen at any point of a run.
- PKCE requests, client assertions, client secrets, redirect URIs, audiences in the flows: no branch of the
  modelled methods depends on them.
- Columns that nothing modelled reads (`user_id` of codes and tokens, `created_at`, `updated_at`, the parent
  signature, grant listings), and extra session values that are not strings.
- URL, JSON and SQL texts: values, maps and the statements' meaning instead.
- Two concurrent transactions inside PostgreSQL: each is one atomic step, except the rotations of `OAuthRaces`.
- The limiter's mutex and its background goroutine: its calls are one history, in the order of the lock, at
  nondecreasing times. Aliased callers do not exist because the map is private.
- `AgentRun.RunAgentOnce`: reading the state file, resolving the mode, refreshing the token and the prompts
  are settings of the run. The server behind the agent is a value that each step replaces, because one table
  operation may happen under any of three fates and between operations of others; the store's own updates in
  place are those of `TicketStore`.
- `AgentLoop.RunLMStudioTicketLoop`: messages, files and the callback log are one value updated by the loop,
  since callbacks cannot mutate the heap from a function argument; the HTTP exchange with the model is one
  reply or a failure.
- Requests of the agent that reach the server late, after later steps of the run: a lost request is lost for
  good, or applied at once and reported as an error.
- Concurrent agent runs of one user: runs follow each other; completions that someone else posts under the
  same user are excluded by `AgentCompletion.Allows`.
- What the reading tools return (directory listings, truncated files, regular-expression search):
  uninterpreted functions of the workspace. Creating parent directories is not modelled; a failing write
  changes nothing.
- Preparing and finalizing a workspace (pijul commands): steps that succeed or fail.
- Symbolic links: paths are lexical, as in the code's own check.
- `Paths.TranslateRoundTrip`: speaks of absolute ends and paths, the ones a repository path has; for relative
  ends only the forward direction is proved (`Paths.TranslateResolves`).
- `Paths.TranslateRebases`: speaks of absolute ends and paths; `Paths.TranslateResolves` covers the relative
  ones.
- `Objects.TicketObject` carries two of the ticket's collection links instead of all of them; no operation
  reads them.
- The activity stored with each update is reduced to the object, content and time it records.
- Tracker and repository upserts, filesystem resync, unread flags, listings of tickets and repositories,
  `slugify`, the string-list helpers of util.go, `preApprovedScopes`, `mapRepositories`: easy members, or
  schema constraints that are not part of this model.
- `TicketTables.LoadComment` selects by the object id that the three slugs determine; the join over the
  internal ids is not modelled.
