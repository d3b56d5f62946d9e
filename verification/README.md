# Account lifecycle: a verified model

This project models the account side of the server — users, one-time tokens, the SQLite transactions underneath, the user
cache, the outgoing mail and the browser sessions — and proves what it guarantees in every run and every interleaving.
`dafny verify dfyconfig.toml` checks all of it.

## How it is built

Every operation exists twice, and the two are proved equal.

* **As it is written.** `UserService.Service` and `Web.Handler` are classes whose methods update fields step by step: a closure
  per transaction works on a `Datastore.Queries` object that holds the two tables, the mailer appends to its outbox, the
  cache is a map reassigned by `UpdateCache`, `Write` takes and releases the mutex, and a handler puts an email into its
  session map. `Web.Form` holds the request fields that the validate methods overwrite, `Argon2id.RandomSecret` fills its
  buffer in place.
* **As a value.** `Operations.Program` gives the same closure as the sequence of effects it asks for (a statement, a clock
  reading, a UUID, a hash, a mail, a cache entry). `Effects.Run` answers the effects one by one with inputs that carry
  everything the environment decides: whether the effect fails, the time, the UUID, the random bytes. Only this form can
  be cut at every effect and interleaved.

Each service method ensures `(res, State()) == Called(...)`: its result and its whole new state (tables, outbox, cache) are those of the
body run on the same inputs, and the pool its transaction was begun on. A bound such as `|inputs| >= 8` only says that the environment answers every effect of the
longest path; failing inputs are among the answers.

On top of that:

* `Changes` gives every operation a meaning that does not mention its body — a list of reasons for refusal in order and one
  of five changes — and `Meaning` proves body and meaning equal for every store and every input, failing ones included.
* `History` is about sequences of permitted changes from the empty store: the joint invariant, the token table as a map from
  (email, type) to one token, last passwords, provenance of verification. `Accounts` is about whole calls on such stores.
* `Storage` interleaves any number of transactions of the two pools, one effect at a time, with failing begins, failing
  commits, rollbacks and crashes, and proves serialisability once. `System` adds calls, clock, cache, mailer and sessions, and
  `CommitsAreLegal` shows that the committed versions of every reachable state form a legal history, so everything in
  `History` holds of every interleaving. `Sessions`, `Readings`, `Guarantees`, `Tombstones`, `Delivery` and `Recovery` draw the
  consequences. `Contention` and `Overlap` are about calls that overlap: which pool each operation gets, who waits, who is
  denied. `Refinement` closes the circle: a call that runs alone in `System` does what the method of the class does. `Encoding` has the
  bytes of passwords (UTF-8, section 3 of RFC 3629) and the escaping of tokens in links.
* `Web` and `Visits` follow one site, request by request and across restarts, from the form to the page; `Routes` names the
  requests that reach a handler and follows the mailed links through their paths.

## Assumptions

* **The lock rule.** A deferred transaction reads the version current at its first statement; its first update succeeds only if
  no other transaction holds the write lock and that version is still the latest, and fails otherwise
  (`Storage.CanUpgrade`). Waiting for the lock within the busy timeout is the same as being scheduled later. A failed commit
  commits nothing; a crash loses every transaction in flight and the cache.
* **UUIDs** (version 4, section 5.4 of RFC 9562) are fresh: in `System` a drawn UUID differs from those drawn before. The other modules
  do not assume it; a repeated token is then the insert conflict that the table reports.
* **The clock** is positive and never goes back; the service and SQLite read the same one. 0 in `deleted_at` and `verified_at`
  means "not".
* **Argon2id** (section 3.1 of RFC 9106) is an uninterpreted function of password, salt and parameters that returns as many bytes as
  asked for. Nothing assumes it injective: where a statement needs that passwords do not collide it
  says so (`SameKey` for two of them, `KeepsApart` for all), and every statement about credentials names the derivation with its
  arguments in their order.
* **Names never change and users are never deleted**: no operation calls `UpdateUser` or `DeleteUser`. The cache and the sessions rely
  on it.

## What came out

* Validation and both password changes update rows through `Read`, without the mutex. This is safe: of overlapping calls with one
  token at most one commits (`TokenRedeemedOnce`). The price is a lock or stale-snapshot error for the others. From every reachable state in
  which such a call would be accepted there are runs without any failure in which it is denied its update and answers
  a fault (`AcceptedUpdateCanFault`; from the first sign-up on: `ValidationsDoFault`, `ChangesDoFault`).
* Sign-up, resend and reset wait for one another (`OnlyIssuersWait`) and pay nothing else: the lock rule never denies them
  (`IssuersAreNeverDenied`), and one whose own begin, effects and commit succeed is refused with a fault only for a
  password that cannot be hashed (`IssuersNeverFaultForOverlap`). Sign-in and the check of a reset token are served at once,
  whoever holds the locks (`ReadsAreServedAtOnce`).
* Both mailed links work for whoever follows them in time: the sign-up link signs the visitor in as the account the mail went to
  (`MailedLinkSignsIn`), the other opens the form for the new password (`MailedResetIsAccepted`).
* The cache is filled before the commit and survives rollbacks, yet never holds anything that was not committed before, because
  the transactions offer it names and emails of rows that already existed (`OfferedRowIsCommitted`).
* `DeleteExpiredTokens(t)` is invisible to a look-up later than `t` and to no other: the bound is exact, since a token is accepted
  at its very expiry (`CleanupBoundIsExact`). Before requests that read the clock at `m` or later it is invisible to
  every look-up later than `t` iff `m` is later than `t` (`CleanupIsInvisibleExactly`). Otherwise it can hide the token
  of a validation, the user stays unverified, and a re-issue that would be refused leaves a token that look-ups
  later than `t` accept (`FutureCleanupIsVisible`).
* With a salt length of zero no pair that `GenerateHash` returns for a missing salt is ever accepted (`GeneratedPairsCompare`).
* The session middleware panics exactly when its look-up reaches the database and fails there, and that takes an earlier restart,
  since whoever signed in is cached (`OnlyFailuresPanic`). A restart empties the cache and keeps the sessions; then any
  failing look-up panics (`RestartExposesFailures`), and such a run exists (`PanicIsReachable`).
* Sign-up stores the parsed address and sign-in looks up the typed one, so the entries of the sign-up form reach the account just
  registered exactly when the typed address is already the parsed one (`SignupEntriesSignIn`). An address
  typed with a comment, `a@x (A)`, which the sanitiser leaves and the parser reads as `a@x`, is accepted at sign-up
  and refused at sign-in (`SomeEntriesDoNotSignIn`).
* Reset mails go out through `SendMailSignup`, with its template; only subject and link tell them apart.

## Model

| member | source | states |
|---|---|---|
| Datastore.Queries.GetUser | storage/datastore/users.sql.go:82-101 | finds exactly the row of this email that is not deleted |
| Datastore.Queries.CreateUser | storage/datastore/users.sql.go:12-32 | inserts an unverified, live row stamped now, or conflicts and changes nothing when the key exists, deleted or not |
| Datastore.Queries.SetUserIsVerified | storage/datastore/users.sql.go:127-147 | stamps the row and returns it as updated; also a deleted row, no row when the key is missing |
| Datastore.Queries.UpdateUserPassword | storage/datastore/users.sql.go:165-191 | replaces hash and salt together and returns the row as updated, no row when the key is missing |
| Datastore.Queries.CreateToken | storage/datastore/tokens.sql.go:12-32 | inserts a live row, or conflicts and changes nothing when the token exists, deleted or not |
| Datastore.Queries.DeleteTokensByEmail | storage/datastore/tokens.sql.go:44-62 | stamps every row of this email and type, deleted ones again, and leaves every other row |
| Datastore.Queries.DeleteExpiredTokens | storage/datastore/tokens.sql.go:34-42 | stamps exactly the rows expiring at or before the given time |
| Datastore.Queries.GetTokenNotExpired | storage/datastore/tokens.sql.go:64-108 | finds the token exactly when it has this type, is live and does not expire before the given time |
| Datastore.Queries.Run | storage/datastore/tokens.sql.go:24-108 | every statement, in place, is the store transformer `Execute` that the transaction model runs |
| Argon2id.RandomSecret | pkg/argon2id/argon2id.go:109-118 | the buffer holds the next bytes of the random source at every index, or the source's failure is returned |
| Argon2id.GeneratedPairsCompare | pkg/argon2id/argon2id.go:63-107 | a pair generated without a salt is accepted for its password iff salt and key length are positive, is reproduced by its own salt, and is accepted for exactly the passwords deriving the same key |
| Argon2id.KeysAreDerived | pkg/argon2id/argon2id.go:63-107 | the hash of a generated pair is the derivation of the password, the salt used, time, memory, threads and key length, in that order; Compare accepts iff the guards hold and that derivation of the offered password is the hash |
| Argon2id.AcceptedPairsAreRegenerated | pkg/argon2id/argon2id.go:84-107 | Compare accepts a pair iff its salt is not empty and GenerateHash makes that very pair again from it, whatever the random source; with working parameters every non-empty password gets a pair, accepted unless its salt is empty |
| Effects.RunAppend | storage/storage.go:117-132 | running a closure on one more effect is advancing its run by one step: the whole-run and the stepwise reading agree |
| Encoding.Utf8IsInjective | service/user/user.go:125-125 | different passwords typed are different bytes hashed |
| Encoding.QueryEscapeIsInjective | pkg/mailer/mailer.go:26-26 | no two tokens are written the same in a link |
| Encoding.EscapingIsUndone | pkg/mailer/mailer.go:26-26 | reading an escaped string back, byte by byte, gives the bytes that were escaped |
| Encoding.UuidsStayPlain | pkg/mailer/mailer.go:26-46 | a UUID is written in a link as it is |
| Changes.IssueTokenRuns | service/user/user.go:139-160 | the shared tail tombstones the slot, inserts the token with its expiry and mails it last; it fails only for a failed effect or a taken UUID |
| Changes.SignupMeans | service/user/user.go:109-166 | exact refusals in order, and on success exactly one new user, one live sign-up token and one mail |
| Changes.ReissueMeans | service/user/user.go:168-298 | the same for resending a sign-up token and for requesting a reset, each with its own refusals and type |
| Changes.ValidateMeans | service/user/user.go:215-251 | succeeds iff the token is redeemable now and its user exists; then verifies that user, tombstones the slot, offers the row to the cache and answers it |
| Changes.RedeemMeans | service/user/user.go:369-419 | succeeds iff the token is redeemable and the password hashes; then a fresh pair, tombstones, cache offer and answer for the token's own user |
| Changes.ChangePasswordMeans | service/user/user.go:334-367 | hashes first, then replaces the pair of the named user only; an unknown email is the only other refusal |
| Changes.Meaning | service/user/user.go:59-419 | for every operation, store and inputs: success iff nothing fails and nothing refuses, with exactly the specified change, mail, cache entry and answer; an error is the true refusal or a fault |
| History.ApplyKeepsInvariant | service/user/user.go:182-241 | every permitted change keeps: one live token per email and type, a live sign-up token's user is unverified, a live password token's user is verified |
| History.EveryStoreIsInvariant | service/user/user.go:182-409 | hence in every committed store of every legal history |
| History.TableMatchesBook | service/user/user.go:139-154 | the tombstoned token table answers like a map from (email, type) to one (token, expiry) |
| History.BookHoldsLatest | service/user/user.go:186-201 | that map holds a slot iff the latest commit touching it was an issue, and then that issue's token and expiry |
| History.TokenAccepted | service/user/user.go:220-246 | a token is accepted at a time iff it is the latest issued of its email and type, not consumed since, and within the expiry its issuer computed |
| History.TokenSurvives | service/user/user.go:300-332 | a slot nobody touches keeps its token accepted until its expiry |
| History.HistoryExtends | storage/datastore/tokens.sql.go:44-57 | no history removes a row, changes its identity or expiry, revives it, renames a user or unverifies one |
| History.TokensAreIssued | service/user/user.go:147-152 | every token row was inserted by a commit for its own email and type |
| History.TokenConsumedOnce | service/user/user.go:220-246 | no two commits consume the same token |
| History.StoredPairsHashLastPassword | service/user/user.go:341-350 | hash and salt are always replaced together: every stored pair derives from the password last committed |
| History.VerifiedMeansConsumedToken | service/user/user.go:234-241 | a user is verified iff some earlier commit verified that email |
| History.VerificationProvenance | service/user/user.go:220-246 | iff that commit consumed, in time, the then latest unconsumed sign-up token of the same email |
| Accounts.ServeSucceeds | service/user/user.go:59-419 | exactly when a call's transaction succeeds, and the store and row it leaves |
| Accounts.CommitsArePermitted | service/user/user.go:109-419 | every commit passed the checks its change requires |
| Accounts.SigninChecksLastPassword | service/user/user.go:76-107 | sign-in succeeds iff the user exists, was verified by a commit, and the password derives the key of the one last committed; iff it is that password when the two do not collide |
| Accounts.WrongPasswordIsRefused | service/user/user.go:76-107 | with a derivation that keeps passwords apart, any password but the last committed one gets invalid credentials, or not verified |
| Accounts.IssuedTokenLives | service/user/user.go:21-22 | right after a successful sign-up or resend its token is accepted at a time iff that is at most 43 200 000 ms after the issuing clock reading; after a reset request, 3 600 000 ms |
| Accounts.CheckedTokenStillChangesPassword | service/user/user.go:300-419 | after a successful check of a reset token, the change with it succeeds until the expiry, whatever else commits that neither issues nor consumes a reset token of that email |
| Accounts.EveryAccountRecovers | service/user/user.go:168-298 | calls served one by one: from every invariant store, any existing user and non-empty new password, an undisturbed reset, change and sign-in (after resend and validation if unverified) ends signed in |
| Accounts.OperationsAreLocal | service/user/user.go:109-419 | an operation, refused or not, decides, changes and answers by its own account's rows and by whether the token it names or draws exists, and by nothing else |
| Accounts.StrikesCommute | storage/datastore/tokens.sql.go:44-62 | tombstoning and inserting for two emails commute, row for row |
| Accounts.DifferentAccountsCommute | service/user/user.go:109-298 | two successful calls for different accounts give the same answers and the same store in either order |
| Accounts.DifferentAccountsCommuteInCache | service/user/user.go:421-429 | and the same cache |
| Accounts.CleanupHidesExpired | storage/datastore/tokens.sql.go:34-42 | cleanup hides exactly the rows expiring by its bound |
| Accounts.CleanupBoundIsExact | storage/datastore/tokens.sql.go:64-90 | no look-up at a time changes, for every store, iff the time is strictly later than the cleanup's bound |
| Accounts.CleanupIsInvisible | storage/datastore/tokens.sql.go:34-42 | inserted before any sequence of requests whose clock readings are all later than its bound, it changes no success, no answer, no undisturbed error and no later look-up |
| Accounts.FutureCleanupIsVisible | storage/datastore/tokens.sql.go:34-42 | a cleanup whose bound lies after a validation: the validation is refused, and a re-issue makes look-ups later than the bound differ |
| Accounts.CleanupIsInvisibleExactly | storage/datastore/tokens.sql.go:34-42 | for every bound and every m: no look-up later than the bound, after any requests from m on and on any invariant store, sees the cleanup iff m is later than the bound |
| Storage.NextIsValid | storage/storage.go:106-132 | every step of every transaction keeps: the log replays to the versions, each transaction is the run of its closure on its snapshot, a writer's snapshot is the latest |
| Storage.Serialisable | storage/storage.go:78-132 | the committed store is the one-at-a-time run of the committed writers in commit order; every finished transaction, successful or refused, answered as alone on the serial store of one point between its start and its end, or a fault because it could not begin or its success not commit |
| Storage.WritePoolIsNeverDenied | storage/storage.go:78-115 | a transaction behind the mutex and the immediate lock never meets a stale snapshot |
| Contention.OverlapIsDenied | storage/storage.go:84-95 | of two read-pool transactions about to update, the second is denied once the first has updated, while it holds the lock and after it commits |
| Contention.OverlappingValidationIsDenied | service/user/user.go:220-246 | on every store that accepts a sign-up token, two validations of it can overlap so that one is denied its update and ends in an error, although no statement, begin or commit failed by itself |
| Contention.DeniedValidationFaults | service/user/user.go:234-237 | a denied update ends the validation in a fault and is rolled back, leaving versions and log as they were |
| Midway.IssuingProgress | service/user/user.go:156-160 | an issuing closure draws its UUID once at a fixed point, mails it last, and has mailed nothing if it ends in an error |
| System.EveryStateIsGrounded | storage/storage.go:106-132 | in every reachable state each transaction, log entry and answer belongs to a call of the service, in its own pool |
| System.CommitsAreLegal | service/user/user.go:109-419 | the committed versions of every reachable state are a legal history |
| Sessions.OfferedRowIsCommitted | service/user/user.go:243-243 | what a running transaction offers the cache before its commit is the name and email of a row already committed |
| Sessions.NextIsSound | internal/web/auth.go:48-163 | every step keeps: cache entries are committed accounts, results are settled answers, every email a session ever held is verified |
| Sessions.EveryStateIsSound | internal/web/auth.go:380-412 | hence in every reachable state |
| Sessions.SignedInCanCall | internal/web/auth.go:73-73 | the email a sign-in answered can be put into any session, and then exactly the look-up and the password change can be called on its behalf, without waiting for any lock |
| Sessions.SignoutCanBeUndone | internal/web/auth.go:155-163 | in every reachable state a sign-out ends this session and no other, and a slower request of it that still writes its copy puts the session back as it was |
| Readings.EveryStateReads | service/user/user.go:221-221 | the clock readings of every call, running or finished, are values of the clock since its start, in order |
| Guarantees.CommittedStoresAreConsistent | service/user/user.go:182-409 | the joint invariant and monotonicity in every committed version of every interleaving |
| Guarantees.CallsAreLinearizable | service/user/user.go:59-419 | every call answers, and leaves, what it would alone, to the very inputs it drew, on a store committed between its start and its return, with clock readings of that time; a committed writer's store is the version its commit replaced and it leaves the next; a fault may also be a begin or a commit that failed; a cached read agrees with the store at its start |
| Guarantees.RefusedCallsCommitNothing | storage/storage.go:117-132 | a call that returned an error, at whichever step, is in no committed version |
| Guarantees.TokenRedeemedOnce | service/user/user.go:375-416 | of any number of overlapping redemptions of one token at most one succeeds |
| Guarantees.SessionsHoldVerifiedUsers | internal/web/auth.go:73-73 | every email in a session is an existing, verified, not deleted user of the committed store |
| Guarantees.SessionCallsFindTheirUser | internal/web/auth.go:392-398 | a call made with a session's email, even one signed out meanwhile, is refused only for a fault: never the middleware's missing user nor ErrEmailNotFound |
| Guarantees.SigninProvesPassword | service/user/user.go:76-107 | every sign-in that met no fault was judged by one store of the call: found iff verified by a commit and the password derives the key of the last committed one, invalid credentials iff no user or verified and another key, not verified iff no commit verified it |
| Guarantees.SigninNeedsLastPassword | service/user/user.go:76-107 | a sign-in that was answered with an account, under a derivation that keeps passwords apart, offered the password last committed for it on a store of the call |
| Guarantees.AcceptedTokenIsLatest | service/user/user.go:139-154 | the running system accepts a token iff a committed call issued it, nothing later touched its slot, and the time is at most 43 200 000 ms (sign-up) or 3 600 000 ms (password) after the issuer's clock reading |
| Guarantees.EveryTokenRunsOut | service/user/user.go:220-226 | while nothing but the clock moves an accepted token stays accepted until its expiry and never after |
| Guarantees.CheckedTokenKeepsWorking | service/user/user.go:300-419 | in every interleaving: after a successful check of a reset token, a change with it that starts later and reads the clock within the expiry is refused only for a fault, unless a commit in between issues or consumes a reset token of that email; with no effect failing, only its commit can fail |
| Guarantees.CrashedCallsAreGone | storage/storage.go:117-132 | a crash loses every call whose transaction is open, for good: no answer and no commit in any later state; versions, mails and sessions stay, cache and locks do not |
| Tombstones.TokenRowsOnlyAge | storage/datastore/tokens.sql.go:44-57 | no run removes a token row, changes its type, email or expiry, or lowers its deletion stamp, although deletes re-stamp |
| Delivery.LinksAreDistinct | pkg/mailer/mailer.go:24-62 | different tokens or types never share a link, paths and escaping included |
| Delivery.CommittedTokensWereMailedOnce | service/user/user.go:139-160 | every committed token was handed to the mailer exactly once, to its own email under its own link, `/auth/signup/` or `/auth/reset-password/` with the escaped token |
| Delivery.MailsAreAccountedFor | storage/storage.go:123-131 | every mailed token is committed, or its call is waiting to commit, or ran to its success and failed to commit it, or was lost in a crash |
| Recovery.EveryExecutionRecovers | service/user/user.go:76-419 | every execution, wherever it stopped and whatever locks are held, has a continuation without crash or failure in which a new sign-in of any committed user with any chosen non-empty password finds it |
| Guarantees.BeginAndCommitCanFail | storage/storage.go:117-132 | every call can fail to begin, and every successful one to commit; it answers a fault, and versions and log stay |
| Overlap.ReadsAreServedAtOnce | storage/storage.go:106-108 | from every state, whoever holds the locks, a sign-in or a check of a reset token can be called and comes back by steps of its own, with the answer of the latest committed store, leaving locks and versions as they were |
| Overlap.OnlyIssuersWait | storage/storage.go:106-115 | a call can start iff it is one of the three issuing ones and the mutex is free, or any other one, whoever holds the locks |
| Overlap.IssuersAreNeverDenied | service/user/user.go:116-116 | in no reachable state does the lock rule deny an update to a sign-up, a resend or a reset request |
| Overlap.IssuersNeverFaultForOverlap | service/user/user.go:109-298 | in every interleaving one of these whose own begin, effects and commit do not fail is refused with a fault only if it is a sign-up whose password is empty or cannot be hashed |
| Overlap.AcceptedUpdateCanFault | service/user/user.go:220-416 | every execution in which a validation or password change would be accepted goes on, without crash or failure, to one in which a new such call is denied its update, answers a fault and changes nothing |
| Overlap.ValidationsDoFault | service/user/user.go:220-246 | a run from the start, made of calls and their steps without any failure, in which an overlapping validation is denied and answers a fault, although nothing refuses it |
| Overlap.ChangesDoFault | service/user/user.go:375-416 | the same for a password change with a reset token |
| Refinement.AloneIsTheService | service/user/user.go:59-429 | from every state with free locks any call can be made and comes back, without a failure, with the result of the method of the class in the same world, and leaves the store, mails and cache that the method leaves; a cached look-up leaves the database alone |
| UserService.Database.End | storage/storage.go:117-132 | commits the closure's tables iff it returned no error and the commit succeeds; the committed store is otherwise unchanged |
| UserService.Service.UpdateCache | service/user/user.go:421-429 | stores the account only if its email has no entry, and returns the account of the row, not the entry |
| UserService.Service.GetUser | service/user/user.go:59-74 | a cached entry is returned without beginning a transaction; otherwise, on the read pool, result, tables and cache are those of the body run alone |
| UserService.Service.Signin | service/user/user.go:76-107 | result and state are those of the body, the comparison after the commit and the cache entry only after both |
| UserService.Service.Signup | service/user/user.go:109-166 | result and state are those of the body, on the write pool under the mutex, for every failing step |
| UserService.Service.ResendSignupToken | service/user/user.go:168-213 | result, tables, mails and cache are those of its body run alone on the write pool under the mutex, for every failing step |
| UserService.Service.ValidateSignupToken | service/user/user.go:215-251 | result, tables, mails and cache are those of its body run alone on the read pool, without the mutex; the cache entry stays even when the commit fails |
| UserService.Service.ResetPassword | service/user/user.go:253-298 | result, tables, mails and cache are those of its body run alone on the write pool under the mutex; a mail handed over stays handed over when the commit fails |
| UserService.Service.ResetPasswordToken | service/user/user.go:300-332 | result, tables, mails and cache are those of its body run alone on the read pool, without the mutex, for every failing step |
| UserService.Service.ChangePassword | service/user/user.go:334-367 | result, tables, mails and cache are those of its body run alone on the read pool, without the mutex, for every failing step |
| UserService.Service.ChangePasswordWithToken | service/user/user.go:369-419 | result, tables, mails and cache are those of its body run alone on the read pool, without the mutex, for every failing step |
| Web.Form.ValidateSignin | internal/web/auth.go:34-46 | accepts iff the cleaned address parses and the trimmed password is not empty; keeps the address as typed |
| Web.Form.ValidateAddress | internal/web/auth.go:169-179 | accepts iff the cleaned address parses and replaces it by the parsed one |
| Web.Form.ValidateSignup | internal/web/auth.go:84-108 | accepts iff name, address and passwords are valid, with the first failing reason otherwise |
| Web.Form.ValidatePasswords | internal/web/auth.go:282-293 | accepts iff the trimmed passwords are equal and not empty |
| Web.Form.ValidateReset | internal/web/auth.go:330-346 | additionally requires a token that is not blank |
| Web.Handler.SessionDataMiddleware | internal/web/auth.go:380-412 | no look-up without an email; otherwise the account found, or the panic |
| Web.Handler.Signin | internal/web/auth.go:48-75 | page, session and service state of the validated call; the session holds the email answered |
| Web.Handler.Signup | internal/web/auth.go:110-140 | page and service state of the validated call; no session changes |
| Web.Handler.SignupToken | internal/web/auth.go:142-153 | the session holds the verified email iff the validation committed |
| Web.Handler.Signout | internal/web/auth.go:155-163 | removes exactly this session; when the session store refuses, nothing, and the CSRF cookie is dropped if one came |
| Web.Handler.ResendSignupToken | internal/web/auth.go:181-212 | page and service state of the validated call, with the sign-in page for a verified user |
| Web.Handler.ResetPassword | internal/web/auth.go:230-255 | page and service state of the validated call |
| Web.Handler.ResetPasswordToken | internal/web/auth.go:257-275 | the form page iff the token is accepted |
| Web.Handler.ChangePassword | internal/web/auth.go:295-322 | calls the service with the session's email, never one from the form |
| Web.Handler.ChangePasswordWithToken | internal/web/auth.go:348-378 | the session holds the token's email iff the change committed |
| Web.Handler.GetString | internal/web/auth.go:392-392 | the email of a session is what it holds, and empty when it holds none |
| Web.Handler.Serve | internal/web/handler.go:61-112 | the route table, route by route: session data first, then signed in or out, then the handler, which refuses a form that does not bind |
| Web.Handler.Get | internal/web/handler.go:51-91 | a GET is the request that its path names |
| Visits.CachedRowsAreCommitted | service/user/user.go:243-243 | however a transaction ends, all it offered the cache was committed before it began |
| Visits.ServedKeepsTrust | internal/web/auth.go:48-378 | every request, whatever fails in it, keeps the joint invariant, the cache's agreement and a verified user behind every session |
| Visits.OnlyFailuresPanic | internal/web/auth.go:392-398 | after any requests and restarts, a page is a panic iff this request's own look-up reaches the database and fails there, and then a restart came before |
| Visits.RestartExposesFailures | internal/web/sessionmanager.go:37-38 | right after a restart that is iff the session holds an email and the look-up fails, for sessions outlive the cache |
| Visits.PanicIsReachable | internal/web/auth.go:394-397 | a run that panics: sign up, follow the link, restart, fail |
| Visits.SessionsFollowCredentials | internal/web/auth.go:48-163 | a session is signed in iff its form is valid and its password or token is accepted and committed, as that account; sign-out removes it; no other session changes |
| Visits.SignedInChangesPassword | internal/web/auth.go:295-322 | a signed-in visitor's valid form succeeds iff nothing fails, changes that row only and then signs in; otherwise nothing changes and the refusal is a fault |
| Visits.RegisteredSignsIn | service/user/user.go:76-251 | after sign-up and validation the chosen password reaches the new account under its stored address and under no other, and no account under an address unknown before |
| Visits.SignupEntriesSignIn | internal/web/auth.go:34-108 | the entries of the sign-up form reach the account just registered iff the typed address is the one it parses to |
| Visits.SomeEntriesDoNotSignIn | internal/web/auth.go:34-108 | an address typed with a comment is accepted and verified, and the same entries are then refused at sign-in, although the parsed address signs in |
| Routes.SignedOutRequests | internal/web/auth.go:414-434 | signed out, the five sign-in forms and both mailed links reach their handlers; the index page, sign-out and password change lead to the sign-in page and change nothing |
| Routes.SignedInRequests | internal/web/auth.go:414-434 | signed in, the five sign-in forms lead to the index page, with store, mails and sessions as they were; the account's own requests and both links reach their handlers |
| Routes.SignedOutPaths | internal/web/handler.go:51-91 | the pages a signed-out visitor gets by path: the four forms, and for the index page, the password change and sign-out the way to the sign-in page |
| Routes.SignedInPaths | internal/web/handler.go:51-91 | the pages a signed-in visitor gets by path, and what the sign-out path does to the session |
| Routes.RedirectsSettle | internal/web/auth.go:414-434 | whatever request was answered with a redirect, following it shows a page and not another redirect, on every trustworthy site without a user of the empty address |
| Routes.VisitorsSignIn | internal/web/handler.go:61-91 | the whole request of a signed-out visitor signs in iff it is a valid sign-in, link or reset form whose credentials are accepted and committed, as that account |
| Routes.MailSays | pkg/mailer/mailer.go:24-62 | subject, receiver, name and URL of the one mail of each successful issuing call, letter by letter |
| Routes.MailedLinkSignsIn | internal/web/handler.go:78-78 | from the sign-up or resend form to the mail, along its URL and back through the route: within 43 200 000 ms of issuing, any signed-out visitor who follows it is signed in as the account it was sent to |
| Routes.MailedResetIsAccepted | internal/web/handler.go:71-71 | from the reset form to the mail and along its URL: within 3 600 000 ms of issuing, it opens the form for the new password |

## Left out

- SQLite itself, `database/sql`, migrations and connection strings: only the lock rule, the primary keys and the column defaults (storage/datastore/sql/migrations/00001_add_table_users.sql:3-12, storage/datastore/sql/migrations/00002_add_table_tokens.sql:3-9) are kept. A transaction that updates no row still makes a version here, equal to the last one.
- `UpdateUser`, `DeleteUser`, `GetAllUsers`, `GetUserIsDeleted`, `GetUserIsVerified` and the tag queries: no operation calls them.
- Accounts.CleanupIsInvisible: `DeleteExpiredTokens` has no caller; it is proved about on its own and before calls served one by one, not as an event of the interleaved system. For bounds not earlier than every later reading it is false; `CleanupIsInvisibleExactly` is the exact condition.
- Datastore.Queries.CreateUser: integer widths are not modelled, because times in milliseconds stay far below 2^63; the same holds for the parameters of the hash.
- Argon2id.GeneratedPairsCompare: the library's panics for zero passes or lanes appear as an error of the call, as those for a key of no bytes do, because a panic inside a transaction (which would leave it open) is not modelled; key derivation, random bytes and UUIDs are not opened up.
- Delivery.CommittedTokensWereMailedOnce: mail templates, addresses and SMTP are one append that may fail.
- UserService.Database.Lock: as an object used by one caller at a time the mutex is never contended; waiting for it is part of `Storage`, where calls interleave.
- Web.Handler.SessionDataMiddleware: static paths (which skip the look-up), the CSRF token and the application name are left out.
- Cookies other than the one a failed sign-out drops, and the expiry of sessions.
- Overlap.AcceptedUpdateCanFault: how long SQLite waits for a lock is not modelled. The two redemptions have read before they update, so they are denied at once; a signed-in password change updates with its first statement, so there the fault means a lock held longer than the busy timeout.
- Web.Handler.Get: paths are taken as the router hands them over; the unescaping it does is the identity on the UUIDs of links. POST paths and static files are not modelled.
- Web.Handler.Serve: the fields echoed back to a form and rendering are left out; routes that only render a page are one request.
- Web.Form.ValidateAddress: `strings.TrimSpace`, the sanitising policy, and `mail.ParseAddress` are arbitrary functions. Strings are sequences of characters; a request with bytes that are no UTF-8 is not one of them.
- `cmd/`, `pkg/logger`, `pkg/web`, `pkg/domain`, `internal/api/debug` and the server set-up: start-up, logging and configuration without a hard property.
