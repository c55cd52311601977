# Account, mail and lock protocols

A Dafny model of the concurrent parts of the starter kit: the account service with its SQL statements, the mail outbox, the distributed lock, and the time arithmetic of sessions and rate limits. `dafny verify dfyconfig.toml` takes the whole project.

## How the model is built

**Accounts.** `AccountTables` holds the rows of users, login accounts, sessions, flows with reauthentication proofs, and email challenges. `AccountProtocol` gives each transaction a guard and an effect and each call that works outside its transaction separate read and commit steps; `Step` is one atomic step of the whole system, and `Run` any interleaving of any number of calls from the empty database. A read step leaves its snapshot among the calls in flight, and a call in flight is never removed, so nothing depends on a call committing only once. `AccountInvariant` states what holds in every reachable state, `AccountPreservation` and `AccountInduction` prove it statement by statement, and `AccountTheorems`, `AccountEpochs` and `AccountWrites` draw the conclusions for whole runs. `AccountOutcomes` says of every committing step what it leaves in the rows, without the guards and effects, and `AccountConditions` when it can commit at all. `AccountStore` and `AccountService` are the statements and operations in the imperative form of the service: mutable tables, row locks, early error returns, rollback to the state in which a transaction began. Each method is proved to succeed exactly when the guard holds and then to leave exactly the effect, so the theorems about runs are theorems about these methods; `AccountReachable` shows that what the methods ask for holds in every reachable state.

**Mail.** `MailOutbox` is the lease protocol with several consumers, a clock, crashes and lost claims; `MailOutcomes` says what each statement leaves in the row and how long a failed mail waits; `MailDelivery` is the table and one consumer in imperative form.

**Locks.** `LockExecution` is the caller and the watcher of one execution under a lock as two interleaved threads; `LockRunner` has names, nested calls and backoff; `LockPool` is the Postgres backend as connections and server sessions with lost replies; `LockBackend` is backend and lease in imperative form.

**Time.** `SessionClock` is session renewal, `RateLimit` the fixed-window counter, both over arbitrary request sequences.

## Assumptions

- Program and database share one clock that never goes back; every SQL statement happens at one instant.
- A transaction that locks the user row is one atomic step. Transactions without that lock are split into a check step and a commit step. The separate unlocked selections of one read or check step are taken at one instant.
- Identifiers, tokens and lease identifiers are fresh and digests do not collide; identifiers, addresses, names and passwords are opaque numbers.
- A stored hash is represented by the password it was made from and a salt. A hash or provider call is an oracle that runs between the steps.
- The set of enabled providers and their configuration is fixed during a run.
- The mail sender returns by the deadline it was given.
- A watch returns after its context is cancelled, and so does a callback sooner or later; nothing else is assumed about when or how either ends.

## Behaviour worth knowing

- A registration and an email claim for one address are not exclusive for ever: the registered user may later move to another address and free the old one. `AddressCanBeRegisteredThenClaimed` is such a run, `RegistrationBlocksClaim` says that its own change to a different address is the only way, `ClaimExactly` gives the exact condition for a claim to commit, and `ClaimEndsRegistration` covers the other order.
- The client can number two leases on one key in the order opposite to that in which the server granted them, when the first reply is delayed past the death of its session. `ClientOrderMayDiffer` is such a run; `OnlyOneLeaseIsAlive` therefore orders leases by the server's grants.
- A watch that returns a cancellation error on its own is treated as a normal end if the caller stops the watcher before that error is judged. `WatchEndCanBeSwallowed` is such a run, and `LossReportedExactly` gives the exact condition. The Postgres lease never returns one on its own (`Lease.Watch`), and for such a watch `HonestWatchIsReportedExactly` says that nothing is swallowed.
- A login through a provider re-checks the account's version and the user's status when it commits, but not the user's version. So it can survive an end of the epoch that was to stop all that was issued before: a revocation of all sessions, and also a disabling once the user is enabled again. Only unlinking the very account, or a new password for it, stops it for good while its flow is open. `ProviderLoginSurvivesRevocation` and `ProviderLoginSurvivesDisabling` are such runs, and `ProviderLoginExactly` gives the exact condition over whole runs.
- Password logins, password changes, password reauthentications and challenge consumptions of an earlier epoch never commit (`OldCallNeverCommits`). Starting a link or an email change, issuing a proof, verifying a callback and requesting a recovery still write their row after the epoch has ended, and a challenge's mail still goes out; what they write carries the old version and is never consumed (`LateRowsAreNeverConsumed`, `OldFlowNeverConsumed`).
- The deferred cleanup of a callback ignores its own failure, and a flow may then stay in processing until it expires.
- When the idle and absolute limits of a session coincide, idleness alone never ends it early, so the exact bound on request gaps in `RenewalGapExact` has that second case.

## Model

| member | source | states |
|---|---|---|
| AccountTheorems.LoginLinearizable | internal/modules/account/session.go:93-143 | In every interleaving, a login that commits a session was given the password that the account has at that very commit, before and after a concurrent hash upgrade, although the password was verified earlier without any lock; the user then has a verified address. |
| AccountTheorems.PasswordChangeLinearizable | internal/modules/account/password.go:24-67 | A password change that commits had been given the account's password as of the commit; the version goes up by one and no session of the user stays valid. |
| AccountTheorems.PasswordOfVersion | internal/db/queries/accounts.sql:17-23 | Over any run an account's password is a function of its identifier and version: an upgrade replaces the stored hash without a version bump, and never the password. |
| AccountTheorems.ProofBacksOneWrite | internal/modules/account/reauthentication.go:41-90 | Over a whole run a reauthentication proof backs at most one committed sensitive write (link, unlink, first password, email change). |
| AccountTheorems.SensitiveWriteAuthorized | internal/modules/account/reauthentication.go:41-86 | In the state where a sensitive write commits, its proof still matches it in user, session, operation, target, child, auth version and account version, and what was shown to obtain the proof (a password, or a provider identity) is still what the proving account is. |
| AccountTheorems.HistoryIsExact | internal/db/queries/auth_flows.sql:20-22 | Consumed proofs and committed sensitive writes correspond one to one in every reachable state. |
| AccountTheorems.SpentIsConsumed | internal/modules/account/reauthentication.go:88-90 | After a sensitive write its proof is consumed. |
| AccountTheorems.ClaimedByIsTheChild | internal/db/queries/auth_flows.sql:27-29 | In every reachable state a link flow or email-change challenge is the child of a proof if and only if that proof's claimed_by names it, so no proof ever has two children. |
| AccountTheorems.ParentAndChildFinishTogether | internal/modules/account/email.go:52-58 | A claimed proof and its child are consumed together or not at all. |
| AccountTheorems.AccountInventory | internal/modules/account/linked_accounts.go:62-68 | In every reachable state a pending user owns no account and no session; any other user has 1 to 10 unrevoked accounts, at most one with a password, and a password account only together with a verified address. |
| AccountTheorems.UnlinkLeavesAWayIn | internal/modules/account/linked_accounts.go:113-139 | After an unlink the user can still log in the way it just proved: the proving account is its own, unrevoked and enabled, and is still what was shown for it; exactly the unlinked account has gone. |
| AccountEpochs.VersionsBounded | internal/modules/account/authorization.go:52-57 | No session, bound flow, proof or challenge ever carries a version above its user's. |
| AccountEpochs.OldSessionNeverValid | internal/db/queries/user_sessions.sql:10-13 | A session of an earlier epoch is invalid forever, also after its user was disabled and enabled again. |
| AccountEpochs.OldFlowNeverConsumed | internal/modules/account/federation.go:112-122 | A bound flow or proof of an earlier epoch is never consumed at any later point of any run. |
| AccountEpochs.OldChallengeNeverConsumed | internal/modules/account/challenges.go:80-86 | An email challenge of an earlier epoch is never consumed at any later point of any run. |
| AccountEpochs.OldCallNeverCommits | internal/modules/account/session.go:116-127 | A password login, password change, password reauthentication or challenge consumption that read its user or challenge in an earlier epoch can never commit. |
| AccountEpochs.ProviderLoginExactly | internal/modules/account/federation.go:179-193 | The exact condition over whole runs for a login through a provider that is in flight: if it could commit once, it can commit at any later point if and only if the user is active there, the account is at the version that was read and the flow is processing and unexpired; a changed version is always due to an unlink or a new password of that account. |
| AccountEpochs.VersionMovesExactly | internal/db/queries/accounts.sql:17-27 | A step changes an account's version if and only if it unlinks that account or changes its password. |
| AccountEpochs.EpochEndStopsProviderLogin | internal/modules/account/federation.go:179-193 | In the state right after a step that ended the user's epoch, and only there, such a login is stopped if and only if the step left the user inactive or wrote to that very account. |
| AccountEpochs.ProviderLoginSurvivesRevocation | internal/modules/account/federation.go:179-193 | After an administrator revoked everything, such a login still opens a session, of the new epoch. |
| AccountEpochs.ProviderLoginSurvivesDisabling | internal/modules/account/admin.go:37-67 | After an administrator disabled the user and enabled it again, such a login still opens a session: a concrete continuation of any state in which it is in flight. |
| AccountEpochs.LateRowsAreNeverConsumed | internal/modules/account/oauth_start.go:105-119 | A link flow, proof or challenge that a call of an earlier epoch inserts late, together with its mail for a challenge, carries the old version and is never consumed. |
| AccountEpochs.ChallengeConsumedInEpoch | internal/db/queries/auth_verifications.sql:8-10 | A challenge is only ever consumed in the epoch it was issued for, and a registration only while its user is pending. |
| AccountEpochs.ConsumedInEpoch | internal/db/queries/auth_flows.sql:20-22 | A bound flow is only ever consumed in the epoch it was issued for. |
| AccountEpochs.AddressLeavesByOwnChange | internal/db/queries/users.sql:33-43 | If a verified user no longer has its address, some step in between was that user's own completed change from it to a different one. |
| AccountEpochs.ClaimExactly | internal/modules/account/email.go:41-73 | An email claim whose own checks pass commits if and only if no other user that is not pending holds the address. |
| AccountEpochs.PendingIsReleasable | internal/db/queries/users.sql:37-43 | The extra conditions of the release statement add nothing in a reachable state: a row can be released exactly when it is pending. |
| AccountEpochs.ClaimEndsRegistration | internal/db/queries/users.sql:37-43 | Once a claim of an address commits, no registration challenge issued for that address before it is ever consumed. |
| AccountEpochs.RegistrationBlocksClaim | internal/modules/account/registration.go:73-87 | Once a registration commits, another user's claim of the same address can only commit after the registered user itself moved away to a different address in between. |
| AccountEpochs.RegisteredNeverActivates | internal/modules/account/registration.go:73-76 | A registration challenge of a user that is no longer pending is never consumed. |
| AccountEpochs.CurrentChallengeNamesAddress | internal/modules/account/registration.go:89-92 | A registration or reset challenge at the current version names the user's present address, and a reset one a verified address with recovery on. |
| AccountEpochs.FlowMovesAlongEdges | internal/db/queries/auth_flows.sql:12-29 | Every step moves a flow along one edge of the automaton of its purpose or leaves its status alone: login and sign-up flows never become verified, authorized or claimed, a link is never authorized, a reauthentication never verified; protocol state is present exactly while waiting or processing. |
| AccountEpochs.FlowsOnlyMoveForward | internal/modules/account/store_flows.go:12-56 | Between any two states of a run a status only moves forward; consumed and failed are final, and a claim never changes its child. |
| AccountEpochs.FailureIsHarmless | internal/modules/account/federation.go:58-65 | The deferred failure of a callback changes nothing once the flow got past processing, and otherwise fails it. |
| AccountEpochs.ConfirmedOnce | internal/modules/account/linked_accounts.go:40-52 | Of any number of sequential or interleaved confirmations of one flow, at most one writes. |
| AccountEpochs.RepeatedConfirmationSucceeds | internal/modules/account/linked_accounts.go:40-49 | After a confirmation, every repetition from the same valid session in the same epoch succeeds without writing while the flow is unexpired: the user provably still holds the identity. |
| AccountWrites.LinkAuditsMatchWrites | internal/modules/account/linked_accounts.go:90-98 | In every reachable state there are exactly as many link audit events as committed confirmations. |
| AccountWrites.OneWritePerChild | internal/modules/account/linked_accounts.go:81-86 | Two committed writes never share a child, so one flow has at most one success audit. |
| AccountWrites.AccountWritesHoldLock | internal/db/queries/users.sql:7-8 | Every step that writes an account row is one whose transaction locks the row of that account's owner first, by the table LockedUser, or inserts that owner itself. |
| AccountFrames.StepFramed | internal/modules/account/store.go:23-26 | For each kind of step, the tables it leaves exactly as they were. |
| AccountInduction.RunInv | internal/db/transaction.go:15-32 | The whole invariant (rows, indexes, inventory, versions, claims, evidence, links, history, calls in flight) holds in every state of every run of every interleaving. |
| AccountInduction.RunEvolves | internal/db/queries/users.sql:45-50 | Between any two states of a run versions never decrease, rows are never deleted, revoked accounts are frozen, statuses only move forward, and mail and audit are only appended to. |
| AccountReachable.ReachableIsIndexed | internal/db/migrations/00001_init.sql:55-57 | The unique index on addresses and all three on accounts hold in every reachable state. |
| AccountReachable.ReachableLoginIsCredential | internal/modules/account/store.go:122-134 | A login at its commit always finds a password account, so the hash upgrade is never refused. |
| AccountReachable.ReachableVerification | internal/modules/account/challenges.go:51-60 | The challenge behind a consumption in flight is the row that was read, at most consumed since. |
| AccountReachable.ReachableCallback | internal/modules/account/federation.go:166-205 | A sign-up in flight names a third-party provider, a bound callback a third-party identity. |
| AccountStore.Store.End | internal/db/transaction.go:18-32 | A transaction leaves the tables as its body left them if it commits, and exactly as they were when it began if not. |
| AccountStore.Store.LockUser | internal/db/queries/users.sql:7-8 | Reads the user and holds the lock on its row; the account statements count every row they write without it, and every operation keeps that count at zero. |
| AccountStore.Store.GetValidSession | internal/db/queries/user_sessions.sql:10-13 | Answers exactly whether the session is the user's, open, unrevoked, and of the current version of an active user. |
| AccountStore.Store.GetPasswordAccount | internal/db/queries/accounts.sql:1-2 | Finds the user's one unrevoked password account, and reports none exactly when there is none. |
| AccountStore.Store.FindProviderAccount | internal/db/queries/accounts.sql:4-5 | Finds the one unrevoked account of an identity, and reports none exactly when there is none. |
| AccountStore.Store.ListAccounts | internal/db/queries/accounts.sql:10-11 | Returns each unrevoked account of the user exactly once, in the order of creation. |
| AccountStore.Store.CreatePendingUser | internal/db/queries/users.sql:10-13 | Returns the user that has the address, or inserts the one pending user for it. |
| AccountStore.Store.ActivateUser | internal/modules/account/store.go:57-67 | Activates exactly a pending user with an address, turning verification and recovery on. |
| AccountStore.Store.ReleasePendingEmail | internal/db/queries/users.sql:37-43 | Takes the address from exactly the placeholder rows that carry it, with a version bump. |
| AccountStore.Store.UpdateUserEmail | internal/db/queries/users.sql:33-35 | Moves the address of an active user exactly when nobody else has it. |
| AccountStore.Store.BumpUserVersion | internal/db/queries/users.sql:45-46 | Raises exactly one user's version by one. |
| AccountStore.Store.SetUserStatus | internal/db/queries/users.sql:48-50 | Sets a settable status and raises the version. |
| AccountStore.Store.CreateAccount | internal/modules/account/store.go:100-113 | Inserts a row exactly when its shape is valid and no unique index refuses it; the indexes still hold. |
| AccountStore.Store.ChangePassword | internal/db/queries/accounts.sql:17-19 | Replaces the hash and raises the version of exactly an unrevoked password account of the user. |
| AccountStore.Store.UpgradePasswordHash | internal/modules/account/store.go:122-134 | Replaces the hash only if it is still the one that was verified, and never the version; losing that race is not an error. |
| AccountStore.Store.RevokeAccount | internal/db/queries/accounts.sql:25-27 | Revokes exactly an unrevoked account of the user. |
| AccountStore.Store.CreateSession | internal/db/queries/user_sessions.sql:1-3 | Inserts an open session at the given version. |
| AccountStore.Store.TouchSession | internal/db/queries/user_sessions.sql:15-19 | Renews exactly a valid session whose renewal is due, never past its absolute limit. |
| AccountStore.Store.RevokeSession | internal/db/queries/user_sessions.sql:26-27 | Revokes exactly a session of the user. |
| AccountStore.Store.RevokeUserSessions | internal/db/queries/user_sessions.sql:29-30 | Revokes all sessions of the user and no other. |
| AccountStore.Store.CreateFlow | internal/db/queries/auth_flows.sql:1-4 | Inserts a flow that expires after five minutes. |
| AccountStore.Store.ClaimPendingFlow | internal/db/queries/auth_flows.sql:12-13 | Claims exactly an unexpired waiting flow for processing. |
| AccountStore.Store.ClaimAuthorization | internal/db/queries/auth_flows.sql:27-29 | Claims exactly an unexpired authorized proof for the child. |
| AccountStore.Store.VerifyFlow | internal/modules/account/store_flows.go:35-49 | Verifies exactly an unexpired processing flow, with a third-party identity, and clears its protocol state. |
| AccountStore.Store.ConsumeFlow | internal/modules/account/store_flows.go:12-34 | Finishes exactly an unexpired flow that still has the expected status, and never from waiting, consumed or failed; changing no row is reported as a used-up proof. |
| AccountStore.Store.FailFlow | internal/db/queries/auth_flows.sql:24-25 | Fails exactly a waiting or processing flow. |
| AccountStore.Store.ConsumeVerification | internal/db/queries/auth_verifications.sql:8-10 | Consumes exactly an open challenge of the user, once. |
| AccountStore.InsertKeepsIndexes | internal/db/migrations/00001_init.sql:55-57 | An insertion that the checks let through keeps all three unique indexes on accounts. |
| AccountService.Service.LockSelf | internal/modules/account/authorization.go:14-31 | Succeeds exactly for a valid session of an existing active user at its version, and then holds the lock on the user row until the transaction ends. |
| AccountService.Service.ReadSelf | internal/modules/account/authorization.go:33-50 | Succeeds exactly for a valid session of an existing active user at its version. |
| AccountService.Service.Authorization | internal/modules/account/reauthentication.go:41-86 | The step-by-step checks succeed exactly when the proof covers operation, target, owner, session, status and current versions. |
| AccountService.Service.FinishAuthorization | internal/modules/account/reauthentication.go:88-90 | Right after its checks passed, finishing a proof cannot fail. |
| AccountService.Service.EndEpoch | internal/modules/account/authorization.go:52-57 | Bumps the version and revokes every session of the user. |
| AccountService.Service.NewSession | internal/modules/account/session.go:43-82 | Opens a session exactly for an unrevoked account of an active user. |
| AccountService.Service.Register | internal/modules/account/registration.go:12-35 | Creates or finds the user and issues one challenge with one mail exactly for a pending one. |
| AccountService.Service.ReadRecovery | internal/modules/account/registration.go:48-66 | Finds somebody to recover exactly when an active, verified, recoverable user with a password has the address. |
| AccountService.Service.CommitRecovery | internal/modules/account/registration.go:67-70 | Issues one reset challenge with one mail for the row that was read. |
| AccountService.Service.ReadVerification | internal/modules/account/challenges.go:47-77 | Opens a consumption exactly for an open challenge of the stated purpose, with an acceptable new password or with none as the purpose demands. |
| AccountService.Service.CompleteRegistration | internal/modules/account/registration.go:73-87 | Creates the password account and activates exactly a pending user with the challenge's address. |
| AccountService.Service.CompletePasswordReset | internal/modules/account/registration.go:89-101 | Changes the password and ends the epoch of exactly a recoverable active user with the challenge's address. |
| AccountService.Service.CompleteEmailChange | internal/modules/account/email.go:41-73 | Succeeds exactly when the proof covers the change for this challenge and every other holder of the address is a placeholder; then proof, addresses, sessions and mail are as promised. |
| AccountService.Service.CommitVerification | internal/modules/account/challenges.go:39-119 | For each purpose, commits exactly when the challenge is open, of the current epoch and its work can be done, with the effect that ActivationOutcome, ResetOutcome and EmailMoveOutcome spell out row by row; any error leaves the tables untouched, and a refused credential is never what the caller is told. |
| AccountService.Service.ReadLogin | internal/modules/account/session.go:84-115 | Lets exactly the right password of an active user with a verified address through. |
| AccountService.Service.CommitLogin | internal/modules/account/session.go:116-143 | Commits exactly when user and account are still at the versions that were read; a lost hash upgrade does not matter; the new session is what it returns; an error rolls back. |
| AccountService.Service.ReadPassword | internal/modules/account/password.go:13-47 | Demands an acceptable new password, chooses the change or first-password branch by the account that exists, and demands the current password or a proof. |
| AccountService.Service.CommitPassword | internal/modules/account/password.go:48-109 | Both branches commit exactly when their checks hold under the lock, with the whole effect, or leave the tables untouched. |
| AccountService.Service.ReplacePassword | internal/modules/account/password.go:58-67 | Succeeds exactly when the verified account is still the password account at the same version. |
| AccountService.Service.AddPassword | internal/modules/account/password.go:69-92 | Adds a first password exactly with a covering proof, a verified address, no password yet and fewer than ten accounts. |
| AccountService.Service.ReadReauthentication | internal/modules/account/reauthentication.go:92-137 | Lets exactly the present password through, and never for unlinking the proving account itself. |
| AccountService.Service.CheckReauthentication | internal/modules/account/reauthentication.go:139-172 | A password proof is issued exactly when user and account are unchanged since the password was verified. |
| AccountService.Service.ReadStartReauthentication | internal/modules/account/reauthentication.go:92-130 | A provider proof is prepared exactly for an enabled third-party account of the user other than the one to be unlinked. |
| AccountService.Service.CheckStartReauthentication | internal/modules/account/oauth_start.go:125-157 | It starts exactly when the account is still enabled, unrevoked and at the version that was read. |
| AccountService.Service.InsertProof | internal/modules/account/reauthentication.go:150-167 | Inserts exactly the proof row that was checked, with its expiry. |
| AccountService.Service.StartLogin | internal/modules/account/oauth_start.go:56-79 | Starts exactly a login or sign-up flow with an enabled provider. |
| AccountService.Service.CheckLink | internal/modules/account/oauth_start.go:88-104 | Passes exactly with an unclaimed proof for linking this provider. |
| AccountService.Service.CommitLink | internal/modules/account/oauth_start.go:105-119 | Inserts the child and claims the proof, or, when the claim is lost, leaves no row at all. |
| AccountService.Service.CheckEmailChange | internal/modules/account/email.go:24-32 | Passes exactly with an unclaimed proof for this address. |
| AccountService.Service.CommitEmailChange | internal/modules/account/email.go:33-38 | Inserts the challenge it returns, sends its mail to the address to be confirmed (EmailRequestOutcome), and claims the proof; when the claim is lost, leaves neither row nor mail. |
| AccountService.Service.FindLogin | internal/modules/account/federation.go:166-173 | Finds the account of the identity, and asks for registration exactly when there is none and the flow is a login. |
| AccountService.Service.FinishLogin | internal/modules/account/federation.go:174-227 | Logs in or signs up exactly when everything still holds and the flow is still processing, with the whole effect, or leaves the tables untouched. |
| AccountService.Service.CheckBound | internal/modules/account/federation.go:99-164 | Passes exactly when session, version, and the proving account's identity or the claimed parent proof still match. |
| AccountService.Service.CommitBound | internal/modules/account/store_flows.go:35-49 | Verifies the flow exactly while it is still processing. |
| AccountService.Service.Callback | internal/modules/account/federation.go:27-95 | A claimed flow ends consumed, authorized or verified by its purpose, or on an error failed with everything else as before; only when the deferred cleanup itself does not reach the database does it stay in processing. Who loses the claim changes nothing. |
| AccountService.Service.ConfirmLink | internal/modules/account/linked_accounts.go:15-100 | Succeeds exactly when it was confirmed already (and then writes nothing) or can be confirmed now (and then links and finishes proof and flow); any error leaves the tables untouched. |
| AccountService.Service.Unlink | internal/modules/account/linked_accounts.go:102-159 | Revokes the account exactly with a covering proof from another account while a usable one remains; otherwise nothing changes. |
| AccountService.Service.CountUsable | internal/modules/account/linked_accounts.go:124-136 | The counting loop is positive exactly when another account of the user can still log in. |
| AccountService.Service.RevokeSession | internal/modules/account/session.go:172-206 | Revokes exactly one own session (RevocationOutcome), or all with the epoch (RevokeAllOutcome); a foreign session is not found. |
| AccountService.Service.CheckStatus | internal/modules/account/admin.go:28-45 | Passes exactly for a settable status and an existing user that is not pending. |
| AccountService.Service.CommitStatus | internal/modules/account/admin.go:46-63 | Sets the status, ends the epoch and every session. |
| AccountService.Service.RevokeUserSessions | internal/modules/account/admin.go:77-92 | Ends the epoch of exactly an existing user. |
| AccountService.Service.AuthenticateSession | internal/modules/account/session.go:16-41 | Accepts exactly a valid session and renews it exactly as the renewal rule says. |
| SessionClock.AlwaysRegular | internal/db/queries/user_sessions.sql:1-19 | After any request sequence idle_expires_at is the smaller of absolute_expires_at and last_seen_at plus the idle span. |
| SessionClock.OpenNeedsRecentAuthentication | internal/modules/account/session.go:28-39 | A session that is open had an accepted request, or its start, less than one idle span ago: idleness always ends it. |
| SessionClock.RenewalGapExact | internal/modules/account/session.go:28-39 | A gap between requests keeps every such request sequence alive until the absolute limit if and only if it is at most the idle span minus the renewal interval, or the two limits coincide. |
| SessionClock.LapseLoses | internal/modules/account/session.go:28-39 | For a gap one instant larger, a concrete request sequence that loses the session. |
| SessionClock.SpansOrdered | internal/modules/account/service.go:27-35 | What the constructor accepts makes the whole-second spans positive and ordered, each less than a second below its option, and the renewal interval the smaller of a minute and half the idle span. |
| MailOutbox.SendWindowsDisjoint | internal/modules/mailoutbox/delivery.go:48-65 | For one mail, the intervals in which consumers were inside send never overlap: at least five seconds lie between two of them. |
| MailOutbox.PresentSendIsApart | internal/modules/mailoutbox/delivery.go:48-65 | The same between a past stay inside send and one that is still going on. |
| MailOutbox.OneSenderPerMail | internal/db/queries/mail_outbox.sql:5-16 | In every reachable state at most one consumer is inside send for a mail, and its lease is on the row with five seconds to spare. |
| MailOutbox.StaleFinishChangesNothing | internal/db/queries/mail_outbox.sql:18-31 | A completion or retry changes a row exactly when its lease is still on it and has not run out. |
| MailOutbox.MailLife | internal/db/queries/mail_outbox.sql:5-42 | At most five claims and ten row changes per mail over any run; a lease exactly while processing; the enqueued payload exactly until the end. |
| MailOutbox.CountsAreExact | internal/db/queries/mail_outbox.sql:5-42 | The counters behind that bound count exactly the row changes and exactly the claims. |
| MailOutbox.FinishedIsFinal | internal/db/queries/mail_outbox.sql:18-42 | Sent and failed rows never change again and have no payload. |
| MailOutbox.SentWasDelivered | internal/modules/mailoutbox/delivery.go:67-91 | A mail is sent only if a send under the completing lease returned without an error. |
| MailOutbox.RunEvolves | internal/db/queries/mail_outbox.sql:5-42 | Between any two states of a run a row either is the same or its remaining life has become shorter; payload, expiry and attempts behave. |
| MailOutbox.RetryDelaysGrow | internal/modules/mailoutbox/delivery.go:93-102 | Delays lie between 15 and 249 seconds and grow strictly with the attempt whatever the jitter. |
| MailDelivery.Outbox.ExpireMail | internal/db/queries/mail_outbox.sql:33-42 | Fails up to a hundred hopeless free rows, the oldest first, fewer only when none is left. |
| MailDelivery.Outbox.ClaimMail | internal/db/queries/mail_outbox.sql:5-16 | Claims the claimable row that is first by availability and then by creation, and none exactly when there is none. |
| MailDelivery.Outbox.CompleteMail | internal/db/queries/mail_outbox.sql:18-21 | Completes exactly under a held lease and empties the row. |
| MailDelivery.Outbox.RetryMail | internal/db/queries/mail_outbox.sql:23-31 | Exactly under a held lease, puts the mail back with its payload, or fails and empties it when attempts or time are used up; either way it is due after the given delay. |
| MailDelivery.Service.Deliver | internal/modules/mailoutbox/delivery.go:48-65 | The computed deadline is the smallest of the three limits; a send never starts at or after it and never outlasts the lease minus the reserve. |
| MailDelivery.Service.FinishDelivery | internal/modules/mailoutbox/delivery.go:67-91 | Under a lost lease nothing is written and the loss is reported; otherwise the mail is done, or due again after the delay of its attempt. |
| MailDelivery.Service.ProcessOne | internal/modules/mailoutbox/delivery.go:26-46 | An undisturbed round that finishes within the reserve never loses its lease: an accepted mail is sent, any other goes back with its payload and its exact delay, or fails. |
| RateLimit.FixedWindowExact | internal/db/queries/auth_rate_limits.sql:1-7 | For every request sequence exactly the first max requests of each window are admitted. |
| RateLimit.WindowAdmitsMax | internal/modules/account/rate_limit.go:18-28 | Each window admits the smaller of its requests and max. |
| RateLimit.AtMostTwiceMax | internal/modules/account/rate_limit.go:18-28 | At most 2 times max requests are admitted in any closed span of one window length. |
| RateLimit.TwiceMaxIsReached | internal/db/queries/auth_rate_limits.sql:4-6 | The bound of 2 times max is tight for every max: a full burst at each end of the span is admitted. |
| RateLimit.RetryAfterExact | internal/db/queries/auth_rate_limits.sql:7 | A retry after a whole number of seconds is admitted if and only if it waits at least the advertised delay. |
| RateLimit.SaturationIsHarmless | internal/db/queries/auth_rate_limits.sql:5 | The ceiling of 1000000 never changes an answer for a max below it. |
| RateLimit.Limiter.Limit | internal/modules/account/rate_limit.go:18-28 | One counter advances as the upsert says, and the verdict and delay follow from it. |
| RateLimit.Limiter.EntryLimit | internal/modules/account/rate_limit.go:29-34 | The address is counted first, and a request refused there does not touch the subject's counter. |
| LockExecution.ReleasedOnceAtTheEnd | internal/platform/locker/runner.go:183-199 | In every interleaving the lock is released at most once, exactly at the end, after both the watcher and the callback have ended, a panicking one included. |
| LockExecution.ErrorIsExact | internal/platform/locker/runner.go:183-199 | The error is nil exactly when the callback ran without an error, the watch ended normally, nothing had cancelled the work at the join and the release succeeded; each failure shows up exactly when it happened. |
| LockExecution.JoinedCleanly | internal/platform/locker/runner.go:188-192 | Nothing had cancelled the work at the join exactly when the watcher reported no loss and the parent was not cancelled before. |
| LockExecution.LossReportedExactly | internal/platform/locker/runner.go:172-181 | The caller learns of a lost lock if and only if, when the end of the watch was judged, the watch had not been stopped or had ended in any other way than by cancellation. |
| LockExecution.FinishedIsJudged | internal/platform/locker/runner.go:183-192 | Every finished execution has such a judgement, and the error carries the loss exactly by its guard. |
| LockExecution.WatchEndCanBeSwallowed | internal/platform/locker/runner.go:174-177 | A concrete run in which the watch ends on its own before anybody stopped it, and yet the callback ran and the error is nil. |
| LockExecution.HonestWatchIsReportedExactly | internal/platform/locker/postgres/lease.go:19-39 | For a watch that reports a cancellation only when it was stopped, as that of the Postgres lease does, the caller learns of a loss if and only if the watch ended in another way than by cancellation. |
| LockExecution.StuckMeansReleasedOnce | internal/platform/locker/runner.go:183-199 | An execution that neither thread can continue has released the lock exactly once, with the watcher and the callback over; and only such an execution has. |
| LockExecution.RanMeansEntered | internal/platform/locker/runner.go:200-207 | ran holds exactly when the callback was entered, which happens at most once. |
| LockExecution.LossCancelsTask | internal/platform/locker/runner.go:178-180 | A reported loss has cancelled the callback's context; a callback only starts in a context that is not cancelled. |
| LockExecution.NeverStuck | internal/platform/locker/runner.go:167-208 | Until the release one of the two threads can always move. |
| LockExecution.StepsRunOut | internal/platform/locker/runner.go:167-208 | The two threads make at most nine steps together. |
| LockRunner.New | internal/platform/locker/runner.go:33-57 | Accepts exactly the options that are valid after defaults. |
| LockRunner.ValidKey | internal/platform/locker/runner.go:59-69 | The loop accepts exactly the non-empty, short enough names over the permitted characters. |
| LockRunner.Prepare | internal/platform/locker/runner.go:77-95 | The loop refuses a name as re-entrant exactly when the walk along the chain finds it, after the checks of key, callback and context. |
| LockRunner.FullNamesDiffer | internal/platform/locker/runner.go:34 | Two full names are equal if and only if namespace and key are. |
| LockRunner.NestingHoldsEachNameOnce | internal/platform/locker/runner.go:77-95 | For every tree of nested calls, each passing any context it was given, the chain that the walk lets grow never holds a name twice. |
| LockRunner.RefusedExactlyWhenHeld | internal/platform/locker/runner.go:88-93 | For every tree of nested calls, a call with a valid key is refused as re-entrant if and only if a call for the same namespace and key was accepted further out. |
| LockRunner.EnclosingIsEarlier | internal/platform/locker/runner.go:203-207 | What encloses a context was accepted before it came to be. |
| LockRunner.Acquire | internal/platform/locker/runner.go:139-164 | The loop's sleeps follow the doubling delay within 64-bit range, each exactly half the delay plus its jitter and at most the delay; the first answer that is not a busy one with an undisturbed wait decides the outcome, and the number of sleeps is exact. |
| LockRunner.DelayIsExact | internal/platform/locker/runner.go:159-163 | After k busy attempts the delay is the smaller of RetryMin times 2 to the k and RetryMax. |
| LockRunner.DelayDoubles | internal/platform/locker/runner.go:159-163 | Comparing with half the maximum is exact: one step of the loop is one step of that formula. |
| LockRunner.TotalWait | internal/platform/locker/runner.go:152 | The total wait lies between the sum of the halved delays and twice that sum. |
| LockRunner.TotalWaitByOptions | internal/platform/locker/runner.go:139-164 | Both bounds in the options alone. |
| LockRunner.DoublingTotal | internal/platform/locker/runner.go:159-163 | The least total in closed form while the maximum is not reached. |
| LockPool.PoolIsClean | internal/platform/locker/postgres/locker.go:53-73 | No connection in the pool ever holds an advisory lock, whatever replies were lost and whatever unlocks failed. |
| LockPool.OnlyOneLeaseIsAlive | internal/platform/locker/postgres/lease.go:41-59 | Two unreleased leases on one key exist only if the session of the one granted earlier has died. |
| LockPool.LeaseHoldsItsKey | internal/platform/locker/postgres/locker.go:72 | A lease whose session lives holds exactly its key there, and no other live session does. |
| LockPool.DeathIsFinal | internal/platform/locker/postgres/lease.go:53-58 | A session that died never comes back under its connection. |
| LockPool.SecondReleaseDoesNothing | internal/platform/locker/postgres/lease.go:42-46 | A second release of a lease, at any later time, changes nothing. |
| LockBackend.Backend.TryAcquire | internal/platform/locker/postgres/locker.go:53-73 | A failure of the pool changes nothing; a granted lease holds its key alone; a busy key returns the connection; any error on the connection destroys it, and the server has the lock exactly if it served the request; the pool stays clean. |
| LockBackend.Lease.Release | internal/platform/locker/postgres/lease.go:41-59 | The connection goes back to the pool exactly after a confirmed unlock; a request that reached a live session leaves it without locks, and no other session's locks ever change; a second call changes nothing. |
| LockBackend.Lease.Watch | internal/platform/locker/postgres/lease.go:19-39 | Reports a loss exactly when the first thing that happens is a failed probe, and stops exactly when it is the end of its context. |
| LockPool.ClientOrderMayDiffer | internal/platform/locker/postgres/locker.go:57-72 | A concrete run in which the client receives two leases on one key in the order opposite to the server's grants, so that the older by that count is alive and the younger is dead. |
| AccountScenario.AddressCanBeRegisteredThenClaimed | internal/modules/account/registration.go:73-87 | A concrete run from the empty database in which one user registers an address and moves away and another user then claims it: both commit. |
| AccountScenario.RegistersAndMoves | internal/modules/account/email.go:12-73 | From any state that satisfies the invariant a new user can register, activate, log in, prove its password and move to a free address in twelve steps, touching no other user. |
| AccountOutcomes.RevokedSessionIsDead | internal/db/queries/user_sessions.sql:26-27 | Over whole runs: once a session is revoked it is never valid again, for whomever, and the revocation wrote that row and one audit event and nothing else, so every other session is as before. |
| AccountOutcomes.RevocationOutcome | internal/modules/account/session.go:172-206 | One revocation: the caller's session is valid, the row is the caller's, exactly that row becomes revoked. |
| AccountOutcomes.ValidSessionIsCurrent | internal/db/queries/user_sessions.sql:10-13 | In every reachable state a valid session was not revoked, carries the version of an active user, was renewed less than an idle span ago and opened less than the absolute span ago. |
| AccountOutcomes.TouchOutcome | internal/db/queries/user_sessions.sql:15-19 | A request renews exactly a valid session that is due, up to the absolute limit, and changes nothing else of it. |
| AccountOutcomes.RevokeAllOutcome | internal/modules/account/admin.go:69-93 | Revoking everything, by the user or by an administrator, raises that user's version by one and revokes that user's sessions and no others. |
| AccountOutcomes.StatusOutcome | internal/modules/account/admin.go:28-67 | A status change writes exactly the requested status to a user that was not pending, raises its version and revokes its sessions and no others. |
| AccountOutcomes.RegisterOutcome | internal/modules/account/registration.go:12-35 | A new address gets a pending user; a pending user gets one challenge of a day, and one mail of its purpose to its address; a registered one gets neither. |
| AccountOutcomes.RecoverOutcome | internal/modules/account/registration.go:37-71 | Recovery inserts one reset challenge of a quarter of an hour and sends exactly one mail of that purpose to the challenge's address, which was verified and recoverable when read. |
| AccountOutcomes.EmailRequestOutcome | internal/modules/account/challenges.go:20-37 | Requesting an email change sends exactly one mail, to the address that the proof was granted for and that the challenge confirms, and claims the proof for exactly that challenge. |
| AccountOutcomes.ActivationOutcome | internal/modules/account/registration.go:73-87 | Completing a registration uses up an unused challenge of the present epoch, activates exactly its pending user, inserts its password account with the new hash, and notifies it once. |
| AccountOutcomes.ResetOutcome | internal/modules/account/registration.go:89-101 | A reset stores the new hash in the user's password account, raises the account's version and the user's version by one each, ends that user's sessions and no others, and notifies the verified address once. |
| AccountOutcomes.EmailMoveOutcome | internal/modules/account/email.go:41-73 | An email change gives exactly this user exactly the confirmed address, takes it from nobody but pending placeholders, finishes the proof, ends the epoch, and notifies the previous address if it was verified. |
| AccountOutcomes.LoginOutcome | internal/modules/account/session.go:116-143 | A login inserts one session with full spans at the user's present version; the stored hash changes only if it is still the one that was verified. |
| AccountOutcomes.PasswordOutcome | internal/modules/account/password.go:48-67 | A password change stores the new hash, raises account and user version by one each, ends that user's sessions and no others, and notifies the verified address once. |
| AccountOutcomes.FirstPasswordOutcome | internal/modules/account/password.go:68-109 | A first password is inserted with the new hash for a verified user without one; the proof is finished, the user's version rises by one, its sessions end, and the verified address is notified once. |
| AccountOutcomes.InsertOutcome | internal/db/queries/auth_flows.sql:1-4 | Issuing a proof inserts exactly the checked row with five minutes to live. |
| AccountOutcomes.PasswordProofRow | internal/modules/account/reauthentication.go:139-166 | A password proof is bound to the caller's valid session and present version and proves the account at its present version, whose password was shown. |
| AccountOutcomes.ProviderProofRow | internal/modules/account/oauth_start.go:125-157 | A proof through a provider waits for the provider of an enabled account of the caller, bound to the present versions of user and account. |
| AccountOutcomes.PublicFlowOutcome | internal/modules/account/oauth_start.go:56-79 | A public flow waits five minutes for an enabled provider and belongs to nobody. |
| AccountOutcomes.LinkStartOutcome | internal/modules/account/oauth_start.go:88-123 | Starting a link inserts a flow with owner, session, version and target of the proof, and claims the proof for exactly that flow. |
| AccountOutcomes.CallbackOutcome | internal/modules/account/federation.go:27-65 | Claiming a callback and its deferred failure touch exactly that flow, and the failure only while waiting or in processing. |
| AccountOutcomes.BoundOutcome | internal/modules/account/federation.go:99-164 | A bound callback writes the verified identity to a flow in processing; for a proof it is the identity of the proving account. |
| AccountOutcomes.ProviderLoginOutcome | internal/modules/account/federation.go:166-227 | A provider login opens one session for the active user whose unrevoked, enabled account holds the verified identity, and finishes the flow. |
| AccountOutcomes.SignUpOutcome | internal/modules/account/federation.go:166-227 | A sign-up inserts an active user without an address, the account of an identity that nobody held, and one session of that user. |
| AccountOutcomes.LinkOutcome | internal/modules/account/linked_accounts.go:15-100 | A confirmed link gives the caller the verified identity, which nobody held or it held itself, finishes flow and proof, and notifies the verified address once. |
| AccountOutcomes.UnlinkOutcome | internal/modules/account/linked_accounts.go:102-159 | An unlink revokes exactly the named account of the caller while another enabled one stays, finishes the proof, raises the user's version, ends its sessions and no others, and notifies the verified address once. |
| AccountOutcomes.ProofMatchesWrite | internal/modules/account/reauthentication.go:41-86 | Every part of a proof still matches when its write commits: one-time status, owner, the writing session itself, operation with target, expiry, versions, and an enabled, unrevoked proving account. |
| AccountConditions.NewPasswordLogsIn | internal/modules/account/password.go:48-109 | Right after a password was set, by registration, reset, change or as a first one, the user can log in with that password and no other, through that account and no other. |
| AccountConditions.LoginReadExactly | internal/modules/account/session.go:84-115 | Exactly the right password of an active user with a verified address is let through. |
| AccountConditions.LoginExactly | internal/modules/account/session.go:116-143 | A checked login commits if and only if user and account are at the versions read, the user active and the account unrevoked. |
| AccountConditions.RecoverReadExactly | internal/modules/account/registration.go:37-71 | A recovery goes on if and only if the user is active, has recovery on, and has a password; a verified address follows. |
| AccountConditions.PasswordReadExactly | internal/modules/account/password.go:13-47 | With a password the present one must be shown, without one a proof must be named, and nothing else is refused. |
| AccountConditions.PasswordExactly | internal/modules/account/password.go:48-67 | A password change commits if and only if the session is valid and user and account are at the versions read. |
| AccountConditions.FirstPasswordExactly | internal/modules/account/password.go:68-109 | A first password is added if and only if the session is valid, the user verified and at the version read, without a password, with fewer than ten accounts, and the proof covers it; the unique indexes never refuse it. |
| AccountConditions.ActivateExactly | internal/modules/account/registration.go:73-87 | A registration completes if and only if its challenge is unused and its user pending in the same epoch: the address then matches and no unique index refuses. |
| AccountConditions.ResetExactly | internal/modules/account/registration.go:89-101 | A reset commits if and only if its challenge is unused and its user, in the same epoch, is active and has a password: address, verification and recovery then match. |
| AccountConditions.AuthorizesExactly | internal/modules/account/reauthentication.go:41-86 | A proof covers an operation if and only if owner, session, operation, target, expiry and one-time status match, the session is valid and the prover unrevoked, enabled and unchanged: the check of the user's version follows from the session. |
| AccountConditions.ReauthenticateReadExactly | internal/modules/account/reauthentication.go:92-137 | A password proof can be asked for exactly with the present password, for any valid operation but the unlinking of that account. |
| AccountConditions.ReauthenticateExactly | internal/modules/account/reauthentication.go:139-151 | A password proof is issued if and only if session, user and account stand as when the password was checked. |
| AccountConditions.StartReauthenticationExactly | internal/modules/account/oauth_start.go:125-157 | A proof through a provider starts exactly with an enabled third-party account of the caller, for any valid operation but its own unlinking. |
| AccountConditions.ClaimsExactly | internal/db/queries/auth_flows.sql:27-29 | Of all calls that hold one proof, exactly those that find it authorized and unexpired can claim it. |
| AccountConditions.UnlinkExactly | internal/modules/account/linked_accounts.go:102-159 | An unlink commits if and only if session and account are in order and a covering proof is of another account: that a usable account remains follows. |
| AccountConditions.LinkExactly | internal/modules/account/linked_accounts.go:15-100 | A first confirmation commits if and only if session, flow and proof are in order and the identity is the caller's own already, or nobody holds it and the caller has fewer than ten accounts. |
| AccountConditions.SignUpExactly | internal/modules/account/federation.go:166-227 | A sign-up commits if and only if its flow is in processing and unexpired and nobody holds the identity or the provider's subject. |
| AccountConditions.BoundExactly | internal/modules/account/federation.go:99-134 | A checked callback of a bound flow commits if and only if the flow is in processing and unexpired. |
| AccountConditions.RevocationExactly | internal/modules/account/session.go:172-206 | A session can be revoked if and only if the caller's session is valid and the row is the caller's, including its own. |
| AccountConditions.RegisterAlways | internal/modules/account/registration.go:12-35 | Whatever the address, a registration can be requested, and exactly one user is concerned. |
| MailOutcomes.RetryWaits | internal/modules/mailoutbox/delivery.go:93-102 | Over whole runs: after attempt a of a mail has failed, no consumer claims it before 15 times two to the a - 1 seconds, plus the jitter, have passed; while nobody touched the row it can be claimed exactly from then on until it expires. |
| MailOutcomes.FinishOutcome | internal/db/queries/mail_outbox.sql:18-31 | Under a held lease a sent mail is done and empty, and a failed one is pending, due exactly 15 times two to the a - 1 seconds plus the jitter from now, while attempts and time are left, and failed and empty otherwise; under any other lease no row changes. |
| MailOutcomes.ClaimOutcome | internal/db/queries/mail_outbox.sql:5-16 | A claim takes a row that is due or whose lease has run out, counts one attempt, and leases it for a minute under an identifier that no row carries. |
| MailOutcomes.ExpireOutcome | internal/db/queries/mail_outbox.sql:33-42 | Only a row that nobody works on and that can never be sent again is failed and emptied. |
| MailOutcomes.EnqueueOutcome | internal/db/queries/mail_outbox.sql:1-3 | A mail enters pending under a new identifier and can be claimed at once unless it has expired. |
| MailOutcomes.SendOutcome | internal/modules/mailoutbox/delivery.go:49-64 | A send ends at the earliest of ten seconds from now, the mail's expiry, and five seconds before the end of the lease. |

## Left out

- HTTP routing, request and response types, OpenAPI, middleware and the mapping of errors to status codes.
- Fx wiring, commands, configuration parsing, telemetry, metrics and logging.
- Argon2id, SHA-256, base64, random tokens and UUIDs, and with them the comparison of the state hash and the flow token in a callback.
- The provider's code exchange and PKCE (section 4 of RFC 7636): an oracle that answers with an identity or an error.
- Syntax checks: email normalisation, identifiers, text lengths, digest sizes, positive versions and byte limits. Every stored value is taken to have passed them.
- Profile and display names, the listing of users, accounts and sessions, pagination, `last_used_at` and authentication times of flows.
- The administrator check before status changes, and the failure audit that a refused operation appends outside its transaction.
- Mail subjects and HTML bodies, audit metadata: one mail and one audit event are counted, with recipient, kind, action, user and resource.
- The rate limits in front of the account operations: any request may reach an operation; the limiter is modelled by itself.
- The comparison of a flow's configuration version with the provider's, which the fixed configuration makes always succeed.
- Cancellation and database failures inside an account operation: they roll back like any other error and are covered by the step that changes nothing.
- The password rules themselves: an operation is given their verdict.
- AccountService.Service.FindLogin: the display name a provider reports is not modelled.
- MailDelivery.Service.ProcessOne: other consumers and crashes during the round are the subject of MailOutbox.
- The polling loop of the mail worker: it only repeats ProcessOne and waits.
- LockBackend.Backend.TryAcquire: the hash from a name to a pair of integers is opaque; two names with one hash exclude each other.
- LockRunner.Acquire: the acquire timeout is the backend's failure answer, and the busy answers are given as a sequence.
- Wait and execution metrics of the lock runner.
- Projects and tasks of the example domain and their pagination: plain record keeping without a protocol.
- AccountWrites.AccountWritesHoldLock: it speaks of the table that says which step locks which user. The lock as state is in AccountStore, where every operation is proved never to write an account row without it; waiting for a lock is what makes those steps atomic and is not modelled.
- Postgres deadlocks, clock skew and recovery of the database itself.
