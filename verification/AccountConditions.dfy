/**
 When each operation can commit, in terms of the rows at that moment: which of the checks of a
 transaction decide, and which can never fail because of what every reachable state keeps.
 */
module AccountConditions {
  import opened Wrappers
  import opened SessionClock
  import opened AccountTables
  import opened AccountProtocol
  import opened AccountEvolution
  import opened AccountInvariant
  import opened AccountInduction
  import opened AccountOutcomes

  /** The step can be taken in s. */
  ghost predicate Enabled(c: Config, s: Sys, e: Event) {
    exists s' :: Step(c, s, e, s')
  }

  /** Some unrevoked account of the user is a password account. */
  ghost predicate OwnsPassword(accounts: map<Id, Account>, u: Id) {
    exists a | a in accounts :: accounts[a].user == u && accounts[a].provider.Credential? && !accounts[a].revoked
  }

  /** Neither the identity nor the provider's subject belongs to an unrevoked account. */
  ghost predicate Unheld(accounts: map<Id, Account>, p: Provider, i: Identity) {
    forall a | a in accounts && !accounts[a].revoked ::
      accounts[a].identity != i && !(accounts[a].provider == p && accounts[a].identity.subject == i.subject)
  }

  /** The unique indexes never refuse a first password: only the password account that is already there could. */
  lemma CredentialFits(c: Config, s: Sys, u: Id, h: Hash)
    requires Inv(c, s)
    ensures CanInsertAccount(s.db.accounts, CredentialRow(u, h)) <==> !OwnsPassword(s.db.accounts, u)
  {
    hide Inventory, SessionsOk, FlowsOk, ChallengesOk, Claims, Links, Evidence, History, PresentedOk, CallsOk, UsersOk;
    assert forall a | a in s.db.accounts :: AccountOk(s.db.users, s.db.accounts[a]);
    PasswordOwned(s.db.accounts, u);
  }

  lemma ExternalFits(accounts: map<Id, Account>, u: Id, p: Provider, i: Identity)
    requires p.External?
    ensures CanInsertAccount(accounts, ExternalRow(u, p, i)) <==> i.space.Remote? && Unheld(accounts, p, i)
  {
    if CanInsertAccount(accounts, ExternalRow(u, p, i)) {
      assert forall a | a in accounts && !accounts[a].revoked && accounts[a].identity == i :: HoldsIdentity(accounts, a, i);
    }
  }

  lemma CallIsOk(c: Config, s: Sys, k: Call)
    requires Inv(c, s) && k in s.calls
    ensures CallOk(s.db, k)
  {
    hide Tables, Evidence, History, PresentedOk;
  }

  // ---- a step can be taken exactly under its guard

  lemma LoginGuard(c: Config, s: Sys, u: Id, row: User, a: Id, accountRow: Account, password: Password, upgrade: Option<Hash>)
    requires LoginCall(u, row, a, accountRow, password, upgrade) in s.calls
    ensures Enabled(c, s, LoginCommit(LoginCall(u, row, a, accountRow, password, upgrade))) <==> CanLogin(s.db, u, row, a, accountRow)
  {
    hide AddSession, HashUpgraded;
    if CanLogin(s.db, u, row, a, accountRow) {
      assert Step(c, s, LoginCommit(LoginCall(u, row, a, accountRow, password, upgrade)), Commit(s, LoggedIn(c, s.db, u, a, accountRow, upgrade)));
    }
  }

  lemma PasswordGuard(c: Config, s: Sys, r: Request, row: User, a: Id, accountRow: Account, current: Option<Password>, p: Option<Id>, h: Hash)
    requires PasswordCall(r, row, Some((a, accountRow)), current, p, h) in s.calls
    ensures Enabled(c, s, PasswordCommit(PasswordCall(r, row, Some((a, accountRow)), current, p, h))) <==> CanChangePassword(s.db, r, row, a, accountRow)
  {
    hide Open, Invalidate, NewPassword, Notify, Log;
    if CanChangePassword(s.db, r, row, a, accountRow) {
      assert Step(c, s, PasswordCommit(PasswordCall(r, row, Some((a, accountRow)), current, p, h)), Commit(s, PasswordChanged(s.db, r, a, h)));
    }
  }

  lemma FirstPasswordGuard(c: Config, s: Sys, r: Request, row: User, current: Option<Password>, p: Id, h: Hash)
    requires PasswordCall(r, row, None, current, Some(p), h) in s.calls
    ensures Enabled(c, s, FirstPasswordCommit(PasswordCall(r, row, None, current, Some(p), h))) <==> CanSetFirstPassword(c, s.db, r, row, p, h)
  {
    hide Open, Invalidate, Notify, Log, SetFlow, CanInsertAccount, LiveAccounts, HasCredential, AccountEnabled, LiveAccount;
    if CanSetFirstPassword(c, s.db, r, row, p, h) {
      assert Step(c, s, FirstPasswordCommit(PasswordCall(r, row, None, current, Some(p), h)),
                  Record(s, FirstPasswordSet(s.db, r, p, h), Sensitive(p, SetPassword, r.user, None)));
    }
  }

  lemma ActivateGuard(c: Config, s: Sys, v: Id, row: Challenge, h: Hash)
    requires VerifyCall(v, row, Some(h)) in s.calls && row.purpose.VerifyRegister?
    ensures Enabled(c, s, ActivateCommit(VerifyCall(v, row, Some(h)))) <==> CanActivate(s.db, v, row, h)
  {
    hide CanInsertAccount, Notify, Log;
    if CanActivate(s.db, v, row, h) {
      assert Step(c, s, ActivateCommit(VerifyCall(v, row, Some(h))), Commit(s, Activated(s.db, v, row, h)));
    }
  }

  lemma ResetGuard(c: Config, s: Sys, v: Id, row: Challenge, h: Hash, a: Id)
    requires VerifyCall(v, row, Some(h)) in s.calls && row.purpose.VerifyReset?
    ensures Enabled(c, s, ResetCommit(VerifyCall(v, row, Some(h)), a)) <==> CanReset(s.db, v, row, a)
  {
    hide Invalidate, NewPassword, Notify, Log;
    if CanReset(s.db, v, row, a) {
      assert Step(c, s, ResetCommit(VerifyCall(v, row, Some(h)), a), Commit(s, Reset(s.db, v, row, a, h)));
    }
  }

  lemma ReauthenticateGuard(c: Config, s: Sys, r: Request, row: User, a: Id, accountRow: Account, g: Grant, password: Password)
    requires ReauthenticateCall(r, row, a, accountRow, g, password) in s.calls
    ensures Enabled(c, s, ReauthenticateCheck(ReauthenticateCall(r, row, a, accountRow, g, password))) <==> CanIssueProof(s.db, r, row, a, accountRow)
  {
    hide Open;
    if CanIssueProof(s.db, r, row, a, accountRow) {
      assert Step(c, s, ReauthenticateCheck(ReauthenticateCall(r, row, a, accountRow, g, password)),
                  InFlight(s, InsertCall(ProofRow(r, row, a, accountRow, g), Some(password))));
    }
  }

  lemma SignUpGuard(c: Config, s: Sys, f: Id, i: Identity)
    requires FoundCall(f, i, None) in s.calls
    ensures Enabled(c, s, FinishSignUp(FoundCall(f, i, None))) <==> CanSignUp(s.db, f, i)
  {
    hide CanInsertAccount;
    if CanSignUp(s.db, f, i) {
      assert Step(c, s, FinishSignUp(FoundCall(f, i, None)), Commit(s, SignedUp(c, s.db, f, i)));
    }
  }

  lemma LinkGuard(c: Config, s: Sys, r: Request, f: Id, found: Option<Id>)
    ensures Enabled(c, s, ConfirmLink(r, f, found)) <==> CanConfirmLink(c, s.db, r, f, found)
  {
    hide CanInsertAccount, Open, AccountEnabled, LiveAccounts, IdentityTaken, Notify, Log, SetFlow, LiveAccount;
    if CanConfirmLink(c, s.db, r, f, found) {
      var db := s.db;
      assert Step(c, s, ConfirmLink(r, f, found), Record(s, LinkConfirmed(db, r, f, found),
                  Sensitive(db.flows[f].parent.value, LinkAccount(db.flows[f].provider.value), r.user, Some(f))));
    }
  }

  // ---- passwords

  /** Exactly the right password of an active, verified user is let through. */
  lemma LoginReadExactly(c: Config, s: Sys, u: Id, a: Id, password: Password)
    ensures Enabled(c, s, LoginRead(u, a, password, None)) <==>
              && u in s.db.users && s.db.users[u].status.Active? && s.db.users[u].verified
              && a in s.db.accounts && s.db.accounts[a].user == u && s.db.accounts[a].provider.Credential? && !s.db.accounts[a].revoked
              && s.db.accounts[a].hash.Some? && s.db.accounts[a].hash.value.password == password
  {
    var e := LoginRead(u, a, password, None);
    if CanReadLogin(s.db, u, a, password) {
      assert Step(c, s, e, InFlight(s, LoginCall(u, s.db.users[u], a, s.db.accounts[a], password, None)));
    }
  }

  /** A recovery goes on exactly for an active user with a verified address, recovery switched on, and a password to recover. */
  lemma RecoverReadExactly(c: Config, s: Sys, u: Id)
    requires Inv(c, s)
    ensures Enabled(c, s, RecoverRead(u)) <==>
              u in s.db.users && s.db.users[u].status.Active? && s.db.users[u].recovery && OwnsPassword(s.db.accounts, u)
  {
    UserRowOk(c, s, u);
    PasswordOwned(s.db.accounts, u);
    hide Inv, OwnsPassword, HasCredential;
    if CanRecover(s.db, u) {
      assert Step(c, s, RecoverRead(u), InFlight(s, RecoverCall(u, s.db.users[u])));
    }
  }

  lemma UserRowOk(c: Config, s: Sys, u: Id)
    requires Inv(c, s)
    ensures u in s.db.users ==> UserOk(s.db.users[u])
  {
    hide Inventory, SessionsOk, FlowsOk, ChallengesOk, Claims, Links, Evidence, History, PresentedOk, CallsOk, AccountsOk;
  }

  lemma PasswordOwned(accounts: map<Id, Account>, u: Id)
    ensures OwnsPassword(accounts, u) <==> HasCredential(accounts, u)
  {
    if OwnsPassword(accounts, u) {
      var a :| a in accounts && accounts[a].user == u && accounts[a].provider.Credential? && !accounts[a].revoked;
      assert LiveCredential(accounts, a, u);
    }
  }

  /** With a password the present one must be shown; without one, a proof and nothing else. */
  lemma PasswordReadExactly(c: Config, s: Sys, r: Request, a: Option<Id>, current: Option<Password>, p: Option<Id>, h: Hash)
    ensures Enabled(c, s, PasswordRead(r, a, current, p, h)) <==>
              && SessionValid(s.db, r.session, r.user)
              && if a.None? then !OwnsPassword(s.db.accounts, r.user) && current.None? && p.Some?
                 else && a.value in s.db.accounts && s.db.accounts[a.value].user == r.user && !s.db.accounts[a.value].revoked
                      && s.db.accounts[a.value].provider.Credential? && s.db.accounts[a.value].hash.Some?
                      && current == Some(s.db.accounts[a.value].hash.value.password)
  {
    PasswordOwned(s.db.accounts, r.user);
    hide OwnsPassword, HasCredential, Open;
    if CanReadPassword(s.db, r, a, current, p) {
      assert Step(c, s, PasswordRead(r, a, current, p, h), InFlight(s,
                  PasswordCall(r, s.db.users[r.user], if a.Some? then Some((a.value, s.db.accounts[a.value])) else None, current, p, h)));
    }
  }

  /** A checked login commits exactly while user and account stand as they were read. */
  lemma LoginExactly(c: Config, s: Sys, u: Id, row: User, a: Id, accountRow: Account, password: Password, upgrade: Option<Hash>)
    requires Inv(c, s) && LoginCall(u, row, a, accountRow, password, upgrade) in s.calls
    ensures Enabled(c, s, LoginCommit(LoginCall(u, row, a, accountRow, password, upgrade))) <==>
              && u in s.db.users && s.db.users[u].status.Active? && s.db.users[u].version == row.version
              && a in s.db.accounts && !s.db.accounts[a].revoked && s.db.accounts[a].version == accountRow.version
  {
    hide Inv, Step, Enabled;
    CallIsOk(c, s, LoginCall(u, row, a, accountRow, password, upgrade));
    LoginGuard(c, s, u, row, a, accountRow, password, upgrade);
  }

  /** A password change commits exactly for a valid session while user and account are at the versions read. */
  lemma PasswordExactly(c: Config, s: Sys, r: Request, row: User, a: Id, accountRow: Account, current: Option<Password>, p: Option<Id>, h: Hash)
    requires Inv(c, s) && PasswordCall(r, row, Some((a, accountRow)), current, p, h) in s.calls
    ensures Enabled(c, s, PasswordCommit(PasswordCall(r, row, Some((a, accountRow)), current, p, h))) <==>
              && SessionValid(s.db, r.session, r.user) && s.db.users[r.user].version == row.version
              && a in s.db.accounts && !s.db.accounts[a].revoked && s.db.accounts[a].version == accountRow.version
  {
    hide Inv, Step, Enabled;
    CallIsOk(c, s, PasswordCall(r, row, Some((a, accountRow)), current, p, h));
    AccountRowOk(c, s, a);
    PasswordGuard(c, s, r, row, a, accountRow, current, p, h);
  }

  lemma AccountRowOk(c: Config, s: Sys, a: Id)
    requires Inv(c, s)
    ensures a in s.db.accounts ==> AccountOk(s.db.users, s.db.accounts[a])
  {
    hide Inventory, SessionsOk, FlowsOk, ChallengesOk, Claims, Links, Evidence, History, PresentedOk, CallsOk, UsersOk;
  }

  /** A first password is added exactly by a valid session of a verified user without one, under a matching proof and with fewer than ten accounts. */
  lemma FirstPasswordExactly(c: Config, s: Sys, r: Request, row: User, current: Option<Password>, p: Id, h: Hash)
    requires Inv(c, s) && PasswordCall(r, row, None, current, Some(p), h) in s.calls
    ensures Enabled(c, s, FirstPasswordCommit(PasswordCall(r, row, None, current, Some(p), h))) <==>
              && SessionValid(s.db, r.session, r.user) && s.db.users[r.user].version == row.version && s.db.users[r.user].verified
              && !OwnsPassword(s.db.accounts, r.user) && |LiveAccounts(s.db.accounts, r.user)| < 10
              && Authorizes(c, s.db, r, p, SetPassword, None)
  {
    hide Inv, Step, Enabled, LiveAccounts, Authorizes;
    CredentialFits(c, s, r.user, h);
    FirstPasswordGuard(c, s, r, row, current, p, h);
    if HasCredential(s.db.accounts, r.user) {
      assert OwnsPassword(s.db.accounts, r.user);
    }
  }

  // ---- setting a password decides who can log in

  /** The user, its password account and the hash that the event gives it, if it sets a password. */
  function NewCredential(db: Db, e: Event): Option<(Id, Id, Hash)> {
    match e
    case ActivateCommit(k) => if k.VerifyCall? && k.newHash.Some? then Some((k.chRow.user, db.next, k.newHash.value)) else None
    case ResetCommit(k, a) => if k.VerifyCall? && k.newHash.Some? then Some((k.chRow.user, a, k.newHash.value)) else None
    case PasswordCommit(k) => if k.PasswordCall? && k.target.Some? then Some((k.request.user, k.target.value.0, k.hash)) else None
    case FirstPasswordCommit(k) => if k.PasswordCall? && k.target.None? && k.proofId.Some? then Some((k.request.user, db.next, k.hash)) else None
    case _ => None
  }

  /**
   Right after a password was set, whether by registration, reset, change or as a first one, the user
   can log in with that password and with no other, through that account and through no other.
   */
  lemma NewPasswordLogsIn(c: Config, s: Sys, e: Event, s': Sys, u: Id, a: Id, h: Hash, b: Id, p: Password)
    requires Inv(c, s) && Step(c, s, e, s') && NewCredential(s.db, e) == Some((u, a, h))
    ensures Enabled(c, s', LoginRead(u, b, p, None)) <==> b == a && p == h.password
  {
    hide Inv, Step, Enabled;
    match e {
      case ActivateCommit(k) => ActivationSets(c, s, k.challenge, k.chRow, h, s');
      case ResetCommit(k, _) => ResetSets(c, s, k.challenge, k.chRow, h, a, s');
      case PasswordCommit(k) => ChangeSets(c, s, k.request, k.row, a, k.target.value.1, k.current, k.proofId, h, s');
      case FirstPasswordCommit(k) => FirstPasswordSets(c, s, k.request, k.row, k.current, k.proofId.value, h, s');
    }
    StepKeeps(c, s, e, s');
    if LiveCredential(s'.db.accounts, b, u) {
      OneCredential(c, s', a, b, u);
    }
    LoginReadExactly(c, s', u, b, p);
  }

  /** The account is the live password account of an active user with a verified address, and has this hash. */
  predicate HasPassword(db: Db, u: Id, a: Id, h: Hash) {
    && u in db.users && db.users[u].status.Active? && db.users[u].verified
    && LiveCredential(db.accounts, a, u) && db.accounts[a].hash == Some(h)
  }

  lemma ActivationSets(c: Config, s: Sys, v: Id, row: Challenge, h: Hash, s': Sys)
    requires Inv(c, s) && Step(c, s, ActivateCommit(VerifyCall(v, row, Some(h))), s')
    ensures HasPassword(s'.db, row.user, s.db.next, h)
  {
    hide Inv, Step, Noticed;
    ActivationOutcome(c, s, v, row, Some(h), s');
  }

  lemma ResetSets(c: Config, s: Sys, v: Id, row: Challenge, h: Hash, a: Id, s': Sys)
    requires Step(c, s, ResetCommit(VerifyCall(v, row, Some(h)), a), s')
    ensures HasPassword(s'.db, row.user, a, h)
  {
    hide Step, Noticed, SessionsEnded;
    ResetOutcome(c, s, v, row, Some(h), a, s');
  }

  lemma ChangeSets(c: Config, s: Sys, r: Request, row: User, a: Id, accountRow: Account, current: Option<Password>, p: Option<Id>, h: Hash, s': Sys)
    requires Inv(c, s) && Step(c, s, PasswordCommit(PasswordCall(r, row, Some((a, accountRow)), current, p, h)), s')
    ensures HasPassword(s'.db, r.user, a, h)
  {
    hide Inv, Step, Noticed, SessionsEnded, Open;
    PasswordOutcome(c, s, r, row, a, accountRow, current, p, h, s');
    AccountRowOk(c, s, a);
  }

  lemma FirstPasswordSets(c: Config, s: Sys, r: Request, row: User, current: Option<Password>, p: Id, h: Hash, s': Sys)
    requires Inv(c, s) && Step(c, s, FirstPasswordCommit(PasswordCall(r, row, None, current, Some(p), h)), s')
    ensures HasPassword(s'.db, r.user, s.db.next, h)
  {
    hide Inv, Step, Noticed, SessionsEnded, Open;
    FirstPasswordOutcome(c, s, r, row, current, p, h, s');
  }

  lemma OneCredential(c: Config, s: Sys, a: Id, b: Id, u: Id)
    requires Inv(c, s) && LiveCredential(s.db.accounts, a, u) && LiveCredential(s.db.accounts, b, u)
    ensures a == b
  {
    hide Inventory, SessionsOk, FlowsOk, ChallengesOk, Claims, Links, Evidence, History, PresentedOk, CallsOk, UsersOk;
    assert AccountOk(s.db.users, s.db.accounts[a]) && AccountOk(s.db.users, s.db.accounts[b]);
  }

  // ---- challenges

  /** An unused challenge of the user's present epoch. */
  predicate Unused(db: Db, v: Id, row: Challenge) {
    && v in db.challenges && !db.challenges[v].consumed && db.now < db.challenges[v].expires
    && row.user in db.users && db.users[row.user].version == row.version
  }

  lemma ChallengeNamesAddress(c: Config, s: Sys, v: Id, row: Challenge, h: Option<Hash>)
    requires Inv(c, s) && VerifyCall(v, row, h) in s.calls && !row.purpose.VerifyChange? && Unused(s.db, v, row)
    ensures s.db.users[row.user].email == Some(row.email)
    ensures row.purpose.VerifyReset? ==> s.db.users[row.user].verified && s.db.users[row.user].recovery
  {
    CallIsOk(c, s, VerifyCall(v, row, h));
    hide FlowsOk, Claims, Links, History, PresentedOk, FreshIds, CallsOk, Evidence, SessionsOk, Inventory, AccountsOk, UsersOk;
    assert ChallengeOk(s.db.users, s.db.challenges[v]);
  }

  /** A registration completes exactly while its challenge is unused and the user is pending in the same epoch: address and indexes are then in order. */
  lemma ActivateExactly(c: Config, s: Sys, v: Id, row: Challenge, h: Hash)
    requires Inv(c, s) && VerifyCall(v, row, Some(h)) in s.calls && row.purpose.VerifyRegister?
    ensures Enabled(c, s, ActivateCommit(VerifyCall(v, row, Some(h)))) <==> Unused(s.db, v, row) && s.db.users[row.user].status.Pending?
  {
    hide Inv, Step, Enabled, CanInsertAccount;
    ActivateGuard(c, s, v, row, h);
    CredentialFits(c, s, row.user, h);
    if Unused(s.db, v, row) && s.db.users[row.user].status.Pending? {
      ChallengeNamesAddress(c, s, v, row, Some(h));
      PendingOwnNothing(c, s, row.user);
    }
  }

  lemma PendingOwnNothing(c: Config, s: Sys, u: Id)
    requires Inv(c, s) && u in s.db.users && s.db.users[u].status.Pending?
    ensures !OwnsPassword(s.db.accounts, u)
  {
    hide Inventory, SessionsOk, FlowsOk, ChallengesOk, Claims, Links, Evidence, History, PresentedOk, CallsOk, UsersOk;
    assert forall a | a in s.db.accounts :: AccountOk(s.db.users, s.db.accounts[a]);
  }

  /** A reset commits exactly while its challenge is unused and its user, in the same epoch, is active and has a password. */
  lemma ResetExactly(c: Config, s: Sys, v: Id, row: Challenge, h: Hash)
    requires Inv(c, s) && VerifyCall(v, row, Some(h)) in s.calls && row.purpose.VerifyReset?
    ensures (exists a: Id :: Enabled(c, s, ResetCommit(VerifyCall(v, row, Some(h)), a))) <==>
              Unused(s.db, v, row) && s.db.users[row.user].status.Active? && OwnsPassword(s.db.accounts, row.user)
  {
    hide Inv, Step, Enabled;
    var k := VerifyCall(v, row, Some(h));
    if Unused(s.db, v, row) {
      ChallengeNamesAddress(c, s, v, row, Some(h));
    }
    if a: Id :| Enabled(c, s, ResetCommit(k, a)) {
      ResetGuard(c, s, v, row, h, a);
    }
    if Unused(s.db, v, row) && s.db.users[row.user].status.Active? && OwnsPassword(s.db.accounts, row.user) {
      var a :| a in s.db.accounts && s.db.accounts[a].user == row.user && s.db.accounts[a].provider.Credential? && !s.db.accounts[a].revoked;
      ResetGuard(c, s, v, row, h, a);
      assert Enabled(c, s, ResetCommit(k, a));
    }
  }

  // ---- proofs and their children

  /**
   A proof covers an operation exactly when owner, session, operation and target, expiry and one-time
   status match, the session is valid, and the proving account is unrevoked, enabled and at the version
   proved. The check of the user's own version adds nothing: the session carries the version of the proof.
   */
  lemma AuthorizesExactly(c: Config, s: Sys, r: Request, p: Id, g: Grant, claim: Option<Id>)
    requires Inv(c, s)
    ensures Authorizes(c, s.db, r, p, g, claim) <==>
              && p in s.db.flows && s.db.flows[p].purpose.Reauthenticate? && s.db.now < s.db.flows[p].expires && s.db.flows[p].grant == Some(g)
              && (if claim.None? then s.db.flows[p].status.Authorized? else s.db.flows[p].status.Claimed? && s.db.flows[p].claimedBy == claim)
              && s.db.flows[p].binding.Some? && s.db.flows[p].binding.value.user == r.user && s.db.flows[p].binding.value.session == r.session
              && SessionValid(s.db, r.session, r.user)
              && s.db.flows[p].proving.Some? && ProverStands(c, s.db, s.db.flows[p].proving.value)
  {
    if p in s.db.flows {
      ProofRowOk(c, s, p);
    }
    hide Inv, Open;
  }

  /** The account that was proved is unrevoked, still enabled and at the version at which it was proved. */
  predicate ProverStands(c: Config, db: Db, p: Proving) {
    && p.account in db.accounts && !db.accounts[p.account].revoked && db.accounts[p.account].version == p.version
    && (db.accounts[p.account].provider.External? ==> db.accounts[p.account].provider.name in c.enabled)
  }

  lemma ProofRowOk(c: Config, s: Sys, p: Id)
    requires Inv(c, s) && p in s.db.flows
    ensures FlowOk(s.db.users, s.db.accounts, s.db.sessions, s.db.flows[p])
  {
    hide Inventory, SessionsOk, ChallengesOk, Claims, Links, Evidence, History, PresentedOk, CallsOk, UsersOk, AccountsOk;
  }

  /** A proof is asked for by password exactly with the present password of the caller's own account, for anything but unlinking that account. */
  lemma ReauthenticateReadExactly(c: Config, s: Sys, r: Request, a: Id, g: Grant, password: Password)
    ensures Enabled(c, s, ReauthenticateRead(r, a, g, password)) <==>
              && SessionValid(s.db, r.session, r.user) && g != UnlinkAccount(a) && (g.LinkAccount? ==> g.provider.External? && g.provider.name in c.enabled)
              && a in s.db.accounts && s.db.accounts[a].user == r.user && s.db.accounts[a].provider.Credential? && !s.db.accounts[a].revoked
              && s.db.accounts[a].hash.Some? && s.db.accounts[a].hash.value.password == password
  {
    hide Open;
    if CanReadReauthentication(c, s.db, r, a, g, password) {
      assert Step(c, s, ReauthenticateRead(r, a, g, password),
                  InFlight(s, ReauthenticateCall(r, s.db.users[r.user], a, s.db.accounts[a], g, password)));
    }
  }

  /** A proof through a provider starts exactly with an enabled account of the caller, for anything but unlinking that account. */
  lemma StartReauthenticationExactly(c: Config, s: Sys, r: Request, a: Id, g: Grant)
    ensures Enabled(c, s, StartReauthenticationCheck(r, a, g)) <==>
              && SessionValid(s.db, r.session, r.user) && g != UnlinkAccount(a) && (g.LinkAccount? ==> g.provider.External? && g.provider.name in c.enabled)
              && a in s.db.accounts && s.db.accounts[a].user == r.user && !s.db.accounts[a].revoked
              && s.db.accounts[a].provider.External? && s.db.accounts[a].provider.name in c.enabled
  {
    hide Open;
    if CanStartReauthentication(c, s.db, r, a, g) {
      assert Step(c, s, StartReauthenticationCheck(r, a, g), InFlight(s, InsertCall(ReauthenticationRow(s.db, r, a, g), None)));
    }
  }

  /** A password proof is issued exactly while session, user and account stand as they were when the password was checked. */
  lemma ReauthenticateExactly(c: Config, s: Sys, r: Request, row: User, a: Id, accountRow: Account, g: Grant, password: Password)
    requires Inv(c, s) && ReauthenticateCall(r, row, a, accountRow, g, password) in s.calls
    ensures Enabled(c, s, ReauthenticateCheck(ReauthenticateCall(r, row, a, accountRow, g, password))) <==>
              && SessionValid(s.db, r.session, r.user) && s.db.users[r.user].version == row.version
              && a in s.db.accounts && !s.db.accounts[a].revoked && s.db.accounts[a].version == accountRow.version
  {
    hide Inv, Step, Enabled;
    CallIsOk(c, s, ReauthenticateCall(r, row, a, accountRow, g, password));
    ReauthenticateGuard(c, s, r, row, a, accountRow, g, password);
  }

  /** Of all the calls that hold one proof, exactly those that find it still authorized and unexpired can claim it. */
  lemma ClaimsExactly(c: Config, s: Sys, r: Request, version: nat, provider: Provider, e: Email, p: Id)
    ensures LinkCall(r, version, provider, p) in s.calls ==>
              (Enabled(c, s, LinkCommit(LinkCall(r, version, provider, p))) <==>
               p in s.db.flows && s.db.flows[p].status.Authorized? && s.db.now < s.db.flows[p].expires)
    ensures EmailCall(r, version, e, p) in s.calls ==>
              (Enabled(c, s, EmailRequestCommit(EmailCall(r, version, e, p))) <==>
               p in s.db.flows && s.db.flows[p].status.Authorized? && s.db.now < s.db.flows[p].expires)
  {
    if CanClaim(s.db, p) {
      var link, email := LinkCall(r, version, provider, p), EmailCall(r, version, e, p);
      if link in s.calls {
        assert Step(c, s, LinkCommit(link), Commit(s, LinkStarted(s.db, r, version, provider, p)));
      }
      if email in s.calls {
        assert Step(c, s, EmailRequestCommit(email), Commit(s, EmailRequested(s.db, r, version, e, p)));
      }
    }
  }

  /** Unlinking needs the session, the account, a proof for exactly this, and that the proof is not of the account itself: that the prover remains follows. */
  lemma UnlinkExactly(c: Config, s: Sys, r: Request, a: Id, p: Id)
    ensures Enabled(c, s, Unlink(r, a, p)) <==>
              && SessionValid(s.db, r.session, r.user)
              && a in s.db.accounts && s.db.accounts[a].user == r.user && !s.db.accounts[a].revoked
              && Authorizes(c, s.db, r, p, UnlinkAccount(a), None) && s.db.flows[p].proving.value.account != a
  {
    hide SessionValid, AccountEnabled;
    if CanUnlink(c, s.db, r, a, p) {
      assert Step(c, s, Unlink(r, a, p), Record(s, Unlinked(s.db, r, a, p), Sensitive(p, UnlinkAccount(a), r.user, None)));
    }
  }

  /** A link is confirmed exactly when flow and proof match and the identity is the user's own already, or free while the user has room. */
  lemma LinkExactly(c: Config, s: Sys, r: Request, f: Id)
    requires Inv(c, s)
    ensures (exists found :: Enabled(c, s, ConfirmLink(r, f, found))) <==>
              && LinkReady(c, s.db, r, f)
              && (|| Owns(s.db.accounts, r.user, s.db.flows[f].identity.value)
                  || (Unheld(s.db.accounts, s.db.flows[f].provider.value, s.db.flows[f].identity.value) && |LiveAccounts(s.db.accounts, r.user)| < 10))
  {
    hide Inv, Step, Enabled, Authorizes, SessionValid, LiveAccounts, CanInsertAccount, Unheld, Owns;
    if found :| Enabled(c, s, ConfirmLink(r, f, found)) {
      LinkGuard(c, s, r, f, found);
      LinkTarget(c, s, r, f, found);
    }
    if LinkReady(c, s.db, r, f) {
      var i := s.db.flows[f].identity.value;
      FlowRow(c, s, f);
      ExternalFits(s.db.accounts, r.user, s.db.flows[f].provider.value, i);
      if Owns(s.db.accounts, r.user, i) {
        var a := HolderOf(s.db.accounts, r.user, i);
        LinkGuard(c, s, r, f, Some(a));
      } else if Unheld(s.db.accounts, s.db.flows[f].provider.value, i) && |LiveAccounts(s.db.accounts, r.user)| < 10 {
        LinkGuard(c, s, r, f, None);
        FreeIdentity(s.db.accounts, s.db.flows[f].provider.value, i);
      }
    }
  }

  /** Session, flow and proof of a link are in order; what is left is the identity. */
  ghost predicate LinkReady(c: Config, db: Db, r: Request, f: Id) {
    && SessionValid(db, r.session, r.user)
    && f in db.flows && db.flows[f].purpose.LinkIdentity? && db.flows[f].status.Verified? && db.now < db.flows[f].expires
    && db.flows[f].binding == Some(Binding(r.user, r.session, db.users[r.user].version))
    && db.flows[f].parent.Some? && db.flows[f].provider.Some? && db.flows[f].identity.Some?
    && Authorizes(c, db, r, db.flows[f].parent.value, LinkAccount(db.flows[f].provider.value), Some(f))
  }

  lemma LinkTarget(c: Config, s: Sys, r: Request, f: Id, found: Option<Id>)
    requires Inv(c, s) && CanConfirmLink(c, s.db, r, f, found)
    ensures LinkReady(c, s.db, r, f)
    ensures || Owns(s.db.accounts, r.user, s.db.flows[f].identity.value)
            || (Unheld(s.db.accounts, s.db.flows[f].provider.value, s.db.flows[f].identity.value) && |LiveAccounts(s.db.accounts, r.user)| < 10)
  {
    hide Inv, Authorizes, LiveAccounts, CanInsertAccount, Unheld, Open;
    var i := s.db.flows[f].identity.value;
    FlowRow(c, s, f);
    ExternalFits(s.db.accounts, r.user, s.db.flows[f].provider.value, i);
    if found.Some? {
      assert Holder(s.db.accounts, found.value, r.user, i);
    }
  }

  lemma HolderOf(accounts: map<Id, Account>, u: Id, i: Identity) returns (a: Id)
    requires Owns(accounts, u, i)
    ensures HoldsIdentity(accounts, a, i) && accounts[a].user == u
  {
    a :| a in accounts && Holder(accounts, a, u, i);
  }

  lemma FreeIdentity(accounts: map<Id, Account>, p: Provider, i: Identity)
    requires Unheld(accounts, p, i)
    ensures !IdentityTaken(accounts, i)
  {
  }

  /** An unrevoked account of the user with the identity. */
  predicate Holder(accounts: map<Id, Account>, a: Id, u: Id, i: Identity) {
    a in accounts && !accounts[a].revoked && accounts[a].user == u && accounts[a].identity == i
  }

  ghost predicate Owns(accounts: map<Id, Account>, u: Id, i: Identity) {
    exists a | a in accounts :: Holder(accounts, a, u, i)
  }

  lemma FlowRow(c: Config, s: Sys, f: Id)
    requires Inv(c, s) && f in s.db.flows
    ensures FlowRowOk(s.db.flows[f])
  {
    hide Inventory, SessionsOk, ChallengesOk, Claims, Links, Evidence, History, PresentedOk, CallsOk, UsersOk, AccountsOk;
    assert FlowOk(s.db.users, s.db.accounts, s.db.sessions, s.db.flows[f]);
  }

  // ---- providers, sessions and registration

  /** A sign-up commits exactly while its flow is in processing and nobody holds the identity, or the provider's subject. */
  lemma SignUpExactly(c: Config, s: Sys, f: Id, i: Identity)
    requires Inv(c, s) && FoundCall(f, i, None) in s.calls
    ensures Enabled(c, s, FinishSignUp(FoundCall(f, i, None))) <==>
              && f in s.db.flows && s.db.flows[f].status.Processing? && s.db.now < s.db.flows[f].expires && s.db.flows[f].provider.Some?
              && i.space.Remote? && Unheld(s.db.accounts, s.db.flows[f].provider.value, i)
  {
    hide Inv, Step, Enabled, CanInsertAccount, Unheld;
    CallIsOk(c, s, FoundCall(f, i, None));
    FlowRow(c, s, f);
    SignUpGuard(c, s, f, i);
    ExternalFits(s.db.accounts, s.db.next, s.db.flows[f].provider.value, i);
  }

  /** A checked callback of a bound flow commits exactly while the flow is in processing and not expired. */
  lemma BoundExactly(c: Config, s: Sys, f: Id, i: Identity)
    requires BoundCall(f, i) in s.calls
    ensures Enabled(c, s, BoundCommit(BoundCall(f, i))) <==> f in s.db.flows && s.db.flows[f].status.Processing? && s.db.now < s.db.flows[f].expires
  {
    if FlowProcessing(s.db, f) {
      assert Step(c, s, BoundCommit(BoundCall(f, i)), Commit(s, BoundVerified(s.db, f, i)));
    }
  }

  /** A session can be revoked exactly by a valid session of the same user, whether or not it is the same one. */
  lemma RevocationExactly(c: Config, s: Sys, r: Request, x: Id)
    ensures Enabled(c, s, RevokeSession(r, x)) <==>
              SessionValid(s.db, r.session, r.user) && x in s.db.sessions && s.db.sessions[x].user == r.user
  {
    hide SessionValid;
    if CanRevokeSession(s.db, r, x) {
      assert Step(c, s, RevokeSession(r, x), Commit(s, SessionRevoked(s.db, r, x)));
    }
  }

  /** Whatever the address, a registration can be requested, and it concerns exactly one user. */
  lemma RegisterAlways(c: Config, s: Sys, e: Email)
    requires Inv(c, s)
    ensures exists u :: Enabled(c, s, Register(u, e))
    ensures forall u: Id, w: Id | Enabled(c, s, Register(u, e)) && Enabled(c, s, Register(w, e)) :: u == w
  {
    hide Inventory, SessionsOk, FlowsOk, ChallengesOk, Claims, Links, Evidence, History, PresentedOk, CallsOk, AccountsOk;
    var u := s.db.next;
    if w :| w in s.db.users && s.db.users[w].email == Some(e) {
      u := w;
    }
    assert Step(c, s, Register(u, e), Commit(s, Registered(s.db, u, e)));
    assert Enabled(c, s, Register(u, e));
  }
}
