/**
 What each committed operation means, row by row: what was the case when it committed, and what
 the tables hold afterwards.
 */
module AccountOutcomes {
  import opened Wrappers
  import opened Arithmetic
  import opened SessionClock
  import opened AccountTables
  import opened AccountProtocol
  import opened AccountEvolution
  import opened AccountInvariant
  import opened AccountInduction
  import opened AccountTheorems

  // ---- what several operations leave behind

  /** The sessions of u are revoked, and nothing else about any session has changed. */
  predicate SessionsEnded(a: map<Id, Session>, b: map<Id, Session>, u: Id) {
    b.Keys == a.Keys && forall x | x in a :: b[x] == a[x].(revoked := a[x].revoked || a[x].user == u)
  }

  /** A user with a verified address gets one security notice there; nobody else gets anything. */
  predicate Noticed(mail: seq<Mail>, mail': seq<Mail>, row: User) {
    if row.verified && row.email.Some? then mail' == mail + [Mail(row.email.value, SecurityNotice)] else mail' == mail
  }

  /** A challenge is inserted, and its one mail goes to the very address that it is to confirm. */
  predicate Issued(db: Db, db': Db, v: Id, row: Challenge) {
    && v !in db.challenges && db'.challenges == db.challenges[v := row]
    && db'.mail == db.mail + [Mail(row.email, ChallengeMail(row.purpose))]
  }

  /** A session is inserted for the user at its present version, open for the whole idle and absolute span. */
  predicate LoggedInAs(c: Config, db: Db, db': Db, x: Id, u: Id, a: Id) {
    && x !in db.sessions && u in db'.users && x in db'.sessions
    && db'.sessions == db.sessions[x := db'.sessions[x]]
    && var session := db'.sessions[x];
    && session.user == u && session.source == a && session.version == db'.users[u].version && !session.revoked
    && session.timing.createdAt == session.timing.lastSeen == db.now
    && session.timing.idleExpires == db.now + IdleSpan(c.limits) && session.timing.absoluteExpires == db.now + MaxSpan(c.limits)
  }

  /** One flow is finished: consumed, without protocol state, and otherwise as before. */
  function Finished(f: Flow): Flow {
    f.(status := Consumed, protocol := false)
  }

  // ---- sessions

  /**
   A valid session was not revoked, its user is active and still in the epoch in which it was opened,
   it was renewed less than an idle span ago, and opened less than the absolute span ago.
   */
  lemma ValidSessionIsCurrent(c: Config, t: seq<Sys>, i: nat, x: Id, u: Id)
    requires Run(c, t) && i < |t| && SessionValid(t[i].db, x, u)
    ensures var session, now := t[i].db.sessions[x], t[i].db.now;
            && session.user == u && !session.revoked
            && t[i].db.users[u].status.Active? && t[i].db.users[u].version == session.version
            && now < session.timing.lastSeen + IdleSpan(c.limits) && now < session.timing.createdAt + MaxSpan(c.limits)
  {
    RunInv(c, t, i);
    hide Run;
    SessionIsRegular(c, t[i], x);
  }

  lemma SessionIsRegular(c: Config, s: Sys, x: Id)
    requires Inv(c, s) && x in s.db.sessions
    ensures Regular(c.limits, s.db.sessions[x].timing)
  {
    hide Inventory, FlowsOk, ChallengesOk, Claims, Links, Evidence, History, PresentedOk, CallsOk, UsersOk, AccountsOk;
    assert SessionOk(c, s.db.users, s.db.sessions[x]);
  }

  /** A revoked session is invalid from then on, for whomever; no other session is touched by its revocation. */
  lemma RevokedSessionIsDead(c: Config, t: seq<Sys>, i: nat, j: nat, r: Request, x: Id)
    requires At(c, t, i, RevokeSession(r, x)) && i < j < |t|
    ensures x in t[i].db.sessions && t[i].db.sessions[x].user == r.user && SessionValid(t[i].db, r.session, r.user)
    ensures forall u: Id :: !SessionValid(t[j].db, x, u)
    ensures t[i + 1].db == t[i].db.(sessions := t[i].db.sessions[x := t[i].db.sessions[x].(revoked := true)],
                                    audit := t[i].db.audit + [Audit(AuditRevoke, r.user, x)])
  {
    RevocationOutcome(c, t[i], r, x, t[i + 1]);
    RunEvolves(c, t, i + 1, j);
    assert SessionEvolves(t[i + 1].db.sessions[x], t[j].db.sessions[x]);
  }

  /** A request renews the timing of a valid session that is due, never past its absolute limit, and changes nothing else. */
  lemma TouchOutcome(c: Config, s: Sys, x: Id, s': Sys)
    requires Step(c, s, Touch(x), s')
    ensures x in s.db.sessions
    ensures var session, now := s.db.sessions[x], s.db.now;
            if SessionValid(s.db, x, session.user) && session.timing.lastSeen + RenewalThreshold(c.limits) <= now
            then s'.db == s.db.(sessions := s.db.sessions[x := session.(timing := session.timing.(
                                  lastSeen := now, idleExpires := Min(session.timing.absoluteExpires, now + IdleSpan(c.limits))))])
            else s'.db == s.db
  {
    assert s.db.sessions[x := s.db.sessions[x]] == s.db.sessions;
  }

  lemma RevocationOutcome(c: Config, s: Sys, r: Request, x: Id, s': Sys)
    requires Step(c, s, RevokeSession(r, x), s')
    ensures x in s.db.sessions && s.db.sessions[x].user == r.user && SessionValid(s.db, r.session, r.user)
    ensures s'.db == s.db.(sessions := s.db.sessions[x := s.db.sessions[x].(revoked := true)],
                           audit := s.db.audit + [Audit(AuditRevoke, r.user, x)])
  {
  }

  /** Revoking everything, by the user or an administrator, ends the epoch and every session of that user only. */
  lemma RevokeAllOutcome(c: Config, s: Sys, e: Event, s': Sys)
    requires Step(c, s, e, s') && (e.RevokeAll? || e.AdminRevoke?)
    ensures e.RevokeAll? ==> SessionValid(s.db, e.request.session, e.request.user)
    ensures var u := if e.RevokeAll? then e.request.user else e.user;
            && u in s.db.users && s'.db.users == s.db.users[u := s.db.users[u].(version := s.db.users[u].version + 1)]
            && SessionsEnded(s.db.sessions, s'.db.sessions, u)
            && s'.db == s.db.(users := s'.db.users, sessions := s'.db.sessions, audit := s.db.audit + [Audit(AuditRevoke, u, u)])
  {
  }

  /** A status change writes exactly that status, to a user that was not pending, and ends its epoch and sessions. */
  lemma StatusOutcome(c: Config, s: Sys, u: Id, status: UserStatus, s': Sys)
    requires Inv(c, s) && Step(c, s, StatusCommit(StatusCall(u, status)), s')
    ensures u in s.db.users && !s.db.users[u].status.Pending? && !status.Pending?
    ensures s'.db.users == s.db.users[u := s.db.users[u].(status := status, version := s.db.users[u].version + 1)]
    ensures SessionsEnded(s.db.sessions, s'.db.sessions, u)
    ensures s'.db == s.db.(users := s'.db.users, sessions := s'.db.sessions, audit := s.db.audit + [Audit(AuditStatus, u, u)])
  {
    hide Tables, Evidence, History, PresentedOk;
    assert CallOk(s.db, StatusCall(u, status));
  }

  // ---- registration, recovery and their challenges

  /** A new address gets a pending user; a pending user gets one challenge of a day; a registered one gets nothing at all. */
  lemma RegisterOutcome(c: Config, s: Sys, u: Id, e: Email, s': Sys)
    requires Inv(c, s) && Step(c, s, Register(u, e), s')
    ensures u in s'.db.users && s'.db.users[u].email == Some(e)
    ensures u in s.db.users ==> s'.db.users == s.db.users
    ensures u !in s.db.users ==> s'.db.users == s.db.users[u := User(Pending, Some(e), false, false, 1)]
    ensures !s'.db.users[u].status.Pending? ==> s'.db == s.db
    ensures s'.db.users[u].status.Pending? ==>
              Issued(s.db, s'.db, if u in s.db.users then s.db.next else s.db.next + 1,
                     Challenge(u, VerifyRegister, e, s'.db.users[u].version, None, None, false, s.db.now + 86_400 * SECOND))
    ensures s'.db == s.db.(next := s'.db.next, users := s'.db.users, challenges := s'.db.challenges, mail := s'.db.mail)
  {
    hide Inventory, SessionsOk, FlowsOk, ChallengesOk, Claims, Links, Evidence, History, PresentedOk, CallsOk, UsersOk, AccountsOk;
  }

  /** Recovery sends one challenge of a quarter of an hour to the address that was read, which was verified and recoverable. */
  lemma RecoverOutcome(c: Config, s: Sys, u: Id, row: User, s': Sys)
    requires Inv(c, s) && Step(c, s, RecoverCommit(RecoverCall(u, row)), s')
    ensures row.verified && row.recovery && row.email.Some?
    ensures Issued(s.db, s'.db, s.db.next, Challenge(u, VerifyReset, row.email.value, row.version, None, None, false, s.db.now + 900 * SECOND))
    ensures s'.db == s.db.(next := s'.db.next, challenges := s'.db.challenges, mail := s'.db.mail)
  {
    hide Inventory, SessionsOk, FlowsOk, ChallengesOk, Claims, Links, Evidence, History, PresentedOk, UsersOk, AccountsOk;
    assert CallOk(s.db, RecoverCall(u, row));
  }

  /**
   Requesting an email change claims the proof for the new challenge and sends one mail, to the
   address that the proof was given for: whoever confirms it has shown control of that address.
   */
  lemma EmailRequestOutcome(c: Config, s: Sys, r: Request, version: nat, e: Email, p: Id, s': Sys)
    requires Inv(c, s) && Step(c, s, EmailRequestCommit(EmailCall(r, version, e, p)), s')
    ensures p in s.db.flows && s.db.flows[p].grant == Some(ChangeEmail(e))
    ensures s.db.flows[p].status.Authorized? && s.db.flows[p].expires > s.db.now
    ensures Issued(s.db, s'.db, s.db.next,
                   Challenge(r.user, VerifyChange, e, version, Some(r.session), Some(p), false, s.db.now + 300 * SECOND))
    ensures s'.db.flows == s.db.flows[p := s.db.flows[p].(status := Claimed, claimedBy := Some(s.db.next))]
    ensures s'.db == s.db.(next := s'.db.next, flows := s'.db.flows, challenges := s'.db.challenges, mail := s'.db.mail)
  {
    hide Inventory, SessionsOk, FlowsOk, ChallengesOk, Claims, Links, Evidence, History, PresentedOk, UsersOk, AccountsOk;
    assert CallOk(s.db, EmailCall(r, version, e, p));
  }

  // ---- consuming a challenge

  /** The challenge is the stored one, unused and unexpired, of the user's present epoch; afterwards it is used. */
  predicate Consumes(db: Db, db': Db, v: Id, row: Challenge) {
    && v in db.challenges && !db.challenges[v].consumed && db.now < db.challenges[v].expires
    && row.user in db.users && db.users[row.user].version == row.version
    && db'.challenges == db.challenges[v := db.challenges[v].(consumed := true)]
  }

  /** Completing a registration: the pending user becomes active with its address verified and gets the new password. */
  lemma ActivationOutcome(c: Config, s: Sys, v: Id, row: Challenge, h: Option<Hash>, s': Sys)
    requires Inv(c, s) && Step(c, s, ActivateCommit(VerifyCall(v, row, h)), s')
    ensures var db, db', u := s.db, s'.db, row.user;
            && Consumes(db, db', v, row)
            && db.users[u].status.Pending? && db.users[u].email == Some(row.email)
            && db'.users == db.users[u := db.users[u].(status := Active, verified := true, recovery := true)]
            && db.next !in db.accounts && db'.accounts == db.accounts[db.next := Account(u, Credential, Identity(Local, u), h, 1, false)]
            && Noticed(db.mail, db'.mail, db'.users[u])
            && db'.audit == db.audit + [Audit(AuditVerify(VerifyRegister), u, u)]
            && db' == db.(next := db.next + 1, users := db'.users, accounts := db'.accounts, challenges := db'.challenges, mail := db'.mail, audit := db'.audit)
  {
    hide Inventory, SessionsOk, FlowsOk, ChallengesOk, Claims, Links, Evidence, History, PresentedOk, CallsOk, UsersOk, AccountsOk, CanInsertAccount;
  }

  /** A reset stores the new password and raises the account's and the user's version; every session ends. */
  lemma ResetOutcome(c: Config, s: Sys, v: Id, row: Challenge, h: Option<Hash>, a: Id, s': Sys)
    requires Step(c, s, ResetCommit(VerifyCall(v, row, h), a), s')
    ensures var db, db', u := s.db, s'.db, row.user;
            && Consumes(db, db', v, row)
            && db.users[u].status.Active? && db.users[u].verified && db.users[u].recovery && db.users[u].email == Some(row.email)
            && a in db.accounts && db.accounts[a].user == u && db.accounts[a].provider.Credential? && !db.accounts[a].revoked
            && h.Some? && db'.accounts == db.accounts[a := db.accounts[a].(hash := h, version := db.accounts[a].version + 1)]
            && db'.users == db.users[u := db.users[u].(version := db.users[u].version + 1)]
            && SessionsEnded(db.sessions, db'.sessions, u)
            && Noticed(db.mail, db'.mail, db.users[u])
            && db'.audit == db.audit + [Audit(AuditVerify(VerifyReset), u, u)]
            && db' == db.(users := db'.users, accounts := db'.accounts, sessions := db'.sessions, challenges := db'.challenges, mail := db'.mail, audit := db'.audit)
  {
  }

  /**
   An email change moves exactly this user to exactly the confirmed address, takes it from nobody but
   pending placeholders, finishes the proof that named it, and tells the previous address.
   */
  lemma EmailMoveOutcome(c: Config, s: Sys, v: Id, row: Challenge, h: Option<Hash>, s': Sys)
    requires Step(c, s, EmailCommit(VerifyCall(v, row, h)), s')
    ensures var db, db', u := s.db, s'.db, row.user;
            && Consumes(db, db', v, row)
            && row.session.Some? && SessionValid(db, row.session.value, u)
            && row.parent.Some? && row.parent.value in db.flows
            && db'.users.Keys == db.users.Keys
            && db'.users[u] == db.users[u].(email := Some(row.email), verified := true, recovery := true, version := db.users[u].version + 1)
            && (forall w | w in db.users && w != u && db.users[w].email == Some(row.email) ::
                  db.users[w].status.Pending? && db'.users[w] == db.users[w].(email := None, version := db.users[w].version + 1))
            && (forall w | w in db.users && w != u && db.users[w].email != Some(row.email) :: db'.users[w] == db.users[w])
            && SessionsEnded(db.sessions, db'.sessions, u)
            && db'.flows == db.flows[row.parent.value := Finished(db.flows[row.parent.value])]
            && Noticed(db.mail, db'.mail, db.users[u])
            && db'.audit == db.audit + [Audit(AuditVerify(VerifyChange), u, u)]
            && db' == db.(users := db'.users, sessions := db'.sessions, flows := db'.flows, challenges := db'.challenges, mail := db'.mail, audit := db'.audit)
  {
    hide LiveAccount, AccountEnabled, Open;
  }

  // ---- logins and passwords

  /** A login opens one session for the account; at most the salt of its hash changes, and only if it was the verified one. */
  lemma LoginOutcome(c: Config, s: Sys, u: Id, row: User, a: Id, accountRow: Account, password: Password, upgrade: Option<Hash>, s': Sys)
    requires Inv(c, s) && Step(c, s, LoginCommit(LoginCall(u, row, a, accountRow, password, upgrade)), s')
    ensures var db, db' := s.db, s'.db;
            && u in db.users && db.users[u].status.Active? && a in db.accounts
            && LoggedInAs(c, db, db', db.next, u, a)
            && db'.accounts == db.accounts[a := db.accounts[a].(hash := if upgrade.Some? && db.accounts[a].hash == accountRow.hash then upgrade else db.accounts[a].hash)]
            && db'.audit == db.audit + [Audit(AuditLogin, u, db.next)]
            && db' == db.(next := db.next + 1, accounts := db'.accounts, sessions := db'.sessions, audit := db'.audit)
  {
    hide Inventory, SessionsOk, FlowsOk, ChallengesOk, Claims, Links, Evidence, History, PresentedOk, CallsOk, UsersOk, AccountsOk;
  }

  /** A password change, by a valid session, stores the new password and ends the epoch. */
  lemma PasswordOutcome(c: Config, s: Sys, r: Request, row: User, a: Id, accountRow: Account, current: Option<Password>, p: Option<Id>, h: Hash, s': Sys)
    requires Step(c, s, PasswordCommit(PasswordCall(r, row, Some((a, accountRow)), current, p, h)), s')
    ensures var db, db', u := s.db, s'.db, r.user;
            && SessionValid(db, r.session, u)
            && a in db.accounts && db.accounts[a].user == u && db.accounts[a].provider.Credential? && !db.accounts[a].revoked
            && db'.accounts == db.accounts[a := db.accounts[a].(hash := Some(h), version := db.accounts[a].version + 1)]
            && db'.users == db.users[u := db.users[u].(version := db.users[u].version + 1)]
            && SessionsEnded(db.sessions, db'.sessions, u)
            && Noticed(db.mail, db'.mail, db.users[u])
            && db'.audit == db.audit + [Audit(AuditPassword, u, u)]
            && db' == db.(users := db'.users, accounts := db'.accounts, sessions := db'.sessions, mail := db'.mail, audit := db'.audit)
  {
    hide Open;
  }

  /** A first password, by a valid session of a user with a verified address, is inserted; the proof is finished and the epoch ends. */
  lemma FirstPasswordOutcome(c: Config, s: Sys, r: Request, row: User, current: Option<Password>, p: Id, h: Hash, s': Sys)
    requires Inv(c, s) && Step(c, s, FirstPasswordCommit(PasswordCall(r, row, None, current, Some(p), h)), s')
    ensures var db, db', u := s.db, s'.db, r.user;
            && SessionValid(db, r.session, u) && db.users[u].verified && p in db.flows
            && (forall a | a in db.accounts && db.accounts[a].user == u && db.accounts[a].provider.Credential? :: db.accounts[a].revoked)
            && db.next !in db.accounts && db'.accounts == db.accounts[db.next := Account(u, Credential, Identity(Local, u), Some(h), 1, false)]
            && db'.users == db.users[u := db.users[u].(version := db.users[u].version + 1)]
            && SessionsEnded(db.sessions, db'.sessions, u)
            && db'.flows == db.flows[p := Finished(db.flows[p])]
            && Noticed(db.mail, db'.mail, db.users[u])
            && db'.audit == db.audit + [Audit(AuditPassword, u, u)]
            && db' == db.(next := db.next + 1, users := db'.users, accounts := db'.accounts, sessions := db'.sessions, flows := db'.flows, mail := db'.mail, audit := db'.audit)
  {
    hide Inventory, SessionsOk, FlowsOk, ChallengesOk, Claims, Links, Evidence, History, PresentedOk, CallsOk, UsersOk, AccountsOk, CanInsertAccount, LiveAccounts, Open, AccountEnabled;
    assert forall a | a in s.db.accounts && s.db.accounts[a].user == r.user && s.db.accounts[a].provider.Credential? && !s.db.accounts[a].revoked ::
      LiveCredential(s.db.accounts, a, r.user);
  }

  // ---- flows

  /** An inserted proof is the checked row: five minutes to live, for the reader's session and version, proving the account at the version read. */
  lemma InsertOutcome(c: Config, s: Sys, flow: Flow, presented: Option<Password>, s': Sys)
    requires Inv(c, s) && Step(c, s, InsertCommit(InsertCall(flow, presented)), s')
    ensures s.db.next !in s.db.flows
    ensures s'.db == s.db.(next := s.db.next + 1, flows := s.db.flows[s.db.next := flow.(expires := s.db.now + 300 * SECOND)])
    ensures flow.purpose.Reauthenticate? && flow.claimedBy.None? && flow.identity.None?
    ensures flow.status.Waiting? || (flow.status.Authorized? && presented.Some?)
  {
    hide Inventory, SessionsOk, FlowsOk, ChallengesOk, Claims, Links, Evidence, History, PresentedOk, UsersOk, AccountsOk;
    assert CallOk(s.db, InsertCall(flow, presented));
  }

  /** The proof row that a password reauthentication prepares, in the state of its check. */
  lemma PasswordProofRow(c: Config, s: Sys, r: Request, row: User, a: Id, accountRow: Account, g: Grant, password: Password, s': Sys)
    requires Inv(c, s) && Step(c, s, ReauthenticateCheck(ReauthenticateCall(r, row, a, accountRow, g, password)), s')
    ensures && SessionValid(s.db, r.session, r.user)
            && a in s.db.accounts && s.db.accounts[a].user == r.user && !s.db.accounts[a].revoked
            && s.db.accounts[a].hash.Some? && s.db.accounts[a].hash.value.password == password
            && exists flow :: && InsertCall(flow, Some(password)) in s'.calls && flow.purpose.Reauthenticate? && flow.status.Authorized?
                              && flow.binding == Some(Binding(r.user, r.session, s.db.users[r.user].version))
                              && flow.proving == Some(Proving(a, s.db.accounts[a].version)) && flow.grant == Some(g)
  {
    hide Inventory, SessionsOk, FlowsOk, ChallengesOk, Claims, Links, Evidence, History, PresentedOk, UsersOk, AccountsOk, Open;
    assert CallOk(s.db, ReauthenticateCall(r, row, a, accountRow, g, password));
    var flow := ProofRow(r, row, a, accountRow, g);
    assert InsertCall(flow, Some(password)) in s'.calls && flow.purpose.Reauthenticate?;
  }

  /** The flow that a reauthentication through a provider prepares, in the state of its check. */
  lemma ProviderProofRow(c: Config, s: Sys, r: Request, a: Id, g: Grant, s': Sys)
    requires Step(c, s, StartReauthenticationCheck(r, a, g), s')
    ensures SessionValid(s.db, r.session, r.user) && g != UnlinkAccount(a)
    ensures a in s.db.accounts && s.db.accounts[a].user == r.user && !s.db.accounts[a].revoked
    ensures s.db.accounts[a].provider.External? && s.db.accounts[a].provider.name in c.enabled
    ensures exists flow :: && InsertCall(flow, None) in s'.calls && flow.purpose.Reauthenticate? && flow.status.Waiting?
                           && flow.provider == Some(s.db.accounts[a].provider)
                           && flow.binding == Some(Binding(r.user, r.session, s.db.users[r.user].version))
                           && flow.proving == Some(Proving(a, s.db.accounts[a].version)) && flow.grant == Some(g)
  {
    hide Open;
    var flow := ReauthenticationRow(s.db, r, a, g);
    assert InsertCall(flow, None) in s'.calls && flow.purpose.Reauthenticate?;
  }

  /** A public flow waits for five minutes, for an enabled provider, and belongs to nobody. */
  lemma PublicFlowOutcome(c: Config, s: Sys, purpose: FlowPurpose, p: Provider, s': Sys)
    requires Step(c, s, StartPublic(purpose, p), s')
    ensures (purpose.Login? || purpose.SignUp?) && p.External? && p.name in c.enabled
    ensures s'.db == s.db.(next := s.db.next + 1,
                           flows := s.db.flows[s.db.next := Flow(purpose, Waiting, Some(p), None, None, None, None, None, true, None, s.db.now + 300 * SECOND)])
  {
  }

  /** Starting a link claims the proof, which named this provider, for exactly the new flow. */
  lemma LinkStartOutcome(c: Config, s: Sys, r: Request, version: nat, provider: Provider, p: Id, s': Sys)
    requires Inv(c, s) && Step(c, s, LinkCommit(LinkCall(r, version, provider, p)), s')
    ensures var db, db' := s.db, s'.db;
            && p in db.flows && db.flows[p].status.Authorized? && db.flows[p].expires > db.now
            && db.flows[p].grant == Some(LinkAccount(provider)) && db.flows[p].binding == Some(Binding(r.user, r.session, version))
            && db.next !in db.flows
            && db'.flows == db.flows[db.next := Flow(LinkIdentity, Waiting, Some(provider), db.flows[p].binding, None, db.flows[p].grant, Some(p), None, true, None, db.now + 300 * SECOND)]
                                    [p := db.flows[p].(status := Claimed, claimedBy := Some(db.next))]
            && db' == db.(next := db.next + 1, flows := db'.flows)
  {
    hide Inventory, SessionsOk, FlowsOk, ChallengesOk, Claims, Links, Evidence, History, PresentedOk, UsersOk, AccountsOk;
    assert CallOk(s.db, LinkCall(r, version, provider, p));
  }

  /** Claiming and failing a callback touch exactly that flow. */
  lemma CallbackOutcome(c: Config, s: Sys, e: Event, s': Sys)
    requires Step(c, s, e, s') && (e.CallbackClaim? || e.CallbackFail?)
    ensures e.flow in s.db.flows
    ensures e.CallbackClaim? ==> && s.db.flows[e.flow].status.Waiting? && s.db.flows[e.flow].expires > s.db.now
                                 && s'.db == s.db.(flows := s.db.flows[e.flow := s.db.flows[e.flow].(status := Processing)])
    ensures e.CallbackFail? ==> s'.db == if s.db.flows[e.flow].status.Waiting? || s.db.flows[e.flow].status.Processing?
                                         then s.db.(flows := s.db.flows[e.flow := s.db.flows[e.flow].(status := Failed, protocol := false)]) else s.db
  {
  }

  /** A bound callback writes down the identity that the provider verified, on a flow in processing; only that flow changes. */
  lemma BoundOutcome(c: Config, s: Sys, f: Id, i: Identity, s': Sys)
    requires Inv(c, s) && Step(c, s, BoundCommit(BoundCall(f, i)), s')
    ensures && f in s.db.flows && s.db.flows[f].status.Processing? && s.db.flows[f].expires > s.db.now
            && (s.db.flows[f].purpose.LinkIdentity? || s.db.flows[f].purpose.Reauthenticate?)
            && s'.db == s.db.(flows := s.db.flows[f := s.db.flows[f].(
                                status := if s.db.flows[f].purpose.LinkIdentity? then Verified else Authorized, identity := Some(i), protocol := false)])
            && (s.db.flows[f].proving.Some? ==> s.db.flows[f].proving.value.account in s.db.accounts
                                                && s.db.accounts[s.db.flows[f].proving.value.account].identity == i)
  {
    hide Inventory, SessionsOk, FlowsOk, ChallengesOk, Claims, Links, Evidence, History, PresentedOk, UsersOk, AccountsOk;
    assert CallOk(s.db, BoundCall(f, i));
  }

  /** A provider login opens one session for the user that holds the verified identity, and finishes the flow. */
  lemma ProviderLoginOutcome(c: Config, s: Sys, f: Id, i: Identity, a: Id, row: Account, s': Sys)
    requires Inv(c, s) && Step(c, s, FinishLogin(FoundCall(f, i, Some((a, row)))), s')
    ensures var db, db', u := s.db, s'.db, row.user;
            && f in db.flows && db.flows[f].status.Processing? && db.flows[f].expires > db.now
            && (db.flows[f].purpose.Login? || db.flows[f].purpose.SignUp?)
            && u in db.users && db.users[u].status.Active?
            && a in db.accounts && db.accounts[a].user == u && !db.accounts[a].revoked && db.accounts[a].identity == i
            && (db.accounts[a].provider.External? ==> db.accounts[a].provider.name in c.enabled)
            && LoggedInAs(c, db, db', db.next, u, a)
            && db'.flows == db.flows[f := Finished(db.flows[f])]
            && db'.audit == db.audit + [Audit(AuditLogin, u, db.next)]
            && db' == db.(next := db.next + 1, sessions := db'.sessions, flows := db'.flows, audit := db'.audit)
  {
    hide Inventory, SessionsOk, FlowsOk, ChallengesOk, Claims, Links, Evidence, History, PresentedOk, UsersOk, AccountsOk;
    assert CallOk(s.db, FoundCall(f, i, Some((a, row))));
  }

  /** A sign-up inserts an active user without an address, the account of the verified identity, and one session. */
  lemma SignUpOutcome(c: Config, s: Sys, f: Id, i: Identity, s': Sys)
    requires Inv(c, s) && Step(c, s, FinishSignUp(FoundCall(f, i, None)), s')
    ensures var db, db', u, a := s.db, s'.db, s.db.next, s.db.next + 1;
            && f in db.flows && db.flows[f].status.Processing? && db.flows[f].expires > db.now && db.flows[f].provider.Some?
            && (forall b | b in db.accounts && !db.accounts[b].revoked :: db.accounts[b].identity != i)
            && u !in db.users && db'.users == db.users[u := User(Active, None, false, false, 1)]
            && a !in db.accounts && db'.accounts == db.accounts[a := Account(u, db.flows[f].provider.value, i, None, 1, false)]
            && LoggedInAs(c, db, db', db.next + 2, u, a)
            && db'.flows == db.flows[f := Finished(db.flows[f])]
            && db'.audit == db.audit + [Audit(AuditRegister, u, u)] + [Audit(AuditLogin, u, db.next + 2)]
            && db' == db.(next := db.next + 3, users := db'.users, accounts := db'.accounts, sessions := db'.sessions, flows := db'.flows, audit := db'.audit)
  {
    hide Inventory, SessionsOk, FlowsOk, ChallengesOk, Claims, Links, Evidence, History, PresentedOk, UsersOk, AccountsOk, CallsOk, HasCredential;
    assert forall b | b in s.db.accounts && !s.db.accounts[b].revoked && s.db.accounts[b].identity == i :: HoldsIdentity(s.db.accounts, b, i);
  }

  // ---- linking and unlinking

  /** A confirmed link gives the user the verified identity, which nobody held or it held itself, and finishes flow and proof. */
  lemma LinkOutcome(c: Config, s: Sys, r: Request, f: Id, found: Option<Id>, s': Sys)
    requires Inv(c, s) && Step(c, s, ConfirmLink(r, f, found), s')
    ensures var db, db' := s.db, s'.db;
            && SessionValid(db, r.session, r.user)
            && f in db.flows && db.flows[f].purpose.LinkIdentity? && db.flows[f].status.Verified? && db.flows[f].expires > db.now
            && db.flows[f].binding == Some(Binding(r.user, r.session, db.users[r.user].version))
            && db.flows[f].identity.Some? && db.flows[f].provider.Some? && db.flows[f].parent.Some?
            && var i, p := db.flows[f].identity.value, db.flows[f].parent.value;
            && p in db.flows && db'.flows == db.flows[p := Finished(db.flows[p])][f := Finished(db.flows[f])]
            && (found.Some? ==> && found.value in db.accounts && !db.accounts[found.value].revoked
                                && db.accounts[found.value].identity == i && db.accounts[found.value].user == r.user && db'.accounts == db.accounts)
            && (found.None? ==> && db.next !in db.accounts && (forall b | b in db.accounts && !db.accounts[b].revoked :: db.accounts[b].identity != i)
                                && db'.accounts == db.accounts[db.next := Account(r.user, db.flows[f].provider.value, i, None, 1, false)])
            && Noticed(db.mail, db'.mail, db.users[r.user])
            && db'.audit == db.audit + [Audit(AuditLink, r.user, if found.Some? then found.value else db.next)]
            && db' == db.(next := db'.next, accounts := db'.accounts, flows := db'.flows, mail := db'.mail, audit := db'.audit)
  {
    hide Inventory, SessionsOk, FlowsOk, ChallengesOk, Claims, Links, Evidence, History, PresentedOk, UsersOk, AccountsOk, CallsOk, Open, CanInsertAccount, LiveAccounts, AccountEnabled;
    if found.None? {
      var i := s.db.flows[f].identity.value;
      assert forall b | b in s.db.accounts && !s.db.accounts[b].revoked && s.db.accounts[b].identity == i :: HoldsIdentity(s.db.accounts, b, i);
    }
  }

  /** An unlink revokes exactly the named account of the caller, finishes the proof and ends the epoch. */
  lemma UnlinkOutcome(c: Config, s: Sys, r: Request, a: Id, p: Id, s': Sys)
    requires Step(c, s, Unlink(r, a, p), s')
    ensures var db, db', u := s.db, s'.db, r.user;
            && SessionValid(db, r.session, u)
            && a in db.accounts && db.accounts[a].user == u && !db.accounts[a].revoked && p in db.flows
            && db'.accounts == db.accounts[a := db.accounts[a].(revoked := true, version := db.accounts[a].version + 1)]
            && (exists b | b in db.accounts :: b != a && db.accounts[b].user == u && !db.accounts[b].revoked
                                               && (db.accounts[b].provider.External? ==> db.accounts[b].provider.name in c.enabled))
            && db'.users == db.users[u := db.users[u].(version := db.users[u].version + 1)]
            && SessionsEnded(db.sessions, db'.sessions, u)
            && db'.flows == db.flows[p := Finished(db.flows[p])]
            && Noticed(db.mail, db'.mail, db.users[u])
            && db'.audit == db.audit + [Audit(AuditUnlink, u, a)]
            && db' == db.(users := db'.users, accounts := db'.accounts, sessions := db'.sessions, flows := db'.flows, mail := db'.mail, audit := db'.audit)
  {
    hide Open;
  }

  // ---- what a proof must match

  /** The session of the call that commits a sensitive write. */
  function WritingSession(e: Event): Option<Id> {
    match e
    case EmailCommit(k) => if k.VerifyCall? then k.chRow.session else None
    case FirstPasswordCommit(k) => if k.PasswordCall? then Some(k.request.session) else None
    case ConfirmLink(r, _, _) => Some(r.session)
    case Unlink(r, _, _) => Some(r.session)
    case _ => None
  }

  /**
   When a sensitive write commits, every part of its proof still matches: purpose and one-time status,
   owner, the very session that writes, operation with target, expiry, the user's version and status,
   and the proving account, unrevoked, enabled and at the version it was proved at.
   */
  lemma ProofMatchesWrite(c: Config, s: Sys, e: Event, s': Sys)
    requires Step(c, s, e, s') && Spent(s.db, e).Some?
    ensures var db, w := s.db, Spent(s.db, e).value;
            && w.proof in db.flows
            && var proof := db.flows[w.proof];
            && proof.purpose.Reauthenticate? && proof.expires > db.now && proof.grant == Some(w.grant)
            && (if w.child.None? then proof.status.Authorized? else proof.status.Claimed? && proof.claimedBy == w.child)
            && proof.binding.Some? && proof.binding.value.user == w.user && Some(proof.binding.value.session) == WritingSession(e)
            && w.user in db.users && db.users[w.user].status.Active? && db.users[w.user].version == proof.binding.value.version
            && SessionValid(db, proof.binding.value.session, w.user)
            && proof.proving.Some?
            && var p := proof.proving.value;
            && p.account in db.accounts && db.accounts[p.account].user == w.user && !db.accounts[p.account].revoked
            && db.accounts[p.account].version == p.version
            && (db.accounts[p.account].provider.External? ==> db.accounts[p.account].provider.name in c.enabled)
  {
    hide Open, CanInsertAccount, HasCredential, IdentityTaken, LiveAccounts, EmailMoved, FirstPasswordSet, LinkConfirmed, Unlinked, Releasable;
  }
}
