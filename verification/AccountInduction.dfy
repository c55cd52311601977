/** The whole transactions, composed of the statements of AccountPreservation, and induction over runs. */
module AccountInduction {
  import opened Wrappers
  import opened SessionClock
  import opened AccountTables
  import opened AccountProtocol
  import opened AccountEvolution
  import opened AccountInvariant
  import opened AccountPreservation

  // ---- the account insertions, as joins

  /** The row of u is written and account a is inserted for it. */
  function Joined(db: Db, u: Id, userRow: User, a: Id, row: Account): Db {
    db.(next := a + 1, users := db.users[u := userRow], accounts := db.accounts[a := row])
  }

  lemma JoinedSameUser(db: Db, u: Id, a: Id, row: Account)
    requires u in db.users
    ensures Joined(db, u, db.users[u], a, row) == db.(next := a + 1, accounts := db.accounts[a := row])
  {
    assert db.users[u := db.users[u]] == db.users;
  }

  lemma ActivationJoins(db: Db, v: Id, row: Challenge, hash: Hash)
    requires FreshIds(db) && UsersOk(db.users) && CanActivate(db, v, row, hash)
    ensures var u := db.users[row.user].(status := Active, verified := true, recovery := true);
            Joins(db, Joined(db, row.user, u, db.next, CredentialRow(row.user, hash)), row.user, db.next)
  {
    assert UserOk(db.users[row.user]);
  }

  lemma SignUpJoins(db: Db, p: Provider, i: Identity)
    requires FreshIds(db) && CanInsertAccount(db.accounts, ExternalRow(db.next, p, i)) && p.External?
    ensures Joins(db, Joined(db, db.next, User(Active, None, false, false, 1), db.next + 1, ExternalRow(db.next, p, i)), db.next, db.next + 1)
  {
  }

  /** A non-pending user with room for one more account gets one. */
  lemma ExtraAccountJoins(db: Db, u: Id, row: Account)
    requires FreshIds(db) && UsersOk(db.users)
    requires u in db.users && !db.users[u].status.Pending? && |LiveAccounts(db.accounts, u)| < MAX_LOGIN_ACCOUNTS
    requires row.user == u && row.version == 1 && !row.revoked && CanInsertAccount(db.accounts, row)
    requires row.provider.Credential? ==> db.users[u].verified
    ensures Joins(db, Joined(db, u, db.users[u], db.next, row), u, db.next)
  {
    hide CanInsertAccount, LiveAccounts;
    assert UserOk(db.users[u]);
    assert AccountOk(db.users, row) by {
      InsertableShape(db.accounts, row);
    }
    JoinedSameUser(db, u, db.next, row);
  }

  lemma InsertableShape(accounts: map<Id, Account>, row: Account)
    requires CanInsertAccount(accounts, row)
    ensures row.provider.Credential? <==> row.hash.Some?
    ensures row.provider.Credential? ==> row.identity == Identity(Local, row.user)
    ensures row.provider.External? ==> row.identity.space.Remote?
  {
  }

  lemma KeepsExtraAccount(c: Config, s: Sys, u: Id, row: Account)
    requires Inv(c, s)
    requires u in s.db.users && !s.db.users[u].status.Pending? && |LiveAccounts(s.db.accounts, u)| < MAX_LOGIN_ACCOUNTS
    requires row.user == u && row.version == 1 && !row.revoked && CanInsertAccount(s.db.accounts, row)
    requires row.provider.Credential? ==> s.db.users[u].verified
    ensures Inv(c, Commit(s, s.db.(next := s.db.next + 1, accounts := s.db.accounts[s.db.next := row])))
    ensures SysEvolves(s, Commit(s, s.db.(next := s.db.next + 1, accounts := s.db.accounts[s.db.next := row])))
  {
    hide Inventory, SessionsOk, FlowsOk, ChallengesOk, Claims, Links, Evidence, History, PresentedOk, AccountsOk, SysEvolves, CallsOk, Joins, CanInsertAccount, LiveAccounts;
    ExtraAccountJoins(s.db, u, row);
    hide Inv;
    KeepsJoin(c, s, Joined(s.db, u, s.db.users[u], s.db.next, row), u, s.db.next);
    JoinedSameUser(s.db, u, s.db.next, row);
  }

  // ---- logins

  lemma LoginSnapshot(db: Db, k: Call)
    requires CallOk(db, k) && k.LoginCall? && CanLogin(db, k.user, k.row, k.account, k.accountRow)
    ensures Represents(db.accounts[k.account].hash, k.password)
    ensures LiveCredential(db.accounts, k.account, k.user)
    ensures k.upgrade.Some? ==> Represents(k.upgrade, k.password)
  {
  }

  lemma KeepsLogin(c: Config, s: Sys, k: Call)
    requires Inv(c, s) && k in s.calls && k.LoginCall? && CanLogin(s.db, k.user, k.row, k.account, k.accountRow)
    ensures Inv(c, Commit(s, LoggedIn(c, s.db, k.user, k.account, k.accountRow, k.upgrade)))
    ensures SysEvolves(s, Commit(s, LoggedIn(c, s.db, k.user, k.account, k.accountRow, k.upgrade)))
  {
    assert CallOk(s.db, k) by { hide Tables, Evidence, History; }
    LoginSnapshot(s.db, k);
    hide Inv, SysEvolves;
    var s1 := s;
    if k.upgrade.Some? && s.db.accounts[k.account].hash == k.accountRow.hash {
      var row := s.db.accounts[k.account].(hash := k.upgrade);
      s1 := Commit(s, s.db.(accounts := s.db.accounts[k.account := row]));
      KeepsHash(c, s, k.account, row);
    } else {
      SysEvolvesRefl(s);
    }
    KeepsSessionAdded(c, s1, k.user, k.account);
    SysEvolvesTrans(s, s1, Commit(s, LoggedIn(c, s.db, k.user, k.account, k.accountRow, k.upgrade)));
  }

  lemma LoginFlowAdvances(db: Db, f: Id)
    requires FlowsOk(db.users, db.accounts, db.sessions, db.flows) && FlowProcessing(db, f)
    requires db.flows[f].purpose.Login? || db.flows[f].purpose.SignUp?
    ensures Advances(db, f, db.flows[f].(status := Consumed, protocol := false))
  {
    assert FlowOk(db.users, db.accounts, db.sessions, db.flows[f]);
  }

  lemma KeepsFinishLogin(c: Config, s: Sys, k: Call)
    requires Inv(c, s) && k in s.calls && k.FoundCall? && k.found.Some?
    requires CanFinishLogin(c, s.db, k.flowId, k.found.value.0, k.found.value.1)
    ensures Inv(c, Commit(s, LoginFinished(c, s.db, k.flowId, k.found.value.0, k.found.value.1)))
    ensures SysEvolves(s, Commit(s, LoginFinished(c, s.db, k.flowId, k.found.value.0, k.found.value.1)))
  {
    assert CallOk(s.db, k);
    LoginFlowAdvances(s.db, k.flowId);
    hide Inv, SysEvolves, Advances;
    var s1 := Commit(s, s.db.(flows := SetFlow(s.db.flows, k.flowId, Consumed)));
    KeepsAdvance(c, s, k.flowId, s.db.flows[k.flowId].(status := Consumed, protocol := false));
    KeepsSessionAdded(c, s1, k.found.value.1.user, k.found.value.0);
    SysEvolvesTrans(s, s1, Commit(s, LoginFinished(c, s.db, k.flowId, k.found.value.0, k.found.value.1)));
  }

  lemma KeepsSignUp(c: Config, s: Sys, k: Call)
    requires Inv(c, s) && k in s.calls && k.FoundCall? && k.found.None? && CanSignUp(s.db, k.flowId, k.identity)
    ensures Inv(c, Commit(s, SignedUp(c, s.db, k.flowId, k.identity))) && SysEvolves(s, Commit(s, SignedUp(c, s.db, k.flowId, k.identity)))
  {
    hide Inventory, SessionsOk, ChallengesOk, Claims, Links, Evidence, History, PresentedOk, AccountsOk, UsersOk, FlowsOk, SysEvolves, Joins, CanInsertAccount, SetFlow, Log,
         Advances, ExternalRow, AddSession;
    assert CallOk(s.db, k);
    LoginFlowAdvances(s.db, k.flowId);
    var u, a, p := s.db.next, s.db.next + 1, s.db.flows[k.flowId].provider.value;
    SignUpJoins(s.db, p, k.identity);
    hide Inv, CallOk, CanSignUp, SignedUp, FreshIds;
    var db1 := Joined(s.db, u, User(Active, None, false, false, 1), a, ExternalRow(u, p, k.identity));
    KeepsJoin(c, s, db1, u, a);
    FlowStillAdvances(s.db, db1, k.flowId);
    KeepsSignedUpSession(c, Commit(s, db1), k.flowId, u, a);
    SignedUpAs(c, s.db, k.flowId, k.identity);
    SysEvolvesTrans(s, Commit(s, db1), Commit(s, SignedUp(c, s.db, k.flowId, k.identity)));
  }

  lemma FlowStillAdvances(db: Db, db': Db, f: Id)
    requires f in db.flows && db'.flows == db.flows
    requires (db.flows[f].purpose.Login? || db.flows[f].purpose.SignUp?)
    requires Advances(db, f, db.flows[f].(status := Consumed, protocol := false))
    ensures Advances(db', f, db'.flows[f].(status := Consumed, protocol := false))
  {
  }

  lemma KeepsSignedUpSession(c: Config, s: Sys, f: Id, u: Id, a: Id)
    requires Inv(c, s) && f in s.db.flows && (s.db.flows[f].purpose.Login? || s.db.flows[f].purpose.SignUp?)
    requires Advances(s.db, f, s.db.flows[f].(status := Consumed, protocol := false))
    requires u in s.db.users && s.db.users[u].status.Active?
    ensures var db' := AddSession(c, s.db.(flows := SetFlow(s.db.flows, f, Consumed), audit := Log(s.db.audit, AuditRegister, u, u)), u, a);
            Inv(c, Commit(s, db')) && SysEvolves(s, Commit(s, db'))
  {
    hide Inv, SysEvolves, Advances, AddSession, Evident;
    var s1 := Commit(s, s.db.(flows := SetFlow(s.db.flows, f, Consumed)));
    assert Evident(s.db.accounts, s1.db.flows, s.presented, f) by {
      LoginEvident(s, f);
    }
    KeepsAdvance(c, s, f, s.db.flows[f].(status := Consumed, protocol := false));
    var s2 := Commit(s1, s1.db.(mail := s.db.mail, audit := Log(s.db.audit, AuditRegister, u, u)));
    KeepsAppend(c, s1, s.db.mail, Log(s.db.audit, AuditRegister, u, u));
    KeepsSessionAdded(c, s2, u, a);
    SysEvolvesTrans(s, s1, s2);
    SysEvolvesTrans(s, s2, Commit(s2, AddSession(c, s2.db, u, a)));
  }

  lemma LoginEvident(s: Sys, f: Id)
    requires f in s.db.flows && (s.db.flows[f].purpose.Login? || s.db.flows[f].purpose.SignUp?)
    ensures Evident(s.db.accounts, SetFlow(s.db.flows, f, Consumed), s.presented, f)
  {
  }

  lemma SignedUpAs(c: Config, db: Db, f: Id, i: Identity)
    requires f in db.flows && db.flows[f].provider.Some?
    ensures var u, p := db.next, db.flows[f].provider.value;
            var db1 := Joined(db, u, User(Active, None, false, false, 1), u + 1, ExternalRow(u, p, i));
            SignedUp(c, db, f, i) == AddSession(c, db1.(flows := SetFlow(db1.flows, f, Consumed), audit := Log(db1.audit, AuditRegister, u, u)), u, u + 1)
  {
  }

  // ---- challenges

  lemma VerifySnapshot(db: Db, k: Call)
    requires CallOk(db, k) && k.VerifyCall? && ChallengesOk(db.users, db.challenges)
    ensures k.challenge in db.challenges && db.challenges[k.challenge] == k.chRow.(consumed := db.challenges[k.challenge].consumed)
    ensures k.chRow.user in db.users && k.chRow.version <= db.users[k.chRow.user].version
  {
    assert ChallengeOk(db.users, db.challenges[k.challenge]);
  }

  lemma VerifyFacts(c: Config, s: Sys, k: Call)
    requires Inv(c, s) && k in s.calls && k.VerifyCall?
    ensures k.challenge in s.db.challenges && k.challenge !in s.db.flows
    ensures s.db.challenges[k.challenge].purpose == k.chRow.purpose
    ensures FreshIds(s.db) && UsersOk(s.db.users) && FlowsOk(s.db.users, s.db.accounts, s.db.sessions, s.db.flows)
  {
    hide Inventory, SessionsOk, FlowsOk, ChallengesOk, Claims, Links, Evidence, History, PresentedOk, AccountsOk, UsersOk;
    assert CallOk(s.db, k);
  }

  lemma KeepsActivate(c: Config, s: Sys, k: Call)
    requires Inv(c, s) && k in s.calls && k.VerifyCall? && k.chRow.purpose.VerifyRegister? && k.newHash.Some?
    requires CanActivate(s.db, k.challenge, k.chRow, k.newHash.value)
    ensures Inv(c, Commit(s, Activated(s.db, k.challenge, k.chRow, k.newHash.value)))
    ensures SysEvolves(s, Commit(s, Activated(s.db, k.challenge, k.chRow, k.newHash.value)))
  {
    hide Inv, SysEvolves, FreshIds, UsersOk, FlowsOk, Joins, Notify, Log, CanInsertAccount;
    var u := k.chRow.user;
    VerifyFacts(c, s, k);
    ActivationJoins(s.db, k.challenge, k.chRow, k.newHash.value);
    var row := s.db.users[u].(status := Active, verified := true, recovery := true);
    var s1 := Commit(s, Joined(s.db, u, row, s.db.next, CredentialRow(u, k.newHash.value)));
    KeepsJoin(c, s, s1.db, u, s.db.next);
    var s2 := Commit(s1, s1.db.(challenges := ConsumeChallenge(s1.db, k.challenge)));
    KeepsChallengeConsumed(c, s1, k.challenge);
    var mail, audit := Notify(s.db.mail, row), Log(s.db.audit, AuditVerify(VerifyRegister), u, u);
    NotifyAppends(s.db.mail, row);
    LogAppends(s.db.audit, AuditVerify(VerifyRegister), u, u);
    KeepsAppend(c, s2, mail, audit);
    SysEvolvesTrans(s, s1, s2);
    SysEvolvesTrans(s, s2, Commit(s2, s2.db.(mail := mail, audit := audit)));
  }

  lemma NotifyAppends(mail: seq<Mail>, row: User)
    ensures mail <= Notify(mail, row)
  {
  }

  lemma LogAppends(audit: seq<Audit>, action: Action, u: Id, resource: Id)
    ensures audit <= Log(audit, action, u, resource)
  {
  }

  lemma BumpEndsEpoch(users: map<Id, User>, u: Id)
    requires UsersOk(users) && u in users
    ensures EpochEnded(users, u, users[u].(version := users[u].version + 1))
  {
    assert UserOk(users[u]);
  }

  /** The common tail of every transaction that invalidates one user: bump, revoke, append. */
  lemma KeepsInvalidate(c: Config, s: Sys, u: Id, mail: seq<Mail>, audit: seq<Audit>)
    requires Inv(c, s) && u in s.db.users && s.db.mail <= mail && s.db.audit <= audit
    ensures Inv(c, Commit(s, Invalidate(s.db, u).(mail := mail, audit := audit)))
    ensures SysEvolves(s, Commit(s, Invalidate(s.db, u).(mail := mail, audit := audit)))
  {
    BumpEndsEpoch(s.db.users, u);
    hide Inv, SysEvolves, EpochEnded;
    var s1 := Commit(s, Invalidate(s.db, u));
    KeepsEpochEnd(c, s, u, s.db.users[u].(version := s.db.users[u].version + 1), s1.db);
    KeepsAppend(c, s1, mail, audit);
    SysEvolvesTrans(s, s1, Commit(s1, s1.db.(mail := mail, audit := audit)));
  }

  /** A password change on an unrevoked credential account, then the end of the epoch. */
  lemma KeepsNewPassword(c: Config, s: Sys, u: Id, a: Id, hash: Hash, mail: seq<Mail>, audit: seq<Audit>)
    requires Inv(c, s) && u in s.db.users && LiveCredential(s.db.accounts, a, u)
    requires s.db.mail <= mail && s.db.audit <= audit
    ensures Inv(c, Commit(s, Invalidate(s.db, u).(accounts := NewPassword(s.db.accounts, a, hash), mail := mail, audit := audit)))
    ensures SysEvolves(s, Commit(s, Invalidate(s.db, u).(accounts := NewPassword(s.db.accounts, a, hash), mail := mail, audit := audit)))
  {
    hide Inventory, SessionsOk, FlowsOk, ChallengesOk, Claims, Links, Evidence, History, PresentedOk, SysEvolves, CallsOk, RevokeSessions, BumpVersion;
    assert AccountOk(s.db.users, s.db.accounts[a]);
    hide Inv;
    var row := s.db.accounts[a].(hash := Some(hash), version := s.db.accounts[a].version + 1);
    var s1 := Commit(s, s.db.(accounts := s.db.accounts[a := row]));
    KeepsHash(c, s, a, row);
    KeepsInvalidate(c, s1, u, mail, audit);
    SysEvolvesTrans(s, s1, Commit(s1, Invalidate(s1.db, u).(mail := mail, audit := audit)));
  }

  lemma KeepsReset(c: Config, s: Sys, k: Call, a: Id)
    requires Inv(c, s) && k in s.calls && k.VerifyCall? && k.chRow.purpose.VerifyReset? && k.newHash.Some?
    requires CanReset(s.db, k.challenge, k.chRow, a)
    ensures Inv(c, Commit(s, Reset(s.db, k.challenge, k.chRow, a, k.newHash.value)))
    ensures SysEvolves(s, Commit(s, Reset(s.db, k.challenge, k.chRow, a, k.newHash.value)))
  {
    assert CallOk(s.db, k);
    VerifySnapshot(s.db, k);
    hide Inv, SysEvolves;
    var s1 := Commit(s, s.db.(challenges := ConsumeChallenge(s.db, k.challenge)));
    KeepsChallengeConsumed(c, s, k.challenge);
    var mail, audit := Notify(s.db.mail, s.db.users[k.chRow.user]), Log(s.db.audit, AuditVerify(VerifyReset), k.chRow.user, k.chRow.user);
    KeepsNewPassword(c, s1, k.chRow.user, a, k.newHash.value, mail, audit);
    SysEvolvesTrans(s, s1, Commit(s, Reset(s.db, k.challenge, k.chRow, a, k.newHash.value)));
  }

  /** Proof and challenge of an email change are finished together. */
  lemma EmailSpends(c: Config, db: Db, k: Call)
    requires FlowsOk(db.users, db.accounts, db.sessions, db.flows) && FreshIds(db)
    requires k.VerifyCall? && k.chRow.purpose.VerifyChange? && CanMoveEmail(c, db, k.challenge, k.chRow)
    requires db.challenges[k.challenge].purpose.VerifyChange?
    ensures Spends(db.flows, SetFlow(db.flows, k.chRow.parent.value, Consumed), db.challenges, ConsumeChallenge(db, k.challenge),
                   Sensitive(k.chRow.parent.value, ChangeEmail(k.chRow.email), k.chRow.user, Some(k.challenge)))
  {
    assert FlowOk(db.users, db.accounts, db.sessions, db.flows[k.chRow.parent.value]);
  }

  lemma MovedUserEndsEpoch(db: Db, u: Id, e: Email)
    requires UsersOk(db.users) && u in db.users && db.users[u].status.Active?
    requires forall w | w in db.users && w != u && db.users[w].email == Some(e) :: Releasable(db.users, db.accounts, w)
    ensures var users := Release(db.users, db.accounts, e);
            EpochEnded(users, u, users[u].(email := Some(e), verified := true, recovery := true, version := users[u].version + 1))
            && users[u] == db.users[u]
  {
    ReleaseUsers(db.users, db.accounts, e);
  }

  /** The part of an email change after the proof is spent. */
  lemma KeepsAddressMove(c: Config, s: Sys, u: Id, e: Email, mail: seq<Mail>, audit: seq<Audit>)
    requires Inv(c, s) && u in s.db.users && s.db.users[u].status.Active?
    requires forall w | w in s.db.users && w != u && s.db.users[w].email == Some(e) :: Releasable(s.db.users, s.db.accounts, w)
    requires s.db.mail <= mail && s.db.audit <= audit
    ensures var db' := s.db.(users := MovedUsers(s.db, u, e), sessions := RevokeSessions(s.db.sessions, u), mail := mail, audit := audit);
            Inv(c, Commit(s, db')) && SysEvolves(s, Commit(s, db'))
  {
    MovedUserEndsEpoch(s.db, u, e);
    hide Inv, SysEvolves, EpochEnded, Release, RevokeSessions;
    var s1 := Commit(s, s.db.(users := Release(s.db.users, s.db.accounts, e)));
    KeepsRelease(c, s, e);
    var s2 := Commit(s1, s1.db.(users := MovedUsers(s.db, u, e), sessions := RevokeSessions(s.db.sessions, u)));
    KeepsEpochEnd(c, s1, u, MovedUsers(s.db, u, e)[u], s2.db);
    KeepsAppend(c, s2, mail, audit);
    SysEvolvesTrans(s, s1, s2);
    SysEvolvesTrans(s, s2, Commit(s2, s2.db.(mail := mail, audit := audit)));
  }

  function MovedUsers(db: Db, u: Id, e: Email): map<Id, User>
    requires u in db.users
  {
    Release(db.users, db.accounts, e)[u := db.users[u].(email := Some(e), verified := true, recovery := true, version := db.users[u].version + 1)]
  }

  lemma MoveFacts(c: Config, db: Db, k: Call)
    requires k.VerifyCall? && CanMoveEmail(c, db, k.challenge, k.chRow)
    ensures k.chRow.user in db.users && db.users[k.chRow.user].status.Active? && k.chRow.parent.value in db.flows
    ensures forall x | x in db.users && x != k.chRow.user && db.users[x].email == Some(k.chRow.email) :: Releasable(db.users, db.accounts, x)
  {
  }

  lemma KeepsEmailMoved(c: Config, s: Sys, k: Call)
    requires Inv(c, s) && k in s.calls && k.VerifyCall? && k.chRow.purpose.VerifyChange? && CanMoveEmail(c, s.db, k.challenge, k.chRow)
    ensures var s' := Record(s, EmailMoved(s.db, k.challenge, k.chRow),
                             Sensitive(k.chRow.parent.value, ChangeEmail(k.chRow.email), k.chRow.user, Some(k.challenge)));
            Inv(c, s') && SysEvolves(s, s')
  {
    hide Inv, SysEvolves, FreshIds, UsersOk, FlowsOk, Spends, Release, RevokeSessions, Notify, Log, SetFlow;
    var u, e, w := k.chRow.user, k.chRow.email, Sensitive(k.chRow.parent.value, ChangeEmail(k.chRow.email), k.chRow.user, Some(k.challenge));
    VerifyFacts(c, s, k);
    EmailSpends(c, s.db, k);
    MoveFacts(c, s.db, k);
    hide CanMoveEmail, Releasable, ConsumeChallenge;
    var s1 := Record(s, s.db.(flows := SetFlow(s.db.flows, w.proof, Consumed), challenges := ConsumeChallenge(s.db, k.challenge)), w);
    KeepsSpend(c, s, s1.db, w);
    var mail, audit := Notify(s.db.mail, s.db.users[u]), Log(s.db.audit, AuditVerify(VerifyChange), u, u);
    NotifyAppends(s.db.mail, s.db.users[u]);
    LogAppends(s.db.audit, AuditVerify(VerifyChange), u, u);
    KeepsAddressMove(c, s1, u, e, mail, audit);
    var s2 := Record(s, EmailMoved(s.db, k.challenge, k.chRow), w);
    assert s2.db == s1.db.(users := MovedUsers(s1.db, u, e), sessions := RevokeSessions(s1.db.sessions, u), mail := mail, audit := audit);
    SysEvolvesTrans(s, s1, s2);
  }

  // ---- passwords

  lemma KeepsPasswordChanged(c: Config, s: Sys, k: Call)
    requires Inv(c, s) && k in s.calls && k.PasswordCall? && k.target.Some?
    requires CanChangePassword(s.db, k.request, k.row, k.target.value.0, k.target.value.1)
    ensures Inv(c, Commit(s, PasswordChanged(s.db, k.request, k.target.value.0, k.hash)))
    ensures SysEvolves(s, Commit(s, PasswordChanged(s.db, k.request, k.target.value.0, k.hash)))
  {
    hide Inv, SysEvolves;
    KeepsNewPassword(c, s, k.request.user, k.target.value.0, k.hash, Notify(s.db.mail, s.db.users[k.request.user]),
                     Log(s.db.audit, AuditPassword, k.request.user, k.request.user));
  }

  /** A proof without child is finished on its own. */
  lemma ProofSpends(c: Config, db: Db, r: Request, p: Id, g: Grant)
    requires FlowsOk(db.users, db.accounts, db.sessions, db.flows) && Authorizes(c, db, r, p, g, None)
    ensures Spends(db.flows, SetFlow(db.flows, p, Consumed), db.challenges, db.challenges, Sensitive(p, g, r.user, None))
  {
    assert FlowOk(db.users, db.accounts, db.sessions, db.flows[p]);
  }

  lemma KeepsFirstPassword(c: Config, s: Sys, k: Call)
    requires Inv(c, s) && k in s.calls && k.PasswordCall? && k.target.None? && k.proofId.Some?
    requires CanSetFirstPassword(c, s.db, k.request, k.row, k.proofId.value, k.hash)
    ensures var s' := Record(s, FirstPasswordSet(s.db, k.request, k.proofId.value, k.hash), Sensitive(k.proofId.value, SetPassword, k.request.user, None));
            Inv(c, s') && SysEvolves(s, s')
  {
    hide Inventory, SessionsOk, ChallengesOk, Claims, Links, Evidence, History, PresentedOk, AccountsOk, UsersOk, FlowsOk, SysEvolves, CallsOk, Spends, HasCredential, CanInsertAccount, LiveAccounts, SetFlow, RevokeSessions, BumpVersion, Notify, Log;
    var u, p := k.request.user, k.proofId.value;
    var w := Sensitive(p, SetPassword, u, None);
    ProofSpends(c, s.db, k.request, p, SetPassword);
    assert u in s.db.users && s.db.users[u].status.Active? && p in s.db.flows;
    hide Inv, Authorizes, SessionValid, FlowVisible;
    var s1 := Record(s, s.db.(flows := SetFlow(s.db.flows, p, Consumed)), w);
    KeepsSpend(c, s, s1.db, w);
    var s2 := Commit(s1, s1.db.(next := s.db.next + 1, accounts := s.db.accounts[s.db.next := CredentialRow(u, k.hash)]));
    KeepsExtraAccount(c, s1, u, CredentialRow(u, k.hash));
    var mail, audit := Notify(s.db.mail, s.db.users[u]), Log(s.db.audit, AuditPassword, u, u);
    NotifyAppends(s.db.mail, s.db.users[u]);
    LogAppends(s.db.audit, AuditPassword, u, u);
    KeepsInvalidate(c, s2, u, mail, audit);
    var s3 := Commit(s2, Invalidate(s2.db, u).(mail := mail, audit := audit));
    SysEvolvesTrans(s, s1, s2);
    SysEvolvesTrans(s, s2, s3);
  }

  // ---- linking and unlinking

  lemma LinkSpends(c: Config, db: Db, r: Request, f: Id, found: Option<Id>)
    requires FlowsOk(db.users, db.accounts, db.sessions, db.flows) && CanConfirmLink(c, db, r, f, found)
    requires forall v | v in db.challenges :: v !in db.flows
    ensures Spends(db.flows, SetFlow(SetFlow(db.flows, db.flows[f].parent.value, Consumed), f, Consumed), db.challenges, db.challenges,
                   Sensitive(db.flows[f].parent.value, LinkAccount(db.flows[f].provider.value), r.user, Some(f)))
  {
    assert FlowOk(db.users, db.accounts, db.sessions, db.flows[db.flows[f].parent.value]);
  }

  function LinkedAccounts(db: Db, r: Request, f: Id, found: Option<Id>): map<Id, Account>
    requires f in db.flows && db.flows[f].provider.Some? && db.flows[f].identity.Some?
  {
    if found.None? then db.accounts[db.next := ExternalRow(r.user, db.flows[f].provider.value, db.flows[f].identity.value)] else db.accounts
  }

  lemma LinkAccountAdded(c: Config, s: Sys, r: Request, f: Id, found: Option<Id>)
    requires Inv(c, s) && CanConfirmLink(c, s.db, r, f, found)
    ensures var s1 := Commit(s, s.db.(next := if found.None? then s.db.next + 1 else s.db.next, accounts := LinkedAccounts(s.db, r, f, found)));
            Inv(c, s1) && SysEvolves(s, s1) && UserHolds(s1.db.accounts, r.user, s.db.flows[f].identity.value)
  {
    hide Inv, SysEvolves, Authorizes, CanInsertAccount, LiveAccounts, IdentityTaken;
    var i := s.db.flows[f].identity.value;
    if found.None? {
      var row := ExternalRow(r.user, s.db.flows[f].provider.value, i);
      assert row.provider.External? by {
        LinkProviderExternal(c, s, r, f, found);
      }
      KeepsExtraAccount(c, s, r.user, row);
      assert HoldsIdentity(s.db.accounts[s.db.next := row], s.db.next, i);
    } else {
      SysEvolvesRefl(s);
    }
  }

  lemma LinkProviderExternal(c: Config, s: Sys, r: Request, f: Id, found: Option<Id>)
    requires Inv(c, s) && CanConfirmLink(c, s.db, r, f, found)
    ensures s.db.flows[f].provider.value.External?
  {
    assert FlowOk(s.db.users, s.db.accounts, s.db.sessions, s.db.flows[f]);
  }

  lemma KeepsConfirmLink(c: Config, s: Sys, r: Request, f: Id, found: Option<Id>)
    requires Inv(c, s) && CanConfirmLink(c, s.db, r, f, found)
    ensures var s' := Record(s, LinkConfirmed(s.db, r, f, found),
                             Sensitive(s.db.flows[f].parent.value, LinkAccount(s.db.flows[f].provider.value), r.user, Some(f)));
            Inv(c, s') && SysEvolves(s, s')
  {
    hide Inventory, SessionsOk, ChallengesOk, Claims, Links, Evidence, History, PresentedOk, AccountsOk, UsersOk, FlowsOk, SysEvolves, CallsOk, Spends, CanInsertAccount, LiveAccounts, IdentityTaken, UserHolds, SetFlow, Notify, Log,
         Authorizes;
    var w := Sensitive(s.db.flows[f].parent.value, LinkAccount(s.db.flows[f].provider.value), r.user, Some(f));
    LinkSpends(c, s.db, r, f, found);
    LinkAccountAdded(c, s, r, f, found);
    assert w.proof in s.db.flows && f in s.db.flows && s.db.flows[f].binding.value.user == r.user;
    hide Inv, CanConfirmLink, LinkBoundTo;
    var s1 := Commit(s, s.db.(next := if found.None? then s.db.next + 1 else s.db.next, accounts := LinkedAccounts(s.db, r, f, found)));
    var s2 := Record(s1, s1.db.(flows := SetFlow(SetFlow(s.db.flows, w.proof, Consumed), f, Consumed)), w);
    KeepsSpend(c, s1, s2.db, w);
    var mail, audit := Notify(s.db.mail, s.db.users[r.user]), Log(s.db.audit, AuditLink, r.user, if found.None? then s.db.next else found.value);
    NotifyAppends(s.db.mail, s.db.users[r.user]);
    LogAppends(s.db.audit, AuditLink, r.user, if found.None? then s.db.next else found.value);
    KeepsAppend(c, s2, mail, audit);
    var s3 := Commit(s2, s2.db.(mail := mail, audit := audit));
    SysEvolvesTrans(s, s1, s2);
    SysEvolvesTrans(s, s2, s3);
  }

  /** The part of an unlink after the proof is spent. */
  lemma KeepsRevocation(c: Config, s: Sys, u: Id, a: Id, mail: seq<Mail>, audit: seq<Audit>)
    requires Inv(c, s) && CanRevoke(s.db, a) && s.db.accounts[a].user == u && u in s.db.users
    requires s.db.mail <= mail && s.db.audit <= audit
    ensures Inv(c, Commit(s, Invalidate(s.db, u).(accounts := RevokedAccount(s.db.accounts, a), mail := mail, audit := audit)))
    ensures SysEvolves(s, Commit(s, Invalidate(s.db, u).(accounts := RevokedAccount(s.db.accounts, a), mail := mail, audit := audit)))
  {
    BumpEndsEpoch(s.db.users, u);
    hide Inv, SysEvolves, EpochEnded, CanRevoke, RevokeSessions, RevokedAccount;
    var s1 := Commit(s, Invalidate(s.db, u).(accounts := RevokedAccount(s.db.accounts, a)));
    KeepsRevoke(c, s, s1.db, a, s.db.users[u].(version := s.db.users[u].version + 1));
    KeepsAppend(c, s1, mail, audit);
    SysEvolvesTrans(s, s1, Commit(s1, s1.db.(mail := mail, audit := audit)));
  }

  lemma KeepsUnlink(c: Config, s: Sys, r: Request, a: Id, p: Id)
    requires Inv(c, s) && CanUnlink(c, s.db, r, a, p)
    ensures Inv(c, Record(s, Unlinked(s.db, r, a, p), Sensitive(p, UnlinkAccount(a), r.user, None)))
    ensures SysEvolves(s, Record(s, Unlinked(s.db, r, a, p), Sensitive(p, UnlinkAccount(a), r.user, None)))
  {
    var u, w := r.user, Sensitive(p, UnlinkAccount(a), r.user, None);
    ProofSpends(c, s.db, r, p, UnlinkAccount(a));
    assert CanRevoke(s.db, a) && s.db.accounts[a].user == u && p in s.db.flows;
    hide Inv, SysEvolves, Spends, Authorizes, CanUnlink, CanRevoke, SetFlow, RevokeSessions, RevokedAccount, BumpVersion, Notify;
    var s1 := Record(s, s.db.(flows := SetFlow(s.db.flows, p, Consumed)), w);
    KeepsSpend(c, s, s1.db, w);
    var mail, audit := Notify(s.db.mail, s.db.users[u]), Log(s.db.audit, AuditUnlink, u, a);
    NotifyAppends(s.db.mail, s.db.users[u]);
    RevocableStill(s.db, s1.db, a);
    KeepsRevocation(c, s1, u, a, mail, audit);
    SysEvolvesTrans(s, s1, Commit(s1, Invalidate(s1.db, u).(accounts := RevokedAccount(s1.db.accounts, a), mail := mail, audit := audit)));
    assert Unlinked(s.db, r, a, p) == Invalidate(s1.db, u).(accounts := RevokedAccount(s1.db.accounts, a), mail := mail, audit := audit) by {
      UnlinkedRevokes(s.db, r, a, p);
    }
  }

  lemma RevocableStill(db: Db, db': Db, a: Id)
    requires CanRevoke(db, a) && db'.accounts == db.accounts
    ensures CanRevoke(db', a)
  {
  }

  lemma UnlinkedRevokes(db: Db, r: Request, a: Id, p: Id)
    requires r.user in db.users && a in db.accounts && p in db.flows
    ensures Unlinked(db, r, a, p) == Invalidate(db.(flows := SetFlow(db.flows, p, Consumed)), r.user).(
              accounts := RevokedAccount(db.accounts, a), mail := Notify(db.mail, db.users[r.user]), audit := Log(db.audit, AuditUnlink, r.user, a))
  {
  }

  // ---- callbacks and status

  lemma CallbackAdvances(db: Db, f: Id)
    requires FlowsOk(db.users, db.accounts, db.sessions, db.flows) && f in db.flows
    ensures db.flows[f].status.Waiting? ==> Advances(db, f, db.flows[f].(status := Processing))
    ensures db.flows[f].status.Waiting? || db.flows[f].status.Processing? ==> Advances(db, f, db.flows[f].(status := Failed, protocol := false))
  {
    assert FlowOk(db.users, db.accounts, db.sessions, db.flows[f]);
  }

  lemma KeepsCallbackClaim(c: Config, s: Sys, f: Id)
    requires Inv(c, s) && CanClaimCallback(s.db, f)
    ensures var s' := InFlight(Commit(s, CallbackClaimed(s.db, f)), CallbackCall(f));
            Inv(c, s') && SysEvolves(s, s')
  {
    CallbackAdvances(s.db, f);
    hide Inv, SysEvolves, Advances;
    var s1 := Commit(s, CallbackClaimed(s.db, f));
    KeepsAdvance(c, s, f, s.db.flows[f].(status := Processing));
    KeepsInFlight(c, s1, CallbackCall(f));
    SysEvolvesTrans(s, s1, InFlight(s1, CallbackCall(f)));
  }

  lemma KeepsCallbackFail(c: Config, s: Sys, f: Id)
    requires Inv(c, s) && f in s.db.flows
    ensures Inv(c, Commit(s, CallbackFailed(s.db, f))) && SysEvolves(s, Commit(s, CallbackFailed(s.db, f)))
  {
    CallbackAdvances(s.db, f);
    hide Inv, SysEvolves, Advances;
    if s.db.flows[f].status.Waiting? || s.db.flows[f].status.Processing? {
      KeepsAdvance(c, s, f, s.db.flows[f].(status := Failed, protocol := false));
    } else {
      SysEvolvesRefl(s);
    }
  }

  lemma BoundAdvances(s: Sys, k: Call)
    requires FlowsOk(s.db.users, s.db.accounts, s.db.sessions, s.db.flows)
    requires PresentedOk(s.db.flows, s.presented)
    requires CallOk(s.db, k) && k.BoundCall? && FlowProcessing(s.db, k.flowId)
    ensures Advances(s.db, k.flowId, BoundVerified(s.db, k.flowId, k.identity).flows[k.flowId])
    ensures Evident(s.db.accounts, BoundVerified(s.db, k.flowId, k.identity).flows, s.presented, k.flowId)
  {
    assert FlowOk(s.db.users, s.db.accounts, s.db.sessions, s.db.flows[k.flowId]);
  }

  lemma KeepsBound(c: Config, s: Sys, k: Call)
    requires Inv(c, s) && k in s.calls && k.BoundCall? && FlowProcessing(s.db, k.flowId)
    ensures Inv(c, Commit(s, BoundVerified(s.db, k.flowId, k.identity))) && SysEvolves(s, Commit(s, BoundVerified(s.db, k.flowId, k.identity)))
  {
    assert CallOk(s.db, k);
    BoundAdvances(s, k);
    hide Inv, SysEvolves, Advances, Evident;
    KeepsAdvance(c, s, k.flowId, BoundVerified(s.db, k.flowId, k.identity).flows[k.flowId]);
  }

  lemma KeepsStatus(c: Config, s: Sys, k: Call)
    requires Inv(c, s) && k in s.calls && k.StatusCall? && k.user in s.db.users
    ensures Inv(c, Commit(s, StatusSet(s.db, k.user, k.status))) && SysEvolves(s, Commit(s, StatusSet(s.db, k.user, k.status)))
  {
    assert CallOk(s.db, k) && UserOk(s.db.users[k.user]);
    var row := s.db.users[k.user].(status := k.status, version := s.db.users[k.user].version + 1);
    assert EpochEnded(s.db.users, k.user, row);
    hide Inv, SysEvolves, EpochEnded;
    KeepsEpochEnd(c, s, k.user, row, StatusSet(s.db, k.user, k.status));
  }

  // ---- every event

  /** The call that a read or check step leaves in flight. */
  function Opened(db: Db, e: Event): Option<Call> {
    match e
    case RecoverRead(u) => if u in db.users then Some(RecoverCall(u, db.users[u])) else None
    case VerifyRead(v, hash) => if v in db.challenges then Some(VerifyCall(v, db.challenges[v], hash)) else None
    case LoginRead(u, a, password, upgrade) =>
      if u in db.users && a in db.accounts then Some(LoginCall(u, db.users[u], a, db.accounts[a], password, upgrade)) else None
    case PasswordRead(r, a, current, proof, hash) =>
      if r.user in db.users && (a.Some? ==> a.value in db.accounts)
      then Some(PasswordCall(r, db.users[r.user], if a.Some? then Some((a.value, db.accounts[a.value])) else None, current, proof, hash))
      else None
    case ReauthenticateRead(r, a, g, password) =>
      if r.user in db.users && a in db.accounts then Some(ReauthenticateCall(r, db.users[r.user], a, db.accounts[a], g, password)) else None
    case ReauthenticateCheck(k) =>
      if k.ReauthenticateCall? then Some(InsertCall(ProofRow(k.request, k.row, k.account, k.accountRow, k.grant), Some(k.password))) else None
    case StartReauthenticationCheck(r, a, g) =>
      if r.user in db.users && a in db.accounts then Some(InsertCall(ReauthenticationRow(db, r, a, g), None)) else None
    case LinkCheck(r, p, proof) => if r.user in db.users then Some(LinkCall(r, db.users[r.user].version, p, proof)) else None
    case EmailCheck(r, email, proof) => if r.user in db.users then Some(EmailCall(r, db.users[r.user].version, email, proof)) else None
    case LoginFind(f, i, found) =>
      if found.None? || found.value in db.accounts
      then Some(FoundCall(f, i, if found.Some? then Some((found.value, db.accounts[found.value])) else None)) else None
    case BoundCheck(f, i) => Some(BoundCall(f, i))
    case StatusCheck(u, status) => Some(StatusCall(u, status))
    case _ => None
  }

  lemma OpenedStep(c: Config, s: Sys, e: Event, s': Sys)
    requires Step(c, s, e, s') && Opened(s.db, e).Some?
    ensures s' == InFlight(s, Opened(s.db, e).value)
  {
    hide Authorizes, CanReadPassword, CanReadReauthentication, CanStartReauthentication, CanCheckBound, CanFindLogin, CanReadLogin, CanRecover;
  }

  lemma ReadOk(c: Config, s: Sys, e: Event, s': Sys)
    requires Step(c, s, e, s')
    requires e.RecoverRead? || e.VerifyRead? || e.LoginRead? || e.PasswordRead? || e.LoginFind? || e.StatusCheck?
    ensures Opened(s.db, e).Some? && CallOk(s.db, Opened(s.db, e).value)
  {
    hide Open, IdentityTaken, HasCredential;
  }

  lemma ReauthenticateReadOk(c: Config, s: Sys, e: Event, s': Sys)
    requires Step(c, s, e, s') && e.ReauthenticateRead?
    ensures Opened(s.db, e).Some? && CallOk(s.db, Opened(s.db, e).value)
  {
    hide Open;
  }

  lemma LinkCheckOk(c: Config, db: Db, r: Request, p: Provider, proof: Id)
    requires CanStartLink(c, db, r, p, proof)
    ensures r.user in db.users && CallOk(db, LinkCall(r, db.users[r.user].version, p, proof))
  {
  }

  lemma EmailCheckOk(c: Config, db: Db, r: Request, e: Email, proof: Id)
    requires CanRequestEmail(c, db, r, e, proof)
    ensures r.user in db.users && CallOk(db, EmailCall(r, db.users[r.user].version, e, proof))
  {
  }

  lemma CheckOk(c: Config, s: Sys, e: Event, s': Sys)
    requires Inv(c, s) && Step(c, s, e, s')
    requires e.ReauthenticateCheck? || e.StartReauthenticationCheck? || e.LinkCheck? || e.EmailCheck? || e.BoundCheck?
    ensures Opened(s.db, e).Some? && CallOk(s.db, Opened(s.db, e).value)
  {
    hide Inv, CallOk, CanIssueProof, CanCheckBound, CanStartLink, CanRequestEmail, ProofRow, ReauthenticationRow;
    match e
    case ReauthenticateCheck(k) => KeepsProofCheck(c, s, k);
    case StartReauthenticationCheck(r, a, g) => KeepsStartReauthentication(c, s, r, a, g);
    case LinkCheck(r, p, proof) => LinkCheckOk(c, s.db, r, p, proof);
    case EmailCheck(r, email, proof) => EmailCheckOk(c, s.db, r, email, proof);
    case BoundCheck(f, i) => KeepsBoundCheck(c, s, f, i);
  }

  lemma KeepsOpened(c: Config, s: Sys, e: Event, s': Sys)
    requires Inv(c, s) && Step(c, s, e, s') && Opened(s.db, e).Some?
    ensures Inv(c, s') && SysEvolves(s, s')
  {
    hide Inv, SysEvolves, Step, CallOk;
    OpenedStep(c, s, e, s');
    if e.ReauthenticateCheck? || e.StartReauthenticationCheck? || e.LinkCheck? || e.EmailCheck? || e.BoundCheck? {
      CheckOk(c, s, e, s');
    } else if e.ReauthenticateRead? {
      ReauthenticateReadOk(c, s, e, s');
    } else {
      ReadOk(c, s, e, s');
    }
    KeepsInFlight(c, s, Opened(s.db, e).value);
  }

  lemma KeepsAllRevoked(c: Config, s: Sys, u: Id)
    requires Inv(c, s) && u in s.db.users
    ensures Inv(c, Commit(s, AllRevoked(s.db, u))) && SysEvolves(s, Commit(s, AllRevoked(s.db, u)))
  {
    hide Inv, SysEvolves, BumpVersion, RevokeSessions;
    KeepsInvalidate(c, s, u, s.db.mail, Log(s.db.audit, AuditRevoke, u, u));
  }

  lemma KeepsAdministration(c: Config, s: Sys, e: Event, s': Sys)
    requires Inv(c, s) && Step(c, s, e, s')
    requires e.RevokeAll? || e.StatusCommit? || e.AdminRevoke?
    ensures Inv(c, s') && SysEvolves(s, s')
  {
    hide Inv, SysEvolves, StatusSet, AllRevoked, Open;
    match e
    case RevokeAll(r) => KeepsAllRevoked(c, s, r.user);
    case StatusCommit(k) => KeepsStatus(c, s, k);
    case AdminRevoke(u) => KeepsAllRevoked(c, s, u);
  }

  lemma KeepsTimeAndSessions(c: Config, s: Sys, e: Event, s': Sys)
    requires Inv(c, s) && Step(c, s, e, s') && (e.Tick? || e.RevokeSession? || e.Touch?)
    ensures Inv(c, s') && SysEvolves(s, s')
  {
    hide Inv, SysEvolves, SessionTouched, CanRevokeSession, SessionRevoked;
    match e
    case Tick(now) => KeepsTick(c, s, now);
    case RevokeSession(r, x) => KeepsRevokeSession(c, s, r, x);
    case Touch(x) => KeepsTouch(c, s, x);
  }

  lemma KeepsChallenges(c: Config, s: Sys, e: Event, s': Sys)
    requires Inv(c, s) && Step(c, s, e, s')
    requires e.Register? || e.RecoverCommit? || e.ActivateCommit? || e.ResetCommit? || e.EmailCommit? || e.EmailRequestCommit?
    ensures Inv(c, s') && SysEvolves(s, s')
  {
    hide Inv, SysEvolves, CanRegister, Registered, RecoveryIssued, CanActivate, Activated, CanReset, Reset, CanMoveEmail, EmailMoved, CanClaim, EmailRequested;
    match e
    case Register(u, email) => KeepsRegister(c, s, u, email);
    case RecoverCommit(k) => KeepsRecover(c, s, k);
    case ActivateCommit(k) => KeepsActivate(c, s, k);
    case ResetCommit(k, a) => KeepsReset(c, s, k, a);
    case EmailCommit(k) => KeepsEmailMoved(c, s, k);
    case EmailRequestCommit(k) => KeepsEmailRequested(c, s, k);
  }

  lemma KeepsLogins(c: Config, s: Sys, e: Event, s': Sys)
    requires Inv(c, s) && Step(c, s, e, s')
    requires e.LoginCommit? || e.PasswordCommit? || e.FirstPasswordCommit? || e.FinishLogin? || e.FinishSignUp?
    ensures Inv(c, s') && SysEvolves(s, s')
  {
    hide Inv, SysEvolves, CanLogin, LoggedIn, CanChangePassword, PasswordChanged, CanSetFirstPassword, FirstPasswordSet, CanFinishLogin, LoginFinished, CanSignUp, SignedUp;
    match e
    case LoginCommit(k) => KeepsLogin(c, s, k);
    case PasswordCommit(k) => KeepsPasswordChanged(c, s, k);
    case FirstPasswordCommit(k) => KeepsFirstPassword(c, s, k);
    case FinishLogin(k) => KeepsFinishLogin(c, s, k);
    case FinishSignUp(k) => KeepsSignUp(c, s, k);
  }

  lemma KeepsFlows(c: Config, s: Sys, e: Event, s': Sys)
    requires Inv(c, s) && Step(c, s, e, s')
    requires e.InsertCommit? || e.StartPublic? || e.LinkCommit? || e.CallbackClaim? || e.CallbackFail? || e.BoundCommit? || e.ConfirmLink? || e.Unlink?
    ensures Inv(c, s') && SysEvolves(s, s')
  {
    hide Inv, SysEvolves, AddFlow, CanClaim, LinkStarted, CanClaimCallback, CallbackClaimed, CallbackFailed, FlowProcessing, BoundVerified,
         CanConfirmLink, LinkConfirmed, CanUnlink, Unlinked;
    match e
    case InsertCommit(k) => KeepsInsert(c, s, s', k);
    case StartPublic(purpose, p) => KeepsPublicFlow(c, s, purpose, p);
    case LinkCommit(k) => KeepsLinkStarted(c, s, k);
    case CallbackClaim(f) => KeepsCallbackClaim(c, s, f);
    case CallbackFail(f) => KeepsCallbackFail(c, s, f);
    case BoundCommit(k) => KeepsBound(c, s, k);
    case ConfirmLink(r, f, found) => KeepsConfirmLink(c, s, r, f, found);
    case Unlink(r, a, p) => KeepsUnlink(c, s, r, a, p);
  }

  /** Every event keeps the invariant and only moves the system forward. */
  lemma StepKeeps(c: Config, s: Sys, e: Event, s': Sys)
    requires Inv(c, s) && Step(c, s, e, s')
    ensures Inv(c, s') && SysEvolves(s, s')
  {
    hide Inv, SysEvolves, Step;
    match e
    case Tick(_) | RevokeSession(_, _) | Touch(_) => KeepsTimeAndSessions(c, s, e, s');
    case RevokeAll(_) | StatusCommit(_) | AdminRevoke(_) => KeepsAdministration(c, s, e, s');
    case Register(_, _) | RecoverCommit(_) | ActivateCommit(_) | ResetCommit(_, _) | EmailCommit(_) | EmailRequestCommit(_) =>
      KeepsChallenges(c, s, e, s');
    case LoginCommit(_) | PasswordCommit(_) | FirstPasswordCommit(_) | FinishLogin(_) | FinishSignUp(_) => KeepsLogins(c, s, e, s');
    case InsertCommit(_) | StartPublic(_, _) | LinkCommit(_) | CallbackClaim(_) | CallbackFail(_) | BoundCommit(_) | ConfirmLink(_, _, _) | Unlink(_, _, _) =>
      KeepsFlows(c, s, e, s');
    case _ =>
      StepOpens(c, s, e, s');
      KeepsOpened(c, s, e, s');
  }

  /** The remaining events are the read and check steps. */
  lemma StepOpens(c: Config, s: Sys, e: Event, s': Sys)
    requires Inv(c, s) && Step(c, s, e, s')
    requires e.RecoverRead? || e.VerifyRead? || e.LoginRead? || e.PasswordRead? || e.ReauthenticateRead? || e.ReauthenticateCheck?
          || e.StartReauthenticationCheck? || e.LinkCheck? || e.EmailCheck? || e.LoginFind? || e.BoundCheck? || e.StatusCheck?
    ensures Opened(s.db, e).Some?
  {
    hide Inv, Step, CallOk;
    if e.ReauthenticateCheck? || e.StartReauthenticationCheck? || e.LinkCheck? || e.EmailCheck? || e.BoundCheck? {
      CheckOk(c, s, e, s');
    } else if e.ReauthenticateRead? {
      ReauthenticateReadOk(c, s, e, s');
    } else {
      ReadOk(c, s, e, s');
    }
  }

  // ---- runs

  lemma InitInv(c: Config, s: Sys)
    requires ValidLimits(c.limits) && Init(s)
    ensures Inv(c, s)
  {
  }

  lemma NextKeeps(c: Config, s: Sys, s': Sys)
    requires Inv(c, s) && Next(c, s, s')
    ensures Inv(c, s') && SysEvolves(s, s')
  {
    hide Inv, SysEvolves, Step;
    if s == s' {
      SysEvolvesRefl(s);
    } else {
      var e :| Step(c, s, e, s');
      StepKeeps(c, s, e, s');
    }
  }

  /** The invariant holds in every state of every run. */
  lemma {:induction false} RunInv(c: Config, t: seq<Sys>, i: nat)
    requires Run(c, t) && i < |t|
    ensures Inv(c, t[i])
  {
    hide Inv, SysEvolves, Next, Init;
    if i == 0 {
      InitInv(c, t[0]);
    } else {
      RunInv(c, t, i - 1);
      NextKeeps(c, t[i - 1], t[i]);
    }
  }

  /** Any later state of a run has evolved from any earlier one. */
  lemma {:induction false} RunEvolves(c: Config, t: seq<Sys>, i: nat, j: nat)
    requires Run(c, t) && i <= j < |t|
    ensures SysEvolves(t[i], t[j])
    decreases j
  {
    hide Inv, SysEvolves, Next, Init;
    if i == j {
      SysEvolvesRefl(t[i]);
    } else {
      RunEvolves(c, t, i, j - 1);
      RunInv(c, t, j - 1);
      NextKeeps(c, t[j - 1], t[j]);
      SysEvolvesTrans(t[i], t[j - 1], t[j]);
    }
  }
}
