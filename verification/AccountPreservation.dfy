/** Every step keeps the invariant and only moves the tables forward. */
module AccountPreservation {
  import opened Wrappers
  import opened SessionClock
  import opened AccountTables
  import opened AccountProtocol
  import opened AccountEvolution
  import opened AccountInvariant

  /** The obligations of a step that commits new tables without consuming a proof. */
  lemma Committed(c: Config, s: Sys, db: Db)
    requires Inv(c, s) && Evolves(s.db, db) && Tables(c, db)
    requires Evidence(db.accounts, db.flows, s.presented)
    requires NoneConsumed(s.db.flows, db.flows)
    requires forall f | f in s.db.flows && s.db.flows[f].status.Consumed? :: db.flows[f].claimedBy == s.db.flows[f].claimedBy
    ensures Inv(c, Commit(s, db)) && SysEvolves(s, Commit(s, db))
  {
    hide Tables, Evidence, History, PresentedOk, CallsOk, NoneConsumed;
    PresentedFrame(s.db.flows, db.flows, s.presented);
    HistoryFrame(s.db.flows, db.flows, s.history);
    CallsFrame(s.db, db, s.calls);
  }

  lemma PresentedFrame(flows: map<Id, Flow>, flows': map<Id, Flow>, presented: map<Id, Password>)
    requires PresentedOk(flows, presented) && FlowsEvolve(flows, flows')
    ensures PresentedOk(flows', presented)
  {
  }

  /** The same for a step that writes no flow. */
  lemma CommittedWithoutFlows(c: Config, s: Sys, db: Db)
    requires Inv(c, s) && Tables(c, db)
    requires s.db.now <= db.now && s.db.next <= db.next && db.flows == s.db.flows
    requires s.db.mail <= db.mail && s.db.audit <= db.audit
    requires UsersEvolve(s.db.users, db.users) && AccountsEvolve(s.db.accounts, db.accounts)
    requires SessionsEvolve(s.db.sessions, db.sessions) && ChallengesEvolve(s.db.challenges, db.challenges)
    ensures Inv(c, Commit(s, db)) && SysEvolves(s, Commit(s, db))
  {
    hide UsersOk, AccountsOk, Inventory, SessionsOk, FlowsOk, ChallengesOk, Claims, Links, Evidence, History, PresentedOk, CallsOk, FreshIds, UserEvolves, AccountEvolves;
    EvidenceFrame(s.db, db.accounts, s.presented);
    Committed(c, s, db);
  }

  // ---- steps that only add a call in flight

  lemma KeepsInFlight(c: Config, s: Sys, k: Call)
    requires Inv(c, s) && CallOk(s.db, k)
    ensures Inv(c, InFlight(s, k)) && SysEvolves(s, InFlight(s, k))
  {
    hide Tables, Evidence, History, PresentedOk, CallOk, Evolves;
    SysEvolvesRefl(s);
  }

  lemma KeepsProofCheck(c: Config, s: Sys, k: Call)
    requires Inv(c, s) && k in s.calls && k.ReauthenticateCall?
    requires CanIssueProof(s.db, k.request, k.row, k.account, k.accountRow)
    ensures CallOk(s.db, InsertCall(ProofRow(k.request, k.row, k.account, k.accountRow, k.grant), Some(k.password)))
  {
    assert CallOk(s.db, k);
  }

  lemma KeepsStartReauthentication(c: Config, s: Sys, r: Request, a: Id, g: Grant)
    requires Inv(c, s) && CanStartReauthentication(c, s.db, r, a, g)
    ensures CallOk(s.db, InsertCall(ReauthenticationRow(s.db, r, a, g), None))
  {
  }

  lemma KeepsBoundCheck(c: Config, s: Sys, f: Id, i: Identity)
    requires Inv(c, s) && CanCheckBound(c, s.db, f, i)
    ensures CallOk(s.db, BoundCall(f, i))
  {
    assert FlowOk(s.db.users, s.db.accounts, s.db.sessions, s.db.flows[f]);
  }

  // ---- time and sessions

  lemma KeepsTick(c: Config, s: Sys, now: Instant)
    requires Inv(c, s) && s.db.now <= now
    ensures Inv(c, Commit(s, s.db.(now := now))) && SysEvolves(s, Commit(s, s.db.(now := now)))
  {
    hide UsersOk, AccountsOk, Inventory, SessionsOk, FlowsOk, ChallengesOk, Claims, Links, Evidence, History, PresentedOk, CallsOk, UserEvolves, AccountEvolves, SessionEvolves, FlowEvolves, ChallengeEvolves;
    SameRows(s.db);
    FlowsSame(s.db);
    TickEvolves(s, now);
    CallsFrame(s.db, s.db.(now := now), s.calls);
  }

  lemma TickEvolves(s: Sys, now: Instant)
    requires s.db.now <= now
    ensures Evolves(s.db, s.db.(now := now)) && SysEvolves(s, Commit(s, s.db.(now := now)))
  {
  }

  /** A step that changes only the sessions table (and the audit log). */
  lemma KeepsSessions(c: Config, s: Sys, db: Db)
    requires Inv(c, s)
    requires db == s.db.(sessions := db.sessions, audit := db.audit) && s.db.audit <= db.audit
    requires db.sessions.Keys == s.db.sessions.Keys
    requires SessionsEvolve(s.db.sessions, db.sessions) && SessionsOk(c, db.users, db.sessions)
    ensures Inv(c, Commit(s, db)) && SysEvolves(s, Commit(s, db))
  {
    FlowsFrame(s.db, db);
    CommittedWithoutFlows(c, s, db);
  }

  lemma KeepsRevokeSession(c: Config, s: Sys, r: Request, x: Id)
    requires Inv(c, s) && CanRevokeSession(s.db, r, x)
    ensures Inv(c, Commit(s, SessionRevoked(s.db, r, x))) && SysEvolves(s, Commit(s, SessionRevoked(s.db, r, x)))
  {
    KeepsSessions(c, s, SessionRevoked(s.db, r, x));
  }

  lemma KeepsTouch(c: Config, s: Sys, x: Id)
    requires Inv(c, s) && x in s.db.sessions
    ensures Inv(c, Commit(s, SessionTouched(c, s.db, x))) && SysEvolves(s, Commit(s, SessionTouched(c, s.db, x)))
  {
    hide UsersOk, AccountsOk, Inventory, SessionsOk, FlowsOk, ChallengesOk, Claims, Links, Evidence, History, PresentedOk, CallsOk, FreshIds, SessionsEvolve, SysEvolves, SessionTouched;
    TouchedSessions(c, s.db, x);
    KeepsSessions(c, s, SessionTouched(c, s.db, x));
  }

  lemma TouchedSessions(c: Config, db: Db, x: Id)
    requires SessionsOk(c, db.users, db.sessions) && x in db.sessions
    ensures SessionTouched(c, db, x) == db.(sessions := SessionTouched(c, db, x).sessions)
    ensures SessionTouched(c, db, x).sessions.Keys == db.sessions.Keys
    ensures SessionsEvolve(db.sessions, SessionTouched(c, db, x).sessions) && SessionsOk(c, db.users, SessionTouched(c, db, x).sessions)
  {
    TouchedRegular(c.limits, db.sessions[x].timing, db.now);
  }

  lemma RevokedSessionsOk(c: Config, users: map<Id, User>, sessions: map<Id, Session>, u: Id)
    requires SessionsOk(c, users, sessions)
    ensures SessionsOk(c, users, RevokeSessions(sessions, u))
  {
  }

  /** A user row replaced by one of the next version, with an address nobody else has. */
  ghost predicate EpochEnded(users: map<Id, User>, u: Id, row: User)
    requires u in users
  {
    && row.version == users[u].version + 1
    && UserOk(row) && UserEvolves(users[u], row)
    && (row.status.Pending? <==> users[u].status.Pending?)
    && (forall w | w in users && w != u && row.email.Some? :: users[w].email != row.email)
  }

  lemma EpochEndUsers(db: Db, u: Id, row: User)
    requires FreshIds(db) && UsersOk(db.users) && u in db.users && EpochEnded(db.users, u, row)
    ensures UsersOk(db.users[u := row]) && UsersEvolve(db.users, db.users[u := row])
    ensures NoneActivated(db.users, db.users[u := row])
  {
  }

  lemma SameLivingRefl(accounts: map<Id, Account>)
    ensures SameLiving(accounts, accounts)
  {
  }

  /** Tables whose users and sessions are those after the end of one epoch, everything else as before. */
  lemma EpochEndTables(c: Config, db: Db, u: Id, row: User, db': Db)
    requires ValidLimits(c.limits) && Tables(c, db) && u in db.users && EpochEnded(db.users, u, row)
    requires db' == db.(users := db.users[u := row], sessions := RevokeSessions(db.sessions, u), audit := db'.audit)
    ensures Tables(c, db') && UsersEvolve(db.users, db'.users) && SessionsEvolve(db.sessions, db'.sessions)
  {
    EpochEndUsers(db, u, row);
    RevokeEvolves(db.sessions, u);
    SameLivingRefl(db.accounts);
    hide UsersOk, UsersEvolve, NoneActivated, EpochEnded, Inventory, Links, FlowsOk, Claims, SessionsOk, ChallengesOk, SameLiving;
    UsersSessionsFrame(c, db, db');
    RevokedSessionsOk(c, db'.users, db.sessions, u);
    InventoryFrame(db.users, db'.users, db.accounts, db'.accounts);
    LinksFrame(db, db');
  }

  /** Ending an epoch, possibly with a new status or address. */
  lemma KeepsEpochEnd(c: Config, s: Sys, u: Id, row: User, db: Db)
    requires Inv(c, s) && u in s.db.users && EpochEnded(s.db.users, u, row)
    requires db == s.db.(users := s.db.users[u := row], sessions := RevokeSessions(s.db.sessions, u), audit := db.audit)
    requires s.db.audit <= db.audit
    ensures Inv(c, Commit(s, db)) && SysEvolves(s, Commit(s, db))
  {
    EpochEndTables(c, s.db, u, row, db);
    CommittedWithoutFlows(c, s, db);
  }

  // ---- the statements of the writing transactions, one at a time

  /** Mail and audit rows are only appended. */
  lemma KeepsAppend(c: Config, s: Sys, mail: seq<Mail>, audit: seq<Audit>)
    requires Inv(c, s) && s.db.mail <= mail && s.db.audit <= audit
    ensures Inv(c, Commit(s, s.db.(mail := mail, audit := audit)))
    ensures SysEvolves(s, Commit(s, s.db.(mail := mail, audit := audit)))
  {
    CommittedWithoutFlows(c, s, s.db.(mail := mail, audit := audit));
  }

  /** A challenge that claims no proof. */
  lemma ChallengeAddedTables(c: Config, db: Db, row: Challenge)
    requires Tables(c, db) && ChallengeOk(db.users, row) && !row.purpose.VerifyChange?
    ensures Tables(c, AddChallenge(db, row))
    ensures ChallengesEvolve(db.challenges, AddChallenge(db, row).challenges)
  {
    var db' := AddChallenge(db, row);
    forall p | p in db.flows
      ensures ClaimHasChild(db.flows, db'.challenges, p)
    {
      assert ClaimHasChild(db.flows, db.challenges, p);
    }
    forall v | v in db'.challenges
      ensures ChangeHasParent(db.flows, db'.challenges, v)
    {
      assert v in db.challenges ==> ChangeHasParent(db.flows, db.challenges, v);
    }
  }

  lemma KeepsChallengeAdded(c: Config, s: Sys, row: Challenge)
    requires Inv(c, s) && ChallengeOk(s.db.users, row) && !row.purpose.VerifyChange?
    ensures Inv(c, Commit(s, AddChallenge(s.db, row))) && SysEvolves(s, Commit(s, AddChallenge(s.db, row)))
  {
    ChallengeAddedTables(c, s.db, row);
    CommittedWithoutFlows(c, s, AddChallenge(s.db, row));
  }

  lemma ChallengeConsumedTables(c: Config, db: Db, v: Id)
    requires Tables(c, db) && v in db.challenges && !db.challenges[v].purpose.VerifyChange?
    ensures Tables(c, db.(challenges := ConsumeChallenge(db, v)))
    ensures ChallengesEvolve(db.challenges, ConsumeChallenge(db, v))
  {
    hide UsersOk, AccountsOk, Inventory, SessionsOk, FlowsOk, Claims, Links;
    ChallengeConsumedClaims(db, v);
  }

  lemma ChallengeConsumedClaims(db: Db, v: Id)
    requires Claims(db.flows, db.challenges) && v in db.challenges && !db.challenges[v].purpose.VerifyChange?
    ensures Claims(db.flows, ConsumeChallenge(db, v))
  {
    var challenges' := ConsumeChallenge(db, v);
    forall p | p in db.flows
      ensures ClaimHasChild(db.flows, challenges', p)
    {
      assert ClaimHasChild(db.flows, db.challenges, p);
    }
    forall w | w in challenges'
      ensures ChangeHasParent(db.flows, challenges', w)
    {
      assert ChangeHasParent(db.flows, db.challenges, w);
    }
  }

  lemma KeepsChallengeConsumed(c: Config, s: Sys, v: Id)
    requires Inv(c, s) && v in s.db.challenges && !s.db.challenges[v].purpose.VerifyChange?
    ensures Inv(c, Commit(s, s.db.(challenges := ConsumeChallenge(s.db, v))))
    ensures SysEvolves(s, Commit(s, s.db.(challenges := ConsumeChallenge(s.db, v))))
  {
    ChallengeConsumedTables(c, s.db, v);
    CommittedWithoutFlows(c, s, s.db.(challenges := ConsumeChallenge(s.db, v)));
  }

  lemma SessionAddedTables(c: Config, db: Db, u: Id, source: Id)
    requires ValidLimits(c.limits) && Tables(c, db) && u in db.users && db.users[u].status.Active?
    ensures Tables(c, AddSession(c, db, u, source))
    ensures SessionsEvolve(db.sessions, AddSession(c, db, u, source).sessions)
  {
    var db' := AddSession(c, db, u, source);
    StartedRegular(c.limits, db.now);
    assert SessionsEvolve(db.sessions, db'.sessions);
    FlowsFrame(db, db');
  }

  lemma KeepsSessionAdded(c: Config, s: Sys, u: Id, source: Id)
    requires Inv(c, s) && u in s.db.users && s.db.users[u].status.Active?
    ensures Inv(c, Commit(s, AddSession(c, s.db, u, source))) && SysEvolves(s, Commit(s, AddSession(c, s.db, u, source)))
  {
    SessionAddedTables(c, s.db, u, source);
    CommittedWithoutFlows(c, s, AddSession(c, s.db, u, source));
  }

  function WithUser(db: Db, u: Id, row: User): Db {
    db.(next := if u in db.users then db.next else db.next + 1, users := db.users[u := row])
  }

  lemma PendingUserTables(c: Config, db: Db, e: Email)
    requires Tables(c, db) && !EmailTaken(db.users, e)
    ensures Tables(c, WithUser(db, db.next, User(Pending, Some(e), false, false, 1)))
    ensures UsersEvolve(db.users, WithUser(db, db.next, User(Pending, Some(e), false, false, 1)).users)
  {
    var db' := WithUser(db, db.next, User(Pending, Some(e), false, false, 1));
    assert UsersEvolve(db.users, db'.users);
    UsersSessionsFrame(c, db, db');
    InventoryFrame(db.users, db'.users, db.accounts, db'.accounts);
    LinksFrame(db, db');
  }

  lemma KeepsPendingUser(c: Config, s: Sys, e: Email)
    requires Inv(c, s) && !EmailTaken(s.db.users, e)
    ensures Inv(c, Commit(s, WithUser(s.db, s.db.next, User(Pending, Some(e), false, false, 1))))
    ensures SysEvolves(s, Commit(s, WithUser(s.db, s.db.next, User(Pending, Some(e), false, false, 1))))
  {
    PendingUserTables(c, s.db, e);
    CommittedWithoutFlows(c, s, WithUser(s.db, s.db.next, User(Pending, Some(e), false, false, 1)));
  }

  lemma KeepsRegister(c: Config, s: Sys, u: Id, e: Email)
    requires Inv(c, s) && CanRegister(s.db, u, e)
    ensures Inv(c, Commit(s, Registered(s.db, u, e))) && SysEvolves(s, Commit(s, Registered(s.db, u, e)))
  {
    hide Inv, SysEvolves;
    if u !in s.db.users {
      var added := Commit(s, WithUser(s.db, u, User(Pending, Some(e), false, false, 1)));
      KeepsPendingUser(c, s, e);
      KeepsChallengeAdded(c, added, Challenge(u, VerifyRegister, e, 1, None, None, false, s.db.now + REGISTRATION_TTL));
      SysEvolvesTrans(s, added, Commit(s, Registered(s.db, u, e)));
    } else if s.db.users[u].status.Pending? {
      KeepsChallengeAdded(c, s, Challenge(u, VerifyRegister, e, s.db.users[u].version, None, None, false, s.db.now + REGISTRATION_TTL));
    } else {
      SysEvolvesRefl(s);
    }
  }

  lemma RecoveryRowOk(db: Db, k: Call)
    requires CallOk(db, k) && k.RecoverCall?
    ensures ChallengeOk(db.users, Challenge(k.user, VerifyReset, k.row.email.value, k.row.version, None, None, false, db.now + RESET_TTL))
  {
  }

  lemma KeepsRecover(c: Config, s: Sys, k: Call)
    requires Inv(c, s) && k in s.calls && k.RecoverCall? && k.row.email.Some?
    ensures Inv(c, Commit(s, RecoveryIssued(s.db, k.user, k.row))) && SysEvolves(s, Commit(s, RecoveryIssued(s.db, k.user, k.row)))
  {
    hide Tables, Evidence, History;
    RecoveryRowOk(s.db, k);
    KeepsChallengeAdded(c, s, Challenge(k.user, VerifyReset, k.row.email.value, k.row.version, None, None, false, s.db.now + RESET_TTL));
  }

  lemma SameRows(db: Db)
    ensures UsersEvolve(db.users, db.users) && AccountsEvolve(db.accounts, db.accounts)
    ensures SessionsEvolve(db.sessions, db.sessions) && ChallengesEvolve(db.challenges, db.challenges)
  {
  }

  // ---- accounts

  /** The password an account represents, or nothing for a third-party account. */
  predicate SamePassword(a: Account, b: Account) {
    b == a.(hash := b.hash) && a.hash.Some? && b.hash.Some? && a.hash.value.password == b.hash.value.password
  }

  lemma AccountRewrittenTables(c: Config, db: Db, a: Id, row: Account)
    requires Tables(c, db) && a in db.accounts && !db.accounts[a].revoked
    requires row == db.accounts[a].(hash := row.hash, version := row.version) && (row.hash.Some? <==> db.accounts[a].hash.Some?)
    requires row.version > db.accounts[a].version || SamePassword(db.accounts[a], row)
    ensures Tables(c, db.(accounts := db.accounts[a := row])) && AccountsEvolve(db.accounts, db.accounts[a := row])
  {
    hide Inventory, Links, FlowsOk, Claims, SessionsOk, ChallengesOk;
    var db' := db.(accounts := db.accounts[a := row]);
    assert AccountsEvolve(db.accounts, db'.accounts);
    FlowsFrame(db, db');
    InventoryFrame(db.users, db.users, db.accounts, db'.accounts);
    LinksFrame(db, db');
  }

  /** A new hash on an unrevoked account: either the same password, or a higher version. */
  lemma KeepsHash(c: Config, s: Sys, a: Id, row: Account)
    requires Inv(c, s) && a in s.db.accounts && !s.db.accounts[a].revoked
    requires row == s.db.accounts[a].(hash := row.hash, version := row.version) && (row.hash.Some? <==> s.db.accounts[a].hash.Some?)
    requires row.version > s.db.accounts[a].version || SamePassword(s.db.accounts[a], row)
    ensures Inv(c, Commit(s, s.db.(accounts := s.db.accounts[a := row])))
    ensures SysEvolves(s, Commit(s, s.db.(accounts := s.db.accounts[a := row])))
  {
    hide Tables, Evidence, History, PresentedOk, CallsOk, AccountEvolves, UserEvolves;
    AccountRewrittenTables(c, s.db, a, row);
    SameRows(s.db);
    CommittedWithoutFlows(c, s, s.db.(accounts := s.db.accounts[a := row]));
  }

  /** Living accounts after one account joins user u. */
  lemma JoinInventory(users: map<Id, User>, users': map<Id, User>, accounts: map<Id, Account>, a: Id, row: Account)
    requires Inventory(users, accounts) && AccountsOk(users, accounts)
    requires a !in accounts && !row.revoked
    requires forall w | w in users' && w != row.user && !users'[w].status.Pending? :: w in users && !users[w].status.Pending?
    requires row.user in users && !users[row.user].status.Pending? ==> |LiveAccounts(accounts, row.user)| < MAX_LOGIN_ACCOUNTS
    ensures Inventory(users', accounts[a := row])
  {
    var accounts' := accounts[a := row];
    forall w | w in users' && !users'[w].status.Pending?
      ensures 1 <= |LiveAccounts(accounts', w)| <= MAX_LOGIN_ACCOUNTS
    {
      if w == row.user {
        assert LiveAccounts(accounts', w) == LiveAccounts(accounts, w) + {a};
        if !(w in users && !users[w].status.Pending?) {
          assert LiveAccounts(accounts, w) == {};
        }
      } else {
        assert LiveAccounts(accounts', w) == LiveAccounts(accounts, w);
      }
    }
  }

  /** db' is db with a new account for u, whose row may be new, activated or unchanged. */
  predicate Joins(db: Db, db': Db, u: Id, a: Id) {
    && u in db'.users && a in db'.accounts
    && db' == db.(next := db'.next, users := db.users[u := db'.users[u]], accounts := db.accounts[a := db'.accounts[a]])
    && db.next <= a < db'.next && (u in db.users || db.next <= u < db'.next)
    && db'.accounts[a].user == u && !db'.accounts[a].revoked
    && AccountOk(db'.users, db'.accounts[a])
    && CanInsertAccount(db.accounts, db'.accounts[a])
    && UserOk(db'.users[u])
    && (u in db.users ==> UserEvolves(db.users[u], db'.users[u]) && db'.users[u].email == db.users[u].email)
    && (u !in db.users ==> db'.users[u].email.None?)
    && (u in db.users && !db.users[u].status.Pending? ==> |LiveAccounts(db.accounts, u)| < MAX_LOGIN_ACCOUNTS)
  }

  lemma JoinUsers(db: Db, db': Db, u: Id, a: Id)
    requires FreshIds(db) && UsersOk(db.users) && Joins(db, db', u, a)
    ensures UsersOk(db'.users) && UsersEvolve(db.users, db'.users) && AccountsEvolve(db.accounts, db'.accounts)
  {
    hide CanInsertAccount, AccountOk;
  }

  lemma JoinAccounts(db: Db, db': Db, u: Id, a: Id)
    requires AccountsOk(db'.users, db.accounts) && Joins(db, db', u, a)
    ensures AccountsOk(db'.users, db'.accounts)
  {
    hide AccountOk;
    forall x, y | x in db'.accounts && y in db'.accounts && x != y && !db'.accounts[x].revoked && !db'.accounts[y].revoked
      ensures db'.accounts[x].identity != db'.accounts[y].identity
    {
      assert x != a ==> HoldsIdentity(db.accounts, x, db.accounts[x].identity);
      assert y != a ==> HoldsIdentity(db.accounts, y, db.accounts[y].identity);
    }
  }

  lemma JoinRows(db: Db, db': Db, u: Id, a: Id)
    requires FreshIds(db) && UsersOk(db.users) && AccountsOk(db.users, db.accounts) && Joins(db, db', u, a)
    ensures FreshIds(db') && UsersOk(db'.users) && AccountsOk(db'.users, db'.accounts)
    ensures UsersEvolve(db.users, db'.users) && AccountsEvolve(db.accounts, db'.accounts)
    ensures LossEndsEpoch(db, db')
  {
    JoinUsers(db, db', u, a);
    hide UsersOk, AccountsOk, UsersEvolve, AccountsEvolve, CanInsertAccount, AccountOk, UserOk, UserEvolves;
    AccountsFrame(db.users, db'.users, db.accounts);
    JoinAccounts(db, db', u, a);
  }

  lemma JoinTables(c: Config, db: Db, db': Db, u: Id, a: Id)
    requires Tables(c, db) && Joins(db, db', u, a)
    ensures Tables(c, db') && UsersEvolve(db.users, db'.users) && AccountsEvolve(db.accounts, db'.accounts)
  {
    JoinRows(db, db', u, a);
    hide UsersOk, AccountsOk, Inventory, Links, FlowsOk, Claims, SessionsOk, ChallengesOk, UsersEvolve, AccountsEvolve, LossEndsEpoch;
    JoinInventory(db.users, db'.users, db.accounts, a, db'.accounts[a]) by {
      assert a !in db.accounts;
    }
    SessionsSame(db);
    UsersSessionsFrame(c, db, db');
    LinksFrame(db, db');
  }

  lemma SessionsSame(db: Db)
    ensures SessionsEvolve(db.sessions, db.sessions)
  {
  }

  lemma KeepsJoin(c: Config, s: Sys, db: Db, u: Id, a: Id)
    requires Inv(c, s) && Joins(s.db, db, u, a)
    ensures Inv(c, Commit(s, db)) && SysEvolves(s, Commit(s, db))
  {
    hide Tables;
    JoinTables(c, s.db, db, u, a);
    CommittedWithoutFlows(c, s, db);
  }

  // ---- flows

  /** A flow that claims nothing and finishes nothing. */
  lemma FlowAddedTables(c: Config, db: Db, row: Flow)
    requires Tables(c, db) && FlowOk(db.users, db.accounts, db.sessions, row)
    requires !row.purpose.LinkIdentity? && row.claimedBy.None?
    ensures Tables(c, AddFlow(db, row)) && FlowsEvolve(db.flows, AddFlow(db, row).flows)
  {
    hide UsersOk, AccountsOk, Inventory, SessionsOk, ChallengesOk, FlowOk, Claims, FlowEvolves, StillLinked;
    FlowAddedClaims(db, row);
    assert forall f | f in db.flows :: FlowEvolves(db.flows[f], db.flows[f]) by {
      FlowsSame(db);
    }
    assert StillLinked(db.users, db.accounts, row.(expires := db.now + FLOW_TTL)) by {
      NotALink(db, row.(expires := db.now + FLOW_TTL));
    }
    assert FlowOk(db.users, db.accounts, db.sessions, row.(expires := db.now + FLOW_TTL)) by {
      ExpiryIsFree(db, row);
    }
  }

  lemma FlowsSame(db: Db)
    ensures forall f | f in db.flows :: FlowEvolves(db.flows[f], db.flows[f])
  {
  }

  lemma NotALink(db: Db, row: Flow)
    requires !row.purpose.LinkIdentity?
    ensures StillLinked(db.users, db.accounts, row)
  {
  }

  lemma ExpiryIsFree(db: Db, row: Flow)
    requires FlowOk(db.users, db.accounts, db.sessions, row)
    ensures FlowOk(db.users, db.accounts, db.sessions, row.(expires := db.now + FLOW_TTL))
  {
  }

  lemma FlowAddedClaims(db: Db, row: Flow)
    requires FreshIds(db) && Claims(db.flows, db.challenges) && !row.purpose.LinkIdentity? && row.claimedBy.None?
    ensures Claims(AddFlow(db, row).flows, db.challenges)
  {
    var flows' := AddFlow(db, row).flows;
    forall p | p in flows'
      ensures ClaimHasChild(flows', db.challenges, p) && LinkHasParent(flows', p)
    {
      assert p in db.flows ==> ClaimHasChild(db.flows, db.challenges, p) && LinkHasParent(db.flows, p);
    }
    forall v | v in db.challenges
      ensures ChangeHasParent(flows', db.challenges, v)
    {
      assert ChangeHasParent(db.flows, db.challenges, v);
    }
  }

  lemma FlowAddedEvolves(db: Db, row: Flow)
    requires FreshIds(db)
    ensures Evolves(db, AddFlow(db, row))
  {
  }

  lemma KeepsPublicFlow(c: Config, s: Sys, purpose: FlowPurpose, p: Provider)
    requires Inv(c, s) && (purpose.Login? || purpose.SignUp?) && p.External?
    ensures Inv(c, Commit(s, AddFlow(s.db, PublicFlowRow(purpose, p))))
    ensures SysEvolves(s, Commit(s, AddFlow(s.db, PublicFlowRow(purpose, p))))
  {
    hide UsersOk, AccountsOk, Inventory, SessionsOk, ChallengesOk, FlowsOk, Claims, Links, Evidence, History, PresentedOk, CallsOk, Evolves;
    FlowAddedTables(c, s.db, PublicFlowRow(purpose, p));
    FlowAddedEvolves(s.db, PublicFlowRow(purpose, p));
    PublicFlowEvidence(s, PublicFlowRow(purpose, p));
    Committed(c, s, AddFlow(s.db, PublicFlowRow(purpose, p)));
  }

  lemma PublicFlowEvidence(s: Sys, row: Flow)
    requires FreshIds(s.db) && Evidence(s.db.accounts, s.db.flows, s.presented) && (row.purpose.Login? || row.purpose.SignUp?)
    ensures Evidence(s.db.accounts, AddFlow(s.db, row).flows, s.presented)
    ensures NoneConsumed(s.db.flows, AddFlow(s.db, row).flows)
    ensures forall f | f in s.db.flows && s.db.flows[f].status.Consumed? :: AddFlow(s.db, row).flows[f].claimedBy == s.db.flows[f].claimedBy
  {
    forall f | f in AddFlow(s.db, row).flows
      ensures Evident(s.db.accounts, AddFlow(s.db, row).flows, s.presented, f)
    {
      assert f in s.db.flows ==> Evident(s.db.accounts, s.db.flows, s.presented, f);
    }
  }

  lemma InsertedEvidence(s: Sys, s': Sys, k: Call)
    requires CallOk(s.db, k) && k.InsertCall? && PresentedOk(s.db.flows, s.presented) && FreshIds(s.db)
    requires Evidence(s.db.accounts, s.db.flows, s.presented)
    requires s' == s.(db := AddFlow(s.db, k.flow),
                      presented := if k.presented.Some? then s.presented[s.db.next := k.presented.value] else s.presented)
    ensures Evidence(s'.db.accounts, s'.db.flows, s'.presented) && PresentedOk(s'.db.flows, s'.presented)
  {
    forall f | f in s'.db.flows
      ensures Evident(s'.db.accounts, s'.db.flows, s'.presented, f)
    {
      assert f in s.db.flows ==> Evident(s.db.accounts, s.db.flows, s.presented, f);
    }
  }

  lemma KeepsInsert(c: Config, s: Sys, s': Sys, k: Call)
    requires Inv(c, s) && k in s.calls && k.InsertCall?
    requires s' == s.(db := AddFlow(s.db, k.flow),
                      presented := if k.presented.Some? then s.presented[s.db.next := k.presented.value] else s.presented)
    ensures Inv(c, s') && SysEvolves(s, s')
  {
    hide UsersOk, AccountsOk, Inventory, SessionsOk, ChallengesOk, Claims, Links, FlowsOk, Evidence, PresentedOk, History, FlowOk;
    assert CallOk(s.db, k);
    FlowAddedTables(c, s.db, k.flow);
    FlowAddedEvolves(s.db, k.flow);
    InsertedEvidence(s, s', k);
    hide Tables, CallsOk, CallOk;
    HistoryFrame(s.db.flows, s'.db.flows, s.history);
    CallsFrame(s.db, s'.db, s.calls);
  }

  /** A flow row replaced by a later one that neither claims nor finishes a proof or a link. */
  predicate Advances(db: Db, f: Id, row: Flow)
  {
    && f in db.flows && FlowEvolves(db.flows[f], row) && row.claimedBy == db.flows[f].claimedBy
    && FlowOk(db.users, db.accounts, db.sessions, row)
    && (row.purpose.Reauthenticate? || row.purpose.LinkIdentity? ==> (row.status.Consumed? <==> db.flows[f].status.Consumed?))
  }

  lemma AdvancedTables(c: Config, db: Db, f: Id, row: Flow)
    requires Tables(c, db) && Advances(db, f, row)
    ensures Tables(c, db.(flows := db.flows[f := row])) && FlowsEvolve(db.flows, db.flows[f := row])
  {
    hide UsersOk, AccountsOk, Inventory, SessionsOk, ChallengesOk, FlowOk, Claims;
    AdvancedClaims(db, f, row);
    var flows' := db.flows[f := row];
    forall p | p in flows'
      ensures StillLinked(db.users, db.accounts, flows'[p])
    {
      assert StillLinked(db.users, db.accounts, db.flows[p]);
    }
  }

  lemma AdvancedClaims(db: Db, f: Id, row: Flow)
    requires FlowsOk(db.users, db.accounts, db.sessions, db.flows) && Claims(db.flows, db.challenges) && Advances(db, f, row)
    ensures Claims(db.flows[f := row], db.challenges)
  {
    hide FlowOk;
    var flows' := db.flows[f := row];
    forall p | p in flows'
      ensures ClaimHasChild(flows', db.challenges, p) && LinkHasParent(flows', p)
    {
      assert ClaimHasChild(db.flows, db.challenges, p) && LinkHasParent(db.flows, p);
    }
    forall v | v in db.challenges
      ensures ChangeHasParent(flows', db.challenges, v)
    {
      assert ChangeHasParent(db.flows, db.challenges, v);
    }
  }

  lemma KeepsAdvance(c: Config, s: Sys, f: Id, row: Flow)
    requires Inv(c, s) && Advances(s.db, f, row)
    requires Evident(s.db.accounts, s.db.flows[f := row], s.presented, f)
    ensures Inv(c, Commit(s, s.db.(flows := s.db.flows[f := row])))
    ensures SysEvolves(s, Commit(s, s.db.(flows := s.db.flows[f := row])))
  {
    hide Tables, Evidence, History, PresentedOk, CallsOk, UserEvolves, AccountEvolves, SessionEvolves, ChallengeEvolves, Evident, FlowOk;
    var db' := s.db.(flows := s.db.flows[f := row]);
    AdvancedTables(c, s.db, f, row);
    AdvancedEvidence(s, f, row);
    SameRows(s.db);
    Committed(c, s, db');
  }

  lemma AdvancedEvidence(s: Sys, f: Id, row: Flow)
    requires Evidence(s.db.accounts, s.db.flows, s.presented) && f in s.db.flows
    requires Evident(s.db.accounts, s.db.flows[f := row], s.presented, f)
    ensures Evidence(s.db.accounts, s.db.flows[f := row], s.presented)
  {
    forall p | p in s.db.flows
      ensures Evident(s.db.accounts, s.db.flows[f := row], s.presented, p)
    {
      assert Evident(s.db.accounts, s.db.flows, s.presented, p);
    }
  }

  // ---- claims

  /** A claimed proof and its new child, a link flow. */
  lemma LinkStartedClaims(db: Db, r: Request, version: nat, p: Provider, proof: Id)
    requires FreshIds(db) && FlowsOk(db.users, db.accounts, db.sessions, db.flows) && Claims(db.flows, db.challenges)
    requires ProofFor(db, r, version, proof, LinkAccount(p)) && db.flows[proof].status.Authorized? && p.External?
    ensures Claims(LinkStarted(db, r, version, p, proof).flows, db.challenges)
    ensures FlowsOk(db.users, db.accounts, db.sessions, LinkStarted(db, r, version, p, proof).flows)
  {
    var flows' := LinkStarted(db, r, version, p, proof).flows;
    assert FlowOk(db.users, db.accounts, db.sessions, db.flows[proof]);
    forall f | f in flows'
      ensures ClaimHasChild(flows', db.challenges, f) && LinkHasParent(flows', f) && FlowOk(db.users, db.accounts, db.sessions, flows'[f])
    {
      assert f in db.flows ==> ClaimHasChild(db.flows, db.challenges, f) && LinkHasParent(db.flows, f);
      assert f in db.flows ==> FlowOk(db.users, db.accounts, db.sessions, db.flows[f]);
    }
    forall v | v in db.challenges
      ensures ChangeHasParent(flows', db.challenges, v)
    {
      assert ChangeHasParent(db.flows, db.challenges, v);
    }
  }

  lemma EmailRequestedClaims(db: Db, r: Request, version: nat, e: Email, proof: Id)
    requires FreshIds(db) && FlowsOk(db.users, db.accounts, db.sessions, db.flows) && Claims(db.flows, db.challenges)
    requires ProofFor(db, r, version, proof, ChangeEmail(e)) && db.flows[proof].status.Authorized?
    ensures Claims(EmailRequested(db, r, version, e, proof).flows, EmailRequested(db, r, version, e, proof).challenges)
    ensures FlowsOk(db.users, db.accounts, db.sessions, EmailRequested(db, r, version, e, proof).flows)
  {
    var flows', challenges' := EmailRequested(db, r, version, e, proof).flows, EmailRequested(db, r, version, e, proof).challenges;
    assert FlowOk(db.users, db.accounts, db.sessions, db.flows[proof]);
    forall f | f in flows'
      ensures ClaimHasChild(flows', challenges', f) && LinkHasParent(flows', f) && FlowOk(db.users, db.accounts, db.sessions, flows'[f])
    {
      assert ClaimHasChild(db.flows, db.challenges, f) && LinkHasParent(db.flows, f);
      assert FlowOk(db.users, db.accounts, db.sessions, db.flows[f]);
    }
    forall v | v in challenges'
      ensures ChangeHasParent(flows', challenges', v)
    {
      assert v in db.challenges ==> ChangeHasParent(db.flows, db.challenges, v);
    }
  }

  /** The flows after one proof was claimed and possibly one child added. */
  predicate ClaimedIn(flows: map<Id, Flow>, flows': map<Id, Flow>, proof: Id, child: Id) {
    && proof in flows && flows[proof].purpose.Reauthenticate? && flows[proof].status.Authorized? && flows[proof].claimedBy.None?
    && child !in flows
    && proof in flows' && flows'[proof] == flows[proof].(status := Claimed, claimedBy := Some(child))
    && (forall f | f in flows && f != proof :: f in flows' && flows'[f] == flows[f])
    && (forall f | f in flows' && f !in flows :: f == child && flows'[f].purpose.LinkIdentity? && flows'[f].status.Waiting?)
  }

  lemma ClaimFrames(users: map<Id, User>, accounts: map<Id, Account>, flows: map<Id, Flow>, flows': map<Id, Flow>, presented: map<Id, Password>, proof: Id, child: Id)
    requires ClaimedIn(flows, flows', proof, child)
    requires Links(users, accounts, flows) && Evidence(accounts, flows, presented)
    ensures Links(users, accounts, flows') && Evidence(accounts, flows', presented)
    ensures FlowsEvolve(flows, flows') && NoneConsumed(flows, flows')
    ensures forall f | f in flows && flows[f].status.Consumed? :: flows'[f].claimedBy == flows[f].claimedBy
  {
    forall f | f in flows'
      ensures StillLinked(users, accounts, flows'[f]) && Evident(accounts, flows', presented, f)
    {
      assert f in flows ==> StillLinked(users, accounts, flows[f]) && Evident(accounts, flows, presented, f);
    }
  }

  lemma LinkCallClaims(db: Db, k: Call)
    requires FreshIds(db) && FlowsOk(db.users, db.accounts, db.sessions, db.flows)
    requires CallOk(db, k) && k.LinkCall? && CanClaim(db, k.proof)
    ensures ProofFor(db, k.request, k.version, k.proof, LinkAccount(k.provider)) && k.provider.External?
    ensures ClaimedIn(db.flows, LinkStarted(db, k.request, k.version, k.provider, k.proof).flows, k.proof, db.next)
  {
    assert FlowOk(db.users, db.accounts, db.sessions, db.flows[k.proof]);
  }

  lemma KeepsLinkStarted(c: Config, s: Sys, k: Call)
    requires Inv(c, s) && k in s.calls && k.LinkCall? && CanClaim(s.db, k.proof)
    ensures Inv(c, Commit(s, LinkStarted(s.db, k.request, k.version, k.provider, k.proof)))
    ensures SysEvolves(s, Commit(s, LinkStarted(s.db, k.request, k.version, k.provider, k.proof)))
  {
    hide CallOk, FlowsOk, Claims, UsersOk, AccountsOk, Inventory, SessionsOk, ChallengesOk, Links, Evidence, History, PresentedOk, ClaimedIn, ProofFor,
         NoneConsumed, FlowsEvolve, LinkStarted, CanClaim, Evolves;
    ClaimableProof(s.db, k.proof);
    var db' := LinkStarted(s.db, k.request, k.version, k.provider, k.proof);
    LinkCallClaims(s.db, k);
    LinkStartedClaims(s.db, k.request, k.version, k.provider, k.proof);
    ClaimFrames(s.db.users, s.db.accounts, s.db.flows, db'.flows, s.presented, k.proof, s.db.next);
    LinkStartedEvolves(s.db, k);
    Committed(c, s, db');
  }

  lemma ClaimableProof(db: Db, proof: Id)
    requires CanClaim(db, proof)
    ensures proof in db.flows && db.flows[proof].status.Authorized?
  {
  }

  lemma LinkStartedEvolves(db: Db, k: Call)
    requires FreshIds(db) && k.LinkCall? && CanClaim(db, k.proof)
    requires FlowsEvolve(db.flows, LinkStarted(db, k.request, k.version, k.provider, k.proof).flows)
    ensures var db' := LinkStarted(db, k.request, k.version, k.provider, k.proof);
            Evolves(db, db') && FreshIds(db') && db' == db.(next := db.next + 1, flows := db'.flows)
  {
    hide FlowsEvolve;
  }

  lemma EmailCallClaims(db: Db, k: Call)
    requires FreshIds(db) && FlowsOk(db.users, db.accounts, db.sessions, db.flows)
    requires CallOk(db, k) && k.EmailCall? && CanClaim(db, k.proof)
    ensures ProofFor(db, k.request, k.version, k.proof, ChangeEmail(k.email))
    ensures ClaimedIn(db.flows, EmailRequested(db, k.request, k.version, k.email, k.proof).flows, k.proof, db.next)
  {
    assert FlowOk(db.users, db.accounts, db.sessions, db.flows[k.proof]);
  }

  lemma EmailRequestedChallenges(db: Db, k: Call)
    requires FreshIds(db) && FlowsOk(db.users, db.accounts, db.sessions, db.flows) && ChallengesOk(db.users, db.challenges)
    requires k.EmailCall? && ProofFor(db, k.request, k.version, k.proof, ChangeEmail(k.email))
    ensures ChallengesOk(db.users, EmailRequested(db, k.request, k.version, k.email, k.proof).challenges)
    ensures ChallengesEvolve(db.challenges, EmailRequested(db, k.request, k.version, k.email, k.proof).challenges)
  {
    assert FlowOk(db.users, db.accounts, db.sessions, db.flows[k.proof]);
  }

  lemma KeepsEmailRequested(c: Config, s: Sys, k: Call)
    requires Inv(c, s) && k in s.calls && k.EmailCall? && CanClaim(s.db, k.proof)
    ensures Inv(c, Commit(s, EmailRequested(s.db, k.request, k.version, k.email, k.proof)))
    ensures SysEvolves(s, Commit(s, EmailRequested(s.db, k.request, k.version, k.email, k.proof)))
  {
    hide CallOk, FlowsOk, Claims, UsersOk, AccountsOk, Inventory, SessionsOk, ChallengesOk, Links, Evidence, History, PresentedOk, ClaimedIn, ProofFor,
         NoneConsumed, FlowsEvolve, ChallengesEvolve, EmailRequested, CanClaim, Evolves;
    ClaimableProof(s.db, k.proof);
    var db' := EmailRequested(s.db, k.request, k.version, k.email, k.proof);
    EmailCallClaims(s.db, k);
    EmailRequestedChallenges(s.db, k);
    EmailRequestedClaims(s.db, k.request, k.version, k.email, k.proof);
    ClaimFrames(s.db.users, s.db.accounts, s.db.flows, db'.flows, s.presented, k.proof, s.db.next);
    EmailRequestedEvolves(s.db, k);
    Committed(c, s, db');
  }

  lemma EmailRequestedEvolves(db: Db, k: Call)
    requires FreshIds(db) && k.EmailCall? && CanClaim(db, k.proof)
    requires FlowsEvolve(db.flows, EmailRequested(db, k.request, k.version, k.email, k.proof).flows)
    requires ChallengesEvolve(db.challenges, EmailRequested(db, k.request, k.version, k.email, k.proof).challenges)
    ensures var db' := EmailRequested(db, k.request, k.version, k.email, k.proof);
            Evolves(db, db') && FreshIds(db') && db' == db.(next := db.next + 1, flows := db'.flows, challenges := db'.challenges, mail := db'.mail)
  {
    hide FlowsEvolve, ChallengesEvolve;
  }

  // ---- spending a proof

  /** The flows (and challenges) after proof p and its child, if any, were finished together. */
  ghost predicate Spends(flows: map<Id, Flow>, flows': map<Id, Flow>, challenges: map<Id, Challenge>, challenges': map<Id, Challenge>, w: Sensitive) {
    && flows'.Keys == flows.Keys && challenges'.Keys == challenges.Keys
    && w.proof in flows && flows[w.proof].purpose.Reauthenticate?
    && (if w.child.None? then flows[w.proof].status.Authorized? else flows[w.proof].status.Claimed?)
    && flows[w.proof].claimedBy == w.child && flows[w.proof].grant == Some(w.grant)
    && flows[w.proof].binding.Some? && flows[w.proof].binding.value.user == w.user
    && (forall f | f in flows :: flows'[f] ==
          if f == w.proof || (Some(f) == w.child && flows[f].purpose.LinkIdentity?) then flows[f].(status := Consumed, protocol := false) else flows[f])
    && (forall v | v in challenges :: challenges'[v] ==
          if Some(v) == w.child && challenges[v].purpose.VerifyChange? then challenges[v].(consumed := true) else challenges[v])
    && (w.child.Some? && w.child.value in flows && flows[w.child.value].purpose.LinkIdentity? ==> flows[w.child.value].status.Verified?)
  }

  lemma SpendFlows(db: Db, flows': map<Id, Flow>, challenges': map<Id, Challenge>, w: Sensitive)
    requires FlowsOk(db.users, db.accounts, db.sessions, db.flows) && ChallengesOk(db.users, db.challenges)
    requires Spends(db.flows, flows', db.challenges, challenges', w)
    ensures FlowsOk(db.users, db.accounts, db.sessions, flows') && ChallengesOk(db.users, challenges')
    ensures FlowsEvolve(db.flows, flows') && ChallengesEvolve(db.challenges, challenges')
  {
    forall f | f in flows'
      ensures FlowOk(db.users, db.accounts, db.sessions, flows'[f])
    {
      assert FlowOk(db.users, db.accounts, db.sessions, db.flows[f]);
    }
  }

  lemma SpendClaims(flows: map<Id, Flow>, flows': map<Id, Flow>, challenges: map<Id, Challenge>, challenges': map<Id, Challenge>, w: Sensitive)
    requires Claims(flows, challenges) && Spends(flows, flows', challenges, challenges', w)
    requires forall v | v in challenges :: v !in flows
    requires forall f | f in flows && flows[f].purpose.LinkIdentity? :: flows[f].parent.Some? && flows[f].binding.Some? && flows[f].grant.Some?
    requires forall v | v in challenges && challenges[v].purpose.VerifyChange? :: challenges[v].parent.Some? && challenges[v].session.Some?
    ensures Claims(flows', challenges')
  {
    forall f | f in flows'
      ensures ClaimHasChild(flows', challenges', f) && LinkHasParent(flows', f)
    {
      assert ClaimHasChild(flows, challenges, f) && LinkHasParent(flows, f);
      assert ClaimHasChild(flows, challenges, w.proof);
    }
    forall v | v in challenges'
      ensures ChangeHasParent(flows', challenges', v)
    {
      assert ChangeHasParent(flows, challenges, v);
      assert ClaimHasChild(flows, challenges, w.proof);
    }
  }

  lemma SpendLinks(users: map<Id, User>, accounts: map<Id, Account>, flows: map<Id, Flow>, flows': map<Id, Flow>,
                   challenges: map<Id, Challenge>, challenges': map<Id, Challenge>, w: Sensitive, presented: map<Id, Password>)
    requires Links(users, accounts, flows) && Evidence(accounts, flows, presented) && Spends(flows, flows', challenges, challenges', w)
    requires w.child.Some? && w.child.value in flows && flows[w.child.value].purpose.LinkIdentity? && flows[w.child.value].binding.Some? && flows[w.child.value].identity.Some?
             ==> UserHolds(accounts, flows[w.child.value].binding.value.user, flows[w.child.value].identity.value)
    ensures Links(users, accounts, flows') && Evidence(accounts, flows', presented)
  {
    forall f | f in flows'
      ensures StillLinked(users, accounts, flows'[f]) && Evident(accounts, flows', presented, f)
    {
      assert StillLinked(users, accounts, flows[f]) && Evident(accounts, flows, presented, f);
    }
  }

  lemma SpendHistory(flows: map<Id, Flow>, flows': map<Id, Flow>, challenges: map<Id, Challenge>, challenges': map<Id, Challenge>,
                     history: seq<Sensitive>, w: Sensitive)
    requires History(flows, history) && Spends(flows, flows', challenges, challenges', w)
    ensures History(flows', history + [w])
  {
    var history' := history + [w];
    forall i | 0 <= i < |history'|
      ensures Paid(flows', history'[i])
      ensures i < |history| ==> history'[i].proof != w.proof
    {
      assert i < |history| ==> Paid(flows, history[i]);
    }
    forall p | p in flows' && flows'[p].purpose.Reauthenticate? && flows'[p].status.Consumed?
      ensures exists i | 0 <= i < |history'| :: history'[i].proof == p
    {
      if p == w.proof {
        assert history'[|history|].proof == p;
      } else {
        var i :| 0 <= i < |history| && history[i].proof == p;
        assert history'[i].proof == p;
      }
    }
  }

  lemma SpendTables(c: Config, db: Db, db': Db, w: Sensitive)
    requires Tables(c, db) && db' == db.(flows := db'.flows, challenges := db'.challenges)
    requires Spends(db.flows, db'.flows, db.challenges, db'.challenges, w)
    requires Links(db.users, db.accounts, db'.flows)
    ensures Tables(c, db') && Evolves(db, db')
  {
    hide UsersOk, AccountsOk, Inventory, SessionsOk, FlowsOk, ChallengesOk, Links, Claims, Spends, FlowsEvolve, ChallengesEvolve;
    ChildShapes(db);
    SpendFlows(db, db'.flows, db'.challenges, w);
    SpendClaims(db.flows, db'.flows, db.challenges, db'.challenges, w);
    SpendKeys(db.flows, db'.flows, db.challenges, db'.challenges, w);
  }

  lemma ChildShapes(db: Db)
    requires FlowsOk(db.users, db.accounts, db.sessions, db.flows) && ChallengesOk(db.users, db.challenges)
    ensures forall f | f in db.flows && db.flows[f].purpose.LinkIdentity? :: db.flows[f].parent.Some? && db.flows[f].binding.Some? && db.flows[f].grant.Some?
    ensures forall v | v in db.challenges && db.challenges[v].purpose.VerifyChange? :: db.challenges[v].parent.Some? && db.challenges[v].session.Some?
  {
    assert forall f | f in db.flows && db.flows[f].purpose.LinkIdentity? :: FlowOk(db.users, db.accounts, db.sessions, db.flows[f]);
  }

  lemma SpendKeys(flows: map<Id, Flow>, flows': map<Id, Flow>, challenges: map<Id, Challenge>, challenges': map<Id, Challenge>, w: Sensitive)
    requires Spends(flows, flows', challenges, challenges', w)
    ensures flows'.Keys == flows.Keys && challenges'.Keys == challenges.Keys
  {
  }

  lemma KeepsSpend(c: Config, s: Sys, db: Db, w: Sensitive)
    requires Inv(c, s)
    requires db == s.db.(flows := db.flows, challenges := db.challenges)
    requires Spends(s.db.flows, db.flows, s.db.challenges, db.challenges, w)
    requires w.child.Some? && w.child.value in s.db.flows && s.db.flows[w.child.value].purpose.LinkIdentity?
             && s.db.flows[w.child.value].binding.Some? && s.db.flows[w.child.value].identity.Some?
             ==> UserHolds(s.db.accounts, s.db.flows[w.child.value].binding.value.user, s.db.flows[w.child.value].identity.value)
    ensures Inv(c, Record(s, db, w)) && SysEvolves(s, Record(s, db, w))
  {
    hide UsersOk, AccountsOk, Inventory, SessionsOk, FlowsOk, ChallengesOk, Links, Evidence, History, CallsOk, Claims;
    SpendLinks(s.db.users, s.db.accounts, s.db.flows, db.flows, s.db.challenges, db.challenges, w, s.presented);
    SpendHistory(s.db.flows, db.flows, s.db.challenges, db.challenges, s.history, w);
    SpendTables(c, s.db, db, w);
    hide Tables, Spends, Evolves;
    CallsFrame(s.db, db, s.calls);
  }

  // ---- releasing an address, revoking an account

  lemma ReleaseUsers(users: map<Id, User>, accounts: map<Id, Account>, e: Email)
    requires UsersOk(users)
    ensures UsersOk(Release(users, accounts, e)) && UsersEvolve(users, Release(users, accounts, e))
    ensures NoneActivated(users, Release(users, accounts, e))
  {
  }

  lemma ReleaseKeys(users: map<Id, User>, accounts: map<Id, Account>, e: Email)
    ensures Release(users, accounts, e).Keys == users.Keys
  {
  }

  lemma KeepsRelease(c: Config, s: Sys, e: Email)
    requires Inv(c, s)
    ensures Inv(c, Commit(s, s.db.(users := Release(s.db.users, s.db.accounts, e))))
    ensures SysEvolves(s, Commit(s, s.db.(users := Release(s.db.users, s.db.accounts, e))))
  {
    hide UsersOk, AccountsOk, Inventory, SessionsOk, FlowsOk, ChallengesOk, Claims, Links, Evidence, History, PresentedOk, CallsOk, NoneActivated, SameLiving, UserEvolves, AccountEvolves, SessionEvolves, ChallengeEvolves, Release;
    var db' := s.db.(users := Release(s.db.users, s.db.accounts, e));
    ReleaseUsers(s.db.users, s.db.accounts, e);
    ReleaseKeys(s.db.users, s.db.accounts, e);
    SameLivingRefl(s.db.accounts);
    SameRows(s.db);
    UsersSessionsFrame(c, s.db, db');
    InventoryFrame(s.db.users, db'.users, s.db.accounts, s.db.accounts);
    LinksFrame(s.db, db');
    CommittedWithoutFlows(c, s, db');
  }

  /** Some other unrevoked account of the owner remains. */
  predicate CanRevoke(db: Db, a: Id) {
    && a in db.accounts && !db.accounts[a].revoked
    && exists b | b in db.accounts :: b != a && LiveAccount(db.accounts, b, db.accounts[a].user)
  }

  function RevokedAccount(accounts: map<Id, Account>, a: Id): map<Id, Account>
    requires a in accounts
  {
    accounts[a := accounts[a].(revoked := true, version := accounts[a].version + 1)]
  }

  lemma RevokeInventory(users: map<Id, User>, users': map<Id, User>, accounts: map<Id, Account>, a: Id)
    requires Inventory(users, accounts) && NoneActivated(users, users')
    requires a in accounts && exists b | b in accounts :: b != a && LiveAccount(accounts, b, accounts[a].user)
    ensures Inventory(users', RevokedAccount(accounts, a))
  {
    var accounts' := RevokedAccount(accounts, a);
    forall w | w in users' && !users'[w].status.Pending?
      ensures 1 <= |LiveAccounts(accounts', w)| <= MAX_LOGIN_ACCOUNTS
    {
      assert LiveAccounts(accounts', w) == LiveAccounts(accounts, w) - {a};
      if w == accounts[a].user {
        var b :| b in accounts && b != a && LiveAccount(accounts, b, w);
        assert b in LiveAccounts(accounts', w);
      }
    }
  }

  lemma RevokeRows(db: Db, db': Db, a: Id, row: User)
    requires UsersOk(db.users) && AccountsOk(db.users, db.accounts) && FreshIds(db) && CanRevoke(db, a)
    requires db.accounts[a].user in db.users && EpochEnded(db.users, db.accounts[a].user, row)
    requires db' == db.(users := db.users[db.accounts[a].user := row], sessions := RevokeSessions(db.sessions, db.accounts[a].user),
                        accounts := RevokedAccount(db.accounts, a))
    ensures FreshIds(db') && UsersOk(db'.users) && AccountsOk(db'.users, db'.accounts)
    ensures UsersEvolve(db.users, db'.users) && AccountsEvolve(db.accounts, db'.accounts) && NoneActivated(db.users, db'.users)
    ensures LossEndsEpoch(db, db')
  {
    hide UsersOk, EpochEnded, UserEvolves, NoneActivated, UsersEvolve;
    EpochEndUsers(db, db.accounts[a].user, row);
    AccountsFrame(db.users, db'.users, db.accounts);
    RevokedEvolves(db.accounts, a);
    RevokeEndsEpoch(db, db', a, row);
  }

  lemma RevokedEvolves(accounts: map<Id, Account>, a: Id)
    requires a in accounts && !accounts[a].revoked
    ensures AccountsEvolve(accounts, RevokedAccount(accounts, a))
  {
  }

  /** Only the revoked account is lost, and its owner's version is higher. */
  lemma RevokeEndsEpoch(db: Db, db': Db, a: Id, row: User)
    requires a in db.accounts && db.accounts[a].user in db.users && EpochEnded(db.users, db.accounts[a].user, row)
    requires db'.users == db.users[db.accounts[a].user := row] && db'.accounts == RevokedAccount(db.accounts, a)
    ensures LossEndsEpoch(db, db')
  {
  }

  /** Revoking an account and ending its owner's epoch in one transaction. */
  lemma KeepsRevoke(c: Config, s: Sys, db: Db, a: Id, row: User)
    requires Inv(c, s) && CanRevoke(s.db, a)
    requires s.db.accounts[a].user in s.db.users && EpochEnded(s.db.users, s.db.accounts[a].user, row)
    requires db == s.db.(users := s.db.users[s.db.accounts[a].user := row], sessions := RevokeSessions(s.db.sessions, s.db.accounts[a].user),
                         accounts := RevokedAccount(s.db.accounts, a))
    ensures Inv(c, Commit(s, db)) && SysEvolves(s, Commit(s, db))
  {
    RevokeRows(s.db, db, a, row);
    RevokeEvolves(s.db.sessions, s.db.accounts[a].user);
    hide UsersOk, AccountsOk, Inventory, SessionsOk, FlowsOk, ChallengesOk, Links, Evidence, History, CallsOk, Claims, UsersEvolve, AccountsEvolve, NoneActivated, LossEndsEpoch, EpochEnded;
    UsersSessionsFrame(c, s.db, db);
    RevokedSessionsOk(c, db.users, s.db.sessions, s.db.accounts[a].user);
    RevokeInventory(s.db.users, db.users, s.db.accounts, a);
    LinksFrame(s.db, db);
    CommittedWithoutFlows(c, s, db);
  }
}
