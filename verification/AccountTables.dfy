/**
 The rows of the account tables, the database state, and the read queries.

 Identifiers, addresses, names and passwords are opaque: the module only ever compares them,
 so they are numbers here. A fresh identifier is drawn from a counter.
 */
module AccountTables {
  import opened Wrappers
  import opened SessionClock

  type Id = nat
  type Email = nat
  type Password = nat

  const FLOW_TTL: Span := 5 * MINUTE
  const REGISTRATION_TTL: Span := 24 * 60 * MINUTE
  const RESET_TTL: Span := 15 * MINUTE
  const EMAIL_CHANGE_TTL: Span := 5 * MINUTE
  const MAX_LOGIN_ACCOUNTS: nat := 10

  // ---- users

  datatype UserStatus = Pending | Active | Disabled

  datatype User = User(status: UserStatus, email: Option<Email>, verified: bool, recovery: bool, version: nat)

  // ---- login accounts

  datatype Provider = Credential | External(name: nat)

  datatype Namespace = Local | Remote(name: nat)

  datatype Identity = Identity(space: Namespace, subject: nat)

  /** A stored hash is known by the password it represents; the salt tells two hashes of one password apart. */
  datatype Hash = Hash(password: Password, salt: nat)

  predicate Represents(hash: Option<Hash>, password: Password) {
    hash.Some? && hash.value.password == password
  }

  datatype Account = Account(user: Id, provider: Provider, identity: Identity, hash: Option<Hash>, version: nat, revoked: bool)

  // ---- sessions

  datatype Session = Session(user: Id, source: Id, version: nat, timing: Timing, revoked: bool)

  // ---- flows and reauthentication proofs

  datatype FlowPurpose = Login | SignUp | Reauthenticate | LinkIdentity

  datatype FlowStatus = Waiting | Processing | Verified | Authorized | Claimed | Consumed | Failed

  /** A sensitive operation together with its exact target. */
  datatype Grant = LinkAccount(provider: Provider) | UnlinkAccount(account: Id) | SetPassword | ChangeEmail(email: Email)

  /** user_id, session_id and auth_version: all present or all absent. */
  datatype Binding = Binding(user: Id, session: Id, version: nat)

  datatype Proving = Proving(account: Id, version: nat)

  datatype Flow = Flow(
    purpose: FlowPurpose,
    status: FlowStatus,
    provider: Option<Provider>,
    binding: Option<Binding>,
    proving: Option<Proving>,
    grant: Option<Grant>,
    parent: Option<Id>,
    claimedBy: Option<Id>,
    protocol: bool,
    identity: Option<Identity>,
    expires: Instant)

  // ---- email challenges

  datatype ChallengePurpose = VerifyRegister | VerifyReset | VerifyChange

  datatype Challenge = Challenge(
    user: Id,
    purpose: ChallengePurpose,
    email: Email,
    version: nat,
    session: Option<Id>,
    parent: Option<Id>,
    consumed: bool,
    expires: Instant)

  // ---- outbox and audit rows, append-only for this module

  datatype MailKind = ChallengeMail(purpose: ChallengePurpose) | SecurityNotice

  datatype Mail = Mail(to: Email, kind: MailKind)

  datatype Action = AuditLogin | AuditRegister | AuditVerify(purpose: ChallengePurpose) | AuditPassword | AuditLink | AuditUnlink | AuditRevoke | AuditStatus

  datatype Audit = Audit(action: Action, user: Id, resource: Id)

  // ---- the database

  datatype Db = Db(
    now: Instant,
    next: Id,
    users: map<Id, User>,
    accounts: map<Id, Account>,
    sessions: map<Id, Session>,
    flows: map<Id, Flow>,
    challenges: map<Id, Challenge>,
    mail: seq<Mail>,
    audit: seq<Audit>)

  /** The service options and the fixed set of enabled third-party providers. */
  datatype Config = Config(limits: Limits, enabled: set<nat>)

  predicate ProviderEnabled(c: Config, p: Provider) {
    p.External? && p.name in c.enabled
  }

  /** The login ability of an unrevoked account is still on. */
  predicate AccountEnabled(c: Config, a: Account) {
    a.provider.Credential? || ProviderEnabled(c, a.provider)
  }

  datatype Request = Request(user: Id, session: Id)

  // ---- read queries

  /** An unrevoked account of the user. */
  predicate LiveAccount(accounts: map<Id, Account>, a: Id, u: Id) {
    a in accounts && accounts[a].user == u && !accounts[a].revoked
  }

  predicate LiveCredential(accounts: map<Id, Account>, a: Id, u: Id) {
    LiveAccount(accounts, a, u) && accounts[a].provider.Credential?
  }

  predicate HasCredential(accounts: map<Id, Account>, u: Id) {
    exists a | a in accounts :: LiveCredential(accounts, a, u)
  }

  function LiveAccounts(accounts: map<Id, Account>, u: Id): set<Id> {
    set a | a in accounts && LiveAccount(accounts, a, u)
  }

  /** The unrevoked account that holds a third-party identity. */
  predicate HoldsIdentity(accounts: map<Id, Account>, a: Id, i: Identity) {
    a in accounts && !accounts[a].revoked && accounts[a].identity == i
  }

  predicate IdentityTaken(accounts: map<Id, Account>, i: Identity) {
    exists a | a in accounts :: HoldsIdentity(accounts, a, i)
  }

  predicate UserHolds(accounts: map<Id, Account>, u: Id, i: Identity) {
    exists a | a in accounts :: HoldsIdentity(accounts, a, i) && accounts[a].user == u
  }

  /** The three partial unique indexes and the store's checks on an inserted account. */
  predicate CanInsertAccount(accounts: map<Id, Account>, row: Account) {
    && (row.provider.Credential? <==> row.hash.Some?)
    && (row.provider.Credential? ==> row.identity == Identity(Local, row.user))
    && (row.provider.External? ==> row.identity.space.Remote?)
    && !IdentityTaken(accounts, row.identity)
    && (forall a | a in accounts && !accounts[a].revoked ::
          !(accounts[a].provider == row.provider && accounts[a].identity.subject == row.identity.subject))
    && (row.provider.Credential? ==> !HasCredential(accounts, row.user))
  }

  predicate EmailTaken(users: map<Id, User>, e: Email) {
    exists u | u in users :: users[u].email == Some(e)
  }

  /** The session belongs to the user, is not revoked or expired, and carries the version of an active user. */
  predicate SessionValid(db: Db, s: Id, u: Id) {
    && s in db.sessions && u in db.users
    && db.sessions[s].user == u && !db.sessions[s].revoked
    && Open(db.sessions[s].timing, db.now)
    && db.users[u].status.Active?
    && db.users[u].version == db.sessions[s].version
  }

  predicate Self(db: Db, r: Request) {
    SessionValid(db, r.session, r.user)
  }

  /** A flow that has not expired. */
  predicate FlowVisible(db: Db, f: Id) {
    f in db.flows && db.flows[f].expires > db.now
  }

  /**
   Every check on a reauthentication proof: purpose, owner, original session, operation and target,
   one-time status, and the current versions of the user, the proving account and the session.
   */
  predicate Authorizes(c: Config, db: Db, r: Request, p: Id, g: Grant, claim: Option<Id>) {
    && FlowVisible(db, p)
    && var proof := db.flows[p];
    && proof.purpose.Reauthenticate? && proof.binding.Some? && proof.proving.Some?
    && proof.binding.value.user == r.user && proof.binding.value.session == r.session
    && proof.grant == Some(g)
    && (match claim case None => proof.status.Authorized? case Some(child) => proof.status.Claimed? && proof.claimedBy == Some(child))
    && r.user in db.users && db.users[r.user].status.Active? && db.users[r.user].version == proof.binding.value.version
    && LiveAccount(db.accounts, proof.proving.value.account, r.user)
    && db.accounts[proof.proving.value.account].version == proof.proving.value.version
    && AccountEnabled(c, db.accounts[proof.proving.value.account])
    && SessionValid(db, r.session, r.user)
  }

  // ---- write statements shared by several transactions

  function BumpVersion(users: map<Id, User>, u: Id): map<Id, User>
    requires u in users
  {
    users[u := users[u].(version := users[u].version + 1)]
  }

  function RevokeSessions(sessions: map<Id, Session>, u: Id): map<Id, Session> {
    map s | s in sessions :: if sessions[s].user == u then sessions[s].(revoked := true) else sessions[s]
  }

  /** End the user's epoch: bump the version and revoke every session. */
  function Invalidate(db: Db, u: Id): Db
    requires u in db.users
  {
    db.(users := BumpVersion(db.users, u), sessions := RevokeSessions(db.sessions, u))
  }

  /** One security notice, to the address the row carried if it was verified. */
  function Notify(mail: seq<Mail>, row: User): seq<Mail> {
    if row.email.Some? && row.verified then mail + [Mail(row.email.value, SecurityNotice)] else mail
  }

  function Log(audit: seq<Audit>, action: Action, user: Id, resource: Id): seq<Audit> {
    audit + [Audit(action, user, resource)]
  }

  function SetFlow(flows: map<Id, Flow>, f: Id, status: FlowStatus): (r: map<Id, Flow>)
    requires f in flows
    ensures r.Keys == flows.Keys
  {
    flows[f := flows[f].(status := status, protocol := false)]
  }

  /** Insert a challenge and its mail. */
  function AddChallenge(db: Db, row: Challenge): Db {
    db.(next := db.next + 1,
        challenges := db.challenges[db.next := row],
        mail := db.mail + [Mail(row.email, ChallengeMail(row.purpose))])
  }

  /** Insert a session for an account, with its audit event. */
  function AddSession(c: Config, db: Db, u: Id, source: Id): Db
    requires u in db.users
  {
    db.(next := db.next + 1,
        sessions := db.sessions[db.next := Session(u, source, db.users[u].version, Started(c.limits, db.now), false)],
        audit := Log(db.audit, AuditLogin, u, db.next))
  }
}
