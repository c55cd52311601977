/**
 The account protocol as atomic steps over the tables. A call that works outside a transaction
 (reads, then hashes or talks to a provider, then commits) is split: its read or check step
 leaves a snapshot among the calls in flight, and its commit step re-checks against the tables.

 Each commit has a guard (when the transaction commits) and an effect (what it then writes);
 a transaction whose guard fails is rolled back and changes nothing.
 A call in flight is never removed, so safety does not depend on a call committing only once.
 */
module AccountProtocol {
  import opened Wrappers
  import opened SessionClock
  import opened AccountTables

  // ---- registration and challenges

  /** The row an upsert on the address returns: the existing user, or a new pending one. */
  predicate CanRegister(db: Db, u: Id, e: Email) {
    if u in db.users then db.users[u].email == Some(e) else u == db.next && !EmailTaken(db.users, e)
  }

  function Registered(db: Db, u: Id, e: Email): Db {
    if u in db.users then
      if db.users[u].status.Pending?
      then AddChallenge(db, Challenge(u, VerifyRegister, e, db.users[u].version, None, None, false, db.now + REGISTRATION_TTL))
      else db
    else
      AddChallenge(db.(next := db.next + 1, users := db.users[u := User(Pending, Some(e), false, false, 1)]),
                   Challenge(u, VerifyRegister, e, 1, None, None, false, db.now + REGISTRATION_TTL))
  }

  predicate CanRecover(db: Db, u: Id) {
    && u in db.users && db.users[u].status.Active? && db.users[u].recovery && db.users[u].verified && db.users[u].email.Some?
    && HasCredential(db.accounts, u)
  }

  function RecoveryIssued(db: Db, u: Id, row: User): Db
    requires row.email.Some?
  {
    AddChallenge(db, Challenge(u, VerifyReset, row.email.value, row.version, None, None, false, db.now + RESET_TTL))
  }

  predicate ChallengeOpen(db: Db, v: Id) {
    v in db.challenges && !db.challenges[v].consumed && db.challenges[v].expires > db.now
  }

  /** What every consumed challenge needs at commit, whatever its purpose. */
  predicate ChallengeCurrent(db: Db, v: Id, row: Challenge) {
    && ChallengeOpen(db, v)
    && row.user in db.users && db.users[row.user].version == row.version && !db.users[row.user].status.Disabled?
  }

  function ConsumeChallenge(db: Db, v: Id): map<Id, Challenge>
    requires v in db.challenges
  {
    db.challenges[v := db.challenges[v].(consumed := true)]
  }

  function CredentialRow(u: Id, hash: Hash): Account {
    Account(u, Credential, Identity(Local, u), Some(hash), 1, false)
  }

  predicate CanActivate(db: Db, v: Id, row: Challenge, hash: Hash) {
    && ChallengeCurrent(db, v, row)
    && db.users[row.user].status.Pending? && db.users[row.user].email == Some(row.email)
    && CanInsertAccount(db.accounts, CredentialRow(row.user, hash))
  }

  function Activated(db: Db, v: Id, row: Challenge, hash: Hash): Db
    requires row.user in db.users && v in db.challenges
  {
    var u := db.users[row.user].(status := Active, verified := true, recovery := true);
    db.(next := db.next + 1,
        users := db.users[row.user := u],
        accounts := db.accounts[db.next := CredentialRow(row.user, hash)],
        challenges := ConsumeChallenge(db, v),
        mail := Notify(db.mail, u),
        audit := Log(db.audit, AuditVerify(VerifyRegister), row.user, row.user))
  }

  predicate CanReset(db: Db, v: Id, row: Challenge, a: Id) {
    && ChallengeCurrent(db, v, row)
    && var u := db.users[row.user];
    && u.status.Active? && u.recovery && u.verified && u.email == Some(row.email)
    && LiveCredential(db.accounts, a, row.user)
  }

  function NewPassword(accounts: map<Id, Account>, a: Id, hash: Hash): map<Id, Account>
    requires a in accounts
  {
    accounts[a := accounts[a].(hash := Some(hash), version := accounts[a].version + 1)]
  }

  function Reset(db: Db, v: Id, row: Challenge, a: Id, hash: Hash): Db
    requires row.user in db.users && v in db.challenges && a in db.accounts
  {
    Invalidate(db, row.user).(
      accounts := NewPassword(db.accounts, a, hash),
      challenges := ConsumeChallenge(db, v),
      mail := Notify(db.mail, db.users[row.user]),
      audit := Log(db.audit, AuditVerify(VerifyReset), row.user, row.user))
  }

  /** A pure registration placeholder: the only kind of row an address can be taken back from. */
  predicate Releasable(users: map<Id, User>, accounts: map<Id, Account>, u: Id) {
    && u in users && users[u].status.Pending? && !users[u].verified && !users[u].recovery
    && (forall a | a in accounts :: accounts[a].user != u)
  }

  function Release(users: map<Id, User>, accounts: map<Id, Account>, e: Email): map<Id, User> {
    map u | u in users ::
      if users[u].email == Some(e) && Releasable(users, accounts, u)
      then users[u].(email := None, version := users[u].version + 1)
      else users[u]
  }

  predicate CanMoveEmail(c: Config, db: Db, v: Id, row: Challenge) {
    && ChallengeCurrent(db, v, row)
    && row.session.Some? && row.parent.Some?
    && Authorizes(c, db, Request(row.user, row.session.value), row.parent.value, ChangeEmail(row.email), Some(v))
    && (forall u | u in db.users && u != row.user && db.users[u].email == Some(row.email) :: Releasable(db.users, db.accounts, u))
  }

  function EmailMoved(db: Db, v: Id, row: Challenge): Db
    requires row.user in db.users && v in db.challenges && row.parent.Some? && row.parent.value in db.flows
  {
    var prior := db.users[row.user];
    db.(users := Release(db.users, db.accounts, row.email)[row.user := prior.(email := Some(row.email), verified := true, recovery := true, version := prior.version + 1)],
        sessions := RevokeSessions(db.sessions, row.user),
        flows := SetFlow(db.flows, row.parent.value, Consumed),
        challenges := ConsumeChallenge(db, v),
        mail := Notify(db.mail, prior),
        audit := Log(db.audit, AuditVerify(VerifyChange), row.user, row.user))
  }

  // ---- password login

  predicate CanReadLogin(db: Db, u: Id, a: Id, password: Password) {
    && u in db.users && db.users[u].status.Active? && db.users[u].verified
    && LiveCredential(db.accounts, a, u) && Represents(db.accounts[a].hash, password)
  }

  predicate CanLogin(db: Db, u: Id, userRow: User, a: Id, row: Account) {
    && u in db.users && db.users[u].version == userRow.version && db.users[u].status.Active?
    && LiveAccount(db.accounts, a, u) && db.accounts[a].version == row.version
  }

  /** The hash upgrade replaces the hash that was verified, and only that one; it leaves the version alone. */
  function HashUpgraded(accounts: map<Id, Account>, a: Id, verified: Option<Hash>, upgrade: Option<Hash>): map<Id, Account>
    requires a in accounts
  {
    if upgrade.Some? && accounts[a].hash == verified then accounts[a := accounts[a].(hash := upgrade)] else accounts
  }

  function LoggedIn(c: Config, db: Db, u: Id, a: Id, row: Account, upgrade: Option<Hash>): Db
    requires u in db.users && a in db.accounts
  {
    AddSession(c, db.(accounts := HashUpgraded(db.accounts, a, row.hash, upgrade)), u, a)
  }

  // ---- password changes

  /** The branch is chosen by the password account that exists; the current password must match it. */
  predicate CanReadPassword(db: Db, r: Request, account: Option<Id>, current: Option<Password>, proof: Option<Id>) {
    && Self(db, r)
    && match account
       case Some(a) => LiveCredential(db.accounts, a, r.user) && current.Some? && Represents(db.accounts[a].hash, current.value)
       case None => !HasCredential(db.accounts, r.user) && current.None? && proof.Some?
  }

  predicate CanChangePassword(db: Db, r: Request, userRow: User, a: Id, row: Account) {
    && Self(db, r) && db.users[r.user].version == userRow.version
    && LiveCredential(db.accounts, a, r.user) && db.accounts[a].version == row.version
  }

  function PasswordChanged(db: Db, r: Request, a: Id, hash: Hash): Db
    requires r.user in db.users && a in db.accounts
  {
    Invalidate(db, r.user).(
      accounts := NewPassword(db.accounts, a, hash),
      mail := Notify(db.mail, db.users[r.user]),
      audit := Log(db.audit, AuditPassword, r.user, r.user))
  }

  predicate CanSetFirstPassword(c: Config, db: Db, r: Request, userRow: User, proof: Id, hash: Hash) {
    && Self(db, r) && db.users[r.user].version == userRow.version
    && !HasCredential(db.accounts, r.user)
    && db.users[r.user].verified
    && Authorizes(c, db, r, proof, SetPassword, None)
    && |LiveAccounts(db.accounts, r.user)| < MAX_LOGIN_ACCOUNTS
    && CanInsertAccount(db.accounts, CredentialRow(r.user, hash))
  }

  function FirstPasswordSet(db: Db, r: Request, proof: Id, hash: Hash): Db
    requires r.user in db.users && proof in db.flows
  {
    Invalidate(db, r.user).(
      next := db.next + 1,
      accounts := db.accounts[db.next := CredentialRow(r.user, hash)],
      flows := SetFlow(db.flows, proof, Consumed),
      mail := Notify(db.mail, db.users[r.user]),
      audit := Log(db.audit, AuditPassword, r.user, r.user))
  }

  // ---- reauthentication

  predicate ValidGrant(c: Config, g: Grant) {
    g.LinkAccount? ==> ProviderEnabled(c, g.provider)
  }

  predicate CanReadReauthentication(c: Config, db: Db, r: Request, a: Id, g: Grant, password: Password) {
    && ValidGrant(c, g) && Self(db, r) && g != UnlinkAccount(a)
    && LiveCredential(db.accounts, a, r.user) && Represents(db.accounts[a].hash, password)
  }

  /** The in-transaction re-check of a password reauthentication. */
  predicate CanIssueProof(db: Db, r: Request, userRow: User, a: Id, row: Account) {
    && Self(db, r) && db.users[r.user].version == userRow.version
    && LiveAccount(db.accounts, a, r.user) && db.accounts[a].version == row.version
  }

  function ProofRow(r: Request, userRow: User, a: Id, row: Account, g: Grant): Flow {
    Flow(Reauthenticate, Authorized, None, Some(Binding(r.user, r.session, userRow.version)), Some(Proving(a, row.version)),
         Some(g), None, None, false, None, 0)
  }

  predicate CanStartReauthentication(c: Config, db: Db, r: Request, a: Id, g: Grant) {
    && ValidGrant(c, g) && Self(db, r) && g != UnlinkAccount(a)
    && LiveAccount(db.accounts, a, r.user) && ProviderEnabled(c, db.accounts[a].provider)
  }

  function ReauthenticationRow(db: Db, r: Request, a: Id, g: Grant): Flow
    requires r.user in db.users && a in db.accounts
  {
    Flow(Reauthenticate, Waiting, Some(db.accounts[a].provider), Some(Binding(r.user, r.session, db.users[r.user].version)),
         Some(Proving(a, db.accounts[a].version)), Some(g), None, None, true, None, 0)
  }

  function AddFlow(db: Db, row: Flow): Db {
    db.(next := db.next + 1, flows := db.flows[db.next := row.(expires := db.now + FLOW_TTL)])
  }

  // ---- starting flows

  function PublicFlowRow(purpose: FlowPurpose, p: Provider): Flow {
    Flow(purpose, Waiting, Some(p), None, None, None, None, None, true, None, 0)
  }

  function LinkRow(r: Request, version: nat, p: Provider, proof: Id): Flow {
    Flow(LinkIdentity, Waiting, Some(p), Some(Binding(r.user, r.session, version)), None, Some(LinkAccount(p)), Some(proof), None, true, None, 0)
  }

  predicate CanStartLink(c: Config, db: Db, r: Request, p: Provider, proof: Id) {
    ProviderEnabled(c, p) && Self(db, r) && Authorizes(c, db, r, proof, LinkAccount(p), None)
  }

  /** The compare-and-set that claims a proof. */
  predicate CanClaim(db: Db, proof: Id) {
    FlowVisible(db, proof) && db.flows[proof].status.Authorized?
  }

  function Claim(flows: map<Id, Flow>, proof: Id, child: Id): map<Id, Flow>
    requires proof in flows
  {
    flows[proof := flows[proof].(status := Claimed, claimedBy := Some(child))]
  }

  /** The child flow is inserted first, then the proof is claimed for it. */
  function LinkStarted(db: Db, r: Request, version: nat, p: Provider, proof: Id): Db
    requires proof in db.flows
  {
    var added := AddFlow(db, LinkRow(r, version, p, proof));
    added.(flows := Claim(added.flows, proof, db.next))
  }

  predicate CanRequestEmail(c: Config, db: Db, r: Request, e: Email, proof: Id) {
    Self(db, r) && Authorizes(c, db, r, proof, ChangeEmail(e), None)
  }

  function EmailRequested(db: Db, r: Request, version: nat, e: Email, proof: Id): Db
    requires proof in db.flows
  {
    var added := AddChallenge(db, Challenge(r.user, VerifyChange, e, version, Some(r.session), Some(proof), false, db.now + EMAIL_CHANGE_TTL));
    added.(flows := Claim(added.flows, proof, db.next))
  }

  // ---- provider callbacks

  predicate CanClaimCallback(db: Db, f: Id) {
    FlowVisible(db, f) && db.flows[f].status.Waiting?
  }

  function CallbackClaimed(db: Db, f: Id): Db
    requires f in db.flows
  {
    db.(flows := db.flows[f := db.flows[f].(status := Processing)])
  }

  /** The deferred failure: it only touches a flow that is still waiting or processing. */
  function CallbackFailed(db: Db, f: Id): Db
    requires f in db.flows
  {
    if db.flows[f].status.Waiting? || db.flows[f].status.Processing? then db.(flows := SetFlow(db.flows, f, Failed)) else db
  }

  predicate FlowProcessing(db: Db, f: Id) {
    FlowVisible(db, f) && db.flows[f].status.Processing?
  }

  predicate CanFindLogin(db: Db, f: Id, i: Identity, found: Option<Id>) {
    && f in db.flows && (db.flows[f].purpose.Login? || db.flows[f].purpose.SignUp?)
    && match found
       case Some(a) => HoldsIdentity(db.accounts, a, i)
       case None => !IdentityTaken(db.accounts, i) && db.flows[f].purpose.SignUp?
  }

  predicate CanFinishLogin(c: Config, db: Db, f: Id, a: Id, row: Account) {
    && row.user in db.users && db.users[row.user].status.Active?
    && LiveAccount(db.accounts, a, row.user) && db.accounts[a].version == row.version && AccountEnabled(c, db.accounts[a])
    && FlowProcessing(db, f)
  }

  function LoginFinished(c: Config, db: Db, f: Id, a: Id, row: Account): Db
    requires row.user in db.users && f in db.flows
  {
    AddSession(c, db.(flows := SetFlow(db.flows, f, Consumed)), row.user, a)
  }

  function ExternalRow(u: Id, p: Provider, i: Identity): Account {
    Account(u, p, i, None, 1, false)
  }

  predicate CanSignUp(db: Db, f: Id, i: Identity) {
    && FlowProcessing(db, f) && db.flows[f].provider.Some? && db.flows[f].provider.value.External?
    && CanInsertAccount(db.accounts, ExternalRow(db.next, db.flows[f].provider.value, i))
  }

  /** A new active user without an address, its account, and its first session. */
  function SignedUp(c: Config, db: Db, f: Id, i: Identity): Db
    requires f in db.flows && db.flows[f].provider.Some?
  {
    var u, a := db.next, db.next + 1;
    AddSession(c,
               db.(next := db.next + 2,
                   users := db.users[u := User(Active, None, false, false, 1)],
                   accounts := db.accounts[a := ExternalRow(u, db.flows[f].provider.value, i)],
                   flows := SetFlow(db.flows, f, Consumed),
                   audit := Log(db.audit, AuditRegister, u, u)),
               u, a)
  }

  /** The checks of a bound callback; they hold no lock, so the commit below is a separate step. */
  predicate CanCheckBound(c: Config, db: Db, f: Id, i: Identity) {
    && f in db.flows && db.flows[f].binding.Some? && i.space.Remote?
    && var flow := db.flows[f]; var b := flow.binding.value;
    && SessionValid(db, b.session, b.user) && db.users[b.user].version == b.version
    && match flow.purpose
       case Reauthenticate =>
         && flow.proving.Some?
         && LiveAccount(db.accounts, flow.proving.value.account, b.user)
         && db.accounts[flow.proving.value.account].version == flow.proving.value.version
         && db.accounts[flow.proving.value.account].identity == i
         && AccountEnabled(c, db.accounts[flow.proving.value.account])
       case LinkIdentity =>
         && flow.parent.Some? && flow.provider.Some?
         && Authorizes(c, db, Request(b.user, b.session), flow.parent.value, LinkAccount(flow.provider.value), Some(f))
       case _ => false
  }

  function BoundVerified(db: Db, f: Id, i: Identity): Db
    requires f in db.flows
  {
    var status := if db.flows[f].purpose.LinkIdentity? then Verified else Authorized;
    db.(flows := db.flows[f := db.flows[f].(status := status, identity := Some(i), protocol := false)])
  }

  // ---- confirming a link

  /** The checks that every confirmation makes, first or repeated. */
  predicate LinkBoundTo(db: Db, r: Request, f: Id) {
    && Self(db, r) && FlowVisible(db, f)
    && db.flows[f].purpose.LinkIdentity? && db.flows[f].parent.Some?
    && db.flows[f].binding == Some(Binding(r.user, r.session, db.users[r.user].version))
  }

  /** A repeated confirmation succeeds without writing when the user still holds the identity. */
  predicate LinkAlreadyConfirmed(db: Db, r: Request, f: Id) {
    && LinkBoundTo(db, r, f) && db.flows[f].status.Consumed? && db.flows[f].identity.Some?
    && UserHolds(db.accounts, r.user, db.flows[f].identity.value)
  }

  /** `found` is the account that already holds the identity, if any. */
  predicate CanConfirmLink(c: Config, db: Db, r: Request, f: Id, found: Option<Id>) {
    && LinkBoundTo(db, r, f) && db.flows[f].status.Verified?
    && db.flows[f].provider.Some? && db.flows[f].identity.Some?
    && Authorizes(c, db, r, db.flows[f].parent.value, LinkAccount(db.flows[f].provider.value), Some(f))
    && match found
       case Some(a) => HoldsIdentity(db.accounts, a, db.flows[f].identity.value) && db.accounts[a].user == r.user
       case None =>
         && !IdentityTaken(db.accounts, db.flows[f].identity.value)
         && |LiveAccounts(db.accounts, r.user)| < MAX_LOGIN_ACCOUNTS
         && CanInsertAccount(db.accounts, ExternalRow(r.user, db.flows[f].provider.value, db.flows[f].identity.value))
  }

  function LinkConfirmed(db: Db, r: Request, f: Id, found: Option<Id>): Db
    requires r.user in db.users && f in db.flows && db.flows[f].parent.Some? && db.flows[f].parent.value in db.flows
    requires db.flows[f].provider.Some? && db.flows[f].identity.Some?
  {
    var flow := db.flows[f];
    db.(next := if found.None? then db.next + 1 else db.next,
        accounts := if found.None? then db.accounts[db.next := ExternalRow(r.user, flow.provider.value, flow.identity.value)] else db.accounts,
        flows := SetFlow(SetFlow(db.flows, flow.parent.value, Consumed), f, Consumed),
        mail := Notify(db.mail, db.users[r.user]),
        audit := Log(db.audit, AuditLink, r.user, if found.None? then db.next else found.value))
  }

  // ---- unlinking

  predicate CanUnlink(c: Config, db: Db, r: Request, a: Id, proof: Id) {
    && Self(db, r) && LiveAccount(db.accounts, a, r.user)
    && Authorizes(c, db, r, proof, UnlinkAccount(a), None)
    && db.flows[proof].proving.value.account != a
    && exists b | b in db.accounts :: b != a && LiveAccount(db.accounts, b, r.user) && AccountEnabled(c, db.accounts[b])
  }

  function Unlinked(db: Db, r: Request, a: Id, proof: Id): Db
    requires r.user in db.users && a in db.accounts && proof in db.flows
  {
    Invalidate(db, r.user).(
      accounts := db.accounts[a := db.accounts[a].(revoked := true, version := db.accounts[a].version + 1)],
      flows := SetFlow(db.flows, proof, Consumed),
      mail := Notify(db.mail, db.users[r.user]),
      audit := Log(db.audit, AuditUnlink, r.user, a))
  }

  // ---- sessions and administration

  predicate CanRevokeSession(db: Db, r: Request, s: Id) {
    Self(db, r) && s in db.sessions && db.sessions[s].user == r.user
  }

  function SessionRevoked(db: Db, r: Request, s: Id): Db
    requires s in db.sessions
  {
    db.(sessions := db.sessions[s := db.sessions[s].(revoked := true)], audit := Log(db.audit, AuditRevoke, r.user, s))
  }

  function AllRevoked(db: Db, u: Id): Db
    requires u in db.users
  {
    Invalidate(db, u).(audit := Log(db.audit, AuditRevoke, u, u))
  }

  predicate Settable(status: UserStatus) {
    !status.Pending?
  }

  function StatusSet(db: Db, u: Id, status: UserStatus): Db
    requires u in db.users
  {
    Invalidate(db, u).(
      users := db.users[u := db.users[u].(status := status, version := db.users[u].version + 1)],
      audit := Log(db.audit, AuditStatus, u, u))
  }

  function SessionTouched(c: Config, db: Db, s: Id): Db
    requires s in db.sessions
  {
    if SessionValid(db, s, db.sessions[s].user)
    then db.(sessions := db.sessions[s := db.sessions[s].(timing := Touched(c.limits, db.sessions[s].timing, db.now))])
    else db
  }

  // ---- the system: tables, calls in flight, and what the run has committed so far

  datatype Call =
    | RecoverCall(user: Id, row: User)
    | VerifyCall(challenge: Id, chRow: Challenge, newHash: Option<Hash>)
    | LoginCall(user: Id, row: User, account: Id, accountRow: Account, password: Password, upgrade: Option<Hash>)
    | PasswordCall(request: Request, row: User, target: Option<(Id, Account)>, current: Option<Password>, proofId: Option<Id>, hash: Hash)
    | ReauthenticateCall(request: Request, row: User, account: Id, accountRow: Account, grant: Grant, password: Password)
    | InsertCall(flow: Flow, presented: Option<Password>)
    | LinkCall(request: Request, version: nat, provider: Provider, proof: Id)
    | EmailCall(request: Request, version: nat, email: Email, proof: Id)
    | CallbackCall(flowId: Id)
    | FoundCall(flowId: Id, identity: Identity, found: Option<(Id, Account)>)
    | BoundCall(flowId: Id, identity: Identity)
    | StatusCall(user: Id, status: UserStatus)

  /** One committed write that a reauthentication proof paid for. */
  datatype Sensitive = Sensitive(proof: Id, grant: Grant, user: Id, child: Option<Id>)

  /** `presented` (the password behind a password proof) and `history` exist only for specification. */
  datatype Sys = Sys(db: Db, calls: set<Call>, presented: map<Id, Password>, history: seq<Sensitive>)

  datatype Event =
    | Tick(now: Instant)
    | Register(user: Id, email: Email)
    | RecoverRead(user: Id)
    | RecoverCommit(call: Call)
    | VerifyRead(challenge: Id, newHash: Option<Hash>)
    | ActivateCommit(call: Call)
    | ResetCommit(call: Call, account: Id)
    | EmailCommit(call: Call)
    | LoginRead(user: Id, account: Id, password: Password, upgrade: Option<Hash>)
    | LoginCommit(call: Call)
    | PasswordRead(request: Request, credential: Option<Id>, current: Option<Password>, proofId: Option<Id>, hash: Hash)
    | PasswordCommit(call: Call)
    | FirstPasswordCommit(call: Call)
    | ReauthenticateRead(request: Request, account: Id, grant: Grant, password: Password)
    | ReauthenticateCheck(call: Call)
    | StartReauthenticationCheck(request: Request, account: Id, grant: Grant)
    | InsertCommit(call: Call)
    | StartPublic(purpose: FlowPurpose, provider: Provider)
    | LinkCheck(request: Request, provider: Provider, proof: Id)
    | LinkCommit(call: Call)
    | EmailCheck(request: Request, email: Email, proof: Id)
    | EmailRequestCommit(call: Call)
    | CallbackClaim(flow: Id)
    | CallbackFail(flow: Id)
    | LoginFind(flow: Id, identity: Identity, found: Option<Id>)
    | FinishLogin(call: Call)
    | FinishSignUp(call: Call)
    | BoundCheck(flow: Id, identity: Identity)
    | BoundCommit(call: Call)
    | ConfirmLink(request: Request, flow: Id, found: Option<Id>)
    | Unlink(request: Request, account: Id, proof: Id)
    | RevokeSession(request: Request, session: Id)
    | RevokeAll(request: Request)
    | StatusCheck(user: Id, status: UserStatus)
    | StatusCommit(call: Call)
    | AdminRevoke(user: Id)
    | Touch(session: Id)

  function InFlight(s: Sys, call: Call): Sys {
    s.(calls := s.calls + {call})
  }

  function Commit(s: Sys, db: Db): Sys {
    s.(db := db)
  }

  function Record(s: Sys, db: Db, w: Sensitive): Sys {
    s.(db := db, history := s.history + [w])
  }

  /** The event can happen in s and leads to s'. */
  predicate Step(c: Config, s: Sys, e: Event, s': Sys) {
    var db := s.db;
    match e
    case Tick(now) => db.now <= now && s' == Commit(s, db.(now := now))
    case Register(u, email) => CanRegister(db, u, email) && s' == Commit(s, Registered(db, u, email))
    case RecoverRead(u) => CanRecover(db, u) && s' == InFlight(s, RecoverCall(u, db.users[u]))
    case RecoverCommit(k) => k in s.calls && k.RecoverCall? && k.row.email.Some? && s' == Commit(s, RecoveryIssued(db, k.user, k.row))
    case VerifyRead(v, hash) =>
      && ChallengeOpen(db, v) && (hash.None? <==> db.challenges[v].purpose.VerifyChange?)
      && s' == InFlight(s, VerifyCall(v, db.challenges[v], hash))
    case ActivateCommit(k) =>
      && k in s.calls && k.VerifyCall? && k.chRow.purpose.VerifyRegister? && k.newHash.Some?
      && CanActivate(db, k.challenge, k.chRow, k.newHash.value)
      && s' == Commit(s, Activated(db, k.challenge, k.chRow, k.newHash.value))
    case ResetCommit(k, a) =>
      && k in s.calls && k.VerifyCall? && k.chRow.purpose.VerifyReset? && k.newHash.Some?
      && CanReset(db, k.challenge, k.chRow, a)
      && s' == Commit(s, Reset(db, k.challenge, k.chRow, a, k.newHash.value))
    case EmailCommit(k) =>
      && k in s.calls && k.VerifyCall? && k.chRow.purpose.VerifyChange?
      && CanMoveEmail(c, db, k.challenge, k.chRow)
      && s' == Record(s, EmailMoved(db, k.challenge, k.chRow),
                      Sensitive(k.chRow.parent.value, ChangeEmail(k.chRow.email), k.chRow.user, Some(k.challenge)))
    case LoginRead(u, a, password, upgrade) =>
      && CanReadLogin(db, u, a, password) && (upgrade.Some? ==> Represents(upgrade, password))
      && s' == InFlight(s, LoginCall(u, db.users[u], a, db.accounts[a], password, upgrade))
    case LoginCommit(k) =>
      && k in s.calls && k.LoginCall? && CanLogin(db, k.user, k.row, k.account, k.accountRow)
      && s' == Commit(s, LoggedIn(c, db, k.user, k.account, k.accountRow, k.upgrade))
    case PasswordRead(r, a, current, proof, hash) =>
      && CanReadPassword(db, r, a, current, proof)
      && s' == InFlight(s, PasswordCall(r, db.users[r.user], if a.Some? then Some((a.value, db.accounts[a.value])) else None, current, proof, hash))
    case PasswordCommit(k) =>
      && k in s.calls && k.PasswordCall? && k.target.Some?
      && CanChangePassword(db, k.request, k.row, k.target.value.0, k.target.value.1)
      && s' == Commit(s, PasswordChanged(db, k.request, k.target.value.0, k.hash))
    case FirstPasswordCommit(k) =>
      && k in s.calls && k.PasswordCall? && k.target.None? && k.proofId.Some?
      && CanSetFirstPassword(c, db, k.request, k.row, k.proofId.value, k.hash)
      && s' == Record(s, FirstPasswordSet(db, k.request, k.proofId.value, k.hash),
                      Sensitive(k.proofId.value, SetPassword, k.request.user, None))
    case ReauthenticateRead(r, a, g, password) =>
      && CanReadReauthentication(c, db, r, a, g, password)
      && s' == InFlight(s, ReauthenticateCall(r, db.users[r.user], a, db.accounts[a], g, password))
    case ReauthenticateCheck(k) =>
      && k in s.calls && k.ReauthenticateCall? && CanIssueProof(db, k.request, k.row, k.account, k.accountRow)
      && s' == InFlight(s, InsertCall(ProofRow(k.request, k.row, k.account, k.accountRow, k.grant), Some(k.password)))
    case StartReauthenticationCheck(r, a, g) =>
      && CanStartReauthentication(c, db, r, a, g)
      && s' == InFlight(s, InsertCall(ReauthenticationRow(db, r, a, g), None))
    case InsertCommit(k) =>
      && k in s.calls && k.InsertCall?
      && s' == s.(db := AddFlow(db, k.flow),
                  presented := if k.presented.Some? then s.presented[db.next := k.presented.value] else s.presented)
    case StartPublic(purpose, p) =>
      && (purpose.Login? || purpose.SignUp?) && ProviderEnabled(c, p)
      && s' == Commit(s, AddFlow(db, PublicFlowRow(purpose, p)))
    case LinkCheck(r, p, proof) => CanStartLink(c, db, r, p, proof) && s' == InFlight(s, LinkCall(r, db.users[r.user].version, p, proof))
    case LinkCommit(k) =>
      && k in s.calls && k.LinkCall? && CanClaim(db, k.proof)
      && s' == Commit(s, LinkStarted(db, k.request, k.version, k.provider, k.proof))
    case EmailCheck(r, email, proof) => CanRequestEmail(c, db, r, email, proof) && s' == InFlight(s, EmailCall(r, db.users[r.user].version, email, proof))
    case EmailRequestCommit(k) =>
      && k in s.calls && k.EmailCall? && CanClaim(db, k.proof)
      && s' == Commit(s, EmailRequested(db, k.request, k.version, k.email, k.proof))
    case CallbackClaim(f) => CanClaimCallback(db, f) && s' == InFlight(Commit(s, CallbackClaimed(db, f)), CallbackCall(f))
    case CallbackFail(f) => CallbackCall(f) in s.calls && f in db.flows && s' == Commit(s, CallbackFailed(db, f))
    case LoginFind(f, i, found) =>
      && CallbackCall(f) in s.calls && CanFindLogin(db, f, i, found)
      && s' == InFlight(s, FoundCall(f, i, if found.Some? then Some((found.value, db.accounts[found.value])) else None))
    case FinishLogin(k) =>
      && k in s.calls && k.FoundCall? && k.found.Some? && CanFinishLogin(c, db, k.flowId, k.found.value.0, k.found.value.1)
      && s' == Commit(s, LoginFinished(c, db, k.flowId, k.found.value.0, k.found.value.1))
    case FinishSignUp(k) =>
      && k in s.calls && k.FoundCall? && k.found.None? && CanSignUp(db, k.flowId, k.identity)
      && s' == Commit(s, SignedUp(c, db, k.flowId, k.identity))
    case BoundCheck(f, i) => CallbackCall(f) in s.calls && CanCheckBound(c, db, f, i) && s' == InFlight(s, BoundCall(f, i))
    case BoundCommit(k) =>
      && k in s.calls && k.BoundCall? && FlowProcessing(db, k.flowId)
      && s' == Commit(s, BoundVerified(db, k.flowId, k.identity))
    case ConfirmLink(r, f, found) =>
      && CanConfirmLink(c, db, r, f, found)
      && s' == Record(s, LinkConfirmed(db, r, f, found),
                      Sensitive(db.flows[f].parent.value, LinkAccount(db.flows[f].provider.value), r.user, Some(f)))
    case Unlink(r, a, proof) =>
      CanUnlink(c, db, r, a, proof) && s' == Record(s, Unlinked(db, r, a, proof), Sensitive(proof, UnlinkAccount(a), r.user, None))
    case RevokeSession(r, x) => CanRevokeSession(db, r, x) && s' == Commit(s, SessionRevoked(db, r, x))
    case RevokeAll(r) => Self(db, r) && s' == Commit(s, AllRevoked(db, r.user))
    case StatusCheck(u, status) => u in db.users && !db.users[u].status.Pending? && Settable(status) && s' == InFlight(s, StatusCall(u, status))
    case StatusCommit(k) => k in s.calls && k.StatusCall? && k.user in db.users && s' == Commit(s, StatusSet(db, k.user, k.status))
    case AdminRevoke(u) => u in db.users && s' == Commit(s, AllRevoked(db, u))
    case Touch(x) => x in db.sessions && s' == Commit(s, SessionTouched(c, db, x))
  }

  /** A step of the system; a refused or rolled-back call changes nothing. */
  ghost predicate Next(c: Config, s: Sys, s': Sys) {
    s == s' || exists e :: Step(c, s, e, s')
  }

  ghost predicate Init(s: Sys) {
    s.db.next == 0 && s.db.users == map[] && s.db.accounts == map[] && s.db.sessions == map[] && s.db.flows == map[]
    && s.db.challenges == map[] && s.db.mail == [] && s.db.audit == [] && s.calls == {} && s.presented == map[] && s.history == []
  }

  /** Every finite run from the empty database. */
  ghost predicate Run(c: Config, t: seq<Sys>) {
    && ValidLimits(c.limits) && t != [] && Init(t[0])
    && forall i | 0 <= i < |t| - 1 :: Next(c, t[i], t[i + 1])
  }
}
