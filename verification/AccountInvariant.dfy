/**
 The inductive invariant of the account protocol, one predicate per concern. Each takes only the
 tables it speaks about, so a step that leaves those tables alone keeps it by congruence; the
 frame lemmas say which changes to the other tables are harmless.
 */
module AccountInvariant {
  import opened Wrappers
  import opened SessionClock
  import opened AccountTables
  import opened AccountProtocol
  import opened AccountEvolution

  /** Pending rows are unverified and cannot recover; an address of any other user is verified. */
  predicate UserOk(u: User) {
    && u.version >= 1
    && (u.status.Pending? ==> !u.verified && !u.recovery)
    && (!u.status.Pending? ==> (u.verified <==> u.email.Some?))
    && (u.recovery ==> u.verified)
  }

  ghost predicate UsersOk(users: map<Id, User>) {
    && (forall u | u in users :: UserOk(users[u]))
    && (forall u, w | u in users && w in users && u != w && users[u].email.Some? :: users[u].email != users[w].email)
  }

  predicate AccountOk(users: map<Id, User>, a: Account) {
    && a.version >= 1
    && a.user in users && !users[a.user].status.Pending?
    && (a.provider.Credential? <==> a.hash.Some?)
    && (a.provider.Credential? ==> a.identity == Identity(Local, a.user))
    && (a.provider.External? ==> a.identity.space.Remote?)
    && (a.provider.Credential? && !a.revoked ==> users[a.user].verified)
  }

  ghost predicate AccountsOk(users: map<Id, User>, accounts: map<Id, Account>) {
    && (forall a | a in accounts :: AccountOk(users, accounts[a]))
    && (forall a, b | a in accounts && b in accounts && a != b && !accounts[a].revoked && !accounts[b].revoked ::
          accounts[a].identity != accounts[b].identity)
    && (forall a, b | a in accounts && b in accounts && a != b && !accounts[a].revoked && !accounts[b].revoked ::
          !(accounts[a].provider == accounts[b].provider && accounts[a].identity.subject == accounts[b].identity.subject))
  }

  /** Every user that is not pending has between one and ten unrevoked accounts. */
  ghost predicate Inventory(users: map<Id, User>, accounts: map<Id, Account>) {
    forall u | u in users && !users[u].status.Pending? :: 1 <= |LiveAccounts(accounts, u)| <= MAX_LOGIN_ACCOUNTS
  }

  predicate SessionOk(c: Config, users: map<Id, User>, s: Session) {
    && s.user in users && !users[s.user].status.Pending? && s.version <= users[s.user].version
    && Regular(c.limits, s.timing)
  }

  ghost predicate SessionsOk(c: Config, users: map<Id, User>, sessions: map<Id, Session>) {
    forall s | s in sessions :: SessionOk(c, users, sessions[s])
  }

  /** Each purpose has its own shape and reaches only its own statuses. */
  predicate FlowRowOk(f: Flow) {
    && (f.protocol <==> f.status.Waiting? || f.status.Processing?)
    && (f.identity.Some? ==> f.identity.value.space.Remote? && !f.status.Waiting? && !f.status.Processing? && !f.status.Failed?)
    && match f.purpose
       case Login | SignUp =>
         && f.binding.None? && f.proving.None? && f.grant.None? && f.parent.None? && f.claimedBy.None? && f.identity.None?
         && f.provider.Some? && f.provider.value.External?
         && (f.status.Waiting? || f.status.Processing? || f.status.Consumed? || f.status.Failed?)
       case Reauthenticate =>
         && f.binding.Some? && f.proving.Some? && f.grant.Some? && f.parent.None?
         && !f.status.Verified?
         && (f.status.Claimed? ==> f.claimedBy.Some?)
         && (f.claimedBy.Some? ==> f.status.Claimed? || f.status.Consumed?)
       case LinkIdentity =>
         && f.binding.Some? && f.proving.None? && f.parent.Some? && f.claimedBy.None?
         && f.provider.Some? && f.provider.value.External? && f.grant == Some(LinkAccount(f.provider.value))
         && !f.status.Authorized? && !f.status.Claimed?
         && (f.status.Verified? || f.status.Consumed? ==> f.identity.Some?)
  }

  predicate BindingOk(users: map<Id, User>, sessions: map<Id, Session>, b: Binding) {
    && b.user in users && b.version <= users[b.user].version
    && b.session in sessions && sessions[b.session].user == b.user && sessions[b.session].version == b.version
  }

  predicate ProvingOk(accounts: map<Id, Account>, u: Id, p: Proving) {
    p.account in accounts && accounts[p.account].user == u && p.version <= accounts[p.account].version
  }

  predicate FlowOk(users: map<Id, User>, accounts: map<Id, Account>, sessions: map<Id, Session>, f: Flow) {
    && FlowRowOk(f)
    && (f.binding.Some? ==> BindingOk(users, sessions, f.binding.value))
    && (f.proving.Some? ==> f.binding.Some? && ProvingOk(accounts, f.binding.value.user, f.proving.value))
  }

  ghost predicate FlowsOk(users: map<Id, User>, accounts: map<Id, Account>, sessions: map<Id, Session>, flows: map<Id, Flow>) {
    forall f | f in flows :: FlowOk(users, accounts, sessions, flows[f])
  }

  /** A challenge that carries the current version of its user still names the user's address. */
  predicate ChallengeOk(users: map<Id, User>, v: Challenge) {
    && v.user in users && v.version <= users[v.user].version
    && (v.purpose.VerifyChange? <==> v.session.Some?) && (v.purpose.VerifyChange? <==> v.parent.Some?)
    && (!v.purpose.VerifyChange? && v.version == users[v.user].version ==> users[v.user].email == Some(v.email))
    && (v.purpose.VerifyReset? && v.version == users[v.user].version ==> users[v.user].verified && users[v.user].recovery)
  }

  ghost predicate ChallengesOk(users: map<Id, User>, challenges: map<Id, Challenge>) {
    forall v | v in challenges :: ChallengeOk(users, challenges[v])
  }

  /** p is a proof claimed for exactly this child, with the child's owner, session, version and target. */
  predicate ParentOf(flows: map<Id, Flow>, p: Id, child: Id, b: Binding, g: Grant, consumed: bool) {
    && p in flows && flows[p].purpose.Reauthenticate? && flows[p].claimedBy == Some(child)
    && flows[p].binding == Some(b) && flows[p].grant == Some(g)
    && (flows[p].status.Consumed? <==> consumed)
  }

  predicate LinkHasParent(flows: map<Id, Flow>, f: Id)
    requires f in flows
  {
    flows[f].purpose.LinkIdentity? && flows[f].parent.Some? && flows[f].binding.Some? && flows[f].grant.Some?
    ==> ParentOf(flows, flows[f].parent.value, f, flows[f].binding.value, flows[f].grant.value, flows[f].status.Consumed?)
  }

  predicate ChangeHasParent(flows: map<Id, Flow>, challenges: map<Id, Challenge>, v: Id)
    requires v in challenges
  {
    challenges[v].purpose.VerifyChange? && challenges[v].parent.Some? && challenges[v].session.Some?
    ==> ParentOf(flows, challenges[v].parent.value, v, Binding(challenges[v].user, challenges[v].session.value, challenges[v].version),
                 ChangeEmail(challenges[v].email), challenges[v].consumed)
  }

  predicate ClaimHasChild(flows: map<Id, Flow>, challenges: map<Id, Challenge>, p: Id)
    requires p in flows
  {
    flows[p].claimedBy.Some? ==>
      var child := flows[p].claimedBy.value;
      || (child in flows && flows[child].purpose.LinkIdentity? && flows[child].parent == Some(p))
      || (child in challenges && challenges[child].purpose.VerifyChange? && challenges[child].parent == Some(p))
  }

  /** Parents and children of claims determine each other. */
  ghost predicate Claims(flows: map<Id, Flow>, challenges: map<Id, Challenge>) {
    && (forall f | f in flows :: LinkHasParent(flows, f))
    && (forall v | v in challenges :: ChangeHasParent(flows, challenges, v))
    && (forall p | p in flows :: ClaimHasChild(flows, challenges, p))
  }

  /** What the caller presented for a proof still belongs to the proving account, as long as its version stands. */
  predicate Evident(accounts: map<Id, Account>, flows: map<Id, Flow>, presented: map<Id, Password>, f: Id)
    requires f in flows
  {
    flows[f].purpose.Reauthenticate? && (flows[f].status.Authorized? || flows[f].status.Claimed? || flows[f].status.Consumed?)
    && flows[f].proving.Some? && flows[f].proving.value.account in accounts
    && accounts[flows[f].proving.value.account].version == flows[f].proving.value.version
    ==> if f in presented
        then Represents(accounts[flows[f].proving.value.account].hash, presented[f])
        else flows[f].identity == Some(accounts[flows[f].proving.value.account].identity)
  }

  ghost predicate Evidence(accounts: map<Id, Account>, flows: map<Id, Flow>, presented: map<Id, Password>) {
    forall f | f in flows :: Evident(accounts, flows, presented, f)
  }

  /** Within the epoch of a confirmed link the user still holds the linked identity. */
  predicate StillLinked(users: map<Id, User>, accounts: map<Id, Account>, f: Flow) {
    f.purpose.LinkIdentity? && f.status.Consumed? && f.binding.Some? && f.identity.Some?
    && f.binding.value.user in users && f.binding.value.version == users[f.binding.value.user].version
    ==> UserHolds(accounts, f.binding.value.user, f.identity.value)
  }

  ghost predicate Links(users: map<Id, User>, accounts: map<Id, Account>, flows: map<Id, Flow>) {
    forall f | f in flows :: StillLinked(users, accounts, flows[f])
  }

  predicate Paid(flows: map<Id, Flow>, w: Sensitive) {
    && w.proof in flows && flows[w.proof].purpose.Reauthenticate? && flows[w.proof].status.Consumed?
    && flows[w.proof].binding.Some? && flows[w.proof].binding.value.user == w.user
    && flows[w.proof].grant == Some(w.grant) && flows[w.proof].claimedBy == w.child
  }

  /** Consumed proofs and committed sensitive writes correspond one to one. */
  ghost predicate History(flows: map<Id, Flow>, history: seq<Sensitive>) {
    && (forall i | 0 <= i < |history| :: Paid(flows, history[i]))
    && (forall i, j | 0 <= i < j < |history| :: history[i].proof != history[j].proof)
    && (forall p | p in flows && flows[p].purpose.Reauthenticate? && flows[p].status.Consumed? ::
          exists i | 0 <= i < |history| :: history[i].proof == p)
  }

  predicate UserSnapshot(db: Db, u: Id, row: User) {
    u in db.users && UserEvolves(row, db.users[u])
  }

  predicate AccountSnapshot(db: Db, a: Id, row: Account) {
    a in db.accounts && AccountEvolves(row, db.accounts[a])
  }

  predicate ProofFor(db: Db, r: Request, version: nat, proof: Id, g: Grant) {
    proof in db.flows && db.flows[proof].purpose.Reauthenticate?
    && db.flows[proof].binding == Some(Binding(r.user, r.session, version)) && db.flows[proof].grant == Some(g)
  }

  /** What the snapshots of a call in flight still say about the tables. */
  predicate CallOk(db: Db, k: Call) {
    match k
    case RecoverCall(u, row) => UserSnapshot(db, u, row) && row.email.Some? && row.verified && row.recovery
    case VerifyCall(v, row, hash) => v in db.challenges && ChallengeEvolves(row, db.challenges[v])
    case LoginCall(u, row, a, accountRow, password, upgrade) =>
      && UserSnapshot(db, u, row) && AccountSnapshot(db, a, accountRow) && accountRow.user == u && !accountRow.revoked
      && accountRow.provider.Credential? && Represents(accountRow.hash, password) && (upgrade.Some? ==> Represents(upgrade, password))
    case PasswordCall(r, row, target, current, proof, hash) =>
      && UserSnapshot(db, r.user, row)
      && (target.Some? ==> AccountSnapshot(db, target.value.0, target.value.1) && target.value.1.user == r.user)
      && (target.Some? ==> current.Some? && Represents(target.value.1.hash, current.value))
    case ReauthenticateCall(r, row, a, accountRow, g, password) =>
      && UserSnapshot(db, r.user, row) && AccountSnapshot(db, a, accountRow) && accountRow.user == r.user
      && Represents(accountRow.hash, password)
    case InsertCall(flow, presented) =>
      && flow.purpose.Reauthenticate? && flow.claimedBy.None? && flow.identity.None?
      && (flow.status.Waiting? || flow.status.Authorized?) && (flow.status.Authorized? <==> presented.Some?)
      && FlowOk(db.users, db.accounts, db.sessions, flow)
      && (presented.Some? && db.accounts[flow.proving.value.account].version == flow.proving.value.version
          ==> Represents(db.accounts[flow.proving.value.account].hash, presented.value))
    case LinkCall(r, version, p, proof) => p.External? && ProofFor(db, r, version, proof, LinkAccount(p))
    case EmailCall(r, version, email, proof) => ProofFor(db, r, version, proof, ChangeEmail(email))
    case CallbackCall(f) => f in db.flows && !db.flows[f].status.Waiting?
    case FoundCall(f, i, found) =>
      && f in db.flows && (db.flows[f].purpose.Login? || db.flows[f].purpose.SignUp?)
      && (found.Some? ==> AccountSnapshot(db, found.value.0, found.value.1) && !found.value.1.revoked && found.value.1.identity == i)
    case BoundCall(f, i) =>
      && f in db.flows && (db.flows[f].purpose.Reauthenticate? || db.flows[f].purpose.LinkIdentity?) && i.space.Remote?
      && (db.flows[f].proving.Some? ==>
            db.flows[f].proving.value.account in db.accounts && db.accounts[db.flows[f].proving.value.account].identity == i)
    case StatusCall(u, status) => u in db.users && !db.users[u].status.Pending? && Settable(status)
  }

  ghost predicate CallsOk(db: Db, calls: set<Call>) {
    forall k | k in calls :: CallOk(db, k)
  }

  /** A password proof is inserted authorized and never goes through a provider callback. */
  ghost predicate PresentedOk(flows: map<Id, Flow>, presented: map<Id, Password>) {
    forall f | f in presented :: f in flows && !flows[f].status.Waiting? && !flows[f].status.Processing?
  }

  /** The tables part of the invariant. */
  ghost predicate Tables(c: Config, db: Db) {
    && FreshIds(db)
    && UsersOk(db.users)
    && AccountsOk(db.users, db.accounts)
    && Inventory(db.users, db.accounts)
    && SessionsOk(c, db.users, db.sessions)
    && FlowsOk(db.users, db.accounts, db.sessions, db.flows)
    && ChallengesOk(db.users, db.challenges)
    && Claims(db.flows, db.challenges)
    && Links(db.users, db.accounts, db.flows)
  }

  ghost predicate Inv(c: Config, s: Sys) {
    && ValidLimits(c.limits)
    && Tables(c, s.db)
    && Evidence(s.db.accounts, s.db.flows, s.presented)
    && PresentedOk(s.db.flows, s.presented)
    && History(s.db.flows, s.history)
    && CallsOk(s.db, s.calls)
  }

  // ---- frames

  lemma FlowsFrame(a: Db, b: Db)
    requires FlowsOk(a.users, a.accounts, a.sessions, a.flows)
    requires UsersEvolve(a.users, b.users) && AccountsEvolve(a.accounts, b.accounts) && SessionsEvolve(a.sessions, b.sessions)
    ensures FlowsOk(b.users, b.accounts, b.sessions, a.flows)
  {
  }

  lemma ChallengesFrame(users: map<Id, User>, users': map<Id, User>, challenges: map<Id, Challenge>)
    requires ChallengesOk(users, challenges) && UsersEvolve(users, users')
    ensures ChallengesOk(users', challenges)
  {
  }

  lemma SessionsFrame(c: Config, users: map<Id, User>, users': map<Id, User>, sessions: map<Id, Session>)
    requires SessionsOk(c, users, sessions) && UsersEvolve(users, users')
    ensures SessionsOk(c, users', sessions)
  {
  }

  lemma AccountsFrame(users: map<Id, User>, users': map<Id, User>, accounts: map<Id, Account>)
    requires AccountsOk(users, accounts) && UsersEvolve(users, users')
    ensures AccountsOk(users', accounts)
  {
  }

  /** No user becomes non-pending. */
  ghost predicate NoneActivated(users: map<Id, User>, users': map<Id, User>) {
    forall u | u in users' && !users'[u].status.Pending? :: u in users && !users[u].status.Pending?
  }

  /** The set of unrevoked accounts and their owners and identities are as before. */
  ghost predicate SameLiving(accounts: map<Id, Account>, accounts': map<Id, Account>) {
    && (forall a | a in accounts' && !accounts'[a].revoked :: a in accounts && !accounts[a].revoked)
    && (forall a | a in accounts && !accounts[a].revoked :: a in accounts' && !accounts'[a].revoked
          && accounts'[a].user == accounts[a].user && accounts'[a].identity == accounts[a].identity)
  }

  lemma InventoryFrame(users: map<Id, User>, users': map<Id, User>, accounts: map<Id, Account>, accounts': map<Id, Account>)
    requires Inventory(users, accounts) && NoneActivated(users, users') && SameLiving(accounts, accounts')
    ensures Inventory(users', accounts')
  {
    forall u | u in users' && !users'[u].status.Pending?
      ensures 1 <= |LiveAccounts(accounts', u)| <= MAX_LOGIN_ACCOUNTS
    {
      assert LiveAccounts(accounts', u) == LiveAccounts(accounts, u);
    }
  }

  lemma EvidenceFrame(a: Db, accounts': map<Id, Account>, presented: map<Id, Password>)
    requires FlowsOk(a.users, a.accounts, a.sessions, a.flows)
    requires Evidence(a.accounts, a.flows, presented) && AccountsEvolve(a.accounts, accounts')
    ensures Evidence(accounts', a.flows, presented)
  {
    forall f | f in a.flows
      ensures Evident(accounts', a.flows, presented, f)
    {
      assert Evident(a.accounts, a.flows, presented, f) && FlowOk(a.users, a.accounts, a.sessions, a.flows[f]);
    }
  }

  /** An unrevoked account is lost only together with its owner's epoch. */
  ghost predicate LossEndsEpoch(a: Db, b: Db) {
    forall x | x in a.accounts && !a.accounts[x].revoked && a.accounts[x].user in a.users && a.accounts[x].user in b.users
             && b.users[a.accounts[x].user].version == a.users[a.accounts[x].user].version ::
      x in b.accounts && !b.accounts[x].revoked
  }

  lemma LinksFrame(a: Db, b: Db)
    requires FlowsOk(a.users, a.accounts, a.sessions, a.flows)
    requires Links(a.users, a.accounts, a.flows)
    requires UsersEvolve(a.users, b.users) && AccountsEvolve(a.accounts, b.accounts) && LossEndsEpoch(a, b)
    ensures Links(b.users, b.accounts, a.flows)
  {
    forall f | f in a.flows
      ensures StillLinked(b.users, b.accounts, a.flows[f])
    {
      var flow := a.flows[f];
      assert FlowOk(a.users, a.accounts, a.sessions, flow) && StillLinked(a.users, a.accounts, flow);
      if flow.purpose.LinkIdentity? && flow.status.Consumed? && flow.binding.value.version == b.users[flow.binding.value.user].version {
        var x :| x in a.accounts && HoldsIdentity(a.accounts, x, flow.identity.value) && a.accounts[x].user == flow.binding.value.user;
        assert HoldsIdentity(b.accounts, x, flow.identity.value);
      }
    }
  }

  /** No proof becomes consumed. */
  ghost predicate NoneConsumed(flows: map<Id, Flow>, flows': map<Id, Flow>) {
    forall f | f in flows' && flows'[f].purpose.Reauthenticate? && flows'[f].status.Consumed? ::
      f in flows && flows[f].status.Consumed? && flows[f].purpose.Reauthenticate?
  }

  lemma HistoryFrame(flows: map<Id, Flow>, flows': map<Id, Flow>, history: seq<Sensitive>)
    requires forall f | f in flows :: f in flows' && FlowEvolves(flows[f], flows'[f])
    requires forall f | f in flows && flows[f].status.Consumed? :: flows'[f].claimedBy == flows[f].claimedBy
    requires History(flows, history) && NoneConsumed(flows, flows')
    ensures History(flows', history)
  {
    forall i | 0 <= i < |history|
      ensures Paid(flows', history[i])
    {
      assert Paid(flows, history[i]);
    }
  }

  /** Snapshots stay behind the tables as the tables evolve. */
  lemma CallsFrame(a: Db, b: Db, calls: set<Call>)
    requires CallsOk(a, calls) && Evolves(a, b)
    ensures CallsOk(b, calls)
  {
    forall k | k in calls
      ensures CallOk(b, k)
    {
      assert CallOk(a, k);
      CallFrame(a, b, k);
    }
  }

  lemma CallFrame(a: Db, b: Db, k: Call)
    requires CallOk(a, k) && Evolves(a, b)
    ensures CallOk(b, k)
  {
  }

  /** The part of the tables that only depends on users and sessions evolving. */
  lemma UsersSessionsFrame(c: Config, a: Db, b: Db)
    requires Tables(c, a)
    requires UsersEvolve(a.users, b.users) && SessionsEvolve(a.sessions, b.sessions) && AccountsEvolve(a.accounts, b.accounts)
    ensures AccountsOk(b.users, a.accounts)
    ensures SessionsOk(c, b.users, a.sessions)
    ensures FlowsOk(b.users, b.accounts, b.sessions, a.flows)
    ensures ChallengesOk(b.users, a.challenges)
  {
    FlowsFrame(a, b);
    ChallengesFrame(a.users, b.users, a.challenges);
    SessionsFrame(c, a.users, b.users, a.sessions);
    AccountsFrame(a.users, b.users, a.accounts);
  }
}
