/**
 What no step ever undoes: a two-state relation between an earlier and a later state, kept by
 every step and transitive, so it holds between any two states of a run.
 */
module AccountEvolution {
  import opened AccountTables
  import opened AccountProtocol

  /** Versions never decrease, and within one version an address is fixed and only activation happens. */
  predicate UserEvolves(a: User, b: User) {
    && a.version <= b.version
    && (a.version == b.version ==> b.email == a.email && (b.status == a.status || (a.status.Pending? && b.status.Active?)))
    && (!a.status.Pending? ==> !b.status.Pending?)
    && (a.verified ==> b.verified) && (a.recovery ==> b.recovery)
  }

  /** Within one version an account keeps its password, although a hash upgrade may replace the hash; a revoked row is frozen. */
  predicate AccountEvolves(a: Account, b: Account) {
    && b.user == a.user && b.provider == a.provider && b.identity == a.identity
    && a.version <= b.version
    && (a.version == b.version ==> b.revoked == a.revoked)
    && (a.version == b.version ==> (b.hash.Some? <==> a.hash.Some?) && (a.hash.Some? ==> b.hash.value.password == a.hash.value.password))
    && (a.revoked ==> b == a)
  }

  predicate SessionEvolves(a: Session, b: Session) {
    && b.user == a.user && b.source == a.source && b.version == a.version
    && b.timing.createdAt == a.timing.createdAt && b.timing.absoluteExpires == a.timing.absoluteExpires
    && (a.revoked ==> b.revoked)
  }

  /** The flow automaton, closed under composition. */
  predicate Forward(a: FlowStatus, b: FlowStatus) {
    match a
    case Waiting => true
    case Processing => !b.Waiting?
    case Verified => b.Verified? || b.Consumed?
    case Authorized => b.Authorized? || b.Claimed? || b.Consumed?
    case Claimed => b.Claimed? || b.Consumed?
    case Consumed => b.Consumed?
    case Failed => b.Failed?
  }

  predicate FlowEvolves(a: Flow, b: Flow) {
    && b.purpose == a.purpose && b.provider == a.provider && b.binding == a.binding && b.proving == a.proving
    && b.grant == a.grant && b.parent == a.parent && b.expires == a.expires
    && (a.claimedBy.Some? ==> b.claimedBy == a.claimedBy)
    && (a.identity.Some? ==> b.identity == a.identity)
    && (!a.status.Waiting? && !a.status.Processing? ==> b.identity == a.identity)
    && Forward(a.status, b.status)
  }

  predicate ChallengeEvolves(a: Challenge, b: Challenge) {
    b == a.(consumed := b.consumed) && (a.consumed ==> b.consumed)
  }

  ghost predicate UsersEvolve(a: map<Id, User>, b: map<Id, User>) {
    forall u | u in a :: u in b && UserEvolves(a[u], b[u])
  }

  ghost predicate AccountsEvolve(a: map<Id, Account>, b: map<Id, Account>) {
    forall x | x in a :: x in b && AccountEvolves(a[x], b[x])
  }

  ghost predicate SessionsEvolve(a: map<Id, Session>, b: map<Id, Session>) {
    forall x | x in a :: x in b && SessionEvolves(a[x], b[x])
  }

  ghost predicate FlowsEvolve(a: map<Id, Flow>, b: map<Id, Flow>) {
    forall f | f in a :: f in b && FlowEvolves(a[f], b[f])
  }

  ghost predicate ChallengesEvolve(a: map<Id, Challenge>, b: map<Id, Challenge>) {
    forall v | v in a :: v in b && ChallengeEvolves(a[v], b[v])
  }

  ghost predicate Evolves(a: Db, b: Db) {
    && a.now <= b.now && a.next <= b.next
    && UsersEvolve(a.users, b.users)
    && AccountsEvolve(a.accounts, b.accounts)
    && SessionsEvolve(a.sessions, b.sessions)
    && FlowsEvolve(a.flows, b.flows)
    && ChallengesEvolve(a.challenges, b.challenges)
    && a.mail <= b.mail && a.audit <= b.audit
  }

  /** Rows are only inserted under fresh identifiers, so a claim names a flow or a challenge, never both. */
  ghost predicate FreshIds(db: Db) {
    && (forall u | u in db.users :: u < db.next)
    && (forall x | x in db.accounts :: x < db.next)
    && (forall x | x in db.sessions :: x < db.next)
    && (forall f | f in db.flows :: f < db.next)
    && (forall v | v in db.challenges :: v < db.next)
    && (forall v | v in db.challenges :: v !in db.flows)
  }

  ghost predicate SysEvolves(a: Sys, b: Sys) {
    && Evolves(a.db, b.db)
    && a.calls <= b.calls
    && a.history <= b.history
    && (forall f | f in a.presented && f < a.db.next :: f in b.presented && b.presented[f] == a.presented[f])
  }

  lemma EvolvesTrans(a: Db, b: Db, c: Db)
    requires Evolves(a, b) && Evolves(b, c)
    ensures Evolves(a, c)
  {
  }

  lemma SysEvolvesTrans(a: Sys, b: Sys, c: Sys)
    requires SysEvolves(a, b) && SysEvolves(b, c)
    ensures SysEvolves(a, c)
  {
    EvolvesTrans(a.db, b.db, c.db);
  }

  lemma SysEvolvesRefl(s: Sys)
    ensures SysEvolves(s, s)
  {
  }

  lemma RevokeEvolves(sessions: map<Id, Session>, u: Id)
    ensures SessionsEvolve(sessions, RevokeSessions(sessions, u))
  {
  }
}
