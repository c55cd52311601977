/**
 The statements that read and write the account tables, each as one method over mutable tables.
 A transaction body calls them one after the other; `End` commits or rolls back to the state in
 which the transaction began.
 */
module AccountStore {
  import opened Wrappers
  import opened SessionClock
  import opened AccountTables
  import opened AccountProtocol

  datatype Error =
    | Invalid | Credentials | Unauthenticated | Reauthentication | NotFound | Conflict | LastAccount
    | FlowInvalid | VerificationInvalid | RegistrationRequired

  datatype Unit = Unit

  /** A compare-and-set that changed no row found a proof that is used up or expired. */
  function TransitionResult(count: nat): Result<Unit, Error> {
    if count == 1 then Ok(Unit) else Err(Credentials)
  }

  /** A refused proof is reported as such, and not as a refused login. */
  function ProofError<T>(r: Result<T, Error>, kind: Error): (r': Result<T, Error>)
    ensures r'.Ok? <==> r.Ok?
    ensures r.Ok? ==> r' == r
    ensures r.Err? && !r.error.Credentials? ==> r' == r
    ensures r.Err? && r.error.Credentials? ==> r'.error == kind
    ensures !kind.Credentials? ==> !(r'.Err? && r'.error.Credentials?)
  {
    if r.Err? && r.error.Credentials? then Err(kind) else r
  }

  /** The three partial unique indexes on accounts: by provider and subject, by namespace and subject, by user for passwords. */
  ghost predicate AccountIndexes(accounts: map<Id, Account>) {
    && (forall a, b | a in accounts && b in accounts && !accounts[a].revoked && !accounts[b].revoked
                      && accounts[a].provider == accounts[b].provider && accounts[a].identity.subject == accounts[b].identity.subject :: a == b)
    && (forall a, b | a in accounts && b in accounts && !accounts[a].revoked && !accounts[b].revoked && accounts[a].identity == accounts[b].identity :: a == b)
    && (forall a, b, u | LiveCredential(accounts, a, u) && LiveCredential(accounts, b, u) :: a == b)
  }

  /** The unique index on addresses. */
  ghost predicate EmailIndex(users: map<Id, User>) {
    forall u, w | u in users && w in users && users[u].email.Some? && users[u].email == users[w].email :: u == w
  }

  /** Fresh identifiers are above every identifier in use. */
  ghost predicate FreshKeys(db: Db) {
    && (forall u | u in db.users :: u < db.next)
    && (forall a | a in db.accounts :: a < db.next)
    && (forall s | s in db.sessions :: s < db.next)
    && (forall f | f in db.flows :: f < db.next)
    && (forall v | v in db.challenges :: v < db.next)
  }

  ghost predicate Indexed(db: Db) {
    AccountIndexes(db.accounts) && EmailIndex(db.users) && FreshKeys(db)
  }

  /**
   `locked` are the user rows that the present transaction has locked or inserted, and `bare` counts
   the account rows ever written without that lock on their owner. Neither influences any statement.
   */
  class Store {
    ghost var locked: set<Id>
    ghost var bare: nat
    var now: Instant
    var next: Id
    var users: map<Id, User>
    var accounts: map<Id, Account>
    var sessions: map<Id, Session>
    var flows: map<Id, Flow>
    var challenges: map<Id, Challenge>
    var mail: seq<Mail>
    var audit: seq<Audit>

    function State(): Db
      reads this
    {
      Db(now, next, users, accounts, sessions, flows, challenges, mail, audit)
    }

    /** The indexes hold, and every account row so far was written under the lock of its owner. */
    ghost predicate Valid()
      reads this
    {
      Indexed(State()) && bare == 0
    }

    constructor ()
      ensures Valid()
      ensures State() == Db(0, 0, map[], map[], map[], map[], map[], [], [])
    {
      now, next, users, accounts, sessions, flows, challenges, mail, audit := 0, 0, map[], map[], map[], map[], map[], [], [];
      locked, bare := {}, 0;
    }

    /** The end of a transaction: commit, or roll back to the state in which it began; the locks are released. */
    method End(begun: Db, commit: bool)
      modifies this
      ensures State() == if commit then old(State()) else begun
      ensures locked == {} && bare == old(bare)
    {
      locked := {};
      if !commit {
        now, next, users, accounts := begun.now, begun.next, begun.users, begun.accounts;
        sessions, flows, challenges, mail, audit := begun.sessions, begun.flows, begun.challenges, begun.mail, begun.audit;
      }
    }

    // ---- selections

    /** The locking read, which waits for the row until no other transaction holds it. */
    method LockUser(u: Id) returns (r: Option<User>)
      modifies this`locked
      ensures r == if u in users then Some(users[u]) else None
      ensures locked == if r.Some? then old(locked) + {u} else old(locked)
    {
      if u in users {
        locked := locked + {u};
        return Some(users[u]);
      }
      return None;
    }

    method GetUser(u: Id) returns (r: Option<User>)
      ensures r == if u in users then Some(users[u]) else None
    {
      if u in users {
        return Some(users[u]);
      }
      return None;
    }

    method FindUserByEmail(e: Email) returns (r: Option<Id>)
      requires Valid()
      ensures r.Some? <==> EmailTaken(users, e)
      ensures r.Some? ==> r.value in users && users[r.value].email == Some(e)
    {
      if u :| u in users && users[u].email == Some(e) {
        return Some(u);
      }
      return None;
    }

    method GetValidSession(s: Id, u: Id) returns (valid: bool)
      ensures valid <==> SessionValid(State(), s, u)
    {
      if s !in sessions || u !in users {
        return false;
      }
      var session, user := sessions[s], users[u];
      valid := session.user == u && !session.revoked && session.timing.idleExpires > now
            && session.timing.absoluteExpires > now && user.status.Active? && user.version == session.version;
    }

    method GetAccount(a: Id, u: Id) returns (r: Option<Account>)
      ensures r == if LiveAccount(accounts, a, u) then Some(accounts[a]) else None
    {
      if a in accounts && accounts[a].user == u && !accounts[a].revoked {
        return Some(accounts[a]);
      }
      return None;
    }

    method GetPasswordAccount(u: Id) returns (r: Option<Id>)
      requires Valid()
      ensures r.Some? <==> HasCredential(accounts, u)
      ensures r.Some? ==> LiveCredential(accounts, r.value, u)
      ensures forall a: Id | LiveCredential(accounts, a, u) :: r == Some(a)
    {
      if a :| a in accounts && accounts[a].user == u && accounts[a].provider.Credential? && !accounts[a].revoked {
        assert LiveCredential(accounts, a, u);
        return Some(a);
      }
      return None;
    }

    method FindProviderAccount(i: Identity) returns (r: Option<Id>)
      requires Valid()
      ensures r.Some? <==> IdentityTaken(accounts, i)
      ensures r.Some? ==> HoldsIdentity(accounts, r.value, i)
      ensures forall a: Id | HoldsIdentity(accounts, a, i) :: r == Some(a)
    {
      if a :| a in accounts && accounts[a].identity == i && !accounts[a].revoked {
        assert HoldsIdentity(accounts, a, i);
        return Some(a);
      }
      return None;
    }

    /** In the order of creation. */
    method ListAccounts(u: Id) returns (rows: seq<Id>)
      requires Valid()
      ensures forall a :: a in rows <==> LiveAccount(accounts, a, u)
      ensures forall i, j | 0 <= i < j < |rows| :: rows[i] < rows[j]
      ensures |rows| == |LiveAccounts(accounts, u)|
    {
      rows := [];
      for a := 0 to next
        invariant forall x :: x in rows <==> x in LiveAccounts(accounts, u) && x < a
        invariant forall i | 0 <= i < |rows| :: rows[i] < a
        invariant forall i, j | 0 <= i < j < |rows| :: rows[i] < rows[j]
      {
        if a in accounts && accounts[a].user == u && !accounts[a].revoked {
          rows := rows + [a];
        }
      }
      DistinctSize(rows, LiveAccounts(accounts, u));
    }

    method GetFlow(f: Id) returns (r: Option<Flow>)
      ensures r == if FlowVisible(State(), f) then Some(flows[f]) else None
    {
      if f in flows && flows[f].expires > now {
        return Some(flows[f]);
      }
      return None;
    }

    method FindVerification(v: Id) returns (r: Option<Challenge>)
      ensures r == if ChallengeOpen(State(), v) then Some(challenges[v]) else None
    {
      if v in challenges && !challenges[v].consumed && challenges[v].expires > now {
        return Some(challenges[v]);
      }
      return None;
    }

    // ---- users

    /** Insert a pending user, or return the user that already has the address. */
    method CreatePendingUser(e: Email) returns (u: Id)
      requires Valid()
      modifies this
      ensures Valid()
      ensures CanRegister(old(State()), u, e) && u in users
      ensures State() == if EmailTaken(old(users), e) then old(State())
                         else old(State()).(next := u + 1, users := old(users)[u := User(Pending, Some(e), false, false, 1)])
    {
      if w :| w in users && users[w].email == Some(e) {
        return w;
      }
      u := next;
      next := next + 1;
      users := users[u := User(Pending, Some(e), false, false, 1)];
    }

    method CreateFederatedUser() returns (u: Id)
      requires Valid()
      modifies this
      ensures Valid()
      ensures u == old(next)
      ensures State() == old(State()).(next := u + 1, users := old(users)[u := User(Active, None, false, false, 1)])
      ensures locked == old(locked) + {u}
    {
      locked := locked + {next};
      u := next;
      next := next + 1;
      users := users[u := User(Active, None, false, false, 1)];
    }

    method ActivateUser(u: Id) returns (r: Result<User, Error>)
      requires Valid()
      modifies this
      ensures Valid()
      ensures r.Ok? <==> u in old(users) && old(users)[u].email.Some? && old(users)[u].status.Pending?
      ensures r.Ok? ==> r.value == old(users)[u].(status := Active, verified := true, recovery := true)
      ensures State() == if r.Ok? then old(State()).(users := old(users)[u := r.value]) else old(State())
    {
      if u !in users {
        return Err(NotFound);
      }
      if users[u].email.None? {
        return Err(Invalid);
      }
      if !users[u].status.Pending? {
        return Err(NotFound);
      }
      users := users[u := users[u].(status := Active, verified := true, recovery := true)];
      return Ok(users[u]);
    }

    method ReleasePendingEmail(e: Email)
      requires Valid()
      modifies this
      ensures Valid()
      ensures State() == old(State()).(users := Release(old(users), old(accounts), e))
    {
      hide AccountIndexes, EmailIndex, Release, Releasable;
      ReleaseKeepsIndex(users, accounts, e);
      var released := map u | u in users ::
        if users[u].email == Some(e) && users[u].status.Pending? && !users[u].verified && !users[u].recovery
           && !(exists a | a in accounts :: accounts[a].user == u)
        then users[u].(email := None, version := users[u].version + 1)
        else users[u];
      ReleaseAsWritten(users, accounts, e, released);
      users := released;
    }

    method UpdateUserEmail(u: Id, e: Email) returns (r: Result<Unit, Error>)
      requires Valid()
      modifies this
      ensures Valid()
      ensures r.Ok? <==> u in old(users) && old(users)[u].status.Active? && forall w | w in old(users) && w != u :: old(users)[w].email != Some(e)
      ensures r.Err? ==> r.error.NotFound? || r.error.Conflict?
      ensures State() == if r.Ok?
                         then old(State()).(users := old(users)[u := old(users)[u].(email := Some(e), verified := true, recovery := true, version := old(users)[u].version + 1)])
                         else old(State())
    {
      if u !in users || !users[u].status.Active? {
        return Err(NotFound);
      }
      if w :| w in users && w != u && users[w].email == Some(e) {
        return Err(Conflict);
      }
      users := users[u := users[u].(email := Some(e), verified := true, recovery := true, version := users[u].version + 1)];
      return Ok(Unit);
    }

    method BumpUserVersion(u: Id)
      requires Valid()
      modifies this
      ensures Valid()
      ensures State() == if u in old(users) then old(State()).(users := BumpVersion(old(users), u)) else old(State())
    {
      if u in users {
        users := users[u := users[u].(version := users[u].version + 1)];
      }
    }

    method SetUserStatus(u: Id, status: UserStatus) returns (r: Result<Unit, Error>)
      requires Valid()
      modifies this
      ensures Valid()
      ensures r.Ok? <==> Settable(status) && u in old(users)
      ensures State() == if r.Ok?
                         then old(State()).(users := old(users)[u := old(users)[u].(status := status, version := old(users)[u].version + 1)])
                         else old(State())
    {
      if status.Pending? {
        return Err(Invalid);
      }
      if u !in users {
        return Err(NotFound);
      }
      users := users[u := users[u].(status := status, version := users[u].version + 1)];
      return Ok(Unit);
    }

    // ---- accounts

    /** The shape checks come first, then the unique indexes refuse a duplicate. */
    method CreateAccount(row: Account) returns (r: Result<Id, Error>)
      requires Valid() && !row.revoked
      modifies this
      ensures Indexed(State()) && locked == old(locked)
      ensures bare == if r.Err? || row.user in old(locked) then old(bare) else old(bare) + 1
      ensures r.Ok? <==> CanInsertAccount(old(accounts), row)
      ensures r.Ok? ==> r.value == old(next)
      ensures State() == if r.Ok? then old(State()).(next := old(next) + 1, accounts := old(accounts)[old(next) := row]) else old(State())
    {
      if row.provider.Credential? {
        if row.identity != Identity(Local, row.user) || row.hash.None? {
          return Err(Invalid);
        }
      } else if row.identity.space.Local? || row.hash.Some? {
        return Err(Invalid);
      }
      if a :| a in accounts && !accounts[a].revoked && accounts[a].provider == row.provider && accounts[a].identity.subject == row.identity.subject {
        return Err(Conflict);
      }
      if a :| a in accounts && !accounts[a].revoked && accounts[a].identity == row.identity {
        assert HoldsIdentity(accounts, a, row.identity);
        return Err(Conflict);
      }
      if row.provider.Credential? {
        if a :| a in accounts && !accounts[a].revoked && accounts[a].provider.Credential? && accounts[a].user == row.user {
          assert LiveCredential(accounts, a, row.user);
          return Err(Conflict);
        }
      }
      InsertKeepsIndexes(accounts, next, row);
      r := Ok(next);
      bare := if row.user in locked then bare else bare + 1;
      accounts := accounts[next := row];
      next := next + 1;
    }

    method ChangePassword(a: Id, u: Id, hash: Hash) returns (count: nat)
      requires Valid()
      modifies this
      ensures Indexed(State()) && locked == old(locked)
      ensures bare == if count == 0 || u in old(locked) then old(bare) else old(bare) + 1
      ensures count == if LiveCredential(old(accounts), a, u) then 1 else 0
      ensures State() == if count == 1 then old(State()).(accounts := NewPassword(old(accounts), a, hash)) else old(State())
    {
      if a in accounts && accounts[a].user == u && accounts[a].provider.Credential? && !accounts[a].revoked {
        RewriteKeepsIndexes(accounts, a, accounts[a].(hash := Some(hash), version := accounts[a].version + 1));
        bare := if u in locked then bare else bare + 1;
        accounts := accounts[a := accounts[a].(hash := Some(hash), version := accounts[a].version + 1)];
        return 1;
      }
      return 0;
    }

    /** Compare-and-set on the hash that was verified; losing the race is not an error. */
    method UpgradePasswordHash(a: Id, u: Id, verified: Option<Hash>, upgrade: Hash) returns (r: Result<Unit, Error>)
      requires Valid()
      modifies this
      ensures Indexed(State()) && locked == old(locked)
      ensures bare == if !LiveCredential(old(accounts), a, u) || old(accounts)[a].hash != verified || u in old(locked) then old(bare) else old(bare) + 1
      ensures r.Ok? <==> LiveCredential(old(accounts), a, u)
      ensures State() == if r.Ok? then old(State()).(accounts := HashUpgraded(old(accounts), a, verified, Some(upgrade))) else old(State())
    {
      var account := GetAccount(a, u);
      if account.None? {
        return Err(NotFound);
      }
      if !account.value.provider.Credential? {
        return Err(Invalid);
      }
      if accounts[a].hash == verified {
        RewriteKeepsIndexes(accounts, a, accounts[a].(hash := Some(upgrade)));
        bare := if u in locked then bare else bare + 1;
        accounts := accounts[a := accounts[a].(hash := Some(upgrade))];
      }
      return Ok(Unit);
    }

    method RevokeAccount(a: Id, u: Id) returns (count: nat)
      requires Valid()
      modifies this
      ensures Indexed(State()) && locked == old(locked)
      ensures bare == if count == 0 || u in old(locked) then old(bare) else old(bare) + 1
      ensures count == if LiveAccount(old(accounts), a, u) then 1 else 0
      ensures State() == if count == 1
                         then old(State()).(accounts := old(accounts)[a := old(accounts)[a].(revoked := true, version := old(accounts)[a].version + 1)])
                         else old(State())
    {
      if a in accounts && accounts[a].user == u && !accounts[a].revoked {
        RewriteKeepsIndexes(accounts, a, accounts[a].(revoked := true, version := accounts[a].version + 1));
        bare := if u in locked then bare else bare + 1;
        accounts := accounts[a := accounts[a].(revoked := true, version := accounts[a].version + 1)];
        return 1;
      }
      return 0;
    }

    // ---- sessions

    method CreateSession(c: Config, u: Id, source: Id, version: nat) returns (s: Id)
      requires Valid()
      modifies this
      ensures Valid()
      ensures s == old(next)
      ensures State() == old(State()).(next := s + 1, sessions := old(sessions)[s := Session(u, source, version, Started(c.limits, now), false)])
    {
      s := next;
      next := next + 1;
      sessions := sessions[s := Session(u, source, version, Started(c.limits, now), false)];
    }

    method TouchSession(c: Config, s: Id, u: Id)
      requires Valid()
      modifies this
      ensures Valid()
      ensures State() == if s in old(sessions) && old(sessions)[s].user == u then SessionTouched(c, old(State()), s) else old(State())
    {
      if s in sessions && sessions[s].user == u && u in users {
        var session, user := sessions[s], users[u];
        if session.timing.lastSeen + RenewalThreshold(c.limits) <= now && !session.revoked && session.timing.idleExpires > now
           && session.timing.absoluteExpires > now && user.status.Active? && user.version == session.version {
          var idle := now + IdleSpan(c.limits);
          var timing := session.timing.(lastSeen := now, idleExpires := if session.timing.absoluteExpires <= idle then session.timing.absoluteExpires else idle);
          sessions := sessions[s := session.(timing := timing)];
        }
      }
      assert s in old(sessions) ==> sessions == SessionTouched(c, old(State()), s).sessions || old(sessions)[s].user != u;
    }

    method RevokeSession(s: Id, u: Id) returns (count: nat)
      requires Valid()
      modifies this
      ensures Valid()
      ensures count == if s in old(sessions) && old(sessions)[s].user == u then 1 else 0
      ensures State() == if count == 1 then old(State()).(sessions := old(sessions)[s := old(sessions)[s].(revoked := true)]) else old(State())
    {
      if s in sessions && sessions[s].user == u {
        sessions := sessions[s := sessions[s].(revoked := true)];
        return 1;
      }
      return 0;
    }

    method RevokeUserSessions(u: Id)
      requires Valid()
      modifies this
      ensures Valid()
      ensures State() == old(State()).(sessions := RevokeSessions(old(sessions), u))
    {
      sessions := map s | s in sessions :: if sessions[s].user == u && !sessions[s].revoked then sessions[s].(revoked := true) else sessions[s];
    }

    // ---- flows

    method CreateFlow(row: Flow) returns (f: Id)
      requires Valid()
      modifies this
      ensures Valid()
      ensures f == old(next)
      ensures State() == AddFlow(old(State()), row)
    {
      f := next;
      next := next + 1;
      flows := flows[f := row.(expires := now + FLOW_TTL)];
    }

    method ClaimPendingFlow(f: Id) returns (r: Result<Unit, Error>)
      requires Valid()
      modifies this
      ensures Valid()
      ensures r.Ok? <==> CanClaimCallback(old(State()), f)
      ensures r.Err? ==> r.error.Credentials?
      ensures State() == if r.Ok? then CallbackClaimed(old(State()), f) else old(State())
    {
      var count := 0;
      if f in flows && flows[f].status.Waiting? && flows[f].expires > now {
        flows := flows[f := flows[f].(status := Processing)];
        count := 1;
      }
      return TransitionResult(count);
    }

    method ClaimAuthorization(f: Id, child: Id) returns (r: Result<Unit, Error>)
      requires Valid()
      modifies this
      ensures Valid()
      ensures r.Ok? <==> CanClaim(old(State()), f)
      ensures r.Err? ==> r.error.Credentials?
      ensures State() == if r.Ok? then old(State()).(flows := Claim(old(flows), f, child)) else old(State())
    {
      var count := 0;
      if f in flows && flows[f].status.Authorized? && flows[f].expires > now {
        flows := flows[f := flows[f].(status := Claimed, claimedBy := Some(child))];
        count := 1;
      }
      return TransitionResult(count);
    }

    method VerifyFlow(f: Id, status: FlowStatus, i: Identity) returns (r: Result<Unit, Error>)
      requires Valid()
      modifies this
      ensures Valid()
      ensures r.Ok? <==> (status.Verified? || status.Authorized?) && i.space.Remote? && FlowProcessing(old(State()), f)
      ensures State() == if r.Ok?
                         then old(State()).(flows := old(flows)[f := old(flows)[f].(status := status, identity := Some(i), protocol := false)])
                         else old(State())
    {
      if !(status.Verified? || status.Authorized?) || i.space.Local? {
        return Err(Invalid);
      }
      var count := 0;
      if f in flows && flows[f].status.Processing? && flows[f].expires > now {
        flows := flows[f := flows[f].(status := status, identity := Some(i), protocol := false)];
        count := 1;
      }
      return TransitionResult(count);
    }

    /** Finish a flow that still has the status the caller saw. */
    method ConsumeFlow(f: Id, expected: FlowStatus) returns (r: Result<Unit, Error>)
      requires Valid()
      modifies this
      ensures Valid()
      ensures r.Ok? <==> && FlowVisible(old(State()), f) && old(flows)[f].status == expected
                         && (expected.Processing? || expected.Verified? || expected.Authorized? || expected.Claimed?)
      ensures r.Err? ==> r.error.Credentials?
      ensures State() == if r.Ok? then old(State()).(flows := SetFlow(old(flows), f, Consumed)) else old(State())
    {
      match expected {
        case Processing | Verified | Authorized | Claimed =>
          var count := 0;
          if f in flows && flows[f].status == expected && flows[f].expires > now {
            flows := flows[f := flows[f].(status := Consumed, protocol := false)];
            count := 1;
          }
          return TransitionResult(count);
        case _ =>
          return Err(Credentials);
      }
    }

    method FailFlow(f: Id)
      requires Valid()
      modifies this
      ensures Valid()
      ensures State() == if f in old(flows) then CallbackFailed(old(State()), f) else old(State())
    {
      if f in flows && (flows[f].status.Waiting? || flows[f].status.Processing?) {
        flows := flows[f := flows[f].(status := Failed, protocol := false)];
      }
    }

    // ---- challenges, mail, audit

    method CreateVerification(row: Challenge) returns (v: Id)
      requires Valid()
      modifies this
      ensures Valid()
      ensures v == old(next)
      ensures State() == old(State()).(next := v + 1, challenges := old(challenges)[v := row])
    {
      v := next;
      next := next + 1;
      challenges := challenges[v := row];
    }

    method ConsumeVerification(v: Id, u: Id) returns (r: Result<Unit, Error>)
      requires Valid()
      modifies this
      ensures Valid()
      ensures r.Ok? <==> ChallengeOpen(old(State()), v) && old(challenges)[v].user == u
      ensures r.Err? ==> r.error.Credentials?
      ensures State() == if r.Ok? then old(State()).(challenges := ConsumeChallenge(old(State()), v)) else old(State())
    {
      var count := 0;
      if v in challenges && challenges[v].user == u && !challenges[v].consumed && challenges[v].expires > now {
        challenges := challenges[v := challenges[v].(consumed := true)];
        count := 1;
      }
      return TransitionResult(count);
    }

    method EnqueueMail(m: Mail)
      requires Valid()
      modifies this
      ensures Valid() && State() == old(State()).(mail := old(mail) + [m])
    {
      mail := mail + [m];
    }

    method AppendAudit(action: Action, user: Id, resource: Id)
      requires Valid()
      modifies this
      ensures Valid() && State() == old(State()).(audit := Log(old(audit), action, user, resource))
    {
      audit := audit + [Audit(action, user, resource)];
    }
  }

  predicate Distinct(rows: seq<Id>) {
    forall i, j | 0 <= i < j < |rows| :: rows[i] != rows[j]
  }

  lemma {:induction false} DistinctSize(rows: seq<Id>, s: set<Id>)
    requires Distinct(rows) && forall a :: a in rows <==> a in s
    ensures |rows| == |s|
  {
    if rows == [] {
      assert s == {};
    } else {
      var n := |rows| - 1;
      assert rows == rows[..n] + [rows[n]];
      DistinctSize(rows[..n], s - {rows[n]});
    }
  }

  // ---- the statements keep the indexes

  /** The release, row by row. */
  lemma ReleaseAsWritten(users: map<Id, User>, accounts: map<Id, Account>, e: Email, released: map<Id, User>)
    requires released.Keys == users.Keys
    requires forall u | u in users :: released[u] ==
               if users[u].email == Some(e) && users[u].status.Pending? && !users[u].verified && !users[u].recovery
                  && !(exists a | a in accounts :: accounts[a].user == u)
               then users[u].(email := None, version := users[u].version + 1)
               else users[u]
    ensures released == Release(users, accounts, e)
  {
  }

  lemma ReleaseKeepsIndex(users: map<Id, User>, accounts: map<Id, Account>, e: Email)
    requires EmailIndex(users)
    ensures EmailIndex(Release(users, accounts, e)) && Release(users, accounts, e).Keys == users.Keys
  {
    hide Releasable;
  }

  lemma InsertKeepsIndexes(accounts: map<Id, Account>, a: Id, row: Account)
    requires AccountIndexes(accounts) && CanInsertAccount(accounts, row) && !row.revoked && a !in accounts
    ensures AccountIndexes(accounts[a := row])
  {
    var accounts' := accounts[a := row];
    forall x, y | x in accounts' && y in accounts' && !accounts'[x].revoked && !accounts'[y].revoked && accounts'[x].identity == accounts'[y].identity
      ensures x == y
    {
      assert x != a ==> HoldsIdentity(accounts, x, accounts[x].identity);
      assert y != a ==> HoldsIdentity(accounts, y, accounts[y].identity);
    }
    forall x, y, u | LiveCredential(accounts', x, u) && LiveCredential(accounts', y, u)
      ensures x == y
    {
      assert x != a ==> LiveCredential(accounts, x, u);
      assert y != a ==> LiveCredential(accounts, y, u);
    }
  }

  /** A row rewritten in place, perhaps revoked. */
  lemma RewriteKeepsIndexes(accounts: map<Id, Account>, a: Id, row: Account)
    requires AccountIndexes(accounts) && a in accounts && !accounts[a].revoked
    requires row == accounts[a].(hash := row.hash, version := row.version, revoked := row.revoked)
    ensures AccountIndexes(accounts[a := row])
  {
    var accounts' := accounts[a := row];
    forall x, y, u | LiveCredential(accounts', x, u) && LiveCredential(accounts', y, u)
      ensures x == y
    {
      assert LiveCredential(accounts, x, u) && LiveCredential(accounts, y, u);
    }
  }
}
