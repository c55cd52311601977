/**
 The account operations as the service runs them: statement by statement, with early error
 returns, and a rollback to the state in which the transaction began. An operation that works
 outside its transaction is two methods, a read that returns the snapshot as a call in flight
 and a commit; other operations may run in between.

 Each method succeeds exactly when its guard in AccountProtocol holds, and then the tables are
 exactly what its effect says; on an error they are untouched.
 */
module AccountService {
  import opened Wrappers
  import opened SessionClock
  import opened AccountTables
  import opened AccountProtocol
  import opened AccountEvolution
  import opened AccountInvariant
  import opened AccountStore

  /** After the release nobody but u has the address exactly when every other holder was a placeholder. */
  lemma ReleaseFrees(users: map<Id, User>, accounts: map<Id, Account>, e: Email, u: Id)
    ensures (forall w | w in Release(users, accounts, e) && w != u :: Release(users, accounts, e)[w].email != Some(e))
       <==> (forall w | w in users && w != u && users[w].email == Some(e) :: Releasable(users, accounts, w))
    ensures Release(users, accounts, e).Keys == users.Keys
    ensures u in users && !users[u].status.Pending? ==> Release(users, accounts, e)[u] == users[u]
  {
    assert u in users && !users[u].status.Pending? ==> !Releasable(users, accounts, u);
    hide Releasable;
    assert forall w | w in users :: Release(users, accounts, e)[w].email == Some(e) <==> users[w].email == Some(e) && !Releasable(users, accounts, w);
  }

  lemma FreshFlows(db: Db)
    requires Indexed(db)
    ensures forall f | f in db.flows :: f < db.next
  {
  }

  lemma AuthorizedProof(c: Config, db: Db, r: Request, p: Id, g: Grant, claim: Option<Id>)
    requires Authorizes(c, db, r, p, g, claim)
    ensures FlowVisible(db, p) && db.flows[p].purpose.Reauthenticate?
    ensures if claim.None? then db.flows[p].status.Authorized? else db.flows[p].status.Claimed?
    ensures SessionValid(db, r.session, r.user) && r.user in db.users && db.users[r.user].status.Active?
  {
  }

  class Service {
    const config: Config
    const store: Store

    constructor (config: Config)
      ensures this.config == config && fresh(store) && store.Valid()
      ensures store.State() == Db(0, 0, map[], map[], map[], map[], map[], [], [])
    {
      this.config := config;
      store := new Store();
    }

    // ---- checks that several operations share

    /** The calling user and its session, with the user row locked for the rest of the transaction. */
    method LockSelf(r: Request) returns (result: Result<User, Error>)
      modifies store`locked
      ensures store.State() == old(store.State())
      ensures result.Ok? <==> Self(store.State(), r)
      ensures result.Ok? ==> result.value == store.users[r.user] && r.user in store.locked
      ensures result.Err? ==> result.error.Unauthenticated?
    {
      var user := store.LockUser(r.user);
      if user.None? {
        return Err(Unauthenticated);
      }
      var valid := store.GetValidSession(r.session, r.user);
      if !valid {
        return Err(Unauthenticated);
      }
      return Ok(user.value);
    }

    /** The same without a lock: nothing keeps the row from changing afterwards. */
    method ReadSelf(r: Request) returns (result: Result<User, Error>)
      ensures result.Ok? <==> Self(store.State(), r)
      ensures result.Ok? ==> result.value == store.users[r.user]
      ensures result.Err? ==> result.error.Unauthenticated?
    {
      var user := store.GetUser(r.user);
      if user.None? {
        return Err(Unauthenticated);
      }
      var valid := store.GetValidSession(r.session, r.user);
      if !valid {
        return Err(Unauthenticated);
      }
      return Ok(user.value);
    }

    /** Every check on a reauthentication proof, in the order in which they are made. */
    method Authorization(r: Request, id: Id, g: Grant, claim: Option<Id>) returns (result: Result<Flow, Error>)
      ensures result.Ok? <==> Authorizes(config, store.State(), r, id, g, claim)
      ensures result.Ok? ==> result.value == store.flows[id]
      ensures result.Err? ==> result.error.Reauthentication?
    {
      var found := store.GetFlow(id);
      if found.None? {
        return Err(Reauthentication);
      }
      var proof := found.value;
      if !proof.purpose.Reauthenticate? || proof.binding.None? || proof.proving.None? {
        return Err(Reauthentication);
      }
      if proof.binding.value.user != r.user || proof.binding.value.session != r.session {
        return Err(Reauthentication);
      }
      if proof.grant != Some(g) {
        return Err(Reauthentication);
      }
      if claim.None? {
        if !proof.status.Authorized? {
          return Err(Reauthentication);
        }
      } else if !proof.status.Claimed? || proof.claimedBy != claim {
        return Err(Reauthentication);
      }
      var user := store.GetUser(proof.binding.value.user);
      if user.None? || !user.value.status.Active? || user.value.version != proof.binding.value.version {
        return Err(Reauthentication);
      }
      var account := store.GetAccount(proof.proving.value.account, r.user);
      if account.None? || account.value.version != proof.proving.value.version || !AccountEnabled(config, account.value) {
        return Err(Reauthentication);
      }
      var valid := store.GetValidSession(proof.binding.value.session, r.user);
      if !valid {
        return Err(Reauthentication);
      }
      return Ok(proof);
    }

    method FinishAuthorization(f: Id, seen: Flow) returns (result: Result<Unit, Error>)
      requires store.Valid() && FlowVisible(store.State(), f) && store.flows[f].status == seen.status
      requires seen.status.Verified? || seen.status.Authorized? || seen.status.Claimed?
      modifies store
      ensures store.Valid() && result.Ok?
      ensures store.State() == old(store.State()).(flows := SetFlow(old(store.flows), f, Consumed))
    {
      var count := store.ConsumeFlow(f, seen.status);
      return ProofError(count, Reauthentication);
    }

    method EndEpoch(u: Id)
      requires store.Valid() && u in store.users
      modifies store
      ensures store.Valid() && store.State() == Invalidate(old(store.State()), u)
    {
      store.BumpUserVersion(u);
      store.RevokeUserSessions(u);
    }

    method NotifyUser(row: User)
      requires store.Valid()
      modifies store
      ensures store.Valid() && store.State() == old(store.State()).(mail := Notify(old(store.mail), row))
    {
      if row.email.Some? && row.verified {
        store.EnqueueMail(Mail(row.email.value, SecurityNotice));
      }
    }

    method CreateChallenge(u: Id, version: nat, purpose: ChallengePurpose, email: Email, ttl: Span, session: Option<Id>, proof: Option<Id>) returns (v: Id)
      requires store.Valid()
      modifies store
      ensures store.Valid() && v == old(store.next)
      ensures store.State() == AddChallenge(old(store.State()), Challenge(u, purpose, email, version, session, proof, false, old(store.now) + ttl))
    {
      v := store.CreateVerification(Challenge(u, purpose, email, version, session, proof, false, store.now + ttl));
      store.EnqueueMail(Mail(email, ChallengeMail(purpose)));
    }

    method NewSession(u: Id, user: User, a: Id, account: Account) returns (result: Result<Id, Error>)
      requires store.Valid() && u in store.users && store.users[u] == user
      modifies store
      ensures store.Valid()
      ensures result.Ok? <==> user.status.Active? && account.user == u && !account.revoked
      ensures result.Ok? ==> result.value == old(store.next) && store.State() == AddSession(config, old(store.State()), u, a)
    {
      if !user.status.Active? || account.user != u || account.revoked {
        return Err(Credentials);
      }
      var s := store.CreateSession(config, u, a, user.version);
      store.AppendAudit(AuditLogin, u, s);
      return Ok(s);
    }

    // ---- registration and recovery

    method Register(e: Email) returns (ghost u: Id)
      requires store.Valid()
      modifies store
      ensures store.Valid()
      ensures CanRegister(old(store.State()), u, e) && store.State() == Registered(old(store.State()), u, e)
    {
      hide Indexed;
      var w := store.CreatePendingUser(e);
      u := w;
      var row := store.users[w];
      if row.status.Pending? {
        var v := CreateChallenge(w, row.version, VerifyRegister, e, REGISTRATION_TTL, None, None);
      }
    }

    /** The recovery request answers the same whether or not there is anybody to recover. */
    method ReadRecovery(e: Email) returns (call: Option<Call>)
      requires store.Valid()
      ensures call.Some? ==> call.value.RecoverCall? && CanRecover(store.State(), call.value.user)
                             && call.value.row == store.users[call.value.user] && call.value.row.email == Some(e)
      ensures call.None? ==> forall u | u in store.users && store.users[u].email == Some(e) :: !CanRecover(store.State(), u)
    {
      var found := store.FindUserByEmail(e);
      if found.None? {
        return None;
      }
      var user := store.users[found.value];
      if !user.status.Active? || !user.recovery || !user.verified {
        return None;
      }
      var account := store.GetPasswordAccount(found.value);
      if account.None? {
        return None;
      }
      return Some(RecoverCall(found.value, user));
    }

    method CommitRecovery(call: Call)
      requires store.Valid() && call.RecoverCall? && call.row.email.Some?
      modifies store
      ensures store.Valid() && store.State() == RecoveryIssued(old(store.State()), call.user, call.row)
    {
      var v := CreateChallenge(call.user, call.row.version, VerifyReset, call.row.email.value, RESET_TTL, None, None);
    }

    // ---- consuming a challenge

    /** `offered` is the hash of the new password, if one is given, and `acceptable` what the password rules say of it. */
    method ReadVerification(v: Id, purpose: ChallengePurpose, offered: Option<Hash>, acceptable: bool) returns (result: Result<Call, Error>)
      ensures result.Ok? <==> && ChallengeOpen(store.State(), v) && store.challenges[v].purpose == purpose
                              && (if purpose.VerifyChange? then offered.None? else offered.Some? && acceptable)
      ensures result.Ok? ==> result.value == VerifyCall(v, store.challenges[v], offered)
      ensures result.Err? && (!ChallengeOpen(store.State(), v) || store.challenges[v].purpose != purpose) ==> result.error.VerificationInvalid?
    {
      var found := store.FindVerification(v);
      if found.None? || found.value.purpose != purpose {
        return Err(VerificationInvalid);
      }
      match purpose {
        case VerifyRegister | VerifyReset =>
          if offered.None? || !acceptable {
            return Err(Invalid);
          }
        case VerifyChange =>
          if offered.Some? {
            return Err(Invalid);
          }
      }
      return Ok(VerifyCall(v, found.value, offered));
    }

    method CompleteRegistration(u: Id, user: User, row: Challenge, hash: Hash) returns (result: Result<User, Error>)
      requires u in store.locked
      requires store.Valid() && u in store.users && store.users[u] == user
      modifies store
      ensures store.Valid()
      ensures result.Ok? <==> user.status.Pending? && user.email == Some(row.email) && CanInsertAccount(old(store.accounts), CredentialRow(u, hash))
      ensures result.Ok? ==> result.value == user.(status := Active, verified := true, recovery := true)
      ensures result.Ok? ==> store.State() == old(store.State()).(
                next := old(store.next) + 1,
                users := old(store.users)[u := result.value],
                accounts := old(store.accounts)[old(store.next) := CredentialRow(u, hash)])
    {
      if !user.status.Pending? || user.email != Some(row.email) {
        return Err(Credentials);
      }
      var created := store.CreateAccount(CredentialRow(u, hash));
      if created.Err? {
        return Err(created.error);
      }
      result := store.ActivateUser(u);
    }

    method CompletePasswordReset(u: Id, user: User, row: Challenge, hash: Hash) returns (result: Result<Unit, Error>, ghost a: Id)
      requires u in store.locked
      requires store.Valid() && u in store.users && store.users[u] == user
      modifies store
      ensures store.Valid()
      ensures result.Ok? <==> user.status.Active? && user.recovery && user.verified && user.email == Some(row.email) && HasCredential(old(store.accounts), u)
      ensures result.Ok? ==> LiveCredential(old(store.accounts), a, u)
                             && store.State() == Invalidate(old(store.State()), u).(accounts := NewPassword(old(store.accounts), a, hash))
    {
      a := 0;
      if !user.status.Active? || !user.recovery || !user.verified || user.email != Some(row.email) {
        return Err(Credentials), a;
      }
      var account := store.GetPasswordAccount(u);
      if account.None? {
        return Err(Credentials), a;
      }
      a := account.value;
      var count := store.ChangePassword(account.value, u, hash);
      EndEpoch(u);
      return Ok(Unit), a;
    }

    /** The proof is finished, a placeholder gives the address up, the address moves, the sessions end. */
    method CompleteEmailChange(u: Id, user: User, v: Id, row: Challenge) returns (result: Result<Unit, Error>)
      requires store.Valid() && u in store.users && store.users[u] == user && row.user == u
      modifies store
      ensures store.Valid()
      ensures result.Ok? <==> && row.session.Some? && row.parent.Some?
                              && Authorizes(config, old(store.State()), Request(u, row.session.value), row.parent.value, ChangeEmail(row.email), Some(v))
                              && (forall w | w in old(store.users) && w != u && old(store.users)[w].email == Some(row.email) ::
                                    Releasable(old(store.users), old(store.accounts), w))
      ensures result.Ok? ==> store.State() == old(store.State()).(
                users := Release(old(store.users), old(store.accounts), row.email)[u := user.(email := Some(row.email), verified := true, recovery := true, version := user.version + 1)],
                sessions := RevokeSessions(old(store.sessions), u),
                flows := SetFlow(old(store.flows), row.parent.value, Consumed),
                mail := Notify(old(store.mail), user))
    {
      hide Indexed, Authorizes, Releasable, Release, RevokeSessions, SetFlow, Notify, SessionValid;
      if row.session.None? || row.parent.None? {
        return Err(Credentials);
      }
      if Authorizes(config, store.State(), Request(u, row.session.value), row.parent.value, ChangeEmail(row.email), Some(v)) {
        AuthorizedProof(config, store.State(), Request(u, row.session.value), row.parent.value, ChangeEmail(row.email), Some(v));
      }
      var valid := store.GetValidSession(row.session.value, u);
      if !valid {
        return Err(Credentials);
      }
      var proof := Authorization(Request(u, row.session.value), row.parent.value, ChangeEmail(row.email), Some(v));
      if proof.Err? {
        return Err(proof.error);
      }
      var finished := FinishAuthorization(row.parent.value, proof.value);
      store.ReleasePendingEmail(row.email);
      ReleaseFrees(old(store.users), store.accounts, row.email, u);
      var moved := store.UpdateUserEmail(u, row.email);
      if moved.Err? {
        return Err(moved.error);
      }
      store.RevokeUserSessions(u);
      NotifyUser(user);
      return Ok(Unit);
    }

    /** Lock the user, re-check the epoch, do the work of the purpose, consume the challenge. */
    method CommitVerification(call: Call) returns (result: Result<Unit, Error>, ghost a: Id)
      requires store.Valid() && call.VerifyCall? && (call.newHash.None? <==> call.chRow.purpose.VerifyChange?)
      requires call.challenge in store.challenges && ChallengeEvolves(call.chRow, store.challenges[call.challenge])
      modifies store
      ensures store.Valid()
      ensures call.chRow.purpose.VerifyRegister? ==>
                (result.Ok? <==> CanActivate(old(store.State()), call.challenge, call.chRow, call.newHash.value))
      ensures call.chRow.purpose.VerifyRegister? && result.Ok? ==>
                store.State() == Activated(old(store.State()), call.challenge, call.chRow, call.newHash.value)
      ensures call.chRow.purpose.VerifyReset? ==>
                (result.Ok? <==> exists x: Id :: CanReset(old(store.State()), call.challenge, call.chRow, x))
      ensures call.chRow.purpose.VerifyReset? && result.Ok? ==>
                CanReset(old(store.State()), call.challenge, call.chRow, a)
                && store.State() == Reset(old(store.State()), call.challenge, call.chRow, a, call.newHash.value)
      ensures call.chRow.purpose.VerifyChange? ==>
                (result.Ok? <==> CanMoveEmail(config, old(store.State()), call.challenge, call.chRow))
      ensures call.chRow.purpose.VerifyChange? && result.Ok? ==>
                store.State() == EmailMoved(old(store.State()), call.challenge, call.chRow)
      ensures result.Err? ==> store.State() == old(store.State()) && !result.error.Credentials?
    {
      var begun := store.State();
      result, a := VerificationBody(call);
      store.End(begun, result.Ok?);
      result := ProofError(result, VerificationInvalid);
    }

    method VerificationBody(call: Call) returns (result: Result<Unit, Error>, ghost a: Id)
      requires store.Valid() && call.VerifyCall? && (call.newHash.None? <==> call.chRow.purpose.VerifyChange?)
      requires call.challenge in store.challenges && ChallengeEvolves(call.chRow, store.challenges[call.challenge])
      modifies store
      ensures store.Valid()
      ensures call.chRow.purpose.VerifyRegister? ==>
                (result.Ok? <==> CanActivate(old(store.State()), call.challenge, call.chRow, call.newHash.value))
      ensures call.chRow.purpose.VerifyRegister? && result.Ok? ==>
                store.State() == Activated(old(store.State()), call.challenge, call.chRow, call.newHash.value)
      ensures call.chRow.purpose.VerifyReset? ==>
                (result.Ok? <==> exists x: Id :: CanReset(old(store.State()), call.challenge, call.chRow, x))
      ensures call.chRow.purpose.VerifyReset? && result.Ok? ==>
                CanReset(old(store.State()), call.challenge, call.chRow, a)
                && store.State() == Reset(old(store.State()), call.challenge, call.chRow, a, call.newHash.value)
      ensures call.chRow.purpose.VerifyChange? ==>
                (result.Ok? <==> CanMoveEmail(config, old(store.State()), call.challenge, call.chRow))
      ensures call.chRow.purpose.VerifyChange? && result.Ok? ==>
                store.State() == EmailMoved(old(store.State()), call.challenge, call.chRow)
    {
      hide CanInsertAccount, Authorizes, Release, Releasable, RevokeSessions, Indexed, SetFlow, Notify;
      a := 0;
      var row := call.chRow;
      var locked := store.LockUser(row.user);
      if locked.None? {
        return Err(NotFound), a;
      }
      var user := locked.value;
      if user.version != row.version || user.status.Disabled? {
        return Err(Credentials), a;
      }
      match row.purpose {
        case VerifyRegister =>
          var activated := CompleteRegistration(row.user, user, row, call.newHash.value);
          if activated.Err? {
            return Err(activated.error), a;
          }
          user := activated.value;
        case VerifyReset =>
          var reset;
          reset, a := CompletePasswordReset(row.user, user, row, call.newHash.value);
          if reset.Err? {
            return Err(reset.error), a;
          }
        case VerifyChange =>
          var moved := CompleteEmailChange(row.user, user, call.challenge, row);
          if moved.Err? {
            return Err(moved.error), a;
          }
      }
      var consumed := store.ConsumeVerification(call.challenge, row.user);
      if consumed.Err? {
        return Err(consumed.error), a;
      }
      if !row.purpose.VerifyChange? {
        NotifyUser(user);
      }
      store.AppendAudit(AuditVerify(row.purpose), row.user, row.user);
      assert row.purpose.VerifyReset? ==> CanReset(old(store.State()), call.challenge, row, a);
      return Ok(Unit), a;
    }

    // ---- password login

    method ReadLogin(e: Email, password: Password, upgrade: Option<Hash>) returns (result: Result<Call, Error>)
      requires store.Valid()
      ensures result.Ok? ==> && result.value.LoginCall? && result.value.user in store.users && store.users[result.value.user].email == Some(e)
                             && CanReadLogin(store.State(), result.value.user, result.value.account, password)
                             && result.value == LoginCall(result.value.user, store.users[result.value.user], result.value.account,
                                                          store.accounts[result.value.account], password, upgrade)
      ensures result.Err? ==> result.error.Credentials?
      ensures result.Err? ==> forall u: Id, a: Id | u in store.users && store.users[u].email == Some(e) :: !CanReadLogin(store.State(), u, a, password)
    {
      var found := store.FindUserByEmail(e);
      if found.None? {
        return Err(Credentials);
      }
      var u := found.value;
      var user := store.users[u];
      var account := store.GetPasswordAccount(u);
      if account.None? {
        return Err(Credentials);
      }
      var row := store.accounts[account.value];
      if !Represents(row.hash, password) || !user.status.Active? || !user.verified {
        return Err(Credentials);
      }
      return Ok(LoginCall(u, user, account.value, row, password, upgrade));
    }

    method CommitLogin(call: Call) returns (result: Result<Id, Error>)
      requires store.Valid() && call.LoginCall?
      modifies store
      ensures store.Valid()
      ensures result.Ok? <==> && CanLogin(old(store.State()), call.user, call.row, call.account, call.accountRow)
                              && (call.upgrade.Some? ==> old(store.accounts)[call.account].provider.Credential?)
      ensures result.Ok? ==> result.value == old(store.next)
                             && store.State() == LoggedIn(config, old(store.State()), call.user, call.account, call.accountRow, call.upgrade)
      ensures result.Err? ==> store.State() == old(store.State())
    {
      var begun := store.State();
      result := LoginBody(call);
      store.End(begun, result.Ok?);
    }

    method LoginBody(call: Call) returns (result: Result<Id, Error>)
      requires store.Valid() && call.LoginCall?
      modifies store
      ensures store.Valid()
      ensures result.Ok? <==> && CanLogin(old(store.State()), call.user, call.row, call.account, call.accountRow)
                              && (call.upgrade.Some? ==> old(store.accounts)[call.account].provider.Credential?)
      ensures result.Ok? ==> result.value == old(store.next)
                             && store.State() == LoggedIn(config, old(store.State()), call.user, call.account, call.accountRow, call.upgrade)
    {
      hide Indexed, Started;
      var user := store.LockUser(call.user);
      if user.None? {
        return Err(NotFound);
      }
      var account := store.GetAccount(call.account, call.user);
      if account.None? {
        return Err(Credentials);
      }
      if user.value.version != call.row.version || account.value.version != call.accountRow.version || !user.value.status.Active? {
        return Err(Credentials);
      }
      if call.upgrade.Some? {
        var upgraded := store.UpgradePasswordHash(call.account, call.user, call.accountRow.hash, call.upgrade.value);
        if upgraded.Err? {
          return Err(upgraded.error);
        }
      }
      result := NewSession(call.user, user.value, call.account, account.value);
    }

    // ---- passwords

    method ReadPassword(r: Request, current: Option<Password>, proof: Option<Id>, hash: Hash, acceptable: bool) returns (result: Result<Call, Error>)
      requires store.Valid()
      ensures result.Ok? ==> acceptable && result.value.PasswordCall?
      ensures result.Ok? ==> var target := if result.value.target.Some? then Some(result.value.target.value.0) else None;
                             && CanReadPassword(store.State(), r, target, current, proof)
                             && result.value == PasswordCall(r, store.users[r.user],
                                                             if target.Some? then Some((target.value, store.accounts[target.value])) else None, current, proof, hash)
      ensures result.Err? ==> !acceptable || forall target: Option<Id> :: !CanReadPassword(store.State(), r, target, current, proof)
      ensures !acceptable ==> result == Err(Invalid)
    {
      if !acceptable {
        return Err(Invalid);
      }
      var user := ReadSelf(r);
      if user.Err? {
        return Err(user.error);
      }
      var account := store.GetPasswordAccount(r.user);
      if account.Some? {
        var row := store.accounts[account.value];
        if current.None? || !Represents(row.hash, current.value) {
          return Err(Reauthentication);
        }
        return Ok(PasswordCall(r, user.value, Some((account.value, row)), current, proof, hash));
      }
      if current.Some? || proof.None? {
        return Err(Invalid);
      }
      return Ok(PasswordCall(r, user.value, None, current, proof, hash));
    }

    method CommitPassword(call: Call) returns (result: Result<Unit, Error>)
      requires store.Valid() && call.PasswordCall? && (call.target.None? ==> call.proofId.Some?)
      modifies store
      ensures store.Valid()
      ensures call.target.Some? ==>
                (result.Ok? <==> CanChangePassword(old(store.State()), call.request, call.row, call.target.value.0, call.target.value.1))
      ensures call.target.Some? && result.Ok? ==>
                store.State() == PasswordChanged(old(store.State()), call.request, call.target.value.0, call.hash)
      ensures call.target.None? ==>
                (result.Ok? <==> CanSetFirstPassword(config, old(store.State()), call.request, call.row, call.proofId.value, call.hash))
      ensures call.target.None? && result.Ok? ==>
                store.State() == FirstPasswordSet(old(store.State()), call.request, call.proofId.value, call.hash)
      ensures result.Err? ==> store.State() == old(store.State())
      ensures !Self(old(store.State()), call.request) ==> result == Err(Unauthenticated)
      ensures Self(old(store.State()), call.request) && old(store.users)[call.request.user].version != call.row.version ==> result == Err(Reauthentication)
    {
      var begun := store.State();
      result := PasswordBody(call);
      store.End(begun, result.Ok?);
    }

    /** The account that was verified must still be the password account, at the same version. */
    method ReplacePassword(u: Id, a: Id, row: Account, hash: Hash) returns (result: Result<Unit, Error>)
      requires u in store.locked
      requires store.Valid()
      modifies store
      ensures store.Valid()
      ensures result.Ok? <==> LiveCredential(old(store.accounts), a, u) && old(store.accounts)[a].version == row.version
      ensures result.Ok? ==> store.State() == old(store.State()).(accounts := NewPassword(old(store.accounts), a, hash))
      ensures result.Err? ==> result.error.Reauthentication?
    {
      var current := store.GetPasswordAccount(u);
      if current.None? || current.value != a || store.accounts[a].version != row.version {
        return Err(Reauthentication);
      }
      var count := store.ChangePassword(a, u, hash);
      return Ok(Unit);
    }

    method AddPassword(r: Request, user: User, proof: Id, hash: Hash) returns (result: Result<Unit, Error>)
      requires r.user in store.locked
      requires store.Valid() && Self(store.State(), r) && store.users[r.user] == user
      modifies store
      ensures store.Valid()
      ensures result.Ok? <==> && !HasCredential(old(store.accounts), r.user) && user.verified
                              && Authorizes(config, old(store.State()), r, proof, SetPassword, None)
                              && |LiveAccounts(old(store.accounts), r.user)| < MAX_LOGIN_ACCOUNTS
                              && CanInsertAccount(old(store.accounts), CredentialRow(r.user, hash))
      ensures result.Ok? ==> store.State() == old(store.State()).(
                next := old(store.next) + 1,
                accounts := old(store.accounts)[old(store.next) := CredentialRow(r.user, hash)],
                flows := SetFlow(old(store.flows), proof, Consumed))
    {
      var current := store.GetPasswordAccount(r.user);
      if current.Some? {
        return Err(Conflict);
      }
      if !user.verified {
        return Err(Invalid);
      }
      var authorized := Authorization(r, proof, SetPassword, None);
      if authorized.Err? {
        return Err(authorized.error);
      }
      var rows := store.ListAccounts(r.user);
      if |rows| >= MAX_LOGIN_ACCOUNTS {
        return Err(Conflict);
      }
      var created := store.CreateAccount(CredentialRow(r.user, hash));
      if created.Err? {
        return Err(created.error);
      }
      result := FinishAuthorization(proof, authorized.value);
    }

    method PasswordBody(call: Call) returns (result: Result<Unit, Error>)
      requires store.Valid() && call.PasswordCall? && (call.target.None? ==> call.proofId.Some?)
      modifies store
      ensures store.Valid()
      ensures call.target.Some? ==>
                (result.Ok? <==> CanChangePassword(old(store.State()), call.request, call.row, call.target.value.0, call.target.value.1))
      ensures call.target.Some? && result.Ok? ==>
                store.State() == PasswordChanged(old(store.State()), call.request, call.target.value.0, call.hash)
      ensures call.target.None? ==>
                (result.Ok? <==> CanSetFirstPassword(config, old(store.State()), call.request, call.row, call.proofId.value, call.hash))
      ensures call.target.None? && result.Ok? ==>
                store.State() == FirstPasswordSet(old(store.State()), call.request, call.proofId.value, call.hash)
      ensures !Self(old(store.State()), call.request) ==> result == Err(Unauthenticated)
      ensures Self(old(store.State()), call.request) && old(store.users)[call.request.user].version != call.row.version ==> result == Err(Reauthentication)
    {
      hide Indexed, CanInsertAccount, RevokeSessions, BumpVersion, Notify;
      var u := call.request.user;
      var user := LockSelf(call.request);
      if user.Err? {
        return Err(user.error);
      }
      if user.value.version != call.row.version {
        return Err(Reauthentication);
      }
      var written;
      if call.target.Some? {
        written := ReplacePassword(u, call.target.value.0, call.target.value.1, call.hash);
      } else {
        written := AddPassword(call.request, user.value, call.proofId.value, call.hash);
      }
      if written.Err? {
        return Err(written.error);
      }
      EndEpoch(u);
      NotifyUser(user.value);
      store.AppendAudit(AuditPassword, u, u);
      return Ok(Unit);
    }

    // ---- reauthentication

    method ReadReauthentication(r: Request, g: Grant, password: Password) returns (result: Result<Call, Error>)
      requires store.Valid()
      ensures result.Ok? ==> && result.value.ReauthenticateCall?
                             && CanReadReauthentication(config, store.State(), r, result.value.account, g, password)
                             && result.value == ReauthenticateCall(r, store.users[r.user], result.value.account, store.accounts[result.value.account], g, password)
      ensures result.Err? ==> forall a: Id :: !CanReadReauthentication(config, store.State(), r, a, g, password)
    {
      if g.LinkAccount? && !ProviderEnabled(config, g.provider) {
        return Err(Invalid);
      }
      var user := ReadSelf(r);
      if user.Err? {
        return Err(user.error);
      }
      var account := store.GetPasswordAccount(r.user);
      if account.None? {
        return Err(Reauthentication);
      }
      if g == UnlinkAccount(account.value) {
        return Err(LastAccount);
      }
      var row := store.accounts[account.value];
      if !Represents(row.hash, password) {
        return Err(Reauthentication);
      }
      return Ok(ReauthenticateCall(r, user.value, account.value, row, g, password));
    }

    /** The re-check of a password proof, without any lock; the proof is inserted by a later statement. */
    method CheckReauthentication(call: Call) returns (result: Result<Call, Error>)
      requires call.ReauthenticateCall?
      ensures result.Ok? <==> CanIssueProof(store.State(), call.request, call.row, call.account, call.accountRow)
      ensures result.Ok? ==> result.value == InsertCall(ProofRow(call.request, call.row, call.account, call.accountRow, call.grant), Some(call.password))
    {
      var user := ReadSelf(call.request);
      if user.Err? {
        return Err(user.error);
      }
      var account := store.GetAccount(call.account, call.request.user);
      if account.None? {
        return Err(Reauthentication);
      }
      if account.value.version != call.accountRow.version || user.value.version != call.row.version {
        return Err(Reauthentication);
      }
      var binding := Binding(call.request.user, call.request.session, call.row.version);
      var row := Flow(Reauthenticate, Authorized, None, Some(binding), Some(Proving(call.account, call.accountRow.version)), Some(call.grant), None, None, false, None, 0);
      return Ok(InsertCall(row, Some(call.password)));
    }

    /** A proof through the account's provider first reads the account, outside the transaction. */
    method ReadStartReauthentication(r: Request, a: Id, g: Grant) returns (result: Result<Account, Error>)
      ensures result.Ok? <==> CanStartReauthentication(config, store.State(), r, a, g)
      ensures result.Ok? ==> result.value == store.accounts[a]
      ensures Self(store.State(), r) && ValidGrant(config, g) && LiveAccount(store.accounts, a, r.user) && g == UnlinkAccount(a) ==> result == Err(LastAccount)
    {
      if g.LinkAccount? && !ProviderEnabled(config, g.provider) {
        return Err(Invalid);
      }
      var user := ReadSelf(r);
      if user.Err? {
        return Err(user.error);
      }
      var account := store.GetAccount(a, r.user);
      if account.None? {
        return Err(Reauthentication);
      }
      if g == UnlinkAccount(a) {
        return Err(LastAccount);
      }
      if account.value.provider.Credential? || !AccountEnabled(config, account.value) {
        return Err(Invalid);
      }
      return Ok(account.value);
    }

    /** In the transaction the account must still be enabled and at the version that was read; the flow then waits for the callback. */
    method CheckStartReauthentication(r: Request, a: Id, g: Grant, read: Account) returns (result: Result<Call, Error>)
      requires ValidGrant(config, g) && g != UnlinkAccount(a) && read.provider.External? && AccountSnapshot(store.State(), a, read)
      ensures result.Ok? <==> CanStartReauthentication(config, store.State(), r, a, g) && store.accounts[a].version == read.version
      ensures result.Ok? ==> result.value == InsertCall(ReauthenticationRow(store.State(), r, a, g), None)
    {
      if !ProviderEnabled(config, read.provider) {
        return Err(Invalid);
      }
      var user := ReadSelf(r);
      if user.Err? {
        return Err(user.error);
      }
      var account := store.GetAccount(a, r.user);
      if account.None? || account.value.version != read.version || !AccountEnabled(config, account.value) {
        return Err(Credentials);
      }
      var binding := Binding(r.user, r.session, user.value.version);
      var row := Flow(Reauthenticate, Waiting, Some(account.value.provider), Some(binding), Some(Proving(a, account.value.version)), Some(g), None, None, true, None, 0);
      return Ok(InsertCall(row, None));
    }

    method InsertProof(call: Call) returns (f: Id)
      requires store.Valid() && call.InsertCall?
      modifies store
      ensures store.Valid() && f == old(store.next) && store.State() == AddFlow(old(store.State()), call.flow)
    {
      f := store.CreateFlow(call.flow);
    }

    // ---- starting flows

    method StartLogin(purpose: FlowPurpose, p: Provider) returns (result: Result<Id, Error>)
      requires store.Valid()
      modifies store
      ensures store.Valid()
      ensures result.Ok? <==> (purpose.Login? || purpose.SignUp?) && ProviderEnabled(config, p)
      ensures store.State() == if result.Ok? then AddFlow(old(store.State()), PublicFlowRow(purpose, p)) else old(store.State())
      ensures result.Ok? ==> result.value == old(store.next)
    {
      if !(purpose.Login? || purpose.SignUp?) || !ProviderEnabled(config, p) {
        return Err(Invalid);
      }
      var f := store.CreateFlow(Flow(purpose, Waiting, Some(p), None, None, None, None, None, true, None, 0));
      return Ok(f);
    }

    method CheckLink(r: Request, p: Provider, proof: Id) returns (result: Result<Call, Error>)
      ensures result.Ok? <==> CanStartLink(config, store.State(), r, p, proof)
      ensures result.Ok? ==> result.value == LinkCall(r, store.users[r.user].version, p, proof)
    {
      if !ProviderEnabled(config, p) {
        return Err(Invalid);
      }
      var user := ReadSelf(r);
      if user.Err? {
        return Err(user.error);
      }
      var authorized := Authorization(r, proof, LinkAccount(p), None);
      if authorized.Err? {
        return Err(authorized.error);
      }
      return Ok(LinkCall(r, user.value.version, p, proof));
    }

    /** The child flow is inserted first; losing the claim rolls it back, so a loser leaves no row. */
    method CommitLink(call: Call) returns (result: Result<Id, Error>)
      requires store.Valid() && call.LinkCall?
      modifies store
      ensures store.Valid()
      ensures result.Ok? <==> CanClaim(old(store.State()), call.proof)
      ensures result.Ok? ==> result.value == old(store.next)
                             && store.State() == LinkStarted(old(store.State()), call.request, call.version, call.provider, call.proof)
      ensures result.Err? ==> result.error.Reauthentication? && store.State() == old(store.State())
    {
      var begun := store.State();
      var binding := Binding(call.request.user, call.request.session, call.version);
      var child := store.CreateFlow(Flow(LinkIdentity, Waiting, Some(call.provider), Some(binding), None, Some(LinkAccount(call.provider)), Some(call.proof), None, true, None, 0));
      var claimed := store.ClaimAuthorization(call.proof, child);
      store.End(begun, claimed.Ok?);
      if claimed.Err? {
        return Err(Reauthentication);
      }
      return Ok(child);
    }

    method CheckEmailChange(r: Request, e: Email, proof: Id) returns (result: Result<Call, Error>)
      ensures result.Ok? <==> CanRequestEmail(config, store.State(), r, e, proof)
      ensures result.Ok? ==> result.value == EmailCall(r, store.users[r.user].version, e, proof)
    {
      var user := ReadSelf(r);
      if user.Err? {
        return Err(user.error);
      }
      var authorized := Authorization(r, proof, ChangeEmail(e), None);
      if authorized.Err? {
        return Err(authorized.error);
      }
      return Ok(EmailCall(r, user.value.version, e, proof));
    }

    /** The challenge and its mail are written first; losing the claim takes both back. */
    method CommitEmailChange(call: Call) returns (result: Result<Id, Error>)
      requires store.Valid() && call.EmailCall?
      modifies store
      ensures store.Valid()
      ensures result.Ok? <==> CanClaim(old(store.State()), call.proof)
      ensures result.Ok? ==> result.value == old(store.next)
                             && store.State() == EmailRequested(old(store.State()), call.request, call.version, call.email, call.proof)
      ensures result.Err? ==> result.error.Reauthentication? && store.State() == old(store.State())
    {
      FreshFlows(store.State());
      hide Indexed;
      var begun := store.State();
      var child := CreateChallenge(call.request.user, call.version, VerifyChange, call.email, EMAIL_CHANGE_TTL, Some(call.request.session), Some(call.proof));
      var claimed := store.ClaimAuthorization(call.proof, child);
      store.End(begun, claimed.Ok?);
      if claimed.Err? {
        return Err(Reauthentication);
      }
      return Ok(child);
    }

    // ---- provider callbacks

    method FindLogin(f: Id, i: Identity) returns (result: Result<Call, Error>)
      requires store.Valid() && f in store.flows && (store.flows[f].purpose.Login? || store.flows[f].purpose.SignUp?)
      ensures result.Ok? ==> && result.value.FoundCall?
                             && CanFindLogin(store.State(), f, i, if result.value.found.Some? then Some(result.value.found.value.0) else None)
                             && result.value == FoundCall(f, i, if result.value.found.Some?
                                                                then Some((result.value.found.value.0, store.accounts[result.value.found.value.0])) else None)
      ensures result.Err? ==> result.error.RegistrationRequired? && store.flows[f].purpose.Login? && !IdentityTaken(store.accounts, i)
    {
      var account := store.FindProviderAccount(i);
      if account.None? && !store.flows[f].purpose.SignUp? {
        return Err(RegistrationRequired);
      }
      if account.Some? {
        return Ok(FoundCall(f, i, Some((account.value, store.accounts[account.value]))));
      }
      return Ok(FoundCall(f, i, None));
    }

    method FinishLogin(call: Call) returns (result: Result<Id, Error>)
      requires store.Valid() && call.FoundCall? && call.flowId in store.flows
      requires call.found.None? ==> store.flows[call.flowId].provider.Some? && store.flows[call.flowId].provider.value.External?
      modifies store
      ensures store.Valid()
      ensures call.found.Some? ==>
                (result.Ok? <==> CanFinishLogin(config, old(store.State()), call.flowId, call.found.value.0, call.found.value.1))
      ensures call.found.Some? && result.Ok? ==>
                store.State() == LoginFinished(config, old(store.State()), call.flowId, call.found.value.0, call.found.value.1)
      ensures call.found.None? ==> (result.Ok? <==> CanSignUp(old(store.State()), call.flowId, call.identity))
      ensures call.found.None? && result.Ok? ==> store.State() == SignedUp(config, old(store.State()), call.flowId, call.identity)
      ensures result.Ok? ==> result.value == old(store.next) + if call.found.Some? then 0 else 2
      ensures result.Err? ==> store.State() == old(store.State())
    {
      var begun := store.State();
      if call.found.Some? {
        result := LoginFlowBody(call.flowId, call.found.value.0, call.found.value.1);
      } else {
        result := SignUpBody(call.flowId, store.flows[call.flowId].provider.value, call.identity);
      }
      store.End(begun, result.Ok?);
    }

    method LoginFlowBody(f: Id, a: Id, row: Account) returns (result: Result<Id, Error>)
      requires store.Valid()
      modifies store
      ensures store.Valid()
      ensures result.Ok? <==> CanFinishLogin(config, old(store.State()), f, a, row)
      ensures result.Ok? ==> result.value == old(store.next) && store.State() == LoginFinished(config, old(store.State()), f, a, row)
    {
      hide Indexed, Started;
      var user := store.LockUser(row.user);
      if user.None? {
        return Err(NotFound);
      }
      var current := store.GetAccount(a, row.user);
      if current.None? {
        return Err(Credentials);
      }
      if current.value.version != row.version || !user.value.status.Active? || !AccountEnabled(config, current.value) {
        return Err(Credentials);
      }
      var consumed := store.ConsumeFlow(f, Processing);
      if consumed.Err? {
        return Err(consumed.error);
      }
      result := NewSession(row.user, user.value, a, current.value);
    }

    method SignUpBody(f: Id, p: Provider, i: Identity) returns (result: Result<Id, Error>)
      requires store.Valid() && f in store.flows && store.flows[f].provider == Some(p) && p.External?
      modifies store
      ensures store.Valid()
      ensures result.Ok? <==> CanSignUp(old(store.State()), f, i)
      ensures result.Ok? ==> result.value == old(store.next) + 2 && store.State() == SignedUp(config, old(store.State()), f, i)
    {
      hide Indexed, Started, CanInsertAccount;
      var u := store.CreateFederatedUser();
      var row := Account(u, p, i, None, 1, false);
      var created := store.CreateAccount(row);
      if created.Err? {
        return Err(created.error);
      }
      store.AppendAudit(AuditRegister, u, u);
      var consumed := store.ConsumeFlow(f, Processing);
      if consumed.Err? {
        return Err(consumed.error);
      }
      var user := store.users[u];
      result := NewSession(u, user, created.value, row);
    }

    /** The re-check of a bound callback; it reads without a lock. */
    method CheckBound(f: Id, i: Identity) returns (result: Result<Call, Error>)
      requires f in store.flows && i.space.Remote?
      ensures result.Ok? <==> CanCheckBound(config, store.State(), f, i)
      ensures result.Ok? ==> result.value == BoundCall(f, i)
    {
      var flow := store.flows[f];
      if flow.binding.None? {
        return Err(Credentials);
      }
      var bound := Request(flow.binding.value.user, flow.binding.value.session);
      var user := ReadSelf(bound);
      if user.Err? {
        return Err(FlowInvalid);
      }
      if user.value.version != flow.binding.value.version {
        return Err(Credentials);
      }
      match flow.purpose {
        case Reauthenticate =>
          if flow.proving.None? {
            return Err(Credentials);
          }
          var account := store.GetAccount(flow.proving.value.account, bound.user);
          if account.None? || account.value.version != flow.proving.value.version || account.value.identity != i || !AccountEnabled(config, account.value) {
            return Err(Credentials);
          }
        case LinkIdentity =>
          if flow.parent.None? || flow.provider.None? {
            return Err(Credentials);
          }
          var authorized := Authorization(bound, flow.parent.value, LinkAccount(flow.provider.value), Some(f));
          if authorized.Err? {
            return Err(authorized.error);
          }
        case _ =>
          return Err(Credentials);
      }
      return Ok(BoundCall(f, i));
    }

    method CommitBound(call: Call) returns (result: Result<Unit, Error>)
      requires store.Valid() && call.BoundCall? && call.identity.space.Remote? && call.flowId in store.flows
      modifies store
      ensures store.Valid()
      ensures result.Ok? <==> FlowProcessing(old(store.State()), call.flowId)
      ensures store.State() == if result.Ok? then BoundVerified(old(store.State()), call.flowId, call.identity) else old(store.State())
    {
      var status := if store.flows[call.flowId].purpose.LinkIdentity? then Verified else Authorized;
      result := store.VerifyFlow(call.flowId, status, call.identity);
    }

    /**
     A callback from start to end, with what the provider answered: it claims the flow, completes it,
     and a deferred statement fails the flow on every other way out. That statement has a second and
     its error is ignored: `cleans` says whether it reached the database. If it did, whoever claims
     the flow never leaves it in processing; if not, the flow stays in processing and nothing else changed.
     */
    method Callback(f: Id, verified: Result<Identity, Error>, cleans: bool) returns (result: Result<Unit, Error>)
      requires store.Valid() && (verified.Ok? ==> verified.value.space.Remote?)
      requires f in store.flows && (store.flows[f].purpose.Login? || store.flows[f].purpose.SignUp?)
               ==> store.flows[f].provider.Some? && store.flows[f].provider.value.External?
      modifies store
      ensures store.Valid() && !(result.Err? && result.error.Credentials?)
      ensures !CanClaimCallback(old(store.State()), f) ==> result == Err(FlowInvalid) && store.State() == old(store.State())
      ensures CanClaimCallback(old(store.State()), f) && result.Err? ==>
                store.State() == if cleans then old(store.State()).(flows := SetFlow(old(store.flows), f, Failed))
                                 else CallbackClaimed(old(store.State()), f)
      ensures result.Ok? ==> verified.Ok? && f in store.flows && store.flows[f].protocol == false
                             && store.flows[f].status == match old(store.flows)[f].purpose
                                                         case Reauthenticate => Authorized
                                                         case LinkIdentity => Verified
                                                         case _ => Consumed
    {
      hide Indexed;
      var claimed := store.ClaimPendingFlow(f);
      if claimed.Err? {
        return Err(FlowInvalid);
      }
      result := Completion(f, verified);
      if result.Err? && cleans {
        store.FailFlow(f);
      }
      result := ProofError(result, FlowInvalid);
    }

    /** The part between the claim and the deferred failure. */
    method Completion(f: Id, verified: Result<Identity, Error>) returns (result: Result<Unit, Error>)
      requires store.Valid() && FlowProcessing(store.State(), f) && (verified.Ok? ==> verified.value.space.Remote?)
      requires store.flows[f].purpose.Login? || store.flows[f].purpose.SignUp? ==> store.flows[f].provider.Some? && store.flows[f].provider.value.External?
      modifies store
      ensures store.Valid()
      ensures result.Err? ==> store.State() == old(store.State())
      ensures result.Ok? ==> verified.Ok? && f in store.flows && !store.flows[f].protocol
                             && store.flows[f].status == match old(store.flows)[f].purpose
                                                         case Reauthenticate => Authorized
                                                         case LinkIdentity => Verified
                                                         case _ => Consumed
    {
      hide Indexed, CanInsertAccount, Authorizes;
      if verified.Err? {
        return Err(verified.error);
      }
      if store.flows[f].purpose.Login? || store.flows[f].purpose.SignUp? {
        var found := FindLogin(f, verified.value);
        if found.Err? {
          return Err(found.error);
        }
        var session := FinishLogin(found.value);
        if session.Err? {
          return Err(session.error);
        }
        return Ok(Unit);
      }
      var checked := CheckBound(f, verified.value);
      if checked.Err? {
        return Err(checked.error);
      }
      result := CommitBound(checked.value);
    }

    // ---- linking and unlinking

    /** A repeated confirmation succeeds without writing; a first one links and finishes proof and flow. */
    method ConfirmLink(r: Request, f: Id) returns (result: Result<Unit, Error>, ghost found: Option<Id>)
      requires store.Valid()
      modifies store
      ensures store.Valid()
      ensures result.Ok? <==> LinkAlreadyConfirmed(old(store.State()), r, f)
                              || exists a: Option<Id> :: CanConfirmLink(config, old(store.State()), r, f, a)
      ensures LinkAlreadyConfirmed(old(store.State()), r, f) ==> store.State() == old(store.State())
      ensures result.Ok? && !LinkAlreadyConfirmed(old(store.State()), r, f) ==>
                CanConfirmLink(config, old(store.State()), r, f, found) && store.State() == LinkConfirmed(old(store.State()), r, f, found)
      ensures result.Err? ==> store.State() == old(store.State()) && !result.error.Credentials?
      ensures !Self(old(store.State()), r) ==> result == Err(Unauthenticated)
    {
      var begun := store.State();
      result, found := ConfirmLinkBody(r, f);
      store.End(begun, result.Ok?);
      result := ProofError(result, FlowInvalid);
    }

    method ConfirmLinkBody(r: Request, f: Id) returns (result: Result<Unit, Error>, ghost found: Option<Id>)
      requires store.Valid()
      modifies store
      ensures store.Valid()
      ensures result.Ok? <==> LinkAlreadyConfirmed(old(store.State()), r, f)
                              || exists a: Option<Id> :: CanConfirmLink(config, old(store.State()), r, f, a)
      ensures LinkAlreadyConfirmed(old(store.State()), r, f) ==> store.State() == old(store.State())
      ensures result.Ok? && !LinkAlreadyConfirmed(old(store.State()), r, f) ==>
                CanConfirmLink(config, old(store.State()), r, f, found) && store.State() == LinkConfirmed(old(store.State()), r, f, found)
      ensures !Self(old(store.State()), r) ==> result == Err(Unauthenticated)
    {
      hide Indexed, CanInsertAccount, Authorizes, SessionValid, LiveAccounts;
      ghost var begun := store.State();
      found := None;
      var user := LockSelf(r);
      if user.Err? {
        return Err(user.error), found;
      }
      var visible := store.GetFlow(f);
      if visible.None? {
        return Err(Credentials), found;
      }
      var flow := visible.value;
      if !flow.purpose.LinkIdentity? || flow.parent.None? || flow.binding != Some(Binding(r.user, r.session, user.value.version)) {
        return Err(Credentials), found;
      }
      assert LinkBoundTo(store.State(), r, f);
      if flow.status.Consumed? {
        if flow.identity.None? {
          return Err(Credentials), found;
        }
        var holder := store.FindProviderAccount(flow.identity.value);
        if holder.None? || store.accounts[holder.value].user != r.user {
          return Err(Credentials), found;
        }
        return Ok(Unit), found;
      }
      if !flow.status.Verified? || flow.provider.None? || flow.identity.None? {
        return Err(Credentials), found;
      }
      var proof := Authorization(r, flow.parent.value, LinkAccount(flow.provider.value), Some(f));
      if proof.Err? {
        return Err(proof.error), found;
      }
      var account := LinkTarget(r, flow.provider.value, flow.identity.value);
      if account.Err? {
        return Err(account.error), found;
      }
      AuthorizedProof(config, begun, r, flow.parent.value, LinkAccount(flow.provider.value), Some(f));
      found := if IdentityTaken(old(store.accounts), flow.identity.value) then Some(account.value) else None;
      FinishLink(flow.parent.value, proof.value, f, flow);
      NotifyUser(user.value);
      store.AppendAudit(AuditLink, r.user, account.value);
      assert CanConfirmLink(config, begun, r, f, found);
      return Ok(Unit), found;
    }

    /** The user's own account for the identity, found or created. */
    method LinkTarget(r: Request, p: Provider, i: Identity) returns (result: Result<Id, Error>)
      requires r.user in store.locked
      requires store.Valid()
      modifies store
      ensures store.Valid()
      ensures result.Ok? <==> if IdentityTaken(old(store.accounts), i) then UserHolds(old(store.accounts), r.user, i)
                              else |LiveAccounts(old(store.accounts), r.user)| < MAX_LOGIN_ACCOUNTS
                                   && CanInsertAccount(old(store.accounts), ExternalRow(r.user, p, i))
      ensures result.Ok? && IdentityTaken(old(store.accounts), i) ==>
                HoldsIdentity(old(store.accounts), result.value, i) && old(store.accounts)[result.value].user == r.user && store.State() == old(store.State())
      ensures result.Ok? && !IdentityTaken(old(store.accounts), i) ==>
                result.value == old(store.next)
                && store.State() == old(store.State()).(next := old(store.next) + 1, accounts := old(store.accounts)[old(store.next) := ExternalRow(r.user, p, i)])
      ensures forall a: Id | HoldsIdentity(old(store.accounts), a, i) && result.Ok? :: a == result.value
    {
      var holder := store.FindProviderAccount(i);
      if holder.Some? {
        if store.accounts[holder.value].user != r.user {
          return Err(Conflict);
        }
        return Ok(holder.value);
      }
      var rows := store.ListAccounts(r.user);
      if |rows| >= MAX_LOGIN_ACCOUNTS {
        return Err(Conflict);
      }
      result := store.CreateAccount(Account(r.user, p, i, None, 1, false));
    }

    method FinishLink(proofId: Id, proof: Flow, f: Id, flow: Flow)
      requires store.Valid() && proofId != f
      requires FlowVisible(store.State(), proofId) && store.flows[proofId] == proof && proof.status.Claimed?
      requires FlowVisible(store.State(), f) && store.flows[f] == flow && flow.status.Verified?
      modifies store
      ensures store.Valid()
      ensures store.State() == old(store.State()).(flows := SetFlow(SetFlow(old(store.flows), proofId, Consumed), f, Consumed))
    {
      hide Indexed;
      var first := FinishAuthorization(proofId, proof);
      var second := FinishAuthorization(f, flow);
    }

    /** Some other account that can still log in must remain; the proving account cannot be the one removed. */
    method Unlink(r: Request, a: Id, proof: Id) returns (result: Result<Unit, Error>)
      requires store.Valid()
      modifies store
      ensures store.Valid()
      ensures result.Ok? <==> CanUnlink(config, old(store.State()), r, a, proof)
      ensures store.State() == if result.Ok? then Unlinked(old(store.State()), r, a, proof) else old(store.State())
      ensures !Self(old(store.State()), r) ==> result == Err(Unauthenticated)
    {
      var begun := store.State();
      result := UnlinkBody(r, a, proof);
      store.End(begun, result.Ok?);
    }

    /** Counts the other accounts of the user that can still log in. */
    method CountUsable(u: Id, a: Id) returns (usable: nat)
      requires store.Valid()
      ensures usable > 0 <==> exists b | b in store.accounts :: b != a && LiveAccount(store.accounts, b, u) && AccountEnabled(config, store.accounts[b])
    {
      var rows := store.ListAccounts(u);
      usable := 0;
      assert forall k | 0 <= k < |rows| :: rows[k] in rows;
      for i := 0 to |rows|
        invariant forall k | 0 <= k < |rows| :: LiveAccount(store.accounts, rows[k], u)
        invariant usable > 0 <==> exists k | 0 <= k < i :: rows[k] != a && AccountEnabled(config, store.accounts[rows[k]])
      {
        if rows[i] != a && AccountEnabled(config, store.accounts[rows[i]]) {
          usable := usable + 1;
        }
      }
      if b :| b in store.accounts && b != a && LiveAccount(store.accounts, b, u) && AccountEnabled(config, store.accounts[b]) {
        assert b in rows;
      }
    }

    method UnlinkBody(r: Request, a: Id, proof: Id) returns (result: Result<Unit, Error>)
      requires store.Valid()
      modifies store
      ensures store.Valid()
      ensures result.Ok? <==> CanUnlink(config, old(store.State()), r, a, proof)
      ensures result.Ok? ==> store.State() == Unlinked(old(store.State()), r, a, proof)
      ensures !Self(old(store.State()), r) ==> result == Err(Unauthenticated)
    {
      hide Indexed, SessionValid, AccountEnabled, RevokeSessions, BumpVersion;
      var user := LockSelf(r);
      if user.Err? {
        return Err(user.error);
      }
      var account := store.GetAccount(a, r.user);
      if account.None? {
        return Err(NotFound);
      }
      var authorized := Authorization(r, proof, UnlinkAccount(a), None);
      if authorized.Err? {
        return Err(authorized.error);
      }
      if authorized.value.proving.value.account == a {
        return Err(LastAccount);
      }
      var usable := CountUsable(r.user, a);
      if usable == 0 {
        return Err(LastAccount);
      }
      var count := store.RevokeAccount(a, r.user);
      var finished := FinishAuthorization(proof, authorized.value);
      EndEpoch(r.user);
      NotifyUser(user.value);
      store.AppendAudit(AuditUnlink, r.user, a);
      return Ok(Unit);
    }

    // ---- sessions and administration

    /** One session, or all of them together with the epoch. */
    method RevokeSession(r: Request, s: Option<Id>) returns (result: Result<Unit, Error>)
      requires store.Valid()
      modifies store
      ensures store.Valid()
      ensures result.Ok? <==> if s.Some? then CanRevokeSession(old(store.State()), r, s.value) else Self(old(store.State()), r)
      ensures result.Ok? ==> store.State() == if s.Some? then SessionRevoked(old(store.State()), r, s.value) else AllRevoked(old(store.State()), r.user)
      ensures result.Err? ==> store.State() == old(store.State()) && result.error == if Self(old(store.State()), r) then NotFound else Unauthenticated
    {
      var user := LockSelf(r);
      if user.Err? {
        return Err(user.error);
      }
      if s.None? {
        EndEpoch(r.user);
      } else {
        var count := store.RevokeSession(s.value, r.user);
        if count == 0 {
          return Err(NotFound);
        }
      }
      store.AppendAudit(AuditRevoke, r.user, if s.Some? then s.value else r.user);
      return Ok(Unit);
    }

    /** The status is read without a lock; the write below is a statement of its own. */
    method CheckStatus(u: Id, status: UserStatus) returns (result: Result<Call, Error>)
      ensures result.Ok? <==> u in store.users && !store.users[u].status.Pending? && Settable(status)
      ensures result.Ok? ==> result.value == StatusCall(u, status)
    {
      if status.Pending? {
        return Err(Invalid);
      }
      var user := store.GetUser(u);
      if user.None? {
        return Err(NotFound);
      }
      if user.value.status.Pending? {
        return Err(Invalid);
      }
      return Ok(StatusCall(u, status));
    }

    method CommitStatus(call: Call) returns (result: Result<Unit, Error>)
      requires store.Valid() && call.StatusCall?
      modifies store
      ensures store.Valid()
      ensures result.Ok? <==> Settable(call.status) && call.user in old(store.users)
      ensures store.State() == if result.Ok? then StatusSet(old(store.State()), call.user, call.status) else old(store.State())
    {
      var written := store.SetUserStatus(call.user, call.status);
      if written.Err? {
        return Err(written.error);
      }
      store.RevokeUserSessions(call.user);
      store.AppendAudit(AuditStatus, call.user, call.user);
      return Ok(Unit);
    }

    method RevokeUserSessions(u: Id) returns (result: Result<Unit, Error>)
      requires store.Valid()
      modifies store
      ensures store.Valid()
      ensures result.Ok? <==> u in old(store.users)
      ensures store.State() == if result.Ok? then AllRevoked(old(store.State()), u) else old(store.State())
    {
      var user := store.GetUser(u);
      if user.None? {
        return Err(NotFound);
      }
      EndEpoch(u);
      store.AppendAudit(AuditRevoke, u, u);
      return Ok(Unit);
    }

    /** Every authenticated request: refuse a session that is not valid, renew one that is due. */
    method AuthenticateSession(s: Id) returns (result: Result<Id, Error>)
      requires store.Valid()
      modifies store
      ensures store.Valid()
      ensures result.Ok? <==> s in old(store.sessions) && SessionValid(old(store.State()), s, old(store.sessions)[s].user)
      ensures result.Ok? ==> result.value == old(store.sessions)[s].user
      ensures result.Ok? ==> store.State() == old(store.State()).(
                sessions := old(store.sessions)[s := old(store.sessions)[s].(timing := Authenticated(config.limits, old(store.sessions)[s].timing, old(store.now)))])
      ensures result.Err? ==> result.error.Unauthenticated? && store.State() == old(store.State())
    {
      if s !in store.sessions {
        return Err(Unauthenticated);
      }
      var session := store.sessions[s];
      var valid := store.GetValidSession(s, session.user);
      if !valid {
        return Err(Unauthenticated);
      }
      if session.timing.lastSeen + RenewalInterval(config.limits) <= store.now {
        store.TouchSession(config, s, session.user);
      }
      assert store.sessions == old(store.sessions)[s := store.sessions[s]];
      return Ok(session.user);
    }
  }
}
