/** What the account protocol guarantees over every run. */
module AccountTheorems {
  import opened Wrappers
  import opened SessionClock
  import opened AccountTables
  import opened AccountProtocol
  import opened AccountEvolution
  import opened AccountInvariant
  import opened AccountInduction

  /** Step i of run t is event e. */
  ghost predicate At(c: Config, t: seq<Sys>, i: nat, e: Event) {
    Run(c, t) && i + 1 < |t| && Step(c, t[i], e, t[i + 1])
  }

  // ---- credentials

  lemma LoginHasPassword(c: Config, s: Sys, k: Call, s': Sys)
    requires Inv(c, s) && Step(c, s, LoginCommit(k), s')
    ensures LiveCredential(s.db.accounts, k.account, k.user) && Represents(s.db.accounts[k.account].hash, k.password)
    ensures LiveCredential(s'.db.accounts, k.account, k.user) && Represents(s'.db.accounts[k.account].hash, k.password)
    ensures s.db.users[k.user].verified
  {
    hide Inventory, SessionsOk, FlowsOk, ChallengesOk, Claims, Links, Evidence, History, PresentedOk, UsersOk, FreshIds, AddSession;
    assert CallOk(s.db, k);
    LoginSnapshot(s.db, k);
    assert AccountOk(s.db.users, s.db.accounts[k.account]);
    LoggedInAccounts(c, s.db, k.user, k.account, k.accountRow, k.upgrade);
  }

  lemma LoggedInAccounts(c: Config, db: Db, u: Id, a: Id, row: Account, upgrade: Option<Hash>)
    requires u in db.users && a in db.accounts
    ensures LoggedIn(c, db, u, a, row, upgrade).accounts == HashUpgraded(db.accounts, a, row.hash, upgrade)
  {
  }

  /**
   A login that commits was given the password its account has at that very moment, although the
   password was checked earlier and outside the transaction; a concurrent upgrade keeps it true.
   */
  lemma LoginLinearizable(c: Config, t: seq<Sys>, i: nat, k: Call)
    requires At(c, t, i, LoginCommit(k))
    ensures LiveCredential(t[i].db.accounts, k.account, k.user) && Represents(t[i].db.accounts[k.account].hash, k.password)
    ensures LiveCredential(t[i + 1].db.accounts, k.account, k.user) && Represents(t[i + 1].db.accounts[k.account].hash, k.password)
    ensures t[i].db.users[k.user].verified
  {
    RunInv(c, t, i);
    LoginHasPassword(c, t[i], k, t[i + 1]);
  }

  lemma ChangeHadPassword(c: Config, s: Sys, k: Call, s': Sys)
    requires Inv(c, s) && Step(c, s, PasswordCommit(k), s')
    ensures k.current.Some? && Represents(s.db.accounts[k.target.value.0].hash, k.current.value)
    ensures s'.db.accounts[k.target.value.0].hash == Some(k.hash)
    ensures s'.db.accounts[k.target.value.0].version == s.db.accounts[k.target.value.0].version + 1
    ensures forall x | x in s.db.sessions && s.db.sessions[x].user == k.request.user :: !SessionValid(s'.db, x, k.request.user)
  {
    hide Inventory, SessionsOk, FlowsOk, ChallengesOk, Claims, Links, Evidence, History, PresentedOk, UsersOk, FreshIds, AccountsOk;
    assert CallOk(s.db, k);
  }

  /** The same for a password change; it ends every session the user had. */
  lemma PasswordChangeLinearizable(c: Config, t: seq<Sys>, i: nat, k: Call)
    requires At(c, t, i, PasswordCommit(k))
    ensures k.current.Some? && Represents(t[i].db.accounts[k.target.value.0].hash, k.current.value)
    ensures t[i + 1].db.accounts[k.target.value.0].hash == Some(k.hash)
    ensures t[i + 1].db.accounts[k.target.value.0].version == t[i].db.accounts[k.target.value.0].version + 1
    ensures forall x | x in t[i].db.sessions && t[i].db.sessions[x].user == k.request.user :: !SessionValid(t[i + 1].db, x, k.request.user)
  {
    RunInv(c, t, i);
    ChangeHadPassword(c, t[i], k, t[i + 1]);
  }

  /** An account's password is a function of its identifier and version, whatever hashes are stored for it. */
  lemma PasswordOfVersion(c: Config, t: seq<Sys>, i: nat, j: nat, a: Id)
    requires Run(c, t) && i <= j < |t|
    requires a in t[i].db.accounts && a in t[j].db.accounts && t[i].db.accounts[a].version == t[j].db.accounts[a].version
    ensures t[i].db.accounts[a].hash.Some? <==> t[j].db.accounts[a].hash.Some?
    ensures t[i].db.accounts[a].hash.Some? ==> t[i].db.accounts[a].hash.value.password == t[j].db.accounts[a].hash.value.password
  {
    hide Run;
    RunEvolves(c, t, i, j);
    assert AccountEvolves(t[i].db.accounts[a], t[j].db.accounts[a]);
  }

  // ---- reauthentication proofs

  /** The sensitive write an event commits, with the proof that pays for it. */
  function Spent(db: Db, e: Event): Option<Sensitive> {
    match e
    case EmailCommit(k) =>
      if k.VerifyCall? && k.chRow.parent.Some?
      then Some(Sensitive(k.chRow.parent.value, ChangeEmail(k.chRow.email), k.chRow.user, Some(k.challenge))) else None
    case FirstPasswordCommit(k) =>
      if k.PasswordCall? && k.proofId.Some? then Some(Sensitive(k.proofId.value, SetPassword, k.request.user, None)) else None
    case ConfirmLink(r, f, found) =>
      if f in db.flows && db.flows[f].parent.Some? && db.flows[f].provider.Some?
      then Some(Sensitive(db.flows[f].parent.value, LinkAccount(db.flows[f].provider.value), r.user, Some(f))) else None
    case Unlink(r, a, proof) => Some(Sensitive(proof, UnlinkAccount(a), r.user, None))
    case _ => None
  }

  /** The proof matches the write in every respect, in the state where the write commits. */
  predicate Covers(c: Config, db: Db, w: Sensitive) {
    && w.proof in db.flows && db.flows[w.proof].binding.Some?
    && Authorizes(c, db, Request(w.user, db.flows[w.proof].binding.value.session), w.proof, w.grant, w.child)
  }

  lemma SensitiveCovered(c: Config, s: Sys, e: Event, s': Sys)
    requires Step(c, s, e, s') && Spent(s.db, e).Some?
    ensures Covers(c, s.db, Spent(s.db, e).value)
    ensures s'.history == s.history + [Spent(s.db, e).value]
  {
    hide SessionValid, LiveAccounts, CanInsertAccount, HasCredential, IdentityTaken, EmailMoved, FirstPasswordSet, LinkConfirmed, Unlinked, AccountEnabled;
  }

  /** Only the four sensitive events are recorded. */
  lemma OnlySensitiveRecorded(c: Config, s: Sys, e: Event, s': Sys)
    requires Step(c, s, e, s') && Spent(s.db, e).None?
    ensures s'.history == s.history
  {
    hide Authorizes, FlowVisible, SessionValid, LiveAccounts, CanInsertAccount, HasCredential, IdentityTaken;
  }

  /**
   When a sensitive write commits, its proof still names the writing user, the original session, the
   operation and target and, if it has one, the child; user, session and proving account are valid at
   the proof's versions. And what was shown to obtain it is still what the account is: its present
   password, or the third-party identity it stands for.
   */
  lemma SensitiveWriteAuthorized(c: Config, t: seq<Sys>, i: nat, e: Event)
    requires At(c, t, i, e) && Spent(t[i].db, e).Some?
    ensures Covers(c, t[i].db, Spent(t[i].db, e).value)
    ensures var s, p := t[i], Spent(t[i].db, e).value.proof;
            var account := s.db.accounts[s.db.flows[p].proving.value.account];
            if p in s.presented then Represents(account.hash, s.presented[p]) else s.db.flows[p].identity == Some(account.identity)
  {
    SensitiveCovered(c, t[i], e, t[i + 1]);
    RunInv(c, t, i);
    CoveredEvident(c, t[i], Spent(t[i].db, e).value);
  }

  lemma CoveredEvident(c: Config, s: Sys, w: Sensitive)
    requires Inv(c, s) && Covers(c, s.db, w)
    ensures var account := s.db.accounts[s.db.flows[w.proof].proving.value.account];
            if w.proof in s.presented then Represents(account.hash, s.presented[w.proof]) else s.db.flows[w.proof].identity == Some(account.identity)
  {
    hide Inventory, SessionsOk, FlowsOk, ChallengesOk, Claims, Links, History, PresentedOk, UsersOk, FreshIds, AccountsOk, CallsOk;
    assert Evident(s.db.accounts, s.db.flows, s.presented, w.proof);
  }

  /** After a sensitive write its proof is consumed. */
  lemma SpentIsConsumed(c: Config, t: seq<Sys>, i: nat, e: Event)
    requires At(c, t, i, e) && Spent(t[i].db, e).Some?
    ensures var p := Spent(t[i].db, e).value.proof; p in t[i + 1].db.flows && t[i + 1].db.flows[p].status.Consumed?
  {
    SensitiveCovered(c, t[i], e, t[i + 1]);
    RunInv(c, t, i + 1);
    LastIsPaid(c, t[i + 1]);
  }

  lemma LastIsPaid(c: Config, s: Sys)
    requires Inv(c, s) && s.history != []
    ensures Paid(s.db.flows, s.history[|s.history| - 1])
  {
    hide Tables, Evidence, PresentedOk, CallsOk;
  }

  lemma CoveredNotConsumed(c: Config, db: Db, w: Sensitive)
    requires Covers(c, db, w)
    ensures !db.flows[w.proof].status.Consumed?
  {
  }

  /** A reauthentication proof backs at most one committed sensitive write over a whole run. */
  lemma ProofBacksOneWrite(c: Config, t: seq<Sys>, i: nat, j: nat, e: Event, e': Event)
    requires At(c, t, i, e) && At(c, t, j, e') && i < j
    requires Spent(t[i].db, e).Some? && Spent(t[j].db, e').Some?
    ensures Spent(t[i].db, e).value.proof != Spent(t[j].db, e').value.proof
  {
    hide Next, Step, Covers;
    SpentIsConsumed(c, t, i, e);
    RunEvolves(c, t, i + 1, j);
    SensitiveCovered(c, t[j], e', t[j + 1]);
    var p := Spent(t[i].db, e).value.proof;
    CoveredNotConsumed(c, t[j].db, Spent(t[j].db, e').value);
    assert FlowEvolves(t[i + 1].db.flows[p], t[j].db.flows[p]);
  }

  /** The recorded writes of a run carry pairwise distinct proofs, and every consumed proof is among them. */
  lemma HistoryIsExact(c: Config, t: seq<Sys>, i: nat)
    requires Run(c, t) && i < |t|
    ensures forall m, n | 0 <= m < n < |t[i].history| :: t[i].history[m].proof != t[i].history[n].proof
    ensures forall p | p in t[i].db.flows && t[i].db.flows[p].purpose.Reauthenticate? ::
              (t[i].db.flows[p].status.Consumed? <==> exists m | 0 <= m < |t[i].history| :: t[i].history[m].proof == p)
  {
    RunInv(c, t, i);
    hide Run;
    HistoryExact(c, t[i]);
  }

  lemma HistoryExact(c: Config, s: Sys)
    requires Inv(c, s)
    ensures forall m, n | 0 <= m < n < |s.history| :: s.history[m].proof != s.history[n].proof
    ensures forall p | p in s.db.flows && s.db.flows[p].purpose.Reauthenticate? ::
              (s.db.flows[p].status.Consumed? <==> exists m | 0 <= m < |s.history| :: s.history[m].proof == p)
  {
    hide Tables, Evidence, PresentedOk, CallsOk;
    assert forall m | 0 <= m < |s.history| :: Paid(s.db.flows, s.history[m]);
  }

  // ---- claims

  /** f is a link flow or an email-change challenge, started from proof p. */
  predicate ChildOf(db: Db, p: Id, child: Id) {
    || (child in db.flows && db.flows[child].purpose.LinkIdentity? && db.flows[child].parent == Some(p))
    || (child in db.challenges && db.challenges[child].purpose.VerifyChange? && db.challenges[child].parent == Some(p))
  }

  /**
   In every reachable state a child's parent is a proof claimed for exactly that child, and a claimed
   proof has exactly that child: no proof ever has two.
   */
  lemma ClaimedByIsTheChild(c: Config, t: seq<Sys>, i: nat, p: Id, child: Id)
    requires Run(c, t) && i < |t|
    ensures ChildOf(t[i].db, p, child) <==> p in t[i].db.flows && t[i].db.flows[p].claimedBy == Some(child)
  {
    RunInv(c, t, i);
    hide Run;
    ClaimExact(c, t[i], p, child);
  }

  lemma ClaimExact(c: Config, s: Sys, p: Id, child: Id)
    requires Inv(c, s)
    ensures ChildOf(s.db, p, child) <==> p in s.db.flows && s.db.flows[p].claimedBy == Some(child)
  {
    hide Inventory, SessionsOk, Links, History, PresentedOk, UsersOk, FreshIds, AccountsOk, CallsOk, Evidence;
    if ChildOf(s.db, p, child) {
      if child in s.db.flows && s.db.flows[child].purpose.LinkIdentity? {
        assert FlowOk(s.db.users, s.db.accounts, s.db.sessions, s.db.flows[child]) && LinkHasParent(s.db.flows, child);
      }
      if child in s.db.challenges && s.db.challenges[child].purpose.VerifyChange? {
        assert ChallengeOk(s.db.users, s.db.challenges[child]) && ChangeHasParent(s.db.flows, s.db.challenges, child);
      }
    } else if p in s.db.flows {
      assert ClaimHasChild(s.db.flows, s.db.challenges, p);
    }
  }

  /** A claimed proof and its child are consumed together or not at all. */
  lemma ParentAndChildFinishTogether(c: Config, t: seq<Sys>, i: nat, p: Id, child: Id)
    requires Run(c, t) && i < |t| && ChildOf(t[i].db, p, child)
    ensures p in t[i].db.flows
    ensures child in t[i].db.flows && t[i].db.flows[child].purpose.LinkIdentity?
            ==> (t[i].db.flows[p].status.Consumed? <==> t[i].db.flows[child].status.Consumed?)
    ensures child in t[i].db.challenges && t[i].db.challenges[child].purpose.VerifyChange?
            ==> (t[i].db.flows[p].status.Consumed? <==> t[i].db.challenges[child].consumed)
  {
    RunInv(c, t, i);
    hide Run;
    FinishTogether(c, t[i], p, child);
  }

  lemma FinishTogether(c: Config, s: Sys, p: Id, child: Id)
    requires Inv(c, s) && ChildOf(s.db, p, child)
    ensures p in s.db.flows
    ensures child in s.db.flows && s.db.flows[child].purpose.LinkIdentity? ==> (s.db.flows[p].status.Consumed? <==> s.db.flows[child].status.Consumed?)
    ensures child in s.db.challenges && s.db.challenges[child].purpose.VerifyChange? ==> (s.db.flows[p].status.Consumed? <==> s.db.challenges[child].consumed)
  {
    hide Inventory, SessionsOk, Links, History, PresentedOk, UsersOk, AccountsOk, CallsOk, Evidence;
    if child in s.db.flows && s.db.flows[child].purpose.LinkIdentity? {
      assert FlowOk(s.db.users, s.db.accounts, s.db.sessions, s.db.flows[child]) && LinkHasParent(s.db.flows, child);
    }
    if child in s.db.challenges && s.db.challenges[child].purpose.VerifyChange? {
      assert ChallengeOk(s.db.users, s.db.challenges[child]) && ChangeHasParent(s.db.flows, s.db.challenges, child);
    }
  }

  // ---- account inventory

  /**
   Pending users own nothing; every other user has between one and ten unrevoked accounts, at most
   one of them with a password, and a password only together with a verified address.
   */
  lemma AccountInventory(c: Config, t: seq<Sys>, i: nat, u: Id)
    requires Run(c, t) && i < |t| && u in t[i].db.users
    ensures t[i].db.users[u].status.Pending? ==>
              && (forall a | a in t[i].db.accounts :: t[i].db.accounts[a].user != u)
              && (forall x | x in t[i].db.sessions :: t[i].db.sessions[x].user != u)
    ensures !t[i].db.users[u].status.Pending? ==> 1 <= |LiveAccounts(t[i].db.accounts, u)| <= 10
    ensures forall a, b | LiveCredential(t[i].db.accounts, a, u) && LiveCredential(t[i].db.accounts, b, u) :: a == b
    ensures HasCredential(t[i].db.accounts, u) ==> t[i].db.users[u].verified && t[i].db.users[u].email.Some?
  {
    RunInv(c, t, i);
    hide Run;
    InventoryOf(c, t[i], u);
  }

  lemma InventoryOf(c: Config, s: Sys, u: Id)
    requires Inv(c, s) && u in s.db.users
    ensures s.db.users[u].status.Pending? ==>
              && (forall a | a in s.db.accounts :: s.db.accounts[a].user != u)
              && (forall x | x in s.db.sessions :: s.db.sessions[x].user != u)
    ensures !s.db.users[u].status.Pending? ==> 1 <= |LiveAccounts(s.db.accounts, u)| <= 10
    ensures forall a, b | LiveCredential(s.db.accounts, a, u) && LiveCredential(s.db.accounts, b, u) :: a == b
    ensures HasCredential(s.db.accounts, u) ==> s.db.users[u].verified && s.db.users[u].email.Some?
  {
    hide FlowsOk, ChallengesOk, Claims, Links, History, PresentedOk, FreshIds, CallsOk, Evidence, Regular;
    assert UserOk(s.db.users[u]);
    forall a | a in s.db.accounts
      ensures AccountOk(s.db.users, s.db.accounts[a])
    {
    }
    forall x | x in s.db.sessions
      ensures SessionOk(c, s.db.users, s.db.sessions[x])
    {
    }
  }

  /**
   After an unlink the user can still log in the way it has just proved: the proving account is its
   own, unrevoked and enabled, and what was shown for the proof, a password or a provider identity,
   is what that account is. Exactly the unlinked account has gone.
   */
  lemma UnlinkLeavesAWayIn(c: Config, t: seq<Sys>, i: nat, r: Request, a: Id, p: Id)
    requires At(c, t, i, Unlink(r, a, p))
    ensures var s, s' := t[i], t[i + 1];
            var b := s.db.flows[p].proving.value.account;
            && LiveAccount(s'.db.accounts, b, r.user) && AccountEnabled(c, s'.db.accounts[b])
            && (if p in s.presented then Represents(s'.db.accounts[b].hash, s.presented[p]) else s.db.flows[p].identity == Some(s'.db.accounts[b].identity))
            && LiveAccounts(s'.db.accounts, r.user) == LiveAccounts(s.db.accounts, r.user) - {a}
            && a in LiveAccounts(s.db.accounts, r.user)
  {
    SensitiveWriteAuthorized(c, t, i, Unlink(r, a, p));
    UnlinkKeepsProver(c, t[i], r, a, p, t[i + 1]);
    UnlinkRemovesOne(c, t[i], r, a, p, t[i + 1]);
  }

  lemma UnlinkRemovesOne(c: Config, s: Sys, r: Request, a: Id, p: Id, s': Sys)
    requires Step(c, s, Unlink(r, a, p), s')
    ensures a in LiveAccounts(s.db.accounts, r.user)
    ensures LiveAccounts(s'.db.accounts, r.user) == LiveAccounts(s.db.accounts, r.user) - {a}
  {
    hide SessionValid, FlowVisible, AccountEnabled, RevokeSessions, BumpVersion, SetFlow, Notify, Log;
  }

  /** Unlinking leaves the account that proved control unrevoked, enabled and with its owner. */
  lemma UnlinkKeepsProver(c: Config, s: Sys, r: Request, a: Id, p: Id, s': Sys)
    requires Step(c, s, Unlink(r, a, p), s')
    ensures s'.db.accounts[a].revoked
    ensures var b := s.db.flows[p].proving.value.account;
            b != a && LiveAccount(s'.db.accounts, b, r.user) && AccountEnabled(c, s'.db.accounts[b])
    ensures forall b | b in s.db.accounts && b != a :: b in s'.db.accounts && s'.db.accounts[b] == s.db.accounts[b]
  {
    hide SessionValid, FlowVisible;
  }
}
