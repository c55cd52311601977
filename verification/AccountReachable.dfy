/** What the service methods ask of the tables and of a call in flight holds in every reachable state. */
module AccountReachable {
  import opened AccountTables
  import opened AccountProtocol
  import opened AccountEvolution
  import opened AccountInvariant
  import opened AccountInduction
  import opened AccountStore

  /** No run ever needs the database to refuse a duplicate: the unique indexes hold throughout. */
  lemma ReachableIsIndexed(c: Config, t: seq<Sys>, i: nat)
    requires Run(c, t) && i < |t|
    ensures Indexed(t[i].db)
  {
    RunInv(c, t, i);
    hide Run;
    InvIndexed(c, t[i]);
  }

  lemma InvIndexed(c: Config, s: Sys)
    requires Inv(c, s)
    ensures Indexed(s.db)
  {
    hide Inventory, SessionsOk, FlowsOk, ChallengesOk, Claims, Links, Evidence, History, PresentedOk, CallsOk;
    forall a, b, u | LiveCredential(s.db.accounts, a, u) && LiveCredential(s.db.accounts, b, u)
      ensures a == b
    {
      assert AccountOk(s.db.users, s.db.accounts[a]) && AccountOk(s.db.users, s.db.accounts[b]);
    }
  }

  /** A password login never finds another kind of account at its commit: the upgrade cannot be refused. */
  lemma ReachableLoginIsCredential(c: Config, t: seq<Sys>, i: nat, k: Call)
    requires Run(c, t) && i < |t| && k in t[i].calls && k.LoginCall?
    requires CanLogin(t[i].db, k.user, k.row, k.account, k.accountRow)
    ensures t[i].db.accounts[k.account].provider.Credential?
  {
    RunInv(c, t, i);
    hide Run;
    InFlightOk(c, t[i], k);
  }

  /** The challenge behind a consumption in flight is the one that was read, at most consumed since. */
  lemma ReachableVerification(c: Config, t: seq<Sys>, i: nat, k: Call)
    requires Run(c, t) && i < |t| && k in t[i].calls && k.VerifyCall?
    ensures k.challenge in t[i].db.challenges && ChallengeEvolves(k.chRow, t[i].db.challenges[k.challenge])
  {
    RunInv(c, t, i);
    hide Run;
    InFlightOk(c, t[i], k);
  }

  /** A sign-up in flight names a flow of a third-party provider, and a bound callback a third-party identity. */
  lemma ReachableCallback(c: Config, t: seq<Sys>, i: nat, k: Call)
    requires Run(c, t) && i < |t| && k in t[i].calls
    ensures k.FoundCall? ==> k.flowId in t[i].db.flows && t[i].db.flows[k.flowId].provider.Some? && t[i].db.flows[k.flowId].provider.value.External?
    ensures k.BoundCall? ==> k.flowId in t[i].db.flows && k.identity.space.Remote?
  {
    RunInv(c, t, i);
    hide Run;
    InFlightOk(c, t[i], k);
    if k.FoundCall? {
      FlowIsOk(c, t[i], k.flowId);
    }
  }

  lemma InFlightOk(c: Config, s: Sys, k: Call)
    requires Inv(c, s) && k in s.calls
    ensures CallOk(s.db, k)
  {
    hide Tables, Evidence, History, PresentedOk;
  }

  lemma FlowIsOk(c: Config, s: Sys, f: Id)
    requires Inv(c, s) && f in s.db.flows
    ensures FlowRowOk(s.db.flows[f])
  {
    hide Inventory, SessionsOk, ChallengesOk, Claims, Links, Evidence, History, PresentedOk, CallsOk, UsersOk, AccountsOk;
    assert FlowOk(s.db.users, s.db.accounts, s.db.sessions, s.db.flows[f]);
  }
}
